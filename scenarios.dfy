/** Runs of the dispatcher's handlers on fresh state, showing what the
    handlers' contracts imply when the two addresses of a connection are
    used for membership: `join` inserts under the local address and
    `quitCurrentRoom` deletes under the remote one. */
module Scenarios {
  import opened Chat
  import Strings

  /** The nick asked for by a single word without spaces is that word. */
  lemma NickOfOneWord(word: string)
    requires word != "" && !Strings.IsSpace(word[0]) && !Strings.IsSpace(word[|word| - 1])
    ensures NickArg(["/nick", word]) == word
  {
    assert ["/nick", word][1..] == [word];
    assert Strings.Join([word], " ") == word;
    assert Strings.TrimmedAt(word, 0, word);
    Strings.TrimSpaceUnique(word, word, 0);
  }

  /** A new client that has set its nick to a word with no spaces in it. */
  method NamedClient(s: Server, local: Addr, remote: Addr, word: string) returns (c: Client)
    requires word != "" && forall i | 0 <= i < |word| :: !Strings.IsSpace(word[i])
    ensures fresh(c) && c.local == local && c.remote == remote
    ensures c.nick == word && c.room == null
  {
    c := new Client(local, remote);
    NickOfOneWord(word);
    var out := s.Nick(c, ["/nick", word]);
  }

  /** Clients A and B, with four distinct addresses, join "lobby" after A
      has set its nick: both are members, each under its local address. */
  method LobbyJoined(localA: Addr, remoteA: Addr, localB: Addr, remoteB: Addr)
    returns (s: Server, a: Client, b: Client, lobby: Room)
    requires localA != localB
    ensures s.Valid() && s.rooms == map["lobby" := lobby] && lobby.name == "lobby"
    ensures fresh(s) && fresh(lobby)
    ensures lobby.members == map[localA := a, localB := b]
    ensures a.room == lobby && b.room == lobby && a.nick == "A" && a.remote == remoteA
  {
    s := new Server();
    a := NamedClient(s, localA, remoteA, "A");
    b := new Client(localB, remoteB);
    var out := s.Join(a, ["/join", "lobby"]);
    lobby := s.rooms["lobby"];
    assert lobby.members == map[localA := a];
    out := s.Join(b, ["/join", "lobby"]);
  }

  /** In that lobby A says "hi": the room hears "A-> hi" from A. */
  method LobbyChat(localA: Addr, remoteA: Addr, localB: Addr, remoteB: Addr)
    returns (s: Server, a: Client, b: Client, lobby: Room, said: seq<Event>)
    requires localA != localB
    ensures said == [Broadcast(lobby, a, "A-> hi")]
    ensures s.Valid() && s.rooms == map["lobby" := lobby] && lobby.name == "lobby"
    ensures fresh(s) && fresh(lobby)
    ensures lobby.members == map[localA := a, localB := b]
    ensures a.room == lobby && b.room == lobby && a.nick == "A" && a.remote == remoteA
  {
    s, a, b, lobby := LobbyJoined(localA, remoteA, localB, remoteB);
    assert ["/msg", "hi"][1..] == ["hi"] && Strings.Join(["hi"], " ") == "hi";
    assert "A" + "-> " + "hi" == "A-> hi";
    said := s.Msg(a, ["/msg", "hi"]);
  }

  /** Then A quits: the lobby is told that A left, yet A is still one of its
      members, since the quit deletes A's remote address and A was stored
      under its local one. */
  method LobbyQuit(localA: Addr, remoteA: Addr, localB: Addr, remoteB: Addr)
    returns (a: Client, b: Client, lobby: Room, left: seq<Event>)
    requires localA != localB && remoteA != localA && remoteA != localB
    ensures left == [Write(a, LeftChat(remoteA)), Broadcast(lobby, a, LeftRoom("A")), Write(a, Goodbye), Close(a)]
    ensures lobby.members == map[localA := a, localB := b]
    ensures a.room == lobby && b.room == lobby
  {
    var s, said;
    s, a, b, lobby, said := LobbyChat(localA, remoteA, localB, remoteB);
    left := s.Quit(a);
    assert lobby.members == map[localA := a, localB := b] - {remoteA};
  }

  /** A client whose local and remote addresses differ moves from room "a"
      to room "b" and is then a member of both. */
  method MoveLeavesEntry(local: Addr, remote: Addr) returns (c: Client, first: Room, second: Room)
    requires local != remote
    ensures c.room == second && first != second
    ensures first.members == map[local := c] && second.members == map[local := c]
  {
    var s := new Server();
    c := new Client(local, remote);
    var out := s.Join(c, ["/join", "a"]);
    first := s.rooms["a"];
    out := s.Join(c, ["/join", "b"]);
    second := s.rooms["b"];
  }

  /** A client whose local and remote addresses coincide joins "lobby"
      twice: its entry is inserted and then deleted by the second join, so
      it is no longer a member of the room it is in. */
  method RejoinDropsEntry(addr: Addr) returns (c: Client, lobby: Room)
    ensures c.room == lobby
    ensures addr !in lobby.members && lobby.members == map[]
  {
    var s := new Server();
    c := new Client(addr, addr);
    var out := s.Join(c, ["/join", "lobby"]);
    out := s.Join(c, ["/join", "lobby"]);
    lobby := s.rooms["lobby"];
  }
}
