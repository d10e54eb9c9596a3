/** The chat server's command dispatcher: the room registry, the per-client
    session fields, and the handlers that the single dispatch loop applies
    to one command at a time. Everything a handler writes to a connection,
    broadcasts to a room or closes is returned as a sequence of events, in
    the order the handler produces it. */
module Chat {
  import Strings

  /** A `net.Addr` as a map key: `identity` is what key comparison sees
      (two addresses with the same text need not be the same key), `text` is
      what its `String()` returns. */
  datatype Addr = Addr(identity: nat, text: string)

  /** A connected client. The connection's two addresses are fixed for its
      lifetime; nothing makes them equal to each other, or distinct from
      other clients' addresses. */
  class Client {
    const local: Addr
    const remote: Addr
    var nick: string
    var room: Room?

    /** The session fields a new connection starts with. */
    constructor (local: Addr, remote: Addr)
      ensures this.local == local && this.remote == remote
      ensures nick == "Anonymous" && room == null
    {
      this.local := local;
      this.remote := remote;
      nick := "Anonymous";
      room := null;
    }
  }

  /** A named room and its members, keyed by connection address. */
  class Room {
    const name: string
    var members: map<Addr, Client>

    /** A room as created on the first join to its name: no members yet. */
    constructor (name: string)
      ensures this.name == name && members == map[]
    {
      this.name := name;
      members := map[];
    }
  }

  /** What a handler does to the outside world. */
  datatype Event =
    | Write(to: Client, text: string)                  // a formatted write to the client's connection
    | Notify(to: Client, text: string)                 // the client's own `msg` helper
    | Broadcast(room: Room, sender: Client, text: string)  // the room's `broadcast`, skipping `sender`
    | Close(client: Client)                            // closing the client's connection

  /** The command ids the dispatcher knows, and any other id. */
  datatype CommandId = CmdNick | CmdJoin | CmdRooms | CmdMsg | CmdQuit | CmdOther(code: int)

  /** One command: its id, the client that sent it, and its argument tokens
      (the first token is the command word itself). */
  datatype Command = Command(id: CommandId, client: Client, args: seq<string>)

  const NickRequired := "error: you must provide a nick\n\n"
  const RoomRequired := "room name is required. Usage: /join <ROOM-NAME>\n\n"
  const JoinFirst := "you need join a room before send messages\n\n"
  const MessageRequired := "message is required, usage: /msg <MSG>\n\n"
  const Goodbye := "Sad to see u go\n"

  function NickAccepted(nick: string): string { "all right, i will call you " + nick + "\n\n" }
  function JoinedRoom(nick: string): string { nick + " joined the room\n\n" }
  function Welcome(roomName: string): string { "welcome to " + roomName + "\n\n" }
  function LeftRoom(nick: string): string { nick + " has left the room\n\n" }
  function LeftChat(remote: Addr): string { "client has left the chat: " + remote.text + "\n\n" }

  /** The `rooms` reply: a fixed header, the names separated by ", ", and a
      blank line; with no rooms, just the header and the blank line. */
  function RoomsListing(names: seq<string>): (text: string)
    ensures "avaible rooms: " <= text && text[|text| - 2..] == "\n\n"
    ensures |names| == 0 ==> text == "avaible rooms: \n\n"
    ensures |names| == 1 ==> text == "avaible rooms: " + names[0] + "\n\n"
  {
    "avaible rooms: " + Strings.Join(names, ", ") + "\n\n"
  }

  /** The nick a `nick` command asks for: its arguments joined by single
      spaces, surrounding spaces trimmed. */
  function NickArg(args: seq<string>): (nick: string)
    requires |args| >= 1
    ensures nick != "" ==> !Strings.IsSpace(nick[0]) && !Strings.IsSpace(nick[|nick| - 1])
    ensures |args| == 1 ==> nick == ""
    ensures |args| == 2 ==> nick == Strings.TrimSpace(args[1])
  {
    Strings.TrimSpace(Strings.Join(args[1..], " "))
  }

  /** The nick is rejected exactly when every argument is made of spaces
      (in particular when there are none). */
  lemma NickArgEmpty(args: seq<string>)
    requires |args| >= 1
    ensures NickArg(args) == "" <==> forall i | 1 <= i < |args| :: Strings.AllSpace(args[i])
  {
    var joined := Strings.Join(args[1..], " ");
    Strings.TrimSpaceEmpty(joined);
    Strings.AllSpaceJoin(args[1..], " ");
    assert forall i | 1 <= i < |args| :: args[i] == args[1..][i - 1];
  }

  /** `names` lists every element of `keys` exactly once, in some order. */
  predicate Enumerates(names: seq<string>, keys: set<string>) {
    (forall i, j | 0 <= i < j < |names| :: names[i] != names[j])
    && (forall i | 0 <= i < |names| :: names[i] in keys)
    && (forall name | name in keys :: name in names)
  }

  /** Every room name of an enumeration stands verbatim in the listing
      message built from it. */
  lemma ListingShowsEveryRoom(names: seq<string>, keys: set<string>, name: string)
    requires Enumerates(names, keys) && name in keys
    ensures exists k :: Strings.OccursAt(name, RoomsListing(names), k)
  {
    var i :| 0 <= i < |names| && names[i] == name;
    Strings.JoinContains(names, ", ", i);
    var joined := Strings.Join(names, ", ");
    var k :| Strings.OccursAt(name, joined, k);
    var prefix := "avaible rooms: ";
    var text := RoomsListing(names);
    assert text == prefix + joined + "\n\n";
    assert text[|prefix| + k..|prefix| + k + |name|] == joined[k..k + |name|];
    assert Strings.OccursAt(name, text, |prefix| + k);
  }

  /** The server: its registry of rooms by name. */
  class Server {
    var rooms: map<string, Room>

    /** A server with no rooms. */
    constructor ()
      ensures rooms == map[]
    {
      rooms := map[];
    }

    /** Every registered room is registered under its own name. */
    ghost predicate Valid()
      reads this
    {
      forall name | name in rooms :: rooms[name].name == name
    }

    /** The client's current room, if any, has a name the registry knows
        (`quitCurrentRoom` looks the room up by that name). */
    predicate Placed(c: Client)
      reads this, c
    {
      c.room != null ==> c.room.name in rooms
    }

    /** The registry of `before` is kept in `after`: no name removed and
        no name mapped to a different room. */
    static predicate Keeps(before: map<string, Room>, after: map<string, Room>) {
      forall name | name in before :: name in after && after[name] == before[name]
    }

    /** The broadcast `quitCurrentRoom` makes for `c`, if any. */
    function LeaveEvents(c: Client): seq<Event>
      requires Placed(c)
      reads this, c
    {
      if c.room == null then [] else [Broadcast(rooms[c.room.name], c, LeftRoom(c.nick))]
    }

    /** `nick`: set the client's nick from its arguments, or report that
        one is required. No broadcast; nothing but `c.nick` changes. */
    method Nick(c: Client, args: seq<string>) returns (out: seq<Event>)
      requires |args| >= 1
      modifies c`nick
      ensures NickArg(args) == "" ==> c.nick == old(c.nick) && out == [Write(c, NickRequired)]
      ensures NickArg(args) != "" ==> c.nick == NickArg(args) && out == [Write(c, NickAccepted(NickArg(args)))]
    {
      var nick := NickArg(args);
      if nick == "" {
        out := [Write(c, NickRequired)];
        return;
      }
      c.nick := nick;
      out := [Write(c, NickAccepted(c.nick))];
    }

    /** `quitCurrentRoom`: if the client is in a room, delete its REMOTE
        address from the members of the room registered under that room's
        name and tell the others it left. Neither the registry nor
        `c.room` changes. */
    method QuitCurrentRoom(c: Client) returns (out: seq<Event>)
      requires Placed(c)
      modifies rooms.Values
      ensures rooms == old(rooms) && c.room == old(c.room)
      ensures out == LeaveEvents(c)
      ensures c.room == null ==> unchanged(rooms.Values)
      ensures c.room != null ==>
        var left := rooms[c.room.name];
        left.members == old(left.members) - {c.remote} && unchanged(rooms.Values - {left})
    {
      out := [];
      if c.room != null {
        var oldRoom := rooms[c.room.name];
        oldRoom.members := oldRoom.members - {c.remote};
        out := [Broadcast(oldRoom, c, LeftRoom(c.nick))];
      }
    }

    /** The room registered under `name`, registered first as a new empty
        room if the name is unknown. An existing room is kept, not replaced. */
    method RoomFor(name: string) returns (r: Room)
      requires Valid()
      modifies this
      ensures Valid() && Keeps(old(rooms), rooms)
      ensures name in rooms && r == rooms[name] && r.name == name
      ensures name in old(rooms) ==> rooms == old(rooms)
      ensures name !in old(rooms) ==> fresh(r) && r.members == map[] && rooms == old(rooms)[name := r]
    {
      if name in rooms {
        r := rooms[name];
      } else {
        r := new Room(name);
        rooms := rooms[name := r];
      }
    }

    /** `join`: find or create the room named by the first argument, add the
        client to it under its LOCAL address, leave the current room (which
        deletes the REMOTE address, possibly from this same room), and move
        the client there. */
    method Join(c: Client, args: seq<string>) returns (out: seq<Event>)
      requires Valid() && Placed(c)
      modifies this, c`room, rooms.Values
      ensures Valid() && Placed(c) && Keeps(old(rooms), rooms)
      // without a room name nothing changes
      ensures |args| < 2 ==>
        rooms == old(rooms) && c.room == old(c.room) && unchanged(old(rooms).Values)
        && out == [Write(c, RoomRequired)]
      // the registry gains the named room if it was missing, and nothing else
      ensures |args| >= 2 ==>
        args[1] in rooms && c.room == rooms[args[1]]
        && if args[1] in old(rooms) then rooms == old(rooms)
           else fresh(c.room) && rooms == old(rooms)[args[1] := c.room]
      ensures forall name | name in rooms && name !in old(rooms) ::
        |args| >= 2 && name == args[1] && fresh(rooms[name])
      // the target room gains the LOCAL address; the room left (possibly the
      // same one) loses the REMOTE address; no other room changes
      ensures |args| >= 2 ==>
        var r := rooms[args[1]];
        var q: Room? := if old(c.room) == null then null else old(rooms[c.room.name]);
        var joined := (if args[1] in old(rooms) then old(rooms[args[1]].members) else map[])[c.local := c];
        r.members == (if q == r then joined - {c.remote} else joined)
        && (q != null && q != r ==> q.members == old(q.members) - {c.remote})
        && unchanged(set other | other in old(rooms).Values && other != r && other != q)
      ensures |args| >= 2 ==>
        out == old(LeaveEvents(c)) + [Broadcast(c.room, c, JoinedRoom(c.nick)), Write(c, Welcome(args[1]))]
    {
      if |args| < 2 {
        out := [Write(c, RoomRequired)];
        return;
      }
      var roomName := args[1];
      var r := RoomFor(roomName);
      r.members := r.members[c.local := c];
      var left := QuitCurrentRoom(c);
      c.room := r;
      out := left + [Broadcast(r, c, JoinedRoom(c.nick)), Write(c, Welcome(roomName))];
    }

    /** `listRooms`: one message to the client naming every registered room
        once, in no particular order, separated by ", ". */
    method ListRooms(c: Client) returns (out: seq<Event>)
      ensures exists names :: Enumerates(names, rooms.Keys) && out == [Notify(c, RoomsListing(names))]
    {
      var names: seq<string> := [];
      var rest := rooms.Keys;
      while rest != {}
        invariant rest <= rooms.Keys
        invariant Enumerates(names, rooms.Keys - rest)
        decreases rest
      {
        var name :| name in rest;
        names := names + [name];
        rest := rest - {name};
      }
      out := [Notify(c, RoomsListing(names))];
    }

    /** `msg`: broadcast "<nick>-> <arguments>" to the client's room, or
        report why not. Changes nothing. */
    method Msg(c: Client, args: seq<string>) returns (out: seq<Event>)
      ensures c.room == null ==> out == [Write(c, JoinFirst)]
      ensures c.room != null && |args| < 2 ==> out == [Write(c, MessageRequired)]
      ensures c.room != null && |args| >= 2 ==>
        out == [Broadcast(c.room, c, c.nick + "-> " + Strings.Join(args[1..], " "))]
    {
      if c.room == null {
        out := [Write(c, JoinFirst)];
        return;
      }
      if |args| < 2 {
        out := [Write(c, MessageRequired)];
        return;
      }
      var text := Strings.Join(args[1..], " ");
      out := [Broadcast(c.room, c, c.nick + "-> " + text)];
    }

    /** `quit`: say goodbye, leave the current room, close the connection.
        The client's `room` field still names the room it left. */
    method Quit(c: Client) returns (out: seq<Event>)
      requires Placed(c)
      modifies rooms.Values
      ensures rooms == old(rooms) && c.room == old(c.room)
      ensures out == [Write(c, LeftChat(c.remote))] + LeaveEvents(c) + [Write(c, Goodbye), Close(c)]
      ensures c.room == null ==> unchanged(rooms.Values)
      ensures c.room != null ==>
        var left := rooms[c.room.name];
        left.members == old(left.members) - {c.remote} && unchanged(rooms.Values - {left})
    {
      out := [Write(c, LeftChat(c.remote))];
      var left := QuitCurrentRoom(c);
      out := out + left + [Write(c, Goodbye), Close(c)];
    }

    /** One turn of the dispatch loop: hand the command to its handler;
        an unknown id does nothing. */
    method Step(cmd: Command) returns (out: seq<Event>)
      requires Valid() && Placed(cmd.client)
      requires cmd.id == CmdNick ==> |cmd.args| >= 1
      modifies this, cmd.client, rooms.Values
      ensures Valid() && Placed(cmd.client) && Keeps(old(rooms), rooms)
      ensures forall name | name in rooms && name !in old(rooms) ::
        cmd.id == CmdJoin && |cmd.args| >= 2 && name == cmd.args[1] && fresh(rooms[name])
      // `nick`: only the client's nick may change, as `Nick` promises
      ensures cmd.id == CmdNick ==>
        rooms == old(rooms) && unchanged(old(rooms).Values) && cmd.client.room == old(cmd.client.room)
        && (NickArg(cmd.args) == "" ==>
              cmd.client.nick == old(cmd.client.nick) && out == [Write(cmd.client, NickRequired)])
        && (NickArg(cmd.args) != "" ==>
              cmd.client.nick == NickArg(cmd.args) && out == [Write(cmd.client, NickAccepted(NickArg(cmd.args)))])
      // `join`: the registry and membership changes and events of `Join`
      ensures cmd.id == CmdJoin && |cmd.args| < 2 ==>
        rooms == old(rooms) && unchanged(cmd.client) && unchanged(old(rooms).Values)
        && out == [Write(cmd.client, RoomRequired)]
      ensures cmd.id == CmdJoin && |cmd.args| >= 2 ==> cmd.args[1] in rooms
      ensures cmd.id == CmdJoin && |cmd.args| >= 2 ==>
        var c := cmd.client;
        var r := rooms[cmd.args[1]];
        var q: Room? := if old(c.room) == null then null else old(rooms[c.room.name]);
        var joined := (if cmd.args[1] in old(rooms) then old(rooms[cmd.args[1]].members) else map[])[c.local := c];
        c.room == r && c.nick == old(c.nick)
        && r.members == (if q == r then joined - {c.remote} else joined)
        && (q != null && q != r ==> q.members == old(q.members) - {c.remote})
        && unchanged(set other | other in old(rooms).Values && other != r && other != q)
        && out == old(LeaveEvents(c)) + [Broadcast(r, c, JoinedRoom(c.nick)), Write(c, Welcome(cmd.args[1]))]
      // `rooms`: nothing changes; one listing of every registered name
      ensures cmd.id == CmdRooms ==>
        rooms == old(rooms) && unchanged(cmd.client) && unchanged(old(rooms).Values)
        && exists names :: Enumerates(names, rooms.Keys) && out == [Notify(cmd.client, RoomsListing(names))]
      // `msg`: nothing changes; the events of `Msg`
      ensures cmd.id == CmdMsg ==>
        rooms == old(rooms) && unchanged(cmd.client) && unchanged(old(rooms).Values)
        && (cmd.client.room == null ==> out == [Write(cmd.client, JoinFirst)])
        && (cmd.client.room != null && |cmd.args| < 2 ==> out == [Write(cmd.client, MessageRequired)])
        && (cmd.client.room != null && |cmd.args| >= 2 ==>
              out == [Broadcast(cmd.client.room, cmd.client, cmd.client.nick + "-> " + Strings.Join(cmd.args[1..], " "))])
      // `quit`: the room left loses the REMOTE address; goodbye and close
      ensures cmd.id == CmdQuit ==>
        var c := cmd.client;
        rooms == old(rooms) && unchanged(c)
        && out == [Write(c, LeftChat(c.remote))] + LeaveEvents(c) + [Write(c, Goodbye), Close(c)]
        && (c.room == null ==> unchanged(rooms.Values))
        && (c.room != null ==>
              var left := rooms[c.room.name];
              left.members == old(left.members) - {c.remote} && unchanged(rooms.Values - {left}))
      ensures cmd.id.CmdOther? ==>
        rooms == old(rooms) && unchanged(cmd.client) && unchanged(old(rooms).Values) && out == []
    {
      match cmd.id
      case CmdNick => out := Nick(cmd.client, cmd.args);
      case CmdJoin => out := Join(cmd.client, cmd.args);
      case CmdRooms => out := ListRooms(cmd.client);
      case CmdMsg => out := Msg(cmd.client, cmd.args);
      case CmdQuit => out := Quit(cmd.client);
      case CmdOther(_) => out := [];
    }

    /** `run`: process the commands one at a time in arrival order. Room
        names only ever get added, each by a `join` naming it. */
    method Run(cmds: seq<Command>) returns (out: seq<Event>)
      requires Valid()
      requires forall i | 0 <= i < |cmds| :: Placed(cmds[i].client)
      requires forall i | 0 <= i < |cmds| :: cmds[i].id == CmdNick ==> |cmds[i].args| >= 1
      modifies this, rooms.Values, set i | 0 <= i < |cmds| :: cmds[i].client
      ensures Valid() && Keeps(old(rooms), rooms)
      ensures forall i | 0 <= i < |cmds| :: Placed(cmds[i].client)
      ensures forall name | name in rooms && name !in old(rooms) ::
        exists i | 0 <= i < |cmds| :: cmds[i].id == CmdJoin && |cmds[i].args| >= 2 && cmds[i].args[1] == name
    {
      out := [];
      for n := 0 to |cmds|
        invariant Valid() && Keeps(old(rooms), rooms)
        invariant forall i | 0 <= i < |cmds| :: Placed(cmds[i].client)
        invariant forall name | name in rooms && name !in old(rooms) ::
          fresh(rooms[name])
          && exists i | 0 <= i < n :: cmds[i].id == CmdJoin && |cmds[i].args| >= 2 && cmds[i].args[1] == name
      {
        label before:
        var events := Step(cmds[n]);
        // a client other than the sender keeps its room, whose name is
        // still registered
        forall i | 0 <= i < |cmds| ensures Placed(cmds[i].client) {
          var c := cmds[i].client;
          if c != cmds[n].client {
            assert c.room == old@before(c.room);
          }
        }
        out := out + events;
      }
    }
  }
}
