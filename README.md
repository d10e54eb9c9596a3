# tcp-chat dispatcher, modelled in Dafny

This project models the command dispatcher of a small multi-room TCP chat
server (`server.go`). A single loop takes commands from all clients one at a
time: `nick`, `join`, `rooms`, `msg` and `quit`. It updates two kinds of state
in place:

- the server's room registry, a map from room name to room, where each room
  maps connection addresses to clients;
- each client's session fields, its nick and its current room.

The model keeps that shape. `Chat.Server`, `Chat.Room` and `Chat.Client` are
classes whose fields the handlers assign. The registry and the member sets
are Dafny `map` fields. The handlers are methods. Those that change state
declare what they may change with `modifies` clauses, and their
postconditions give the whole new state in terms of the old one. `msg` and
`rooms` change nothing and have no `modifies` clause.

Everything a handler sends out is returned as a sequence of `Event`s, in the
order the handler produces them:

- `Write`: a formatted write to the client's connection;
- `Notify`: the client's own `msg` helper;
- `Broadcast(room, sender, text)`: the room's broadcast, skipping the sender;
- `Close`: closing the connection.

This is what makes "only an error goes to the sender, and nothing is
broadcast" a statable postcondition. The message texts are the exact strings
of the source, without colour.

A connection has two addresses, and the model keeps both, exactly as the
source uses them:

- `join` stores the client under `LocalAddr()`;
- `quitCurrentRoom` deletes it under `RemoteAddr()`.

The model never assumes these are equal, or that they are distinct from other
clients' addresses. `Addr` carries an identity, which is what map keys
compare, and the text that `String()` returns. The `Scenarios` module works
through what follows from this:

- `LobbyQuit`: a client that quits stays listed in its room when the two
  addresses differ.
- `MoveLeavesEntry`: a client that moves between rooms stays listed in both.
- `RejoinDropsEntry`: when the two addresses coincide, joining the room you
  are already in removes your own entry.

`quitCurrentRoom` never clears the client's `room` field, and neither does
`quit`.

Go library routines used by the handlers are modelled in module `Strings`:

- `strings.Join`;
- `strings.TrimSpace`, with `unicode.IsSpace`'s set of space code points.

`TrimSpace` is specified by what it returns: `TrimmedAt` plus the uniqueness
lemma `TrimSpaceUnique`.

The model follows the code, including where it departs from the server's
intended design:

- `quitCurrentRoom` does not clear the session's room.
- `join` uses `args[1]` and ignores any further arguments; it does not demand
  exactly one.
- Removal on leaving is keyed by the remote address, not by the address used
  at join time. So "the lobby holds only B after A quits" does not follow when A's two addresses differ (see
  `Scenarios.LobbyQuit`).

## Model

| member | source | states |
|---|---|---|
| `Strings.IsSpace` | server.go:54 | In Latin-1, exactly '\t', '\n', '\v', '\f', '\r', ' ', U+0085 and U+00A0 are spaces. Above Latin-1, exactly U+1680, U+2000-U+200A, U+2028, U+2029, U+202F, U+205F and U+3000 are, as `unicode.IsSpace` decides |
| `Strings.Join` | server.go:125 | `strings.Join`: no parts give ""; otherwise the length is the parts' total length plus one separator between each neighbouring pair, and the text starts with the first part |
| `Strings.TrimSpace` | server.go:54 | The result is the input less a run of spaces (as `unicode.IsSpace` defines them) at each end, and it neither starts nor ends with a space |
| `Strings.TrimSpaceUnique` | server.go:54 | Any text obtained that way equals `TrimSpace`'s result, so the contract fixes the trimmed nick uniquely |
| `Strings.TrimSpaceEmpty` | server.go:54-55 | Trimming yields the empty string exactly when the text consists only of spaces |
| `Strings.SkipSpaces` | server.go:54 | The index of the first non-space at or after `k`; everything skipped is a space |
| `Strings.SkipSpacesBack` | server.go:54 | The index just past the last non-space before `k`; everything skipped is a space |
| `Strings.AllSpaceJoin` | server.go:54 | Joining with a space separator gives all-space text exactly when every argument is all spaces |
| `Strings.JoinContains` | server.go:106 | Every element of a joined list occurs verbatim, as a contiguous run, in the joined text |
| `Chat.NickArg` | server.go:54 | The requested nick never starts or ends with a space; a bare command gives ""; a single argument gives that argument trimmed |
| `Chat.NickArgEmpty` | server.go:54-59 | A `nick` command is rejected exactly when all its arguments after the command word are made of spaces, including when there are none |
| `Chat.RoomsListing` | server.go:106 | The reply starts with "avaible rooms: " and ends with a blank line. No rooms give just those two parts; one room gives its name between them |
| `Chat.ListingShowsEveryRoom` | server.go:100-107 | Each room name of the enumeration occurs verbatim in the "avaible rooms: ..." message |
| `Chat.Client.constructor` | server.go:44-48 | A new session has nick "Anonymous", no room, and the connection's two addresses |
| `Chat.Room.constructor` | server.go:81-84 | A room created on first join carries the requested name and has no members |
| `Chat.Server.constructor` | server.go:16-21 | A new server's registry is empty |
| `Chat.Server.Nick` | server.go:53-66 | Empty trimmed nick: nick unchanged and only the error "error: you must provide a nick" to the sender. Otherwise: nick becomes the trimmed text and only the confirmation goes to the sender. Nothing but `c.nick` may change |
| `Chat.Server.QuitCurrentRoom` | server.go:139-146 | No room: no change and no events. Otherwise: the room registered under the client's room name loses exactly the key `c.remote`, and no other room changes. Registry and `c.room` are unchanged; "<nick> has left the room" is broadcast to that room, excluding the client |
| `Chat.Server.RoomFor` | server.go:77-87 | Returns the room registered under the name, reusing an existing room object. Otherwise a fresh empty room is registered under that name, and no other key changes |
| `Chat.Server.Join` | server.go:69-98 | Fewer than 2 args: registry, every room and `c.room` unchanged, only the usage error to the sender. Otherwise: `args[1]` is registered and is `c.room`; the registry gains at most that key and keeps every other room. The target room gets `c.local ↦ c`; the left room loses `c.remote`, which removes the new entry when it is the same room. No other room changes. Events: left-broadcast (if in a room), joined-broadcast, welcome |
| `Chat.Server.ListRooms` | server.go:100-107 | Exactly one `Notify` to the client, whose text is "avaible rooms: " followed by the registered names, each exactly once in some order, joined by ", ". Changes nothing |
| `Chat.Server.Msg` | server.go:109-127 | No room: only "you need join a room before send messages" to the sender. Else fewer than 2 args: only the usage error to the sender. Else exactly one broadcast of `nick + "-> " + Join(args[1:], " ")` to the client's room, excluding the sender. Changes nothing |
| `Chat.Server.Quit` | server.go:129-137 | The leave notice with the remote address, then `quitCurrentRoom`'s effects and events, then "Sad to see u go" and the close. Registry and `c.room` unchanged |
| `Chat.Server.Step` | server.go:25-36 | Dispatching one command keeps the registry invariant and every existing name→room pair. Any new name is the `args[1]` of a `join` and a fresh room. Each known command id gets its own handler's outcome: `nick` changes only the nick, with `Nick`'s two cases. `join` makes `Join`'s registry and membership changes and emits its events. `rooms` and `msg` change nothing and emit `ListRooms`'s and `Msg`'s events. `quit` deletes the remote address from the room left and ends with the goodbye and close. An unknown command id changes nothing and emits nothing |
| `Chat.Server.Run` | server.go:23-38 | Over any sequence of commands, no room name is removed or rebound, and every name added was the `args[1]` of some `join` in the sequence |
| `Scenarios.NickOfOneWord` | server.go:54 | A nick command with one space-free word sets exactly that word |
| `Scenarios.NamedClient` | server.go:53-66 | A fresh client after such a nick command has that nick and no room |
| `Scenarios.LobbyJoined` | server.go:89 | Two clients with distinct local addresses that join "lobby" are both members, each under its local address, and the registry holds just "lobby" |
| `Scenarios.LobbyChat` | server.go:125-126 | A's `msg hi` in the lobby is exactly one broadcast "A-> hi" from A to the lobby |
| `Scenarios.LobbyQuit` | server.go:139-146 | When A quits with a remote address distinct from both local addresses, "A has left the room" is broadcast, yet the lobby still maps A's local address to A |
| `Scenarios.MoveLeavesEntry` | server.go:89-92 | A client whose addresses differ, moving from room "a" to "b", is afterwards listed in both rooms |
| `Scenarios.RejoinDropsEntry` | server.go:89-92 | A client whose two addresses coincide, joining "lobby" twice, is in "lobby" but no longer among its members |

## Left out

- Connection I/O (reads, writes, `Close`), `newClient` and `readInput` (server.go:40-51) are left out. Writes and the close become events, and the two addresses become constructor parameters.
- The `commands` channel and the goroutine around `run` are left out. `Run` takes the commands as a sequence, in arrival order.
- Terminal colours (`colorize`, `color.New`, `color.CyanString`) are left out, and every event carries plain text. The real "has left the room" text is wrapped in cyan escape codes. The missing-message usage error asks `colorize` for "errColor", a name it does not know, so that text is actually printed uncoloured.
- `room.broadcast` and `client.msg` are defined in files that are not part of this model. A broadcast is recorded as (room, excluded sender, text), with no per-member delivery or write failures. `Notify` does not add `msg`'s own framing.
- Go's map iteration order is left open: `ListRooms` picks the next name arbitrarily.
- `Strings.TrimSpace` works on code points. Invalid UTF-8 bytes, which Go treats as non-space runes, are not modelled.
- `Chat.Server.Nick` requires at least one argument (the command word). With none, `args[1:]` panics in Go.
- `Chat.Server.Join` (and `Chat.Server.Step`, `Chat.Server.Run`) requires that every registered room is registered under its own name. The Go code keeps this, because it only ever registers a room under the name it was created with.
- `Chat.Server.QuitCurrentRoom`, `Chat.Server.Join` and `Chat.Server.Quit` require that the client's current room name is registered. Otherwise `s.rooms[c.room.name]` is nil and the Go code dereferences it. Nothing in the model ever removes a registered name.
- `Chat.Server.Run` states registry monotonicity and where new names come from, not the whole event trace. What each command does is stated once, per command id, by `Chat.Server.Step`'s postcondition.
