# Session registry and dispatch of the nioServer chat relay

This project models the core of the relay's `ServerHandler`, the Netty callback
class that every client connection gets. The model covers four parts:

- **Session registry.** A shared map from account-id text to connection. A
  LOGIN installs an entry and displaces any earlier session for the same id.
- **Dispatch.** `channelRead` handles each inbound message by its `chatType`:
  - PING is dropped.
  - LOGIN evicts any old session, installs the new one and replies with a
    success notice.
  - CHAT echoes the message back to its sender.
  - GROUP_CHAT and BROADCAST fan the message out to every registered
    connection.
- **Heartbeat monitor.** The per-handler `unRecPingTimes` counter, and the
  eviction once it has reached `MAX_UN_REC_PING_TIMES`.
- **Lifecycle cleanup.** `exceptionCaught` deregisters and closes the
  connection. `channelInactive` only deregisters it.

Module layout:

- `ids.dfy` (`Ids`): the registry key of an id is `String.valueOf(int)`. A
  notice reads it back with `Integer.valueOf`. Both conversions are
  modelled, and the round trip is proved.
- `protocol.dfy` (`Protocol`): connection handles, header, message,
  notices, and the LOGIN re-addressing of a message.
- `registry.dfy` (`Registry`): `removeChannel`, and fan-out over any
  iteration order of the entry set.
- `heartbeat.dfy` (`Heartbeat`): the counter, one event at a time and over
  a whole run of events.
- `session.dfy` (`Session`): each callback as a function on the shared
  state, plus the lemmas about them. The shared state is the registry, the
  connections the server closed, and the writes issued.
- `server.dfy` (`Server`): classes `ChannelManager` (the static map),
  `Transport` (writes and closes) and `ServerHandler` (one per connection,
  with its own counter). Each callback method is proved to change the
  shared objects exactly as the matching `Session` function says.

Modelling choices, and behaviour of the code worth knowing:

- `f.sync().isSuccess()` (ServerHandler.java:97) is a three-valued
  `FlushResult`:
  - `Flushed`: the write completed.
  - `NotFlushed`: the literal `false` branch of `isSuccess()`: no close,
    the entry is still removed, the login goes on. Netty's `sync()` rethrows
    any failure or cancellation, so once it has returned normally
    `isSuccess()` is always true and this branch is unreachable. It is kept
    because the code has it.
  - `Raised`: Netty's `sync()` rethrows a failed write's cause, so in
    practice a failed eviction write aborts `channelRead` right after the
    write. Nothing is closed, removed or installed. The pipeline then calls
    `exceptionCaught` on the same handler, which deregisters and closes the
    connection that tried to log in. When another connection held the id,
    that old session stays registered and is not closed by the handler
    (`Session.LoginFlushThrows`,
    `Server.ServerHandler.Receive`).

  This is the code's failure policy for a displacement notice that cannot
  be delivered: the login is abandoned and the new connection is closed.
- The JSON serialisation of a notice is an external collaborator. It is the
  parameter `encode: Notice -> seq<bv8>`. A notice's content is
  `encode(Notice("1000", text))` and the header's length field is the
  length of that content. The two texts are the code's own constants.
- The entry-set iterator's order is not specified. Each fan-out returns the
  order it used as a ghost value, and the specification holds for any
  order that lists every key once.
- The code's quirks are modelled literally, each with a lemma:
  - CHAT echoes to the sender and never reads `toId`
    (`Session.ChatEchoesToSender`).
  - GROUP_CHAT has no membership filter and behaves exactly like BROADCAST
    (`Session.FanOutDelivers`).
  - No path resets the heartbeat counter (`ChannelRead` leaves it
    unchanged; `Heartbeat.RunExact`).
  - A re-LOGIN on the connection that already holds the id, when the
    eviction write flushes, sends the eviction notice to that same
    connection and closes it. It then binds
    the id to it again, so the registry points at a closed connection
    (`Session.ReloginOnSameConnection`). No registry entry should point at
    a closed connection; the code does not guarantee this. In Netty the
    window is temporary: the close later raises `channelInactive`, whose
    `removeChannel` drops the entry again. The model does not make a close
    trigger `OnInactive`; the two are separate callbacks.
- The heartbeat monitor closes on the ALL_IDLE event that arrives once the
  counter *has reached* the limit. With a fresh counter that is the
  `(max + 1)`-th ALL_IDLE event, not the `max`-th
  (`Heartbeat.EvictedIffOverLimit`).
- The model assumes that `ChannelManager.removeChannel(c)` removes every
  entry whose connection is `c`. `ChannelManager`'s internals are not
  modelled.

## Model

The table lists the members whose contracts state the model's properties.
Helper functions and lemmas are omitted: digit conversion, counting, the run
of logins, and the constructors of `ChannelManager` and `Transport`. The
definitions these members are stated about (`Session.Read`,
`Session.OnLogin`, `Heartbeat.Tick`, `Heartbeat.Run`, `Ids.ValueOf`,
`Ids.ParseInt`, `Registry.FanOut`) model the source spans named in the rows
of the lemmas about them.

| member | source | states |
|---|---|---|
| Ids.ParseValueOf | src/main/java/com/freePorter/nio/handler/ServerHandler.java:67-87 | `Integer.valueOf(String.valueOf(i))` gives back `i` for every Java `int`, so re-addressing a notice restores the original ids |
| Ids.ValueOfInjective | src/main/java/com/freePorter/nio/handler/ServerHandler.java:67-71 | two ids share a registry key iff they are equal |
| Protocol.NoticeFor | src/main/java/com/freePorter/nio/handler/ServerHandler.java:111-120 | a LOGIN notice keeps the chat type, carries `toId := fromId` and `fromId := toId`, has the serialised notice as content, and has a length field equal to that content's length |
| Registry.RemoveChannel | src/main/java/com/freePorter/nio/handler/ServerHandler.java:181 | exactly the entries bound to the connection disappear; every other entry keeps its connection |
| Registry.FanOutSendsUnmodified | src/main/java/com/freePorter/nio/handler/ServerHandler.java:143-149 | the i-th write of a pass goes to the connection of the i-th visited key and carries the message unchanged |
| Registry.FanOutCount | src/main/java/com/freePorter/nio/handler/ServerHandler.java:143-149 | over distinct keys, the writes to a connection are as many as the visited keys bound to it |
| Registry.FanOutReachesEveryEntry | src/main/java/com/freePorter/nio/handler/ServerHandler.java:160-166 | a full pass writes to each connection once per key it holds, and never to an unregistered connection |
| Heartbeat.TickBounded | src/main/java/com/freePorter/nio/handler/ServerHandler.java:197-210 | one event keeps the counter within `[counter, max]`; an event other than ALL_IDLE leaves it unchanged and closes nothing; it closes iff ALL_IDLE arrives at the limit; it increments iff ALL_IDLE arrives below the limit |
| Heartbeat.RunExact | src/main/java/com/freePorter/nio/handler/ServerHandler.java:192-214 | over any run of events, the final counter is `min(max, counter + #ALL_IDLE)` and the number of closes is `counter + #ALL_IDLE - max` when positive; other events and traffic never reset it |
| Heartbeat.EvictedIffOverLimit | src/main/java/com/freePorter/nio/handler/ServerHandler.java:199-209 | from a fresh counter, the monitor closes the connection iff more than `max` ALL_IDLE events arrived; the counter never exceeds `max` |
| Session.PingIsInert | src/main/java/com/freePorter/nio/handler/ServerHandler.java:54-59 | PING, and a chat type no branch matches, leave registry, closed set and writes unchanged and do not throw |
| Session.LoginInstallsSession | src/main/java/com/freePorter/nio/handler/ServerHandler.java:101-105 | after LOGIN whose eviction write did not throw, whatever `isActive()` says, `fromId` is bound to the current connection and every other key is present and bound exactly as before |
| Session.LoginDisplaces | src/main/java/com/freePorter/nio/handler/ServerHandler.java:76-122 | for a registered `fromId` on `ch`: exactly two writes are appended. The first is the "1000" displacement notice on `ch`, ids swapped, length matching. The second is the "1000" success notice on the current connection. `ch` is closed iff the write flushed |
| Session.LoginFresh | src/main/java/com/freePorter/nio/handler/ServerHandler.java:104-122 | for an unregistered `fromId`: only the success notice is written, on the current connection, and nothing is closed |
| Session.LoginFlushThrows | src/main/java/com/freePorter/nio/handler/ServerHandler.java:91-101 | when `sync()` rethrows, the earlier writes are kept and the only new write is the displacement notice to the old holder; registry and closed set are untouched. After `exceptionCaught` the new connection is closed; the old session, if held by another connection, is still bound and not closed, and otherwise the id is unbound |
| Session.ReloginOnSameConnection | src/main/java/com/freePorter/nio/handler/ServerHandler.java:71-105 | when the eviction write flushes, re-LOGIN on the connection that holds the id writes the notice to it, closes it, and leaves the id bound to that closed connection |
| Session.LoginsKeepOneSession | src/main/java/com/freePorter/nio/handler/ServerHandler.java:65-123 | after any run of LOGINs for one id, whatever peer tag each carries, each eviction write flushing, the id is bound to the latest connection, and every displaced connection, including the prior holder, is closed |
| Session.ChatEchoesToSender | src/main/java/com/freePorter/nio/handler/ServerHandler.java:126-133 | CHAT appends the unmodified message on the sender iff it is active, whatever `toId` is, and changes neither registry nor closed set |
| Session.FanOutDelivers | src/main/java/com/freePorter/nio/handler/ServerHandler.java:136-167 | GROUP_CHAT and BROADCAST keep registry and closed set, and append only the unmodified message to registered connections. Each connection gets it once per key it holds, the sender included |
| Session.CleanupDropsConnection | src/main/java/com/freePorter/nio/handler/ServerHandler.java:177-189 | after an error the connection holds no entry and is closed, all other entries and closes are kept, and no key is added; going inactive is the same without the close |
| Session.UserEventRules | src/main/java/com/freePorter/nio/handler/ServerHandler.java:192-214 | an event that is not ALL_IDLE changes nothing. ALL_IDLE below the limit only increments. ALL_IDLE at the limit deregisters and closes like an error and keeps the counter. The counter stays within the limit |
| Server.ChannelManager.Put | src/main/java/com/freePorter/nio/handler/ServerHandler.java:105 | the map afterwards binds the key to the connection, all else as before |
| Server.ChannelManager.Remove | src/main/java/com/freePorter/nio/handler/ServerHandler.java:101 | the map afterwards lacks the key, all else as before |
| Server.ChannelManager.RemoveChannel | src/main/java/com/freePorter/nio/handler/ServerHandler.java:188 | the map afterwards is `RemoveChannel` of the old map; the connection is no longer a value of it |
| Server.Transport.WriteAndFlush | src/main/java/com/freePorter/nio/handler/ServerHandler.java:91 | one write is appended to the log; nothing is closed |
| Server.Transport.Close | src/main/java/com/freePorter/nio/handler/ServerHandler.java:98 | the connection joins the closed set; no write is issued |
| Server.ServerHandler.constructor | src/main/java/com/freePorter/nio/handler/ServerHandler.java:34 | a new handler's counter is 0 |
| Server.ServerHandler.WriteToAll | src/main/java/com/freePorter/nio/handler/ServerHandler.java:137-149 | the loop visits every registry key once, in some order, and appends exactly `FanOut` of that order; nothing is closed |
| Server.ServerHandler.ChannelRead | src/main/java/com/freePorter/nio/handler/ServerHandler.java:42-171 | the shared state and the thrown flag afterwards are exactly `Session.Read` of the state before; the heartbeat counter is unchanged |
| Server.ServerHandler.ExceptionCaught | src/main/java/com/freePorter/nio/handler/ServerHandler.java:177-184 | the shared state afterwards is `Session.OnError` of the state before |
| Server.ServerHandler.ChannelInactive | src/main/java/com/freePorter/nio/handler/ServerHandler.java:186-189 | the shared state afterwards is `Session.OnInactive` of the state before |
| Server.ServerHandler.UserEventTriggered | src/main/java/com/freePorter/nio/handler/ServerHandler.java:192-214 | state and counter afterwards are `Session.OnUserEvent` of those before, and the counter stays within the limit |
| Server.ServerHandler.Receive | src/main/java/com/freePorter/nio/handler/ServerHandler.java:177-184 | one inbound message through the pipeline: `channelRead`'s result, followed by `exceptionCaught` when it threw; for GROUP_CHAT and BROADCAST the visiting order lists every registry key once, otherwise it is empty |

## Left out

- Netty machinery is left out: `ChannelHandlerContext`, the pipeline, `ctx.fireChannelInactive()`, `channelReadComplete`'s `ctx.flush()`, and `channelActive`, which only logs. The asynchronous `ChannelFuture` appears only as the `FlushResult` of the one write the code waits for.
- Server.Transport.WriteAndFlush: the outbox records the writes issued, not the writes delivered. A write to a closed channel fails inside Netty, and the model does not track that.
- `channel.isActive()` is the input `active`; the model does not tie it to the closed set, since another event loop may close a channel that a read still sees as active.
- A close does not by itself raise `channelInactive` in the model; Netty does that later, and the model treats it as a separate callback.
- Concurrency on the shared static map is left out. The model runs one callback at a time.
- fastjson serialisation and the platform charset of `getBytes()` are the `encode` parameter. The exact notice bytes are not modelled.
- `ChannelManager` internals are not modelled: its map type, `getAccountNo` (used only for logging) and `removeChannel`. `removeChannel` is assumed to drop every entry bound to the connection.
- `ReferenceCountUtil.release` and all logging have no observable effect in the model and are left out.
- `PropertyUtils.MAX_UN_REC_PING_TIMES` is unseen configuration. It is the constructor parameter `maxUnRecPingTimes`, taken as a natural number.
- Ids.ParseInt accepts ASCII digits only. `Integer.valueOf` also accepts other Unicode decimal digits, but the handler only parses text produced by `String.valueOf`, which is ASCII.
- The message header is taken to hold the four fields `chatType`, `fromId`, `toId` and `length`, with Java `int` ids. `MessageHeader` is not part of this model.
