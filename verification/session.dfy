/**
 * The handler's rules as functions from one state of the world (registry,
 * connections closed by the server, writes issued) to the next, and the
 * properties the chat relay relies on, proved about them. The handler class
 * in module Server is proved to perform exactly these steps.
 */
module Session {
  import opened Ids
  import opened Protocol
  import opened Registry
  import opened Heartbeat

  /**
   * `registry` is the shared channel map, `closed` the connections the
   * server has closed, `outbox` every write issued, oldest first.
   */
  datatype World = World(registry: Sessions, closed: set<ConnId>, outbox: seq<Send>)

  /** The world after `channelRead`, and whether it ended by throwing. */
  datatype ReadResult = ReadResult(world: World, threw: bool)

  /** `ChannelManager.removeChannel(conn)`. */
  function Deregister(w: World, conn: ConnId): World
  {
    w.(registry := RemoveChannel(w.registry, conn))
  }

  /** The tail of LOGIN: bind `fromId` to `conn` and write the success notice on `conn`. */
  function Install(w: World, conn: ConnId, msg: Message, encode: Notice -> seq<bv8>): World
  {
    w.(registry := w.registry[ValueOf(msg.header.fromId) := conn],
       outbox := w.outbox + [Send(conn, NoticeFor(msg, LoggedInNotice, encode))])
  }

  /** LOGIN: displace any earlier session for `fromId`, then install `conn`. */
  function OnLogin(w: World, conn: ConnId, msg: Message, flush: FlushResult, encode: Notice -> seq<bv8>): ReadResult
  {
    var key := ValueOf(msg.header.fromId);
    if key in w.registry then
      var ch := w.registry[key];
      var notified := w.(outbox := w.outbox + [Send(ch, NoticeFor(msg, DisplacedNotice, encode))]);
      if flush == Raised then ReadResult(notified, true)
      else
        var shut := if flush == Flushed then notified.(closed := notified.closed + {ch}) else notified;
        ReadResult(Install(shut.(registry := shut.registry - {key}), conn, msg, encode), false)
    else ReadResult(Install(w, conn, msg, encode), false)
  }

  /**
   * `channelRead(msg)` on connection `conn`. `active` is `conn.isActive()`,
   * `flush` the outcome of the eviction write's `sync()`, and `order` the
   * order in which the registry's entry-set iterator visits the keys.
   */
  function Read(w: World, conn: ConnId, msg: Message, active: bool, flush: FlushResult,
                order: seq<string>, encode: Notice -> seq<bv8>): ReadResult
    requires forall k :: k in order ==> k in w.registry
  {
    match msg.header.chatType
    case Ping => ReadResult(w, false)
    case Login => OnLogin(w, conn, msg, flush, encode)
    case Chat => ReadResult(if active then w.(outbox := w.outbox + [Send(conn, msg)]) else w, false)
    case GroupChat => ReadResult(w.(outbox := w.outbox + FanOut(w.registry, order, msg)), false)
    case Broadcast => ReadResult(w.(outbox := w.outbox + FanOut(w.registry, order, msg)), false)
    case Unrecognised => ReadResult(w, false)
  }

  /** `exceptionCaught`: deregister and close. */
  function OnError(w: World, conn: ConnId): World
  {
    var d := Deregister(w, conn);
    d.(closed := d.closed + {conn})
  }

  /** `channelInactive`: deregister only. */
  function OnInactive(w: World, conn: ConnId): World
  {
    Deregister(w, conn)
  }

  /** `userEventTriggered`: the new world and the new counter. */
  function OnUserEvent(w: World, conn: ConnId, counter: nat, max: nat, evt: UserEvent): (World, nat)
  {
    var (counter', close) := Tick(counter, max, evt);
    (if close then OnError(w, conn) else w, counter')
  }

  // ---------------------------------------------------------------- PING

  /** PING (and a chat type no branch matches) changes nothing and writes nothing. */
  lemma PingIsInert(w: World, conn: ConnId, msg: Message, active: bool, flush: FlushResult,
                    order: seq<string>, encode: Notice -> seq<bv8>)
    requires forall k :: k in order ==> k in w.registry
    requires msg.header.chatType == Ping || msg.header.chatType == Unrecognised
    ensures Read(w, conn, msg, active, flush, order, encode) == ReadResult(w, false)
  {
  }

  // ---------------------------------------------------------------- LOGIN

  /**
   * Unless the eviction write threw, LOGIN leaves `fromId` bound to the
   * current connection and every other key as it was.
   */
  lemma LoginInstallsSession(w: World, conn: ConnId, msg: Message, active: bool, order: seq<string>,
                             flush: FlushResult, encode: Notice -> seq<bv8>)
    requires msg.header.chatType == Login
    requires forall k :: k in order ==> k in w.registry
    requires flush != Raised || ValueOf(msg.header.fromId) !in w.registry
    ensures var r := Read(w, conn, msg, active, flush, order, encode);
      var key := ValueOf(msg.header.fromId);
      && !r.threw
      && key in r.world.registry && r.world.registry[key] == conn
      && (forall k :: k != key ==> (k in r.world.registry <==> k in w.registry))
      && (forall k :: k != key && k in w.registry ==> r.world.registry[k] == w.registry[k])
  {
  }

  /**
   * LOGIN for an id that is already registered on `ch`: one displacement
   * notice on `ch` (status "1000", ids swapped, length matching), then `ch`
   * is closed only if that write flushed, then the success notice on the
   * current connection.
   */
  lemma LoginDisplaces(w: World, conn: ConnId, msg: Message, active: bool, order: seq<string>,
                       flush: FlushResult, encode: Notice -> seq<bv8>)
    requires msg.header.chatType == Login
    requires forall k :: k in order ==> k in w.registry
    requires ValueOf(msg.header.fromId) in w.registry
    requires flush != Raised
    ensures var r := Read(w, conn, msg, active, flush, order, encode);
      var ch := w.registry[ValueOf(msg.header.fromId)];
      var evict := r.world.outbox[|w.outbox|].msg;
      var reply := r.world.outbox[|w.outbox| + 1].msg;
      && |r.world.outbox| == |w.outbox| + 2
      && r.world.outbox[..|w.outbox|] == w.outbox
      && r.world.outbox[|w.outbox|].conn == ch
      && r.world.outbox[|w.outbox| + 1].conn == conn
      && evict.header == Header(Login, msg.header.toId, msg.header.fromId, |encode(DisplacedNotice)|)
      && evict.content == encode(Notice("1000", DISPLACED_TEXT))
      && reply.header == Header(Login, msg.header.toId, msg.header.fromId, |encode(LoggedInNotice)|)
      && reply.content == encode(Notice("1000", LOGGED_IN_TEXT))
      && r.world.closed == (if flush == Flushed then w.closed + {ch} else w.closed)
  {
  }

  /** LOGIN for an id nobody holds: only the success notice, and nothing is closed. */
  lemma LoginFresh(w: World, conn: ConnId, msg: Message, active: bool, order: seq<string>,
                   flush: FlushResult, encode: Notice -> seq<bv8>)
    requires msg.header.chatType == Login
    requires forall k :: k in order ==> k in w.registry
    requires ValueOf(msg.header.fromId) !in w.registry
    ensures var r := Read(w, conn, msg, active, flush, order, encode);
      && !r.threw
      && r.world.closed == w.closed
      && r.world.outbox == w.outbox + [Send(conn, Message(
           Header(Login, msg.header.toId, msg.header.fromId, |encode(LoggedInNotice)|),
           encode(LoggedInNotice)))]
  {
  }

  /**
   * When `sync()` rethrows the eviction write's failure, `channelRead` stops
   * after that write; Netty then hands the exception to `exceptionCaught` of
   * the same handler. The earlier session, when held by another connection,
   * stays registered and is not closed by the handler, and it is the
   * connection that tried to log in that gets closed.
   */
  lemma LoginFlushThrows(w: World, conn: ConnId, msg: Message, active: bool, order: seq<string>,
                         encode: Notice -> seq<bv8>)
    requires msg.header.chatType == Login
    requires forall k :: k in order ==> k in w.registry
    requires ValueOf(msg.header.fromId) in w.registry
    ensures var r := Read(w, conn, msg, active, Raised, order, encode);
      var after := OnError(r.world, conn);
      var key := ValueOf(msg.header.fromId);
      var ch := w.registry[key];
      && r.threw
      && r.world.registry == w.registry
      && r.world.closed == w.closed
      && r.world.outbox == w.outbox + [Send(ch, NoticeFor(msg, DisplacedNotice, encode))]
      && conn in after.closed
      && (ch != conn ==> key in after.registry && after.registry[key] == ch && ch !in after.closed - w.closed)
      && (ch == conn ==> key !in after.registry)
  {
  }

  /**
   * Re-LOGIN on the connection that already holds the id, when the eviction
   * write flushes, sends the displacement notice to, and closes, that same
   * connection, and then binds the id to it again: the registry ends up
   * pointing at a closed connection.
   */
  lemma ReloginOnSameConnection(w: World, conn: ConnId, msg: Message, active: bool, order: seq<string>,
                                encode: Notice -> seq<bv8>)
    requires msg.header.chatType == Login
    requires forall k :: k in order ==> k in w.registry
    requires ValueOf(msg.header.fromId) in w.registry
    requires w.registry[ValueOf(msg.header.fromId)] == conn
    ensures var r := Read(w, conn, msg, active, Flushed, order, encode);
      && r.world.registry[ValueOf(msg.header.fromId)] == conn
      && conn in r.world.closed
      && r.world.outbox[|w.outbox|].conn == conn
  {
  }

  /** Every message of `msgs` is a LOGIN from the account `id`; the peer tags may differ. */
  predicate LoginsOf(msgs: seq<Message>, id: Int32)
  {
    forall i :: 0 <= i < |msgs| ==> msgs[i].header.chatType == Login && msgs[i].header.fromId == id
  }

  /**
   * Successive LOGINs, the i-th being `msgs[i]` on connection `conns[i]`,
   * each eviction write flushing.
   */
  function Logins(w: World, conns: seq<ConnId>, msgs: seq<Message>, encode: Notice -> seq<bv8>): World
    requires |msgs| == |conns|
    decreases |conns|
  {
    if conns == [] then w
    else
      var prev := Logins(w, conns[..|conns| - 1], msgs[..|msgs| - 1], encode);
      Read(prev, conns[|conns| - 1], msgs[|msgs| - 1], true, Flushed, [], encode).world
  }

  /**
   * Single session: after any run of LOGINs for one id, that id is bound to
   * the latest connection, and every connection displaced along the way,
   * including whoever held the id before, has been closed.
   */
  lemma {:induction false} LoginsKeepOneSession(w: World, id: Int32, conns: seq<ConnId>, msgs: seq<Message>,
                                                encode: Notice -> seq<bv8>)
    requires |msgs| == |conns| && conns != []
    requires LoginsOf(msgs, id)
    ensures var r := Logins(w, conns, msgs, encode);
      var key := ValueOf(id);
      && key in r.registry && r.registry[key] == conns[|conns| - 1]
      && (forall i :: 0 <= i < |conns| - 1 ==> conns[i] in r.closed)
      && (key in w.registry ==> w.registry[key] in r.closed)
      && w.closed <= r.closed
    decreases |conns|
  {
    var key := ValueOf(id);
    var init := conns[..|conns| - 1];
    var initMsgs := msgs[..|msgs| - 1];
    var last := msgs[|msgs| - 1];
    assert last.header.chatType == Login && last.header.fromId == id;
    var prev := Logins(w, init, initMsgs, encode);
    var r := Logins(w, conns, msgs, encode);
    if init == [] {
      assert prev == w;
    } else {
      assert LoginsOf(initMsgs, id) by {
        forall i | 0 <= i < |initMsgs|
          ensures initMsgs[i].header.chatType == Login && initMsgs[i].header.fromId == id
        {
          assert initMsgs[i] == msgs[i];
        }
      }
      LoginsKeepOneSession(w, id, init, initMsgs, encode);
      assert r.closed == prev.closed + {init[|init| - 1]};
    }
  }

  // ---------------------------------------------------------------- CHAT

  /**
   * CHAT writes the message, unmodified, back on the sending connection iff
   * that connection is active; `toId` plays no part and the registry is
   * untouched.
   */
  lemma ChatEchoesToSender(w: World, conn: ConnId, msg: Message, active: bool, flush: FlushResult,
                           encode: Notice -> seq<bv8>, toId: Int32)
    requires msg.header.chatType == Chat
    ensures var r := Read(w, conn, msg, active, flush, [], encode);
      && !r.threw
      && r.world.registry == w.registry && r.world.closed == w.closed
      && (r.world.outbox == w.outbox + [Send(conn, msg)] <==> active)
      && (!active <==> r.world.outbox == w.outbox)
    ensures var other := msg.(header := msg.header.(toId := toId));
      Read(w, conn, other, active, flush, [], encode).world.outbox
        == if active then w.outbox + [Send(conn, other)] else w.outbox
  {
  }

  // ---------------------------------------------------------------- GROUP_CHAT and BROADCAST

  /**
   * GROUP_CHAT and BROADCAST leave the registry alone and write `msg`,
   * unmodified, to each registered connection once per key it holds, the
   * sender included, and to no other connection.
   */
  lemma FanOutDelivers(w: World, conn: ConnId, msg: Message, active: bool, flush: FlushResult,
                       order: seq<string>, encode: Notice -> seq<bv8>, c: ConnId)
    requires msg.header.chatType == GroupChat || msg.header.chatType == Broadcast
    requires Enumerates(order, w.registry.Keys)
    ensures var r := Read(w, conn, msg, active, flush, order, encode);
      && !r.threw
      && r.world.registry == w.registry && r.world.closed == w.closed
      && r.world.outbox[..|w.outbox|] == w.outbox
      && (forall i :: |w.outbox| <= i < |r.world.outbox| ==>
            r.world.outbox[i].msg == msg && r.world.outbox[i].conn in w.registry.Values)
      && CountTo(r.world.outbox, c) == CountTo(w.outbox, c) + |KeysOf(w.registry, c)|
  {
    var sent := FanOut(w.registry, order, msg);
    var r := Read(w, conn, msg, active, flush, order, encode);
    assert r.world.outbox == w.outbox + sent;
    FanOutSendsUnmodified(w.registry, order, msg);
    forall i | |w.outbox| <= i < |r.world.outbox|
      ensures r.world.outbox[i].msg == msg && r.world.outbox[i].conn in w.registry.Values
    {
      var j := i - |w.outbox|;
      assert r.world.outbox[i] == sent[j] == Send(w.registry[order[j]], msg);
    }
    CountToAppend(w.outbox, sent, c);
    FanOutReachesEveryEntry(w.registry, order, msg, c);
  }

  // ---------------------------------------------------------------- lifecycle and heartbeat

  /**
   * After an error the connection holds no registry entry and is closed;
   * going inactive only drops its entries. Entries of other connections stay,
   * and no key is added.
   */
  lemma CleanupDropsConnection(w: World, conn: ConnId)
    ensures var e := OnError(w, conn);
      && conn !in e.registry.Values
      && conn in e.closed && e.closed - {conn} == w.closed - {conn}
      && e.outbox == w.outbox
      && (forall k :: k in w.registry && w.registry[k] != conn ==> k in e.registry && e.registry[k] == w.registry[k])
      && (forall k :: k in e.registry <==> k in w.registry && w.registry[k] != conn)
    ensures OnInactive(w, conn) == OnError(w, conn).(closed := w.closed)
  {
  }

  /**
   * An idle event that is not ALL_IDLE is ignored; ALL_IDLE below the limit
   * only counts; ALL_IDLE at the limit deregisters and closes the connection
   * and leaves the counter where it is, which never passes the limit.
   */
  lemma UserEventRules(w: World, conn: ConnId, counter: nat, max: nat, evt: UserEvent)
    requires counter <= max
    ensures var (w', c') := OnUserEvent(w, conn, counter, max, evt);
      && c' <= max
      && (!IsAllIdle(evt) ==> w' == w && c' == counter)
      && (IsAllIdle(evt) && counter < max ==> w' == w && c' == counter + 1)
      && (IsAllIdle(evt) && counter >= max ==> w' == OnError(w, conn) && c' == counter)
  {
  }
}
