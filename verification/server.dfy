/**
 * The handler as the Java code runs it: one `ServerHandler` object per
 * connection, holding its own missed-heartbeat counter, and two objects
 * shared by all handlers, the static channel map of `ChannelManager` and
 * the transport on which writes are issued and connections closed. Each
 * callback is proved to move the shared state exactly as the matching
 * function of module Session says.
 */
module Server {
  import opened Ids
  import opened Protocol
  import opened Registry
  import opened Session

  /** `ChannelManager`: the process-wide map from account-id text to connection. */
  class ChannelManager {
    var channelMap: Sessions

    constructor()
      ensures channelMap == map[]
    {
      channelMap := map[];
    }

    /** `channelMap.put(key, c)`. */
    method Put(key: string, c: ConnId)
      modifies this
      ensures channelMap == old(channelMap)[key := c]
    {
      channelMap := channelMap[key := c];
    }

    /** `channelMap.remove(key)`. */
    method Remove(key: string)
      modifies this
      ensures channelMap == old(channelMap) - {key}
    {
      channelMap := channelMap - {key};
    }

    /** `ChannelManager.removeChannel(c)`. */
    method RemoveChannel(c: ConnId)
      modifies this
      ensures channelMap == Registry.RemoveChannel(old(channelMap), c)
      ensures c !in channelMap.Values
    {
      channelMap := Registry.RemoveChannel(channelMap, c);
    }
  }

  /** The channels as the handler sees them: the writes it issued and the closes it asked for. */
  class Transport {
    var closed: set<ConnId>
    var outbox: seq<Send>

    constructor()
      ensures closed == {} && outbox == []
    {
      closed, outbox := {}, [];
    }

    /** `c.writeAndFlush(m)`. */
    method WriteAndFlush(c: ConnId, m: Message)
      modifies this
      ensures outbox == old(outbox) + [Send(c, m)] && closed == old(closed)
    {
      outbox := outbox + [Send(c, m)];
    }

    /** `c.close()`. */
    method Close(c: ConnId)
      modifies this
      ensures closed == old(closed) + {c} && outbox == old(outbox)
    {
      closed := closed + {c};
    }
  }

  class ServerHandler {
    /** The connection this handler serves (`ctx.channel()`). */
    const channel: ConnId
    const manager: ChannelManager
    const transport: Transport
    /** `PropertyUtils.MAX_UN_REC_PING_TIMES`. */
    const maxUnRecPingTimes: nat
    /** ALL_IDLE events counted so far. */
    var unRecPingTimes: nat

    ghost predicate Valid()
      reads this
    {
      unRecPingTimes <= maxUnRecPingTimes
    }

    /** The shared state as one value. */
    function State(): World
      reads manager, transport
    {
      World(manager.channelMap, transport.closed, transport.outbox)
    }

    constructor(channel: ConnId, manager: ChannelManager, transport: Transport, maxUnRecPingTimes: nat)
      ensures Valid() && unRecPingTimes == 0
      ensures this.channel == channel && this.manager == manager && this.transport == transport
      ensures this.maxUnRecPingTimes == maxUnRecPingTimes
    {
      this.channel := channel;
      this.manager := manager;
      this.transport := transport;
      this.maxUnRecPingTimes := maxUnRecPingTimes;
      unRecPingTimes := 0;
    }

    /**
     * The two identical `while (it.hasNext())` loops of GROUP_CHAT and
     * BROADCAST: write `msg` to the connection of every registry entry.
     * `order` is the order the iterator happened to visit the keys in.
     */
    method WriteToAll(msg: Message) returns (ghost order: seq<string>)
      modifies transport
      ensures Enumerates(order, manager.channelMap.Keys)
      ensures transport.outbox == old(transport.outbox) + FanOut(manager.channelMap, order, msg)
      ensures transport.closed == old(transport.closed)
    {
      var entries := manager.channelMap;
      var remaining := entries.Keys;
      order := [];
      while remaining != {}
        invariant manager.channelMap == entries
        invariant remaining <= entries.Keys
        invariant forall k :: k in order ==> k in entries && k !in remaining
        invariant forall k :: k in entries ==> k in order || k in remaining
        invariant Distinct(order)
        invariant transport.outbox == old(transport.outbox) + FanOut(entries, order, msg)
        invariant transport.closed == old(transport.closed)
        decreases remaining
      {
        var key :| key in remaining;
        transport.WriteAndFlush(entries[key], msg);
        ghost var next := order + [key];
        assert next[..|next| - 1] == order;
        assert FanOut(entries, next, msg) == FanOut(entries, order, msg) + [Send(entries[key], msg)];
        assert key !in order;
        order := next;
        remaining := remaining - {key};
      }
    }

    /**
     * `channelRead`. `active` is `channel.isActive()`; `flush` is how the eviction
     * write's `sync()` turned out; `threw` reports that it rethrew.
     */
    method ChannelRead(msg: Message, active: bool, flush: FlushResult, encode: Notice -> seq<bv8>)
      returns (threw: bool, ghost order: seq<string>)
      modifies manager, transport
      ensures forall k :: k in order ==> k in old(manager.channelMap)
      ensures msg.header.chatType in {GroupChat, Broadcast} ==> Enumerates(order, old(manager.channelMap).Keys)
      ensures msg.header.chatType !in {GroupChat, Broadcast} ==> order == []
      ensures ReadResult(State(), threw) == Read(old(State()), channel, msg, active, flush, order, encode)
      ensures unRecPingTimes == old(unRecPingTimes)
    {
      var header := msg.header;
      var chatType := header.chatType;
      threw, order := false, [];
      if chatType == Ping {
        return;
      }
      if chatType == Login {
        var fromKey := ValueOf(header.fromId);
        var toKey := ValueOf(header.toId);
        ParseValueOf(header.fromId);
        ParseValueOf(header.toId);
        var message := msg;
        if fromKey in manager.channelMap {
          var ch := manager.channelMap[fromKey];
          var content := encode(DisplacedNotice);
          message := message.(content := content);
          header := header.(length := |content|);
          header := header.(toId := ParseInt(fromKey).value);
          header := header.(fromId := ParseInt(toKey).value);
          message := message.(header := header);
          transport.WriteAndFlush(ch, message);
          if flush == Raised {
            threw := true;
            return;
          }
          if flush == Flushed {
            transport.Close(ch);
          }
          manager.Remove(fromKey);
        }
        manager.Put(fromKey, channel);
        var content := encode(LoggedInNotice);
        message := message.(content := content);
        header := header.(length := |content|);
        header := header.(toId := ParseInt(fromKey).value);
        header := header.(fromId := ParseInt(toKey).value);
        message := message.(header := header);
        transport.WriteAndFlush(channel, message);
      } else if chatType == Chat {
        if active {
          transport.WriteAndFlush(channel, msg);
        }
      } else if chatType == GroupChat {
        order := WriteToAll(msg);
      } else if chatType == Broadcast {
        order := WriteToAll(msg);
      }
    }

    /** `exceptionCaught`: deregister this connection and close it. */
    method ExceptionCaught()
      modifies manager, transport
      ensures State() == OnError(old(State()), channel)
      ensures unRecPingTimes == old(unRecPingTimes)
    {
      manager.RemoveChannel(channel);
      transport.Close(channel);
    }

    /** `channelInactive`: deregister this connection. */
    method ChannelInactive()
      modifies manager
      ensures State() == OnInactive(old(State()), channel)
      ensures unRecPingTimes == old(unRecPingTimes)
    {
      manager.RemoveChannel(channel);
    }

    /** `userEventTriggered`: count ALL_IDLE events and evict once the limit is reached. */
    method UserEventTriggered(evt: UserEvent)
      requires Valid()
      modifies this, manager, transport
      ensures Valid()
      ensures (State(), unRecPingTimes)
        == OnUserEvent(old(State()), channel, old(unRecPingTimes), maxUnRecPingTimes, evt)
    {
      if evt.IdleStateEvent? {
        if evt.state == AllIdle {
          if unRecPingTimes >= maxUnRecPingTimes {
            manager.RemoveChannel(channel);
            transport.Close(channel);
          } else {
            unRecPingTimes := unRecPingTimes + 1;
          }
        }
      }
    }

    /**
     * One inbound message through the pipeline: `channelRead`, and, when it
     * throws, `exceptionCaught` of this same handler.
     */
    method Receive(msg: Message, active: bool, flush: FlushResult, encode: Notice -> seq<bv8>)
      returns (ghost order: seq<string>)
      modifies manager, transport
      ensures forall k :: k in order ==> k in old(manager.channelMap)
      ensures msg.header.chatType in {GroupChat, Broadcast} ==> Enumerates(order, old(manager.channelMap).Keys)
      ensures msg.header.chatType !in {GroupChat, Broadcast} ==> order == []
      ensures var r := Read(old(State()), channel, msg, active, flush, order, encode);
        State() == if r.threw then OnError(r.world, channel) else r.world
    {
      var threw;
      threw, order := ChannelRead(msg, active, flush, encode);
      if threw {
        ExceptionCaught();
      }
    }
  }

  /**
   * Accounts 1 and 2 log in on C1 and C2; account 1 logs in again on C3,
   * which displaces and closes C1 and leaves account 2 where it was.
   */
  method ExampleSession(encode: Notice -> seq<bv8>)
  {
    var manager := new ChannelManager();
    var transport := new Transport();
    var c1, c2, c3 := ConnId(1), ConnId(2), ConnId(3);
    var h1 := new ServerHandler(c1, manager, transport, 3);
    var h2 := new ServerHandler(c2, manager, transport, 3);
    var h3 := new ServerHandler(c3, manager, transport, 3);
    assert ValueOf(1) == "1" && ValueOf(2) == "2";

    var login1 := Message(Header(Login, 1, 0, 0), []);
    ghost var w0 := h1.State();
    var threw, order := h1.ChannelRead(login1, true, Flushed, encode);
    LoginInstallsSession(w0, c1, login1, true, [], Flushed, encode);
    LoginFresh(w0, c1, login1, true, [], Flushed, encode);
    assert manager.channelMap == map["1" := c1];

    var login2 := Message(Header(Login, 2, 0, 0), []);
    ghost var w1 := h2.State();
    threw, order := h2.ChannelRead(login2, true, Flushed, encode);
    LoginInstallsSession(w1, c2, login2, true, [], Flushed, encode);
    LoginFresh(w1, c2, login2, true, [], Flushed, encode);
    assert manager.channelMap == map["1" := c1, "2" := c2];
    assert transport.closed == {};

    var login3 := Message(Header(Login, 1, 0, 0), []);
    ghost var w3 := h3.State();
    threw, order := h3.ChannelRead(login3, true, Flushed, encode);
    LoginInstallsSession(w3, c3, login3, true, [], Flushed, encode);
    LoginDisplaces(w3, c3, login3, true, [], Flushed, encode);
    assert c1 in transport.closed;
    assert manager.channelMap == map["1" := c3, "2" := c2];
  }
}
