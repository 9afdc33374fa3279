/**
 * The missed-heartbeat counter of one connection (`unRecPingTimes`) and the
 * configured limit (`PropertyUtils.MAX_UN_REC_PING_TIMES`, a parameter here).
 * Only an ALL_IDLE idle-state event moves it; nothing ever resets it.
 */
module Heartbeat {
  import opened Protocol

  predicate IsAllIdle(evt: UserEvent)
  {
    evt.IdleStateEvent? && evt.state == AllIdle
  }

  /**
   * One `userEventTriggered` call on the counter: the new counter, and
   * whether the connection is deregistered and closed.
   */
  function Tick(counter: nat, max: nat, evt: UserEvent): (nat, bool)
  {
    if !IsAllIdle(evt) then (counter, false)
    else if counter >= max then (counter, true)
    else (counter + 1, false)
  }

  /**
   * One step keeps the counter within the limit and never lowers it; an
   * event that is not ALL_IDLE leaves it as it was and closes nothing.
   */
  lemma TickBounded(counter: nat, max: nat, evt: UserEvent)
    requires counter <= max
    ensures counter <= Tick(counter, max, evt).0 <= max
    ensures !IsAllIdle(evt) ==> Tick(counter, max, evt) == (counter, false)
    ensures Tick(counter, max, evt).1 <==> IsAllIdle(evt) && counter == max
    ensures Tick(counter, max, evt).0 == counter + 1 <==> IsAllIdle(evt) && counter < max
  {
  }

  function CountAllIdle(evts: seq<UserEvent>): nat
    decreases |evts|
  {
    if evts == [] then 0
    else CountAllIdle(evts[..|evts| - 1]) + (if IsAllIdle(evts[|evts| - 1]) then 1 else 0)
  }

  /** A run of events from counter `counter`: the final counter and how many closes it caused. */
  function Run(counter: nat, max: nat, evts: seq<UserEvent>): (nat, nat)
    decreases |evts|
  {
    if evts == [] then (counter, 0)
    else
      var (c, closes) := Run(counter, max, evts[..|evts| - 1]);
      var (c', close) := Tick(c, max, evts[|evts| - 1]);
      (c', closes + if close then 1 else 0)
  }

  /**
   * Over any run, the counter absorbs the first `max - counter` ALL_IDLE
   * events and every ALL_IDLE event after those closes the connection; no
   * other event matters.
   */
  lemma {:induction false} RunExact(counter: nat, max: nat, evts: seq<UserEvent>)
    requires counter <= max
    ensures var n := counter + CountAllIdle(evts);
      Run(counter, max, evts) == (if n <= max then (n, 0) else (max, n - max))
    decreases |evts|
  {
    if evts != [] {
      RunExact(counter, max, evts[..|evts| - 1]);
    }
  }

  /**
   * From a fresh counter, a connection is closed by the monitor iff it has
   * seen more than `max` ALL_IDLE events, however much traffic came between.
   */
  lemma EvictedIffOverLimit(max: nat, evts: seq<UserEvent>)
    ensures Run(0, max, evts).1 > 0 <==> CountAllIdle(evts) > max
    ensures Run(0, max, evts).0 <= max
  {
    RunExact(0, max, evts);
  }
}
