// The health checker: a coroutine that pings, a coroutine that checks every two intervals
// whether anything came back, and their two timers, over real time.

module HealthCheck {

  /** `resp_`: no nodes, some nodes, or an error reply. */
  datatype Reply = Empty | HasValue | HasError

  /** ping_op: waiting for the reply to a PING, or waiting to send the next one. */
  datatype Ping = Executing(since: real) | Pausing(until: real) | PingOff

  /** check_timeout_op: waiting for its timer; done after cancel(run); or done without it. */
  datatype Check = Waiting(until: real) | TimedOut(at: real) | CheckOff

  /** `lastPong` is the time of the last reply, or of the start before there is one. */
  datatype Health = Health(interval: real, now: real, ping: Ping, check: Check, reply: Reply, exited: bool, lastPong: real)

  datatype Event =
    | Pong(t: real, error: bool)
    | ExecFailed(t: real)
    | PingDue(t: real)
    | Tick(t: real)
    | Pass(t: real) // nothing happens until then

  /** The reply vector is not cleared when a new check begins. */
  function Begin(interval: real, leftover: Reply): Health {
    Health(interval, 0.0, Executing(0.0), Waiting(2.0 * interval), leftover, false, 0.0)
  }

  /** Timers are ideal: time does not pass one that is due. A value cannot be added to a reply
      that holds an error. */
  predicate Possible(h: Health, e: Event) {
    && h.now <= e.t
    && (h.check.Waiting? ==> e.t <= h.check.until)
    && (h.ping.Pausing? ==> e.t <= h.ping.until)
    && match e
       case Pong(_, error) => h.ping.Executing? && (error || !h.reply.HasError?)
       case ExecFailed(_) => h.ping.Executing?
       case PingDue(t) => h.ping == Pausing(t)
       case Tick(t) => h.check == Waiting(t)
       case Pass(_) => true
  }

  /** When the check is over, the group both coroutines run in ends the other one as well. */
  function OnTick(h: Health): Health {
    match h.reply
    case HasError => h.(check := CheckOff, ping := PingOff)
    case Empty => h.(check := TimedOut(h.now), exited := true, ping := PingOff)
    case HasValue => h.(check := Waiting(h.now + 2.0 * h.interval), reply := Empty)
  }

  function Step(h: Health, e: Event): Health {
    var h := h.(now := e.t);
    match e
    case Pong(t, error) =>
      h.(ping := Pausing(t + h.interval), reply := if error then HasError else HasValue, lastPong := t)
    case ExecFailed(_) => h.(ping := PingOff, check := if h.check.Waiting? then CheckOff else h.check)
    case PingDue(t) => h.(ping := if h.exited then PingOff else Executing(t))
    case Tick(_) => OnTick(h)
    case Pass(_) => h
  }

  class HealthChecker {
    const interval: real
    var now: real
    var ping: Ping
    var check: Check
    var reply: Reply
    var exited: bool
    ghost var lastPong: real

    ghost function Model(): Health
      reads this
    {
      Health(interval, now, ping, check, reply, exited, lastPong)
    }

    constructor (i: real, leftover: Reply)
      ensures Model() == Begin(i, leftover)
    {
      interval, now, ping, check := i, 0.0, Executing(0.0), Waiting(2.0 * i);
      reply, exited, lastPong := leftover, false, 0.0;
    }

    method OnPong(t: real, error: bool)
      requires Possible(Model(), Pong(t, error))
      modifies this
      ensures Model() == Step(old(Model()), Pong(t, error))
    {
      now, lastPong := t, t;
      reply := if error then HasError else HasValue;
      ping := Pausing(t + interval);
    }

    method OnExecFailed(t: real)
      requires Possible(Model(), ExecFailed(t))
      modifies this
      ensures Model() == Step(old(Model()), ExecFailed(t))
    {
      now := t;
      if check.Waiting? {
        check := CheckOff;
      }
      ping := PingOff;
    }

    method OnPingTimer(t: real)
      requires Possible(Model(), PingDue(t))
      modifies this
      ensures Model() == Step(old(Model()), PingDue(t))
    {
      now := t;
      if exited {
        ping := PingOff;
        return;
      }
      ping := Executing(t);
    }

    /** `cancelRun` says that the connection is told to give up. */
    method OnCheckTimer(t: real) returns (cancelRun: bool)
      requires Possible(Model(), Tick(t))
      modifies this
      ensures Model() == Step(old(Model()), Tick(t))
      ensures cancelRun <==> check.TimedOut?
    {
      now := t;
      if reply.HasError? {
        check, ping := CheckOff, PingOff;
        return false;
      }
      if reply.Empty? {
        ping := PingOff;
        exited := true;
        check := TimedOut(t);
        return true;
      }
      reply := Empty;
      check := Waiting(t + 2.0 * interval);
      return false;
    }
  }

  // ---- Runs

  predicate Runs(h: Health, events: seq<Event>)
    decreases |events|
  {
    events == [] || (Possible(h, events[0]) && Runs(Step(h, events[0]), events[1..]))
  }

  function End(h: Health, events: seq<Event>): Health
    decreases |events|
  {
    if events == [] then h else End(Step(h, events[0]), events[1..])
  }

  /** Where the last reply lies, seen from the check timer and from the pinging coroutine. */
  ghost predicate Timing(h: Health) {
    var i := h.interval;
    && i > 0.0 && h.lastPong <= h.now && (h.exited ==> !h.check.Waiting?)
    && (match h.check
        case Waiting(u) =>
          && u - 2.0 * i <= h.now <= u
          && (if h.reply.Empty? then u - 4.0 * i <= h.lastPong <= u - 2.0 * i else u - 2.0 * i <= h.lastPong)
        case TimedOut(at) => at - 4.0 * i <= h.lastPong <= at - 2.0 * i && h.ping.PingOff?
        case CheckOff => h.ping.PingOff?)
    && (match h.ping
        case Executing(since) => since == h.lastPong + i || since == h.lastPong == 0.0
        case Pausing(u) => u == h.lastPong + i && h.now <= u
        case PingOff => !h.check.Waiting?)
  }

  lemma TimingStep(h: Health, e: Event)
    requires Timing(h) && Possible(h, e)
    ensures Timing(Step(h, e)) && Step(h, e).interval == h.interval
  {
  }

  lemma {:induction false} TimingRun(h: Health, events: seq<Event>)
    requires Timing(h) && Runs(h, events)
    ensures Timing(End(h, events)) && End(h, events).interval == h.interval
    decreases |events|
  {
    if events != [] {
      TimingStep(h, events[0]);
      TimingRun(Step(h, events[0]), events[1..]);
    }
  }

  // ---- A server that answers is left alone

  /** At every event while the check goes on, less than two intervals have passed since the last
      reply, or since the start: all gaps between replies are below two intervals. */
  predicate Prompt(h: Health, events: seq<Event>)
    decreases |events|
  {
    || events == []
    || ((h.check.Waiting? ==> events[0].t - h.lastPong < 2.0 * h.interval) && Prompt(Step(h, events[0]), events[1..]))
  }

  /** At every event, a PING in progress is less than one interval old. */
  predicate Fast(h: Health, events: seq<Event>)
    decreases |events|
  {
    || events == []
    || ((h.ping.Executing? ==> events[0].t - h.ping.since < h.interval) && Fast(Step(h, events[0]), events[1..]))
  }

  lemma {:induction false} FastIsPrompt(h: Health, events: seq<Event>)
    requires Timing(h) && Runs(h, events) && Fast(h, events)
    ensures Prompt(h, events)
    decreases |events|
  {
    if events != [] {
      TimingStep(h, events[0]);
      FastIsPrompt(Step(h, events[0]), events[1..]);
    }
  }

  lemma {:induction false} PromptRun(h: Health, events: seq<Event>)
    requires Timing(h) && !h.check.TimedOut? && Runs(h, events) && Prompt(h, events)
    ensures !End(h, events).check.TimedOut?
    decreases |events|
  {
    if events != [] {
      TimingStep(h, events[0]);
      PromptRun(Step(h, events[0]), events[1..]);
    }
  }

  /** With all gaps between replies below two intervals the check never gives up; replies that
      take less than one interval are enough for that. */
  lemma NoFalseAlarm(interval: real, leftover: Reply, events: seq<Event>)
    requires interval > 0.0 && Runs(Begin(interval, leftover), events)
    requires Prompt(Begin(interval, leftover), events) || Fast(Begin(interval, leftover), events)
    ensures !End(Begin(interval, leftover), events).check.TimedOut?
  {
    if Fast(Begin(interval, leftover), events) {
      FastIsPrompt(Begin(interval, leftover), events);
    }
    PromptRun(Begin(interval, leftover), events);
  }

  // ---- A server that is silent is given up

  predicate IsFailure(e: Event) {
    e.ExecFailed? || (e.Pong? && e.error)
  }

  predicate Orderly(events: seq<Event>) {
    forall k :: 0 <= k < |events| ==> !IsFailure(events[k])
  }

  lemma {:induction false} OrderlyRun(h: Health, events: seq<Event>)
    requires !h.reply.HasError? && !h.check.CheckOff? && Runs(h, events) && Orderly(events)
    ensures var h' := End(h, events); !h'.reply.HasError? && !h'.check.CheckOff?
    decreases |events|
  {
    if events != [] {
      assert !IsFailure(events[0]);
      OrderlyRun(Step(h, events[0]), events[1..]);
    }
  }

  /** If replies stop, cancel(run) follows: once the last reply, or the start, is more than four
      intervals ago the check has given up, not sooner than two intervals after it and not later
      than four. */
  lemma SilenceIsDetected(interval: real, leftover: Reply, events: seq<Event>)
    requires interval > 0.0 && Runs(Begin(interval, leftover), events)
    requires !leftover.HasError? && Orderly(events)
    ensures var h := End(Begin(interval, leftover), events);
            && (h.now - h.lastPong > 4.0 * interval ==> h.check.TimedOut?)
            && (h.check.TimedOut? ==> 2.0 * interval <= h.check.at - h.lastPong <= 4.0 * interval)
  {
    TimingRun(Begin(interval, leftover), events);
    OrderlyRun(Begin(interval, leftover), events);
  }

  /** The check ends without cancelling the connection only after an error reply, possibly one
      left over from an earlier check, or a PING that failed. */
  lemma CheckEndsQuietly(interval: real, leftover: Reply, events: seq<Event>)
    requires Runs(Begin(interval, leftover), events) && End(Begin(interval, leftover), events).check.CheckOff?
    ensures leftover.HasError? || exists k :: 0 <= k < |events| && IsFailure(events[k])
  {
    if !leftover.HasError? && Orderly(events) {
      OrderlyRun(Begin(interval, leftover), events);
    }
  }

  lemma {:induction false} RunsOn(h: Health, e: Event, events: seq<Event>)
    requires Possible(h, e) && Runs(Step(h, e), events)
    ensures Runs(h, [e] + events) && End(h, [e] + events) == End(Step(h, e), events)
  {
    assert ([e] + events)[1..] == events;
  }

  predicate IsSilent(e: Event) {
    e.PingDue? || e.Tick?
  }

  predicate Silent(events: seq<Event>) {
    forall k :: 0 <= k < |events| ==> IsSilent(events[k])
  }

  /** Time never gets stuck: from every state of a check that goes on, with nothing but the
      timers firing, it comes to the point of giving up. */
  lemma SilenceCanLast(h: Health) returns (events: seq<Event>)
    requires Timing(h) && h.check.Waiting? && !h.reply.HasError?
    ensures Runs(h, events) && Silent(events) && End(h, events).check.TimedOut?
    decreases if h.reply.HasValue? then 1 else 0, if h.ping.Pausing? then 1 else 0
  {
    if h.ping.Pausing? && h.ping.until <= h.check.until {
      var e := PingDue(h.ping.until);
      TimingStep(h, e);
      var more := SilenceCanLast(Step(h, e));
      RunsOn(h, e, more);
      events := [e] + more;
    } else {
      var e := Tick(h.check.until);
      TimingStep(h, e);
      var more := [];
      if h.reply.HasValue? {
        more := SilenceCanLast(Step(h, e));
      }
      RunsOn(h, e, more);
      events := [e] + more;
    }
  }

  /** Interval 10: an error reply at 5 ends the check at 20, and nothing is cancelled. */
  lemma ErrorEndsCheck() returns (events: seq<Event>)
    ensures Runs(Begin(10.0, Empty), events) && End(Begin(10.0, Empty), events).check.CheckOff?
  {
    var h0 := Begin(10.0, Empty);
    var h1 := Step(h0, Pong(5.0, true));
    var h2 := Step(h1, PingDue(15.0));
    var e2 := [Tick(20.0)] + [];
    RunsOn(h2, Tick(20.0), []);
    var e1 := [PingDue(15.0)] + e2;
    RunsOn(h1, PingDue(15.0), e2);
    events := [Pong(5.0, true)] + e1;
    RunsOn(h0, Pong(5.0, true), e1);
  }

  // ---- How old a PING may get

  /** The first PING is still waited for: how far the check has got. */
  ghost predicate FirstPing(h: Health, leftover: Reply) {
    h.ping == Executing(0.0) && h.check.Waiting? ==>
      || (h.check.until == 2.0 * h.interval && h.reply == leftover)
      || (h.check.until == 4.0 * h.interval && h.reply.Empty? && leftover.HasValue?)
  }

  lemma {:induction false} FirstPingRun(h: Health, events: seq<Event>, leftover: Reply)
    requires Timing(h) && 0.0 <= h.lastPong && FirstPing(h, leftover) && Runs(h, events)
    ensures FirstPing(End(h, events), leftover)
    decreases |events|
  {
    if events != [] {
      TimingStep(h, events[0]);
      FirstPingRun(Step(h, events[0]), events[1..], leftover);
    }
  }

  /** The check gives up on a PING in progress. The first one is then exactly two intervals old,
      or four when a reply was left over from an earlier check. Any other is between one and three
      intervals old, and at least the documented two if and only if the last reply came at least
      one interval before the check that preceded this one. */
  lemma AgeOfPing(interval: real, leftover: Reply, events: seq<Event>, t: real)
    requires interval > 0.0 && Runs(Begin(interval, leftover), events)
    requires var h := End(Begin(interval, leftover), events); Possible(h, Tick(t)) && Step(h, Tick(t)).check.TimedOut?
    ensures var h := End(Begin(interval, leftover), events);
            && h.ping.Executing?
            && var age := t - h.ping.since;
               if h.ping.since == 0.0 then age == if leftover.HasValue? then 4.0 * interval else 2.0 * interval
               else
                 && interval <= age <= 3.0 * interval
                 && (age >= 2.0 * interval <==> h.lastPong + interval <= t - 2.0 * interval)
  {
    TimingRun(Begin(interval, leftover), events);
    FirstPingRun(Begin(interval, leftover), events, leftover);
  }

  /** Nor is a PING other than the first ever waited for longer than that. */
  lemma PingIsNotWaitedForLonger(interval: real, leftover: Reply, events: seq<Event>)
    requires interval > 0.0 && Runs(Begin(interval, leftover), events)
    ensures var h := End(Begin(interval, leftover), events);
            h.check.Waiting? && h.ping.Executing? && h.ping.since != 0.0 ==> h.now - h.ping.since <= 3.0 * interval
  {
    TimingRun(Begin(interval, leftover), events);
  }

  /** Interval 10: the connection is given up at 40 for a PING sent at 29. */
  lemma GivenUpEarly() returns (events: seq<Event>)
    ensures Runs(Begin(10.0, Empty), events)
    ensures var h := End(Begin(10.0, Empty), events);
            h.ping == Executing(29.0) && Possible(h, Tick(40.0)) && Step(h, Tick(40.0)).check == TimedOut(40.0)
  {
    var h0 := Begin(10.0, Empty);
    var h1 := Step(h0, Pong(19.0, false));
    var h2 := Step(h1, Tick(20.0));
    var e2 := [PingDue(29.0)] + [];
    RunsOn(h2, PingDue(29.0), []);
    var e1 := [Tick(20.0)] + e2;
    RunsOn(h1, Tick(20.0), e2);
    events := [Pong(19.0, false)] + e1;
    RunsOn(h0, Pong(19.0, false), e1);
  }

  /** Interval 10: a PING sent at 30 is still waited for at 60. */
  lemma GivenUpLate() returns (events: seq<Event>)
    ensures Runs(Begin(10.0, Empty), events)
    ensures var h := End(Begin(10.0, Empty), events);
            h.ping == Executing(30.0) && Possible(h, Tick(60.0)) && Step(h, Tick(60.0)).check == TimedOut(60.0)
  {
    var h0 := Begin(10.0, Empty);
    var h1 := Step(h0, Pong(10.0, false));
    var h2 := Step(h1, PingDue(20.0));
    var h3 := Step(h2, Tick(20.0));
    var h4 := Step(h3, Pong(20.0, false));
    var h5 := Step(h4, PingDue(30.0));
    var e5 := [Tick(40.0)] + [];
    RunsOn(h5, Tick(40.0), []);
    var e4 := [PingDue(30.0)] + e5;
    RunsOn(h4, PingDue(30.0), e5);
    var e3 := [Pong(20.0, false)] + e4;
    RunsOn(h3, Pong(20.0, false), e4);
    var e2 := [Tick(20.0)] + e3;
    RunsOn(h2, Tick(20.0), e3);
    var e1 := [PingDue(20.0)] + e2;
    RunsOn(h1, PingDue(20.0), e2);
    events := [Pong(10.0, false)] + e1;
    RunsOn(h0, Pong(10.0, false), e1);
  }
}
