/**
 * processDNSAnswers: the loop that decides when the dns command stops waiting. It ends
 * when as many answers as provided names have arrived (nil answers included), when the
 * done channel closes, or on a tick that finds no activity since the previous tick once
 * an answer has been seen. The channels and the ticker become a sequence of events.
 */
module Quiescence {
  import opened DnsTypes

  /** What the select statement receives: done closed, a tick, an activity pulse, an answer. */
  datatype Event = Done | Tick | Pulse | Received(req: Option<Request>)

  /** The loop variables first, active and i. */
  datatype Waiting = Waiting(first: bool, active: bool, received: nat)

  datatype StopReason = AllAnswered | DoneSignal | Quiescent

  /** Still in the loop, or returned and why. */
  datatype Status = Running(w: Waiting) | Stopped(reason: StopReason)

  /** Before the first select: with no names provided the loop does not run at all. */
  function Start(expected: nat): Status
  {
    if 0 < expected then Running(Waiting(true, true, 0)) else Stopped(AllAnswered)
  }

  /** One pass of the loop body followed by the loop test i < l. */
  function Step(expected: nat, w: Waiting, e: Event): Status
  {
    match e
    case Done => Stopped(DoneSignal)
    case Tick =>
      if w.first then Running(w)
      else if w.active then Running(w.(active := false))
      else Stopped(Quiescent)
    case Pulse => Running(w.(active := true))
    case Received(_) =>
      if w.received + 1 < expected then Running(Waiting(false, true, w.received + 1))
      else Stopped(AllAnswered)
  }

  /** The events consumed and the status reached when the loop is fed the given events. */
  function Run(expected: nat, s: Status, events: seq<Event>): (r: (nat, Status))
    ensures r.0 <= |events|
    ensures r.1.Running? ==> r.0 == |events|
    ensures s.Stopped? ==> r == (0, s)
    decreases |events|
  {
    if s.Stopped? || events == [] then (0, s)
    else
      var (n, f) := Run(expected, Step(expected, s.w, events[0]), events[1..]);
      (n + 1, f)
  }

  /** The number of answers, nil ones included, among the events. */
  function CountAnswers(events: seq<Event>): nat
  {
    if events == [] then 0
    else (if events[0].Received? then 1 else 0) + CountAnswers(events[1..])
  }

  /** Loop states reachable from Start: before the first answer the flags are both set. */
  predicate Reachable(expected: nat, w: Waiting)
  {
    w.received < expected && (w.first <==> w.received == 0) && (w.first ==> w.active)
  }

  /**
   * processDNSAnswers with l = expected. When the events run out the loop is still
   * waiting in its select; the status then says in which state.
   */
  method ProcessDNSAnswers(expected: nat, events: seq<Event>) returns (consumed: nat, status: Status)
    ensures (consumed, status) == Run(expected, Start(expected), events)
  {
    var first, active := true, true;
    var i := 0;
    consumed := 0;
    while i < expected
      invariant consumed <= |events|
      invariant i < expected ==>
        var (n, f) := Run(expected, Running(Waiting(first, active, i)), events[consumed..]);
        Run(expected, Start(expected), events) == (consumed + n, f)
      invariant i >= expected ==> Run(expected, Start(expected), events) == (consumed, Stopped(AllAnswered))
      decreases |events| - consumed
    {
      if consumed == |events| {
        return consumed, Running(Waiting(first, active, i));
      }
      var e := events[consumed];
      assert events[consumed..][1..] == events[consumed + 1..];
      consumed := consumed + 1;
      match e
      case Done =>
        return consumed, Stopped(DoneSignal);
      case Tick =>
        if first {
          continue;
        } else if active {
          active := false;
          continue;
        }
        return consumed, Stopped(Quiescent);
      case Pulse =>
        active := true;
      case Received(_) =>
        i := i + 1;
        active := true;
        first := false;
    }
    status := Stopped(AllAnswered);
  }

  /** Answer events carrying the given requests, nil ones included. */
  function AnswerEvents(reqs: seq<Option<Request>>): seq<Event>
  {
    seq(|reqs|, k requires 0 <= k < |reqs| => Received(reqs[k]))
  }

  /** The loop only ever reaches states where first means "no answer yet". */
  lemma StepKeepsReachable(expected: nat, w: Waiting, e: Event)
    requires Reachable(expected, w)
    ensures Step(expected, w, e).Running? ==> Reachable(expected, Step(expected, w, e).w)
    ensures Start(expected).Running? ==> Reachable(expected, Start(expected).w)
  {
  }

  /**
   * Single-step rules: done always ends the loop; a pulse or an answer sets active; a tick
   * before any answer changes nothing; after one, a tick clears active if set and ends
   * the loop otherwise.
   */
  lemma StepRules(expected: nat, w: Waiting, e: Event)
    requires Reachable(expected, w)
    ensures e == Done ==> Step(expected, w, e) == Stopped(DoneSignal)
    ensures e == Pulse || (e.Received? && w.received + 1 < expected) ==>
      Step(expected, w, e).Running? && Step(expected, w, e).w.active
    ensures e == Tick && w.first ==> Step(expected, w, e) == Running(w)
    ensures e == Tick && !w.first && w.active ==> Step(expected, w, e) == Running(w.(active := false))
    ensures e == Tick && !w.first && !w.active ==> Step(expected, w, e) == Stopped(Quiescent)
  {
  }

  /**
   * The counter i is the number of answers received, nil ones included, and the loop
   * stops for having all answers exactly when the expected number has arrived.
   */
  lemma {:induction false} RunCountsAnswers(expected: nat, w: Waiting, events: seq<Event>)
    requires Reachable(expected, w)
    ensures var (n, f) := Run(expected, Running(w), events);
      && (f.Running? ==> f.w.received == w.received + CountAnswers(events) && Reachable(expected, f.w))
      && (f == Stopped(AllAnswered) ==> w.received + CountAnswers(events[..n]) == expected)
      && (f.Stopped? && f.reason != AllAnswered ==> w.received + CountAnswers(events[..n]) < expected)
    decreases |events|
  {
    if events != [] {
      var e := events[0];
      var (n, f) := Run(expected, Running(w), events);
      assert events[..n][1..] == events[1..][..n - 1];
      match Step(expected, w, e)
      case Stopped(_) =>
        assert n == 1;
      case Running(w') =>
        RunCountsAnswers(expected, w', events[1..]);
    }
  }

  /** From the start: the loop returns for having all answers iff l answers were consumed. */
  lemma AllAnsweredIffCount(expected: nat, events: seq<Event>)
    ensures var (n, f) := Run(expected, Start(expected), events);
      f == Stopped(AllAnswered) <==> (f.Stopped? && CountAnswers(events[..n]) == expected)
  {
    if 0 < expected {
      RunCountsAnswers(expected, Start(expected).w, events);
    }
  }

  /** The loop never reads past the l-th answer counted from state w. */
  lemma {:induction false} EnoughAnswersEndLoop(expected: nat, w: Waiting, events: seq<Event>, j: nat)
    requires Reachable(expected, w)
    requires j <= |events| && w.received + CountAnswers(events[..j]) >= expected
    ensures Run(expected, Running(w), events).1.Stopped?
    ensures Run(expected, Running(w), events).0 <= j
    decreases j
  {
    assert j > 0;
    assert events[..j][1..] == events[1..][..j - 1];
    match Step(expected, w, events[0])
    case Stopped(_) =>
    case Running(w') =>
      EnoughAnswersEndLoop(expected, w', events[1..], j - 1);
  }

  /** A closed done channel ends the loop no later than the select that sees it. */
  lemma {:induction false} DoneEndsLoop(expected: nat, s: Status, events: seq<Event>, j: nat)
    requires j < |events| && events[j] == Done
    ensures Run(expected, s, events).1.Stopped?
    ensures Run(expected, s, events).0 <= j + 1
    decreases j
  {
    if s.Running? && j > 0 {
      DoneEndsLoop(expected, Step(expected, s.w, events[0]), events[1..], j - 1);
    }
  }

  /** Until an answer arrives only done can end the loop: ticks never do. */
  lemma {:induction false} NoQuiescenceBeforeAnswer(expected: nat, w: Waiting, events: seq<Event>)
    requires Reachable(expected, w) && w.first
    requires CountAnswers(events) == 0
    ensures var (n, f) := Run(expected, Running(w), events);
      f == Running(w) || f == Stopped(DoneSignal)
    decreases |events|
  {
    if events != [] {
      match events[0]
      case Done =>
      case Tick =>
        NoQuiescenceBeforeAnswer(expected, w, events[1..]);
      case Pulse =>
        NoQuiescenceBeforeAnswer(expected, w, events[1..]);
    }
  }

  /**
   * After an answer, two ticks with no pulse or answer between them end the loop at the
   * second tick when active was set, at the first otherwise.
   */
  lemma TwoIdleTicksEndLoop(expected: nat, w: Waiting, rest: seq<Event>)
    requires Reachable(expected, w) && !w.first
    ensures Run(expected, Running(w), [Tick, Tick] + rest) ==
      (if w.active then 2 else 1, Stopped(Quiescent))
  {
  }

  /** A run of answers short of l keeps the loop going with active set and i advanced. */
  lemma {:induction false} AnswersKeepLoopActive(expected: nat, w: Waiting, reqs: seq<Option<Request>>, tail: seq<Event>)
    requires Reachable(expected, w) && 0 < |reqs| && w.received + |reqs| < expected
    ensures var (n, f) := Run(expected, Running(Waiting(false, true, w.received + |reqs|)), tail);
      Run(expected, Running(w), AnswerEvents(reqs) + tail) == (|reqs| + n, f)
    decreases |reqs|
  {
    var events := AnswerEvents(reqs) + tail;
    assert events[0] == Received(reqs[0]);
    var w' := Waiting(false, true, w.received + 1);
    if |reqs| == 1 {
      assert events[1..] == tail;
    } else {
      assert events[1..] == AnswerEvents(reqs[1..]) + tail;
      AnswersKeepLoopActive(expected, w', reqs[1..], tail);
    }
  }

  /**
   * A burst of answers short of l followed by silence ends the loop after exactly two
   * idle ticks, not one and not three.
   */
  lemma BurstThenSilence(expected: nat, reqs: seq<Option<Request>>, rest: seq<Event>)
    requires 0 < |reqs| < expected
    ensures Run(expected, Start(expected), AnswerEvents(reqs) + [Tick]) == (|reqs| + 1, Running(Waiting(false, false, |reqs|)))
    ensures Run(expected, Start(expected), AnswerEvents(reqs) + [Tick, Tick] + rest) == (|reqs| + 2, Stopped(Quiescent))
  {
    var w := Waiting(true, true, 0);
    AnswersKeepLoopActive(expected, w, reqs, [Tick]);
    AnswersKeepLoopActive(expected, w, reqs, [Tick, Tick] + rest);
    assert AnswerEvents(reqs) + [Tick, Tick] + rest == AnswerEvents(reqs) + ([Tick, Tick] + rest);
    TwoIdleTicksEndLoop(expected, Waiting(false, true, |reqs|), rest);
  }
}
