/**
 The hand-off of execution requests between the watching and the executing task (`src/picker.rs`), with every
 access to the shared queue, `in_flight` and `cooldown` a step of its own. A run is any sequence of actions; an
 action that its task is not ready for leaves the state as it is, so the runs are all the interleavings.
 */
module Handoff {
  import opened Models

  /** The cooldown and the capacity of the request queue. */
  datatype Limits = Limits(cooldown: nat, capacity: nat)

  /**
   Where the watching task is in evaluating an id: past the in-flight check, having read an expired cooldown
   that it will remove, past the cooldown check, or having sent the request without yet marking it.
   */
  datatype CommsPc = Idle | Passed(c: Cid) | Expired(c: Cid, stamp: int) | Cleared(c: Cid) | Sent(c: Cid)

  /** The executing task waits, holds a request whose id it has not released, or is finishing one it has. */
  datatype ExecPc = Waiting | Holding(c: Cid) | Finishing

  datatype Event = Enqueued(c: Cid, at: int) | Stamped(c: Cid, at: int)

  /** `log` and `early` are history: all sends and stamps, and the ids released before they were marked. */
  datatype State = State(
    now: int, queue: seq<Cid>, inFlight: set<Cid>, cooldown: map<Cid, int>,
    comms: CommsPc, exec: ExecPc, log: seq<Event>, early: set<Cid>)

  datatype Action =
    | Tick(passed: nat)
    // watching task
    | CheckInFlight(c: Cid) | ReadCooldown | RemoveCooldown | GiveUp | TrySend | Insert | SendAndInsert
    // executing task
    | Receive | Stamp | Release | Finish

  const START := State(0, [], {}, map[], Idle, Waiting, [], {})

  function Send(limits: Limits, s: State): State {
    if !s.comms.Cleared? then s
    else if |s.queue| >= limits.capacity then s.(comms := Idle)
    else s.(queue := s.queue + [s.comms.c], comms := Sent(s.comms.c), log := s.log + [Enqueued(s.comms.c, s.now)])
  }

  function Mark(s: State): State {
    if s.comms.Sent? then s.(inFlight := s.inFlight + {s.comms.c}, comms := Idle) else s
  }

  function Step(limits: Limits, s: State, a: Action): State {
    match a
    case Tick(passed) => s.(now := s.now + passed)
    case CheckInFlight(c) => if s.comms.Idle? && c !in s.inFlight then s.(comms := Passed(c)) else s
    case ReadCooldown =>
      if !s.comms.Passed? then s
      else
        var c := s.comms.c;
        if c !in s.cooldown then s.(comms := Cleared(c))
        else if s.now < s.cooldown[c] + limits.cooldown then s.(comms := Idle)
        else s.(comms := Expired(c, s.cooldown[c]))
    case RemoveCooldown =>
      if s.comms.Expired? then s.(cooldown := s.cooldown - {s.comms.c}, comms := Cleared(s.comms.c)) else s
    case GiveUp => if s.comms.Cleared? then s.(comms := Idle) else s
    case TrySend => Send(limits, s)
    case Insert => Mark(s)
    case SendAndInsert => Mark(Send(limits, s))
    case Receive =>
      if s.exec.Waiting? && s.queue != [] then s.(exec := Holding(s.queue[0]), queue := s.queue[1..]) else s
    case Stamp =>
      if s.exec.Holding?
      then s.(cooldown := s.cooldown[s.exec.c := s.now], log := s.log + [Stamped(s.exec.c, s.now)])
      else s
    case Release =>
      if !s.exec.Holding? then s
      else
        s.(inFlight := s.inFlight - {s.exec.c}, exec := Finishing,
           early := if s.comms == Sent(s.exec.c) then s.early + {s.exec.c} else s.early)
    case Finish => if s.exec.Finishing? then s.(exec := Waiting) else s
  }

  function Run(limits: Limits, s: State, actions: seq<Action>): State {
    if actions == [] then s
    else Step(limits, Run(limits, s, actions[..|actions| - 1]), actions[|actions| - 1])
  }

  // ---- what holds in every reachable state ----

  /** The requests queued, and the one executing whose id is not yet released. */
  function Active(s: State): multiset<Cid> {
    multiset(s.queue) + if s.exec.Holding? then multiset{s.exec.c} else multiset{}
  }

  ghost predicate AtMostOne(s: State) {
    forall c :: Active(s)[c] <= 1
  }

  /** Every active id is marked in flight, but for one sent and not yet marked. */
  ghost predicate ActiveIsMarked(s: State) {
    forall c :: c in Active(s) ==> c in s.inFlight || s.comms == Sent(c)
  }

  /** In flight are the active ids and those released too early, but for one sent and not yet marked. */
  ghost predicate MarkedIsActiveOrEarly(s: State) {
    && (forall c :: c in s.inFlight ==> c in Active(s) || c in s.early)
    && (forall c :: c in s.early ==> c !in Active(s) && (c in s.inFlight || s.comms == Sent(c)))
    && (s.comms.Sent? ==> s.comms.c in Active(s) || s.comms.c in s.early)
  }

  /** An id between the in-flight check and the send is neither active nor in flight. */
  ghost predicate CheckedIsFree(s: State) {
    s.comms.Passed? || s.comms.Expired? || s.comms.Cleared? ==> s.comms.c !in Active(s) && s.comms.c !in s.inFlight
  }

  /** A cooldown about to be removed is still the one that was read, and has run out. */
  ghost predicate RemovesWhatItRead(limits: Limits, s: State) {
    s.comms.Expired? ==>
      s.comms.c in s.cooldown && s.cooldown[s.comms.c] == s.comms.stamp && s.comms.stamp + limits.cooldown <= s.now
  }

  ghost predicate RunOut(limits: Limits, s: State, e: Event) {
    e.at + limits.cooldown <= s.now
  }

  /** A stamp is still in the map, or covered by a later one, until it has run out; a cleared id has none left. */
  ghost predicate StampsHold(limits: Limits, s: State) {
    forall e :: e in s.log && e.Stamped? ==>
      && e.at <= s.now
      && ((e.c in s.cooldown && e.at <= s.cooldown[e.c]) || RunOut(limits, s, e))
      && (s.comms == Cleared(e.c) ==> RunOut(limits, s, e))
  }

  /** No request is sent within the cooldown of an earlier stamp of its id. */
  ghost predicate NoEarlyResend(limits: Limits, log: seq<Event>) {
    forall i, j :: 0 <= i < j < |log| && log[i].Stamped? && log[j].Enqueued? && log[i].c == log[j].c ==>
      log[i].at + limits.cooldown <= log[j].at
  }

  ghost predicate Counted(s: State) {
    AtMostOne(s) && ActiveIsMarked(s) && MarkedIsActiveOrEarly(s) && CheckedIsFree(s)
  }

  ghost predicate Timed(limits: Limits, s: State) {
    RemovesWhatItRead(limits, s) && StampsHold(limits, s) && NoEarlyResend(limits, s.log)
  }

  ghost predicate Inv(limits: Limits, s: State) {
    Counted(s) && Timed(limits, s)
  }

  lemma StepKeepsCounted(limits: Limits, s: State, a: Action)
    requires Counted(s)
    ensures Counted(Step(limits, s, a))
  {
    match a
    case TrySend => SendKeepsCounted(limits, s);
    case Insert => MarkKeepsCounted(s);
    case SendAndInsert =>
      SendKeepsCounted(limits, s);
      MarkKeepsCounted(Send(limits, s));
    case Receive => ReceiveKeepsCounted(limits, s);
    case Release => ReleaseKeepsCounted(limits, s);
    case _ => MoveKeepsCounted(limits, s, a);
  }

  /** The requests and the marks are left alone: only the watching task's position may move. */
  predicate MovesOnly(s: State, t: State) {
    && t.queue == s.queue && t.inFlight == s.inFlight && t.early == s.early
    && (t.exec == s.exec || (!s.exec.Holding? && !t.exec.Holding?))
    && (t.comms != s.comms ==> !s.comms.Sent? && !t.comms.Sent?)
    && (t.comms.Passed? || t.comms.Expired? || t.comms.Cleared? ==> t.comms.c !in s.inFlight)
  }

  lemma MoveMovesOnly(limits: Limits, s: State, a: Action)
    requires CheckedIsFree(s)
    requires !a.TrySend? && !a.Insert? && !a.SendAndInsert? && !a.Receive? && !a.Release?
    ensures MovesOnly(s, Step(limits, s, a))
  {
  }

  lemma MoveKeepsCounted(limits: Limits, s: State, a: Action)
    requires Counted(s)
    requires !a.TrySend? && !a.Insert? && !a.SendAndInsert? && !a.Receive? && !a.Release?
    ensures Counted(Step(limits, s, a))
  {
    MoveMovesOnly(limits, s, a);
    MovingKeepsCounted(s, Step(limits, s, a));
  }

  lemma MovingKeepsCounted(s: State, t: State)
    requires Counted(s) && MovesOnly(s, t)
    ensures Counted(t)
  {
    assert Active(t) == Active(s);
  }

  lemma ReceiveKeepsCounted(limits: Limits, s: State)
    requires Counted(s)
    ensures Counted(Step(limits, s, Receive))
  {
    if s.exec.Waiting? && s.queue != [] {
      assert s.queue == [s.queue[0]] + s.queue[1..];
      assert Active(Step(limits, s, Receive)) == Active(s);
    }
  }

  lemma ReleaseKeepsCounted(limits: Limits, s: State)
    requires Counted(s)
    ensures Counted(Step(limits, s, Release))
  {
    if s.exec.Holding? {
      var t := Step(limits, s, Release);
      assert Active(s)[s.exec.c] == 1;
      assert Active(t) == Active(s) - multiset{s.exec.c};
      assert forall c :: c in Active(t) <==> c in Active(s) && c != s.exec.c;
    }
  }

  lemma SendKeepsCounted(limits: Limits, s: State)
    requires Counted(s)
    ensures Counted(Send(limits, s))
  {
    if s.comms.Cleared? && |s.queue| < limits.capacity {
      assert Active(Send(limits, s)) == Active(s) + multiset{s.comms.c};
    }
  }

  lemma MarkKeepsCounted(s: State)
    requires Counted(s)
    ensures Counted(Mark(s))
  {
    assert Active(Mark(s)) == Active(s);
  }

  lemma StepKeepsTimed(limits: Limits, s: State, a: Action)
    requires Inv(limits, s)
    ensures Timed(limits, Step(limits, s, a))
  {
    match a
    case TrySend => SendKeepsTimed(limits, s);
    case SendAndInsert => SendKeepsTimed(limits, s);
    case Stamp => StampKeepsTimed(limits, s);
    case _ =>
  }

  lemma SendKeepsTimed(limits: Limits, s: State)
    requires Timed(limits, s)
    ensures Timed(limits, Send(limits, s))
  {
    if s.comms.Cleared? && |s.queue| < limits.capacity {
      var n, log := |s.log|, Send(limits, s).log;
      forall i | 0 <= i < n && log[i].Stamped? && log[i].c == s.comms.c ensures log[i].at + limits.cooldown <= s.now {
        assert log[i] in s.log;
      }
    }
  }

  lemma StampKeepsTimed(limits: Limits, s: State)
    requires Inv(limits, s)
    ensures Timed(limits, Step(limits, s, Stamp))
  {
    if s.exec.Holding? {
      assert s.exec.c in Active(s);
    }
  }

  lemma StepKeepsInv(limits: Limits, s: State, a: Action)
    requires Inv(limits, s)
    ensures Inv(limits, Step(limits, s, a))
  {
    StepKeepsCounted(limits, s, a);
    StepKeepsTimed(limits, s, a);
  }

  /**
   In every interleaving: at most one request per id is queued or executing before release; outside the gap
   between send and mark, every such id is in flight; no request is sent within the cooldown of an earlier
   stamp; and a removal of an expired cooldown removes the stamp it read.
   */
  lemma {:induction false} EveryRunIsSafe(limits: Limits, actions: seq<Action>)
    ensures Inv(limits, Run(limits, START, actions))
  {
    if actions != [] {
      EveryRunIsSafe(limits, actions[..|actions| - 1]);
      StepKeepsInv(limits, Run(limits, START, actions[..|actions| - 1]), actions[|actions| - 1]);
    }
  }

  // ---- when marks and activity agree exactly ----

  ghost predicate Marks(s: State) {
    forall c :: c in s.inFlight <==> c in Active(s)
  }

  /** Between evaluations, the ids in flight are exactly the active ones if and only if none was released early. */
  lemma MarksExactlyIffNoneEarly(limits: Limits, actions: seq<Action>)
    requires Run(limits, START, actions).comms.Idle?
    ensures Marks(Run(limits, START, actions)) <==> Run(limits, START, actions).early == {}
  {
    EveryRunIsSafe(limits, actions);
    var s := Run(limits, START, actions);
    if s.early != {} {
      var c :| c in s.early;
      assert c in s.inFlight && c !in Active(s);
    }
  }

  /** An id becomes early only by being released while it is sent and not yet marked. */
  lemma EarlyOnlyInTheGap(limits: Limits, s: State, a: Action, c: Cid)
    requires c !in s.early
    ensures c in Step(limits, s, a).early <==> a.Release? && s.exec == Holding(c) && s.comms == Sent(c)
  {
  }

  /** No send waits to be marked, and nothing was released before it was. */
  predicate NoGap(s: State) {
    s.early == {} && !s.comms.Sent?
  }

  lemma OneStepSendKeepsNoGap(limits: Limits, s: State, a: Action)
    requires NoGap(s) && !a.TrySend?
    ensures NoGap(Step(limits, s, a))
  {
  }

  /** With the send and the mark in one step, the ids in flight are exactly the active ones, always. */
  lemma {:induction false} OneStepSendMarksExactly(limits: Limits, actions: seq<Action>)
    requires forall a :: a in actions ==> !a.TrySend?
    ensures NoGap(Run(limits, START, actions)) && Marks(Run(limits, START, actions))
  {
    EveryRunIsSafe(limits, actions);
    if actions != [] {
      var init, last := actions[..|actions| - 1], actions[|actions| - 1];
      OneStepSendMarksExactly(limits, init);
      assert last in actions;
      OneStepSendKeepsNoGap(limits, Run(limits, START, init), last);
    }
    NoGapMarks(limits, Run(limits, START, actions));
  }

  lemma NoGapMarks(limits: Limits, s: State)
    requires Inv(limits, s) && NoGap(s)
    ensures Marks(s)
  {
  }

  // ---- what an early release costs ----

  ghost predicate NoneSent(c: Cid, log: seq<Event>) {
    forall i :: 0 <= i < |log| ==> !(log[i].Enqueued? && log[i].c == c)
  }

  /** One step of the log: nothing, a stamp, or a request for another id. */
  ghost predicate LogsNoRequest(before: seq<Event>, after: seq<Event>, c: Cid) {
    after == before || exists e :: after == before + [e] && !(e.Enqueued? && e.c == c)
  }

  lemma SendSparesEarly(limits: Limits, s: State, c: Cid)
    requires CheckedIsFree(s) && MarkedIsActiveOrEarly(s) && c in s.early
    ensures c in Send(limits, s).early && LogsNoRequest(s.log, Send(limits, s).log, c)
  {
    if s.comms.Cleared? && |s.queue| < limits.capacity {
      assert s.comms.c != c;
      assert Send(limits, s).log == s.log + [Enqueued(s.comms.c, s.now)];
    }
  }

  lemma StampSparesEarly(limits: Limits, s: State, c: Cid)
    requires c in s.early
    ensures c in Step(limits, s, Stamp).early && LogsNoRequest(s.log, Step(limits, s, Stamp).log, c)
  {
    if s.exec.Holding? {
      assert Step(limits, s, Stamp).log == s.log + [Stamped(s.exec.c, s.now)];
    }
  }

  lemma OthersSpareEarly(limits: Limits, s: State, a: Action, c: Cid)
    requires c in s.early && !a.TrySend? && !a.SendAndInsert? && !a.Stamp?
    ensures c in Step(limits, s, a).early && Step(limits, s, a).log == s.log
  {
  }

  lemma EarlyStays(limits: Limits, s: State, a: Action, c: Cid)
    requires Inv(limits, s) && c in s.early
    ensures c in Step(limits, s, a).early && LogsNoRequest(s.log, Step(limits, s, a).log, c)
  {
    match a
    case TrySend => SendSparesEarly(limits, s, c);
    case SendAndInsert => SendSparesEarly(limits, s, c);
    case Stamp => StampSparesEarly(limits, s, c);
    case _ => OthersSpareEarly(limits, s, a, c);
  }

  lemma NoneSentOneMore(log: seq<Event>, before: seq<Event>, after: seq<Event>, c: Cid)
    requires log <= before && NoneSent(c, before[|log|..]) && LogsNoRequest(before, after, c)
    ensures log <= after && NoneSent(c, after[|log|..])
  {
    if after != before {
      var e :| after == before + [e] && !(e.Enqueued? && e.c == c);
      assert after[|log|..] == before[|log|..] + [e];
    }
  }

  /** An id released early is never requested again: once made, its mark is never lifted. */
  lemma {:induction false} EarlyIsForever(limits: Limits, s: State, actions: seq<Action>, c: Cid)
    requires Inv(limits, s) && c in s.early
    ensures var t := Run(limits, s, actions);
            Inv(limits, t) && c in t.early && s.log <= t.log && NoneSent(c, t.log[|s.log|..])
  {
    if actions != [] {
      var init, last := actions[..|actions| - 1], actions[|actions| - 1];
      var m := Run(limits, s, init);
      EarlyIsForever(limits, s, init, c);
      StepKeepsInv(limits, m, last);
      EarlyStays(limits, m, last, c);
      NoneSentOneMore(s.log, m.log, Step(limits, m, last).log, c);
    }
  }

  lemma RunOneMore(limits: Limits, s: State, actions: seq<Action>, a: Action)
    ensures Run(limits, s, actions + [a]) == Step(limits, Run(limits, s, actions), a)
  {
    assert (actions + [a])[..|actions|] == actions;
  }

  /** A request that is in the queue and not yet marked. */
  function Unmarked(c: Cid): State {
    START.(queue := [c], comms := Sent(c), log := [Enqueued(c, 0)])
  }

  lemma UnmarkedHappens(limits: Limits, c: Cid)
    requires 0 < limits.capacity
    ensures Run(limits, START, [CheckInFlight(c), ReadCooldown, TrySend]) == Unmarked(c)
  {
    var a1 := [CheckInFlight(c)];
    var a2 := a1 + [ReadCooldown];
    assert [CheckInFlight(c), ReadCooldown, TrySend] == a2 + [TrySend];
    assert [] + a1 == a1;
    RunOneMore(limits, START, [], CheckInFlight(c));
    RunOneMore(limits, START, a1, ReadCooldown);
    RunOneMore(limits, START, a2, TrySend);
  }

  lemma ReleasedUnmarked(limits: Limits, c: Cid)
    ensures var taken := Step(limits, Unmarked(c), Receive);
            var released := Step(limits, taken, Release);
            Step(limits, released, Insert)
            == Unmarked(c).(queue := [], inFlight := {c}, comms := Idle, exec := Finishing, early := {c})
  {
  }

  /** The gap is real: a request can be taken and released between its send and its mark. */
  lemma EarlyReleaseHappens(limits: Limits, c: Cid)
    requires 0 < limits.capacity
    ensures var s := Run(limits, START, [CheckInFlight(c), ReadCooldown, TrySend, Receive, Release, Insert]);
            s.comms.Idle? && s.early == {c} && c in s.inFlight && c !in Active(s)
  {
    var a3 := [CheckInFlight(c), ReadCooldown, TrySend];
    var a4 := a3 + [Receive];
    var a5 := a4 + [Release];
    assert [CheckInFlight(c), ReadCooldown, TrySend, Receive, Release, Insert] == a5 + [Insert];
    UnmarkedHappens(limits, c);
    ReleasedUnmarked(limits, c);
    RunOneMore(limits, START, a3, Receive);
    RunOneMore(limits, START, a4, Release);
    RunOneMore(limits, START, a5, Insert);
  }

  // ---- the tasks go on ----

  lemma RunTwo(limits: Limits, s: State, a: Action, b: Action)
    ensures Run(limits, s, [a, b]) == Step(limits, Step(limits, s, a), b)
  {
    assert [a, b][..1] == [a] && [a][..0] == [];
    assert Run(limits, s, [a]) == Step(limits, Run(limits, s, []), a);
  }

  /** An executor that holds no request takes the oldest one next, whatever it did before. */
  lemma ExecutorGoesOn(limits: Limits, s: State)
    requires !s.exec.Holding? && s.queue != []
    ensures var t := Run(limits, s, [Finish, Receive]);
            t.exec == Holding(s.queue[0]) && t.queue == s.queue[1..]
            && t.inFlight == s.inFlight && t.cooldown == s.cooldown && t.log == s.log
  {
    RunTwo(limits, s, Finish, Receive);
  }

  /** Sending and marking in one step is the two steps with nothing between them. */
  lemma MergedIsBoth(limits: Limits, s: State)
    requires s.comms.Cleared?
    ensures Step(limits, s, SendAndInsert) == Run(limits, s, [TrySend, Insert])
    ensures var t := Step(limits, s, SendAndInsert);
            && t.comms.Idle?
            && (|s.queue| < limits.capacity ==> t.queue == s.queue + [s.comms.c] && s.comms.c in t.inFlight)
            && (|s.queue| >= limits.capacity ==> t == s.(comms := Idle))
  {
    RunTwo(limits, s, TrySend, Insert);
  }

  /** A request's whole way: checked, sent, marked, received, cooled down, released. */
  const ONE_ROUND: seq<Action> := [TrySend, Insert, Receive, Stamp, Release, Finish]

  /** The id is past both checks and nothing else goes on. */
  function Ready(c: Cid, now: int, log: seq<Event>): State {
    State(now, [], {}, map[], Cleared(c), Waiting, log, {})
  }

  lemma {:induction false} RunConcat(limits: Limits, s: State, first: seq<Action>, second: seq<Action>)
    ensures Run(limits, s, first + second) == Run(limits, Run(limits, s, first), second)
  {
    if second == [] {
      assert first + second == first;
    } else {
      var n := |second| - 1;
      assert (first + second)[..|first| + n] == first + second[..n];
      RunConcat(limits, s, first, second[..n]);
    }
  }

  lemma RoundHappens(limits: Limits, c: Cid, now: int, log: seq<Event>)
    requires 0 < limits.capacity
    ensures Run(limits, Ready(c, now, log), ONE_ROUND)
            == State(now, [], {}, map[c := now], Idle, Waiting, log + [Enqueued(c, now), Stamped(c, now)], {})
  {
    var s := Ready(c, now, log);
    assert ONE_ROUND == [TrySend, Insert] + ([Receive, Stamp] + [Release, Finish]);
    RunConcat(limits, s, [TrySend, Insert], [Receive, Stamp] + [Release, Finish]);
    RunTwo(limits, s, TrySend, Insert);
    var marked := State(now, [c], {c}, map[], Idle, Waiting, log + [Enqueued(c, now)], {});
    assert Run(limits, s, [TrySend, Insert]) == marked;
    StampedHappens(limits, marked, c);
  }

  lemma StampedHappens(limits: Limits, s: State, c: Cid)
    requires s.queue == [c] && s.inFlight == {c} && s.cooldown == map[] && s.comms.Idle? && s.exec.Waiting?
    ensures Run(limits, s, [Receive, Stamp] + [Release, Finish])
            == s.(queue := [], inFlight := {}, cooldown := map[c := s.now], log := s.log + [Stamped(c, s.now)])
  {
    RunConcat(limits, s, [Receive, Stamp], [Release, Finish]);
    RunTwo(limits, s, Receive, Stamp);
    var stamped := s.(queue := [], cooldown := map[c := s.now], exec := Holding(c), log := s.log + [Stamped(c, s.now)]);
    assert Run(limits, s, [Receive, Stamp]) == stamped;
    RunTwo(limits, stamped, Release, Finish);
  }

  /** Both checks of an id whose cooldown has run out. */
  const CHECKS_AGAIN: seq<Action> := [ReadCooldown, RemoveCooldown]

  lemma ChecksPassAgain(limits: Limits, s: State, c: Cid, passed: nat)
    requires s.inFlight == {} && s.cooldown == map[c := s.now] && s.comms.Idle? && limits.cooldown <= passed
    ensures Run(limits, s, [Tick(passed), CheckInFlight(c)] + CHECKS_AGAIN)
            == s.(now := s.now + passed, cooldown := map[], comms := Cleared(c))
  {
    RunConcat(limits, s, [Tick(passed), CheckInFlight(c)], CHECKS_AGAIN);
    RunTwo(limits, s, Tick(passed), CheckInFlight(c));
    var checked := s.(now := s.now + passed, comms := Passed(c));
    assert Run(limits, s, [Tick(passed), CheckInFlight(c)]) == checked;
    RunTwo(limits, checked, ReadCooldown, RemoveCooldown);
  }

  /** The same id again: once its cooldown has passed it is requested, received, cooled down and released anew. */
  function TwoRounds(c: Cid, passed: nat): seq<Action> {
    [CheckInFlight(c), ReadCooldown] + ONE_ROUND + ([Tick(passed), CheckInFlight(c)] + CHECKS_AGAIN) + ONE_ROUND
  }

  lemma RequestedAgain(limits: Limits, c: Cid, passed: nat)
    requires 0 < limits.capacity && limits.cooldown <= passed
    ensures Run(limits, START, TwoRounds(c, passed)).log
            == [Enqueued(c, 0), Stamped(c, 0), Enqueued(c, passed), Stamped(c, passed)]
    ensures Run(limits, START, TwoRounds(c, passed)).exec.Waiting?
  {
    var checks, again := [CheckInFlight(c), ReadCooldown], [Tick(passed), CheckInFlight(c)] + CHECKS_AGAIN;
    RunTwo(limits, START, CheckInFlight(c), ReadCooldown);
    assert Run(limits, START, checks) == Ready(c, 0, []);
    RunConcat(limits, START, checks, ONE_ROUND);
    RoundHappens(limits, c, 0, []);
    var once := Run(limits, START, checks + ONE_ROUND);
    RunConcat(limits, START, checks + ONE_ROUND, again);
    ChecksPassAgain(limits, once, c, passed);
    RunConcat(limits, START, checks + ONE_ROUND + again, ONE_ROUND);
    RoundHappens(limits, c, passed, once.log);
  }
}
