/** The two tasks' own code, run without interruption, takes exactly the steps of the hand-off. */
module Tasks {
  import opened Models
  import opened Quotes
  import opened WatchIndex
  import opened Evaluation
  import opened PickerExec
  import Handoff

  function RequestIds(requests: seq<ExecutionRequest>): seq<Cid> {
    seq(|requests|, i requires 0 <= i < |requests| => requests[i].cid)
  }

  /** The hand-off state shows the same queue, marks and cooldowns as the shared state. */
  ghost predicate Mirrors(s: Handoff.State, desk: Desk) {
    && s.queue == RequestIds(desk.queue)
    && s.inFlight == desk.inFlight
    && s.cooldown == desk.cooldown
  }

  /** No cooldown was stamped in the future. */
  ghost predicate StampedByNow(s: Handoff.State) {
    forall c :: c in s.cooldown ==> s.cooldown[c] <= s.now
  }

  /** Past the in-flight and cooldown checks, the pair would be requested. */
  predicate Tradable(config: Config, records: Records, quotes: Quotes, c: Cid, clock: Clock) {
    && c in records
    && !TooCloseToExpiry(config, records[c], clock.utcMs)
    && Quoted(quotes, records[c])
    && 0.0 < UnitCost(quotes, records[c]) < 0.95
  }

  function ChecksOf(c: Cid): seq<Handoff.Action> {
    [Handoff.CheckInFlight(c), Handoff.ReadCooldown, Handoff.RemoveCooldown]
  }

  function EvaluationActions(c: Cid, tradable: bool): seq<Handoff.Action> {
    ChecksOf(c)
      + if tradable then [Handoff.TrySend, Handoff.Insert] else [Handoff.GiveUp]
  }

  lemma RunOne(limits: Handoff.Limits, s: Handoff.State, a: Handoff.Action)
    ensures Handoff.Run(limits, s, [a]) == Handoff.Step(limits, s, a)
  {
    assert [a][..0] == [];
  }

  lemma RunThree(limits: Handoff.Limits, s: Handoff.State, a: Handoff.Action, b: Handoff.Action, c: Handoff.Action)
    ensures Handoff.Run(limits, s, [a, b, c])
            == Handoff.Step(limits, Handoff.Step(limits, Handoff.Step(limits, s, a), b), c)
  {
    assert [a, b, c][..2] == [a, b];
    Handoff.RunTwo(limits, s, a, b);
  }

  /** The checks end cleared exactly when the id is neither in flight nor cooling, with an expired cooldown removed. */
  lemma ChecksAreARun(config: Config, before: Desk, c: Cid, clock: Clock, s: Handoff.State)
    requires Mirrors(s, before) && s.comms.Idle? && s.now == clock.mono && StampedByNow(s)
    ensures Handoff.Run(Handoff.Limits(config.cooldown, config.capacity), s, ChecksOf(c)) ==
            s.(cooldown := if Thaws(config, before, c, clock) then before.cooldown - {c} else before.cooldown,
               comms := if c in before.inFlight || Cooling(config, before, c, clock)
                        then Handoff.Idle else Handoff.Cleared(c))
  {
    RunThree(Handoff.Limits(config.cooldown, config.capacity), s, Handoff.CheckInFlight(c), Handoff.ReadCooldown,
             Handoff.RemoveCooldown);
  }

  /** One evaluation, whatever its outcome, is a run of the watching task's steps. */
  lemma EvaluationIsARun(config: Config, records: Records, quotes: Quotes, before: Desk, after: Desk, c: Cid,
                         clock: Clock, s: Handoff.State)
    requires Evaluated(config, records, quotes, before, after, c, clock) && before.open
    requires Mirrors(s, before) && s.comms.Idle? && s.now == clock.mono && StampedByNow(s)
    ensures var t := Handoff.Run(Handoff.Limits(config.cooldown, config.capacity), s,
                                 EvaluationActions(c, Tradable(config, records, quotes, c, clock)));
            Mirrors(t, after) && t.comms.Idle? && t.exec == s.exec && t.early == s.early
  {
    var limits := Handoff.Limits(config.cooldown, config.capacity);
    ChecksAreARun(config, before, c, clock, s);
    var checked := Handoff.Run(limits, s, ChecksOf(c));
    assert |s.queue| == |before.queue|;
    if Tradable(config, records, quotes, c, clock) {
      Handoff.RunConcat(limits, s, ChecksOf(c), [Handoff.TrySend, Handoff.Insert]);
      Handoff.RunTwo(limits, checked, Handoff.TrySend, Handoff.Insert);
      RequestIdsOneMore(before.queue, RequestFor(quotes, c, records[c]));
    } else {
      Handoff.RunConcat(limits, s, ChecksOf(c), [Handoff.GiveUp]);
      RunOne(limits, checked, Handoff.GiveUp);
    }
  }

  lemma RequestIdsOneMore(requests: seq<ExecutionRequest>, r: ExecutionRequest)
    ensures RequestIds(requests + [r]) == RequestIds(requests) + [r.cid]
  {
  }

  function ActionOf(access: Access): Handoff.Action {
    if access.StampCooldown? then Handoff.Stamp else Handoff.Release
  }

  function ActionsOf(trace: seq<Access>): seq<Handoff.Action> {
    seq(|trace|, i requires 0 <= i < |trace| => ActionOf(trace[i]))
  }

  /** The accesses of a handled request are a run of the executing task's steps, and end with its id released. */
  lemma HandlingIsARun(limits: Handoff.Limits, s: Handoff.State, before: Desk, after: Desk, c: Cid, coolsDown: bool,
                       trace: seq<Access>)
    requires Mirrors(s, before) && s.exec == Handoff.Holding(c)
    requires trace == (if coolsDown then [StampCooldown(c)] else []) + [ReleaseInFlight(c)]
    requires after.queue == before.queue && after.inFlight == before.inFlight - {c}
    requires after.cooldown == if coolsDown then before.cooldown[c := s.now] else before.cooldown
    ensures var t := Handoff.Run(limits, s, ActionsOf(trace));
            Mirrors(t, after) && t.exec.Finishing? && t.comms == s.comms
  {
    if coolsDown {
      assert ActionsOf(trace) == [Handoff.Stamp, Handoff.Release];
      Handoff.RunTwo(limits, s, Handoff.Stamp, Handoff.Release);
    } else {
      assert ActionsOf(trace) == [Handoff.Release];
      RunOne(limits, s, Handoff.Release);
    }
  }
}
