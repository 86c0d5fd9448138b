/** Ids across the whole protocol: every pair on its way to the bot is under the id of its own two tokens. */
module Identity {
  import opened Wrappers
  import opened Models
  import opened ArbServer
  import opened Provenance

  predicate Named(n: Naming, c: Cid, legs: Legs) {
    n.Names(c, legs.anchor.platform, legs.anchor.token, legs.matched.platform, legs.matched.token)
  }

  /** The bot reports a pair of a discovery list under the id that it derives from the pair's tokens. */
  predicate NamesItsReports(n: Naming, a: Action) {
    a.OnBot? && a.b.Handle? ==> forall i :: 0 <= i < |a.b.pairs| ==> Named(n, a.b.pairs[i].c, a.b.pairs[i].legs)
  }

  predicate NamedReport(n: Naming, m: BotMsg) {
    m.FoundArb? && m.payload.Some? ==> Named(n, m.c, m.payload.value)
  }

  predicate NamedMsg(n: Naming, m: ServerMsg) {
    && (m.ConfirmedAndRun? ==> Named(n, m.c, m.legs))
    && (m.RunningArbs? ==> |m.ids| == |m.arbs| && forall i :: 0 <= i < |m.ids| ==> Named(n, m.ids[i], m.arbs[i]))
  }

  predicate NamedMsgs(n: Naming, msgs: seq<ServerMsg>) {
    forall i :: 0 <= i < |msgs| ==> NamedMsg(n, msgs[i])
  }

  predicate NamedReports(n: Naming, msgs: seq<BotMsg>) {
    forall i :: 0 <= i < |msgs| ==> NamedReport(n, msgs[i])
  }

  predicate NamedRows(n: Naming, rows: Rows) {
    forall c :: c in rows && rows[c].payload.Some? ==> Named(n, c, rows[c].payload.value)
  }

  predicate NamedRecords(n: Naming, records: map<Cid, Legs>) {
    forall c :: c in records ==> Named(n, c, records[c])
  }

  ghost predicate NamedHandlers(n: Naming, handlers: multiset<Handler>) {
    forall h :: h in handlers && h.ToSend? ==> Named(n, h.c, h.legs)
  }

  ghost predicate NamedServer(n: Naming, v: Server) {
    && NamedRows(n, v.rows) && NamedHandlers(n, v.handlers)
    && NamedMsgs(n, v.commands) && NamedMsgs(n, v.replies)
  }

  ghost predicate NamedState(n: Naming, s: State) {
    && NamedServer(n, s.server) && NamedMsgs(n, s.net.toBot) && NamedReports(n, s.net.toServer)
    && NamedRecords(n, s.bot.records)
  }

  lemma ReadNamed(n: Naming, v: Server, h: Handler)
    requires NamedServer(n, v) && h.ToRead?
    ensures NamedServer(n, ReadRow(v, h))
  {
  }

  lemma SendNamed(n: Naming, v: Server, h: Handler, command: ServerMsg, next: Handler)
    requires NamedServer(n, v) && NamedMsg(n, command) && !next.ToSend?
    ensures NamedServer(n, SendCommand(v, h, command, next))
  {
  }

  lemma UpdateNamed(n: Naming, v: Server, h: Handler, rows: Rows)
    requires NamedServer(n, v) && NamedRows(n, rows)
    ensures NamedServer(n, UpdateTable(v, h, rows))
  {
  }

  lemma ProceedNamed(n: Naming, v: Server, h: Handler)
    requires NamedServer(n, v) && h in v.handlers
    ensures NamedServer(n, ProceedWith(v, h))
  {
    match h
    case ToRead(_, _) => ReadNamed(n, v, h);
    case ToSend(c, legs, shown) => SendNamed(n, v, h, ConfirmedAndRun(c, legs), ToUpdate(c, legs, shown));
    case ToSendDelete(ids) => SendNamed(n, v, h, DeleteRunning(ids), ToDelete(ids));
    case ToUpdate(c, _, _) => UpdateNamed(n, v, h, RunRow(v.rows, c));
    case ToDelete(ids) => UpdateNamed(n, v, h, DeleteRows(v.rows, ids));
  }

  lemma DashboardNamed(n: Naming, v: Server, d: DashboardAction)
    requires NamedServer(n, v)
    ensures NamedServer(n, DashboardStep(v, d))
  {
    if d.Proceed? && d.h in v.handlers {
      ProceedNamed(n, v, d.h);
    } else if d.ConfirmOnly? {
      ConfirmNamed(n, v.rows, d.c);
    } else if !d.Proceed? {
      OthersNamed(n, v, d);
    }
  }

  lemma ConfirmNamed(n: Naming, rows: Rows, c: Cid)
    requires NamedRows(n, rows)
    ensures NamedRows(n, ConfirmRow(rows, c))
  {
  }

  lemma OthersNamed(n: Naming, v: Server, d: DashboardAction)
    requires NamedServer(n, v) && !d.Proceed? && !d.ConfirmOnly?
    ensures NamedServer(n, DashboardStep(v, d))
  {
  }

  lemma ReplyNamed(n: Naming, rows: Rows, msg: BotMsg, order: seq<Cid>)
    requires NamedRows(n, rows)
    ensures NamedMsgs(n, Reply(rows, msg, order))
  {
    if msg == AskRunning(true) && Enumerates(order, rows) {
      DecodedAreExactlyTheReadable(rows, order);
    }
  }

  lemma ServerNamed(n: Naming, v: Server, inbox: seq<BotMsg>, order: seq<Cid>)
    requires NamedServer(n, v) && NamedReports(n, inbox)
    ensures NamedServer(n, ServerStep(v, inbox, order)) && NamedReports(n, InboxAfter(inbox))
  {
    if inbox != [] {
      assert NamedReport(n, inbox[0]);
      assert NamedRows(n, RowsAfter(v.rows, inbox[0]));
      ReplyNamed(n, v.rows, inbox[0], order);
    }
  }

  lemma LinkNamed(n: Naming, s: State, l: LinkAction)
    requires NamedState(n, s)
    ensures NamedState(n, LinkStep(s, l))
  {
  }

  lemma {:induction false} AcceptZipNamed(n: Naming, records: map<Cid, Legs>, ids: seq<Cid>, arbs: seq<Legs>,
                                          found: Cid -> Found)
    requires NamedRecords(n, records) && NamedMsg(n, RunningArbs(ids, arbs))
    ensures NamedRecords(n, AcceptZip(records, ids, arbs, found))
    decreases |ids|
  {
    if ids != [] && arbs != [] {
      AcceptZipNamed(n, Accept(records, Pair(ids[0], arbs[0]), found), ids[1..], arbs[1..], found);
    }
  }

  lemma {:induction false} DeletesNamed(n: Naming, ids: seq<Cid>)
    ensures NamedReports(n, Deletes(ids))
  {
    if ids != [] {
      DeletesNamed(n, ids[..|ids| - 1]);
    }
  }

  lemma {:induction false} ReportsNamed(n: Naming, pairs: seq<Pair>)
    requires forall i :: 0 <= i < |pairs| ==> Named(n, pairs[i].c, pairs[i].legs)
    ensures NamedReports(n, Reports(pairs))
  {
    if pairs != [] {
      ReportsNamed(n, pairs[..|pairs| - 1]);
    }
  }

  lemma HandleNamed(n: Naming, records: map<Cid, Legs>, msg: ServerMsg, found: Cid -> Found, pairs: seq<Pair>)
    requires NamedRecords(n, records) && NamedMsg(n, msg)
    requires forall i :: 0 <= i < |pairs| ==> Named(n, pairs[i].c, pairs[i].legs)
    ensures NamedRecords(n, RecordsAfter(records, msg, found)) && NamedReports(n, Sends(msg, found, pairs))
  {
    match msg
    case Discovery() => ReportsNamed(n, pairs);
    case ConfirmedAndRun(c, _) => DeletesNamed(n, [c]);
    case RunningArbs(ids, arbs) =>
      AcceptZipNamed(n, records, ids, arbs, found);
      DeletesNamed(n, RemovedOf(ids, arbs, found));
    case DeleteRunning(deleted) => DeletesNamed(n, deleted);
  }

  lemma BotNamed(n: Naming, s: State, b: BotAction)
    requires NamedState(n, s) && NamesItsReports(n, OnBot(b))
    ensures NamedState(n, Step(s, OnBot(b)))
  {
    if b.Handle? && s.net.toBot != [] {
      HandleNamed(n, s.bot.records, s.net.toBot[0], b.found, b.pairs);
    }
  }

  lemma StepNamed(n: Naming, s: State, a: Action)
    requires NamedState(n, s) && NamesItsReports(n, a)
    ensures NamedState(n, Step(s, a))
  {
    match a
    case OnDashboard(d) => DashboardNamed(n, s.server, d);
    case OnLink(l) => LinkNamed(n, s, l);
    case OnServer(order) => ServerNamed(n, s.server, s.net.toServer, order);
    case OnBot(b) => BotNamed(n, s, b);
  }

  /**
   Over every run of a bot that names its reports, every row, message and record is under the id of its own tokens.
   */
  lemma {:induction false} EveryRunIsNamed(n: Naming, actions: seq<Action>)
    requires forall a :: a in actions ==> NamesItsReports(n, a)
    ensures NamedState(n, Run(START, actions))
  {
    if actions != [] {
      EveryRunIsNamed(n, actions[..|actions| - 1]);
      StepNamed(n, Run(START, actions[..|actions| - 1]), actions[|actions| - 1]);
    }
  }
}
