/**
 The review protocol end to end: pages, dashboard handlers, table, two lossy FIFO directions, and the bot
 (`web/server/handlers.go`, `web/server/grpc.go`, `src/grpc.rs`, `src/picker.rs`). A run is any sequence of
 actions; one that is not possible leaves the state as it is. Handlers interleave at every access.
 */
module Provenance {
  import opened Wrappers
  import opened Models
  import opened ArbServer

  const COMMANDS_CAPACITY := 512

  datatype Pair = Pair(c: Cid, legs: Legs)

  /**
   A dashboard handler between two of its accesses. The request of a click carries an id and no legs; `shown`, the
   legs on the page that was clicked, is history that no handler reads.
   */
  datatype Handler =
    | ToRead(c: Cid, shown: Legs)
    | ToSend(c: Cid, legs: Legs, shown: Legs)
    | ToUpdate(c: Cid, legs: Legs, shown: Legs)
    | ToSendDelete(ids: seq<Cid>)
    | ToDelete(ids: seq<Cid>)

  /** `pages` are the review pages open in browsers; `commands` and `replies` wait to be streamed to the bot. */
  datatype Server = Server(
    rows: Rows, pages: set<Pair>, handlers: multiset<Handler>, commands: seq<ServerMsg>, replies: seq<ServerMsg>)

  /** The two directions of the stream. */
  datatype Net = Net(toBot: seq<ServerMsg>, toServer: seq<BotMsg>)

  /** `asked` is whether the bot has asked for the running arbs since it started. */
  datatype Bot = Bot(records: map<Cid, Legs>, requests: seq<Pair>, orders: seq<Pair>, asked: bool)

  /** The pages clicked, and what the click that last set a row running had been shown. No step reads it. */
  datatype History = History(confirmed: set<Pair>, ranFor: map<Cid, Legs>)

  datatype State = State(server: Server, net: Net, bot: Bot, history: History)

  /** What find_arb comes to for one pair: registered, dropped, or removed for closing soon. */
  datatype Found = Registered | Dropped | Removed

  /** Human, handlers and server process. A handler proceeds to its next access, or gives up. */
  datatype DashboardAction =
    | View(c: Cid) | Click(page: Pair) | ConfirmOnly(c: Cid) | AskDelete(ids: seq<Cid>) | SubmitHit
    | Proceed(h: Handler) | Abandon(h: Handler) | RestartServer

  datatype LinkAction = ForwardCommand | ForwardReply | LoseToBot(i: nat) | LoseToServer(i: nat)

  /**
   What a message makes the bot do depends on the venues: what they find of a pair, and the pairs of a discovery list.
   */
  datatype BotAction =
    | AskRunningArbs | ReportOther | Handle(found: Cid -> Found, pairs: seq<Pair>)
    | Unwatch(c: Cid) | Request(c: Cid) | Trade | Decline | RestartBot

  datatype Action =
    | OnDashboard(d: DashboardAction) | OnLink(l: LinkAction) | OnServer(order: seq<Cid>) | OnBot(b: BotAction)

  const START := State(Server(map[], {}, multiset{}, [], []), Net([], []), Bot(map[], [], [], false),
                       History({}, map[]))

  // ---- dashboard ----

  function Next(v: Server, h: Handler, next: Handler): multiset<Handler> {
    v.handlers - multiset{h} + multiset{next}
  }

  function ReadRow(v: Server, h: Handler): Server
    requires h.ToRead?
  {
    if h.c in v.rows && v.rows[h.c].payload.Some?
    then v.(handlers := Next(v, h, ToSend(h.c, v.rows[h.c].payload.value, h.shown)))
    else v.(handlers := v.handlers - multiset{h})
  }

  function SendCommand(v: Server, h: Handler, command: ServerMsg, next: Handler): Server {
    if |v.commands| >= COMMANDS_CAPACITY then v
    else v.(commands := v.commands + [command], handlers := Next(v, h, next))
  }

  function UpdateTable(v: Server, h: Handler, rows: Rows): Server {
    v.(rows := rows, handlers := v.handlers - multiset{h})
  }

  /** The next access of a handler. */
  function ProceedWith(v: Server, h: Handler): Server {
    match h
    case ToRead(_, _) => ReadRow(v, h)
    case ToSend(c, legs, shown) => SendCommand(v, h, ConfirmedAndRun(c, legs), ToUpdate(c, legs, shown))
    case ToSendDelete(ids) => SendCommand(v, h, DeleteRunning(ids), ToDelete(ids))
    case ToUpdate(c, _, _) => UpdateTable(v, h, RunRow(v.rows, c))
    case ToDelete(ids) => UpdateTable(v, h, DeleteRows(v.rows, ids))
  }

  /** A page is rendered from the row; its button is there unless the row runs. */
  function Viewed(v: Server, c: Cid): Server {
    if c in v.rows && v.rows[c].payload.Some? && !v.rows[c].running
    then v.(pages := v.pages + {Pair(c, v.rows[c].payload.value)})
    else v
  }

  function DashboardStep(v: Server, d: DashboardAction): Server {
    match d
    case View(c) => Viewed(v, c)
    case Click(page) =>
      if page in v.pages then v.(handlers := v.handlers + multiset{ToRead(page.c, page.legs)}) else v
    case ConfirmOnly(c) => v.(rows := ConfirmRow(v.rows, c))
    case AskDelete(ids) => v.(handlers := v.handlers + multiset{ToSendDelete(ids)})
    case SubmitHit =>
      if |v.commands| < COMMANDS_CAPACITY then v.(commands := v.commands + [ServerMsg.Discovery]) else v
    case Proceed(h) => if h in v.handlers then ProceedWith(v, h) else v
    case Abandon(h) => v.(handlers := v.handlers - multiset{h})
    case RestartServer => v.(handlers := multiset{}, commands := [], replies := [])
  }

  function Recorded(v: Server, history: History, d: DashboardAction): History {
    match d
    case Click(page) =>
      if page in v.pages then history.(confirmed := history.confirmed + {page}) else history
    case Proceed(h) =>
      if h in v.handlers && h.ToUpdate? then history.(ranFor := history.ranFor[h.c := h.shown]) else history
    case _ => history
  }

  // ---- server ----

  /** The reply to a message of the bot, as a list of at most one. */
  function Reply(rows: Rows, msg: BotMsg, order: seq<Cid>): seq<ServerMsg> {
    if msg == AskRunning(true) && Enumerates(order, rows)
    then
      DecodedAreExactlyTheReadable(rows, order);
      var ids := Decoded(rows, order);
      [RunningArbs(ids, Payloads(rows, ids))]
    else []
  }

  /** It is the reply that the server's own message step makes. */
  lemma ReplyIsTheServers(rows: Rows, msg: BotMsg, order: seq<Cid>, reply: Option<ServerMsg>)
    ensures RepliesTo(rows, msg, order, reply) <==>
            Reply(rows, msg, order) == if reply.Some? then [reply.value] else []
  {
    if msg == AskRunning(true) && Enumerates(order, rows) {
      DecodedAreExactlyTheReadable(rows, order);
      var ids := Decoded(rows, order);
      if RepliesTo(rows, msg, order, reply) {
        assert reply.value.arbs == Payloads(rows, ids);
      }
    }
  }

  /** One access of the server's receive loop: a message, or the next statement of a delete by the bot. */
  function Serve(v: Server, msg: BotMsg, order: seq<Cid>): Server {
    match msg
    case DeleteArbs(deleted) => if deleted == [] then v else v.(rows := v.rows - {deleted[0]})
    case _ => v.(rows := RowsAfter(v.rows, msg), replies := v.replies + Reply(v.rows, msg, order))
  }

  function InboxAfter(inbox: seq<BotMsg>): seq<BotMsg> {
    if inbox == [] then []
    else
      match inbox[0]
      case DeleteArbs(deleted) => (if |deleted| > 1 then [BotMsg.DeleteArbs(deleted[1..])] else []) + inbox[1..]
      case _ => inbox[1..]
  }

  function ServerStep(v: Server, inbox: seq<BotMsg>, order: seq<Cid>): Server {
    if inbox == [] then v else Serve(v, inbox[0], order)
  }

  function ServeTimes(v: Server, inbox: seq<BotMsg>, n: nat, order: seq<Cid>): (Server, seq<BotMsg>)
    decreases n
  {
    if n == 0 then (v, inbox) else ServeTimes(ServerStep(v, inbox, order), InboxAfter(inbox), n - 1, order)
  }

  /** The first statement of a delete. */
  lemma OneRowDeleted(v: Server, deleted: seq<Cid>, rest: seq<BotMsg>, order: seq<Cid>)
    requires deleted != []
    ensures var inbox := [BotMsg.DeleteArbs(deleted)] + rest;
            && ServerStep(v, inbox, order) == v.(rows := v.rows - {deleted[0]})
            && InboxAfter(inbox) == (if |deleted| > 1 then [BotMsg.DeleteArbs(deleted[1..])] else []) + rest
  {
    assert ([BotMsg.DeleteArbs(deleted)] + rest)[1..] == rest;
  }

  lemma RestDeleted(rows: Rows, deleted: seq<Cid>)
    requires deleted != []
    ensures DeleteRows(rows - {deleted[0]}, deleted[1..]) == DeleteRows(rows, deleted)
  {
    assert deleted == [deleted[0]] + deleted[1..];
    assert Members(deleted) == {deleted[0]} + Members(deleted[1..]);
  }

  /** The statements of a delete, one by one, remove exactly the listed rows. */
  lemma {:induction false} DeletesRowByRow(v: Server, deleted: seq<Cid>, rest: seq<BotMsg>, order: seq<Cid>)
    requires deleted != []
    ensures ServeTimes(v, [BotMsg.DeleteArbs(deleted)] + rest, |deleted|, order)
            == (v.(rows := DeleteRows(v.rows, deleted)), rest)
    decreases |deleted|
  {
    var t := v.(rows := v.rows - {deleted[0]});
    OneRowDeleted(v, deleted, rest, order);
    RestDeleted(v.rows, deleted);
    if |deleted| == 1 {
      var inbox := [BotMsg.DeleteArbs(deleted)] + rest;
      assert Members(deleted[1..]) == {} && DeleteRows(t.rows, deleted[1..]) == t.rows;
      assert InboxAfter(inbox) == rest;
      assert ServeTimes(v, inbox, 1, order) == ServeTimes(t, rest, 0, order) == (t, rest);
    } else {
      DeletesRowByRow(t, deleted[1..], rest, order);
    }
  }

  // ---- stream ----

  function Without<T>(s: seq<T>, i: nat): seq<T>
    requires i < |s|
  {
    s[..i] + s[i + 1..]
  }

  function LinkStep(s: State, l: LinkAction): State {
    match l
    case ForwardCommand =>
      if s.server.commands == [] then s
      else
        s.(net := s.net.(toBot := s.net.toBot + [s.server.commands[0]]),
           server := s.server.(commands := s.server.commands[1..]))
    case ForwardReply =>
      if s.server.replies == [] then s
      else
        s.(net := s.net.(toBot := s.net.toBot + [s.server.replies[0]]),
           server := s.server.(replies := s.server.replies[1..]))
    case LoseToBot(i) =>
      if i < |s.net.toBot| then s.(net := s.net.(toBot := Without(s.net.toBot, i))) else s
    case LoseToServer(i) =>
      if i < |s.net.toServer| then s.(net := s.net.(toServer := Without(s.net.toServer, i))) else s
  }

  // ---- bot ----

  function Accept(records: map<Cid, Legs>, p: Pair, found: Cid -> Found): map<Cid, Legs> {
    match found(p.c)
    case Registered => records[p.c := p.legs]
    case Dropped => records
    case Removed => records - {p.c}
  }

  /** The pairs of a reply, cut to the shorter list as zipping does. */
  function AcceptZip(records: map<Cid, Legs>, ids: seq<Cid>, arbs: seq<Legs>, found: Cid -> Found): map<Cid, Legs>
    decreases |ids|
  {
    if ids == [] || arbs == [] then records
    else AcceptZip(Accept(records, Pair(ids[0], arbs[0]), found), ids[1..], arbs[1..], found)
  }

  function RecordsAfter(records: map<Cid, Legs>, msg: ServerMsg, found: Cid -> Found): map<Cid, Legs> {
    match msg
    case Discovery() => records
    case ConfirmedAndRun(c, legs) => Accept(records, Pair(c, legs), found)
    case RunningArbs(ids, arbs) => AcceptZip(records, ids, arbs, found)
    case DeleteRunning(deleted) => records - Members(deleted)
  }

  /** One delete message an id. */
  function Deletes(ids: seq<Cid>): seq<BotMsg> {
    if ids == [] then [] else Deletes(ids[..|ids| - 1]) + [BotMsg.DeleteArbs([ids[|ids| - 1]])]
  }

  function RemovedOf(ids: seq<Cid>, arbs: seq<Legs>, found: Cid -> Found): seq<Cid>
    decreases |ids|
  {
    if ids == [] || arbs == [] then []
    else (if found(ids[0]).Removed? then [ids[0]] else []) + RemovedOf(ids[1..], arbs[1..], found)
  }

  function Reports(pairs: seq<Pair>): seq<BotMsg> {
    if pairs == [] then []
    else Reports(pairs[..|pairs| - 1]) + [FoundArb(pairs[|pairs| - 1].c, Some(pairs[|pairs| - 1].legs), true)]
  }

  /**
   What the bot sends on a message: pairs for a discovery list, and a delete for every id it is told to drop or drops.
   */
  function Sends(msg: ServerMsg, found: Cid -> Found, pairs: seq<Pair>): seq<BotMsg> {
    match msg
    case Discovery() => Reports(pairs)
    case ConfirmedAndRun(c, _) => if found(c).Removed? then Deletes([c]) else []
    case RunningArbs(ids, arbs) => Deletes(RemovedOf(ids, arbs, found))
    case DeleteRunning(deleted) => Deletes(deleted)
  }

  function BotStep(bot: Bot, toBot: seq<ServerMsg>, b: BotAction): Bot {
    match b
    case AskRunningArbs => bot.(asked := true)
    case ReportOther => bot
    case Handle(found, _) =>
      if toBot == [] then bot else bot.(records := RecordsAfter(bot.records, toBot[0], found))
    case Unwatch(c) => bot.(records := bot.records - {c})
    case Request(c) =>
      if c in bot.records then bot.(requests := bot.requests + [Pair(c, bot.records[c])]) else bot
    case Trade =>
      if bot.requests == [] then bot
      else bot.(requests := bot.requests[1..], orders := bot.orders + [bot.requests[0]])
    case Decline => if bot.requests == [] then bot else bot.(requests := bot.requests[1..])
    case RestartBot => bot.(records := map[], requests := [], asked := false)
  }

  function NetStep(net: Net, asked: bool, b: BotAction): Net {
    match b
    case AskRunningArbs => if asked then net else net.(toServer := net.toServer + [AskRunning(true)])
    case ReportOther => net.(toServer := net.toServer + [OtherReport])
    case Handle(found, pairs) =>
      if net.toBot == [] then net
      else Net(net.toBot[1..], net.toServer + Sends(net.toBot[0], found, pairs))
    case _ => net
  }

  // ---- runs ----

  function Step(s: State, a: Action): State {
    match a
    case OnDashboard(d) =>
      s.(server := DashboardStep(s.server, d), history := Recorded(s.server, s.history, d))
    case OnLink(l) => LinkStep(s, l)
    case OnServer(order) =>
      s.(server := ServerStep(s.server, s.net.toServer, order),
         net := s.net.(toServer := InboxAfter(s.net.toServer)))
    case OnBot(b) => s.(bot := BotStep(s.bot, s.net.toBot, b), net := NetStep(s.net, s.bot.asked, b))
  }

  function Run(s: State, actions: seq<Action>): State {
    if actions == [] then s else Step(Run(s, actions[..|actions| - 1]), actions[|actions| - 1])
  }

  // ---- provenance ----

  /** How much of what is traded must have been confirmed: its id, or its id with these very legs. */
  datatype Grain = ById | ByLegs

  ghost predicate Attested(g: Grain, confirmed: set<Pair>, p: Pair) {
    match g
    case ById => exists q :: q in confirmed && q.c == p.c
    case ByLegs => p in confirmed
  }

  ghost predicate RowAttested(g: Grain, confirmed: set<Pair>, c: Cid, row: Row) {
    row.running ==>
      && (exists q :: q in confirmed && q.c == c)
      && (row.payload.Some? ==> Attested(g, confirmed, Pair(c, row.payload.value)))
  }

  ghost predicate HandlerAttested(g: Grain, confirmed: set<Pair>, h: Handler) {
    && (h.ToRead? || h.ToSend? || h.ToUpdate? ==> Pair(h.c, h.shown) in confirmed)
    && (h.ToSend? || h.ToUpdate? ==> Attested(g, confirmed, Pair(h.c, h.legs)))
  }

  ghost predicate MsgAttested(g: Grain, confirmed: set<Pair>, m: ServerMsg) {
    && (m.ConfirmedAndRun? ==> Attested(g, confirmed, Pair(m.c, m.legs)))
    && (m.RunningArbs? ==>
          && |m.ids| == |m.arbs|
          && forall i :: 0 <= i < |m.ids| ==> Attested(g, confirmed, Pair(m.ids[i], m.arbs[i])))
  }

  ghost predicate AllRows(g: Grain, confirmed: set<Pair>, rows: Rows) {
    forall c :: c in rows ==> RowAttested(g, confirmed, c, rows[c])
  }

  ghost predicate AllHandlers(g: Grain, confirmed: set<Pair>, handlers: multiset<Handler>) {
    forall h :: h in handlers ==> HandlerAttested(g, confirmed, h)
  }

  ghost predicate AllMsgs(g: Grain, confirmed: set<Pair>, msgs: seq<ServerMsg>) {
    forall i :: 0 <= i < |msgs| ==> MsgAttested(g, confirmed, msgs[i])
  }

  ghost predicate AllRecords(g: Grain, confirmed: set<Pair>, records: map<Cid, Legs>) {
    forall c :: c in records ==> Attested(g, confirmed, Pair(c, records[c]))
  }

  ghost predicate AllPairs(g: Grain, confirmed: set<Pair>, pairs: seq<Pair>) {
    forall i :: 0 <= i < |pairs| ==> Attested(g, confirmed, pairs[i])
  }

  ghost predicate ServerSide(g: Grain, confirmed: set<Pair>, v: Server) {
    && AllRows(g, confirmed, v.rows) && AllHandlers(g, confirmed, v.handlers)
    && AllMsgs(g, confirmed, v.commands) && AllMsgs(g, confirmed, v.replies)
  }

  ghost predicate BotSide(g: Grain, confirmed: set<Pair>, bot: Bot) {
    && AllRecords(g, confirmed, bot.records)
    && AllPairs(g, confirmed, bot.requests) && AllPairs(g, confirmed, bot.orders)
  }

  /** Running rows, messages, records, requests and orders all trace back to a human confirmation. */
  ghost predicate Traceable(g: Grain, s: State) {
    && ServerSide(g, s.history.confirmed, s.server) && AllMsgs(g, s.history.confirmed, s.net.toBot)
    && BotSide(g, s.history.confirmed, s.bot)
  }

  /** The row a click is about to read shows other legs than its page did. */
  predicate ReadsAnother(v: Server, d: DashboardAction) {
    && d.Proceed? && d.h in v.handlers && d.h.ToRead?
    && d.h.c in v.rows && v.rows[d.h.c].payload.Some? && v.rows[d.h.c].payload.value != d.h.shown
  }

  /** The row a handler is about to set running shows other legs than the handler read and sent. */
  predicate UpdatesAnother(v: Server, d: DashboardAction) {
    && d.Proceed? && d.h in v.handlers && d.h.ToUpdate?
    && d.h.c in v.rows && v.rows[d.h.c].payload.Some? && v.rows[d.h.c].payload.value != d.h.legs
  }

  /** Both comparisons made: of the row with the page at the read, and with what was read at the update. */
  predicate Guarded(s: State, a: Action) {
    a.OnDashboard? ==> !ReadsAnother(s.server, a.d) && !UpdatesAnother(s.server, a.d)
  }

  // More confirmations attest no less.

  lemma MoreAttests(g: Grain, confirmed: set<Pair>, more: set<Pair>)
    requires confirmed <= more
    ensures forall p :: Attested(g, confirmed, p) ==> Attested(g, more, p)
  {
  }

  lemma MoreAttestsServer(g: Grain, confirmed: set<Pair>, more: set<Pair>, v: Server)
    requires confirmed <= more && ServerSide(g, confirmed, v)
    ensures ServerSide(g, more, v)
  {
    MoreAttests(g, confirmed, more);
  }

  lemma MoreAttestsBot(g: Grain, confirmed: set<Pair>, more: set<Pair>, toBot: seq<ServerMsg>, bot: Bot)
    requires confirmed <= more && AllMsgs(g, confirmed, toBot) && BotSide(g, confirmed, bot)
    ensures AllMsgs(g, more, toBot) && BotSide(g, more, bot)
  {
    MoreAttests(g, confirmed, more);
  }

  // One lemma an action.

  lemma ClickKeeps(g: Grain, confirmed: set<Pair>, v: Server, page: Pair)
    requires ServerSide(g, confirmed, v)
    ensures ServerSide(g, confirmed + {page}, DashboardStep(v, Click(page)))
  {
    MoreAttestsServer(g, confirmed, confirmed + {page}, v);
  }

  lemma ReadKeeps(g: Grain, confirmed: set<Pair>, v: Server, h: Handler)
    requires ServerSide(g, confirmed, v) && h in v.handlers && h.ToRead?
    requires g.ByLegs? ==> !ReadsAnother(v, Proceed(h))
    ensures ServerSide(g, confirmed, ReadRow(v, h))
  {
    assert HandlerAttested(g, confirmed, h);
    if h.c in v.rows && v.rows[h.c].payload.Some? {
      var next := ToSend(h.c, v.rows[h.c].payload.value, h.shown);
      assert Pair(h.c, h.shown).c == h.c;
      assert HandlerAttested(g, confirmed, next);
    }
  }

  lemma SendKeeps(g: Grain, confirmed: set<Pair>, v: Server, h: Handler, command: ServerMsg, next: Handler)
    requires ServerSide(g, confirmed, v)
    requires MsgAttested(g, confirmed, command) && HandlerAttested(g, confirmed, next)
    ensures ServerSide(g, confirmed, SendCommand(v, h, command, next))
  {
  }

  lemma RunKeeps(g: Grain, confirmed: set<Pair>, v: Server, h: Handler)
    requires ServerSide(g, confirmed, v) && h in v.handlers && h.ToUpdate?
    requires g.ByLegs? ==> !UpdatesAnother(v, Proceed(h))
    ensures ServerSide(g, confirmed, UpdateTable(v, h, RunRow(v.rows, h.c)))
  {
    assert HandlerAttested(g, confirmed, h);
    assert Pair(h.c, h.shown).c == h.c;
    RunRowKeeps(g, confirmed, v.rows, h.c);
  }

  lemma RunRowKeeps(g: Grain, confirmed: set<Pair>, rows: Rows, c: Cid)
    requires AllRows(g, confirmed, rows) && exists q :: q in confirmed && q.c == c
    requires g.ByLegs? && c in rows && rows[c].payload.Some? ==> Pair(c, rows[c].payload.value) in confirmed
    ensures AllRows(g, confirmed, RunRow(rows, c))
  {
  }

  lemma ProceedKeeps(g: Grain, confirmed: set<Pair>, v: Server, h: Handler)
    requires ServerSide(g, confirmed, v) && h in v.handlers
    requires g.ByLegs? ==> !ReadsAnother(v, Proceed(h)) && !UpdatesAnother(v, Proceed(h))
    ensures ServerSide(g, confirmed, ProceedWith(v, h))
  {
    assert HandlerAttested(g, confirmed, h);
    match h
    case ToRead(_, _) => ReadKeeps(g, confirmed, v, h);
    case ToSend(c, legs, shown) => SendKeeps(g, confirmed, v, h, ConfirmedAndRun(c, legs), ToUpdate(c, legs, shown));
    case ToSendDelete(ids) => SendKeeps(g, confirmed, v, h, DeleteRunning(ids), ToDelete(ids));
    case ToUpdate(_, _, _) => RunKeeps(g, confirmed, v, h);
    case ToDelete(ids) => assert AllRows(g, confirmed, DeleteRows(v.rows, ids));
  }

  lemma DashboardKeeps(g: Grain, s: State, d: DashboardAction)
    requires Traceable(g, s) && (g.ByLegs? ==> Guarded(s, OnDashboard(d)))
    ensures Traceable(g, Step(s, OnDashboard(d)))
  {
    var confirmed, v := s.history.confirmed, s.server;
    match d
    case Click(page) =>
      if page in v.pages {
        ClickKeeps(g, confirmed, v, page);
        MoreAttestsBot(g, confirmed, confirmed + {page}, s.net.toBot, s.bot);
      }
    case Proceed(h) =>
      if h in v.handlers {
        ProceedKeeps(g, confirmed, v, h);
      }
    case _ => OthersKeep(g, confirmed, v, d);
  }

  lemma OthersKeep(g: Grain, confirmed: set<Pair>, v: Server, d: DashboardAction)
    requires ServerSide(g, confirmed, v) && !d.Click? && !d.Proceed?
    ensures ServerSide(g, confirmed, DashboardStep(v, d))
  {
    match d
    case ConfirmOnly(c) => ConfirmRowKeeps(g, confirmed, v.rows, c);
    case AskDelete(ids) => assert HandlerAttested(g, confirmed, ToSendDelete(ids));
    case _ => FewerKeep(g, confirmed, v, d);
  }

  lemma ConfirmRowKeeps(g: Grain, confirmed: set<Pair>, rows: Rows, c: Cid)
    requires AllRows(g, confirmed, rows)
    ensures AllRows(g, confirmed, ConfirmRow(rows, c))
  {
  }

  lemma FewerKeep(g: Grain, confirmed: set<Pair>, v: Server, d: DashboardAction)
    requires ServerSide(g, confirmed, v) && (d.View? || d.SubmitHit? || d.Abandon? || d.RestartServer?)
    ensures ServerSide(g, confirmed, DashboardStep(v, d))
  {
  }

  lemma LinkKeeps(g: Grain, s: State, l: LinkAction)
    requires Traceable(g, s)
    ensures Traceable(g, LinkStep(s, l))
  {
  }

  lemma ReplyAttested(g: Grain, confirmed: set<Pair>, rows: Rows, msg: BotMsg, order: seq<Cid>)
    requires AllRows(g, confirmed, rows)
    ensures AllMsgs(g, confirmed, Reply(rows, msg, order))
  {
    if msg == AskRunning(true) && Enumerates(order, rows) {
      DecodedAreExactlyTheReadable(rows, order);
      var ids := Decoded(rows, order);
      forall i | 0 <= i < |ids| ensures Attested(g, confirmed, Pair(ids[i], Payloads(rows, ids)[i])) {
        assert ids[i] in order && RowAttested(g, confirmed, ids[i], rows[ids[i]]);
      }
    }
  }

  lemma ServerKeeps(g: Grain, confirmed: set<Pair>, v: Server, inbox: seq<BotMsg>, order: seq<Cid>)
    requires ServerSide(g, confirmed, v)
    ensures ServerSide(g, confirmed, ServerStep(v, inbox, order))
  {
    if inbox != [] {
      ReplyAttested(g, confirmed, v.rows, inbox[0], order);
      assert AllRows(g, confirmed, RowsAfter(v.rows, inbox[0]));
    }
  }

  lemma {:induction false} AcceptZipKeeps(g: Grain, confirmed: set<Pair>, records: map<Cid, Legs>,
                                          ids: seq<Cid>, arbs: seq<Legs>, found: Cid -> Found)
    requires AllRecords(g, confirmed, records) && MsgAttested(g, confirmed, RunningArbs(ids, arbs))
    ensures AllRecords(g, confirmed, AcceptZip(records, ids, arbs, found))
    decreases |ids|
  {
    if ids != [] && arbs != [] {
      assert Attested(g, confirmed, Pair(ids[0], arbs[0]));
      AcceptZipKeeps(g, confirmed, Accept(records, Pair(ids[0], arbs[0]), found), ids[1..], arbs[1..], found);
    }
  }

  lemma RecordsKeep(g: Grain, confirmed: set<Pair>, records: map<Cid, Legs>, msg: ServerMsg, found: Cid -> Found)
    requires AllRecords(g, confirmed, records) && MsgAttested(g, confirmed, msg)
    ensures AllRecords(g, confirmed, RecordsAfter(records, msg, found))
  {
    if msg.RunningArbs? {
      AcceptZipKeeps(g, confirmed, records, msg.ids, msg.arbs, found);
    }
  }

  lemma BotKeeps(g: Grain, confirmed: set<Pair>, bot: Bot, toBot: seq<ServerMsg>, b: BotAction)
    requires BotSide(g, confirmed, bot) && AllMsgs(g, confirmed, toBot)
    ensures BotSide(g, confirmed, BotStep(bot, toBot, b))
  {
    if b.Handle? && toBot != [] {
      RecordsKeep(g, confirmed, bot.records, toBot[0], b.found);
    }
  }

  lemma StepKeepsTraceable(g: Grain, s: State, a: Action)
    requires Traceable(g, s) && (g.ByLegs? ==> Guarded(s, a))
    ensures Traceable(g, Step(s, a))
  {
    match a
    case OnDashboard(d) => DashboardKeeps(g, s, d);
    case OnLink(l) => LinkKeeps(g, s, l);
    case OnServer(order) => ServerKeeps(g, s.history.confirmed, s.server, s.net.toServer, order);
    case OnBot(b) => BotKeeps(g, s.history.confirmed, s.bot, s.net.toBot, b);
  }

  /**
   Over every run: no id is in a running row, in the bot's records, in its request queue or in an order unless a
   human clicked "confirm and run" on a page of that id before.
   */
  lemma {:induction false} EveryRunTracesIds(actions: seq<Action>)
    ensures Traceable(ById, Run(START, actions))
  {
    if actions != [] {
      EveryRunTracesIds(actions[..|actions| - 1]);
      StepKeepsTraceable(ById, Run(START, actions[..|actions| - 1]), actions[|actions| - 1]);
    }
  }

  // ---- only a confirmation starts anything ----

  /** Every running row was running before, with the same payload. */
  ghost predicate StartsNothing(before: Rows, after: Rows) {
    forall c :: c in after && after[c].running ==>
      c in before && before[c].running && before[c].payload == after[c].payload
  }

  /** The access that sets the row of `c` running. */
  predicate SetsRunning(s: State, a: Action, c: Cid) {
    a.OnDashboard? && a.d.Proceed? && a.d.h in s.server.handlers && a.d.h.ToUpdate? && a.d.h.c == c
  }

  lemma ProceedStartsNothing(v: Server, h: Handler)
    requires !h.ToUpdate?
    ensures StartsNothing(v.rows, ProceedWith(v, h).rows)
  {
  }

  lemma DashboardStartsNothing(v: Server, d: DashboardAction)
    requires !(d.Proceed? && d.h in v.handlers && d.h.ToUpdate?)
    ensures StartsNothing(v.rows, DashboardStep(v, d).rows)
  {
    if d.Proceed? && d.h in v.handlers {
      ProceedStartsNothing(v, d.h);
    }
  }

  lemma ServerStartsNothing(v: Server, inbox: seq<BotMsg>, order: seq<Cid>)
    ensures StartsNothing(v.rows, ServerStep(v, inbox, order).rows)
  {
    if inbox != [] {
      assert StartsNothing(v.rows, RowsAfter(v.rows, inbox[0]));
    }
  }

  /** A row becomes running only by the update that ends a confirm-and-run of its id. */
  lemma OnlyConfirmationRuns(s: State, a: Action, c: Cid)
    requires c in Step(s, a).server.rows && Step(s, a).server.rows[c].running
    requires c !in s.server.rows || !s.server.rows[c].running
    ensures SetsRunning(s, a, c)
  {
    match a
    case OnDashboard(d) =>
      if !(d.Proceed? && d.h in s.server.handlers && d.h.ToUpdate?) {
        DashboardStartsNothing(s.server, d);
      }
    case OnLink(l) =>
    case OnServer(order) => ServerStartsNothing(s.server, s.net.toServer, order);
    case OnBot(b) =>
  }

  /** The run command for an id is queued only by the send of a confirm-and-run of that id and those legs. */
  lemma OnlyConfirmationSends(v: Server, d: DashboardAction, c: Cid, legs: Legs)
    requires ConfirmedAndRun(c, legs) in DashboardStep(v, d).commands && ConfirmedAndRun(c, legs) !in v.commands
    ensures d.Proceed? && d.h in v.handlers && d.h.ToSend? && d.h.c == c && d.h.legs == legs
  {
  }

  // ---- legs ----

  /** A handler past its read runs what its page showed. */
  ghost predicate HandlerFaithful(h: Handler) {
    h.ToSend? || h.ToUpdate? ==> h.legs == h.shown
  }

  /** A running row trades what the click that set it running had been shown. */
  ghost predicate RowFaithful(rows: Rows, history: History, c: Cid) {
    c in rows && rows[c].running ==>
      && c in history.ranFor && Pair(c, history.ranFor[c]) in history.confirmed
      && (rows[c].payload.Some? ==> rows[c].payload.value == history.ranFor[c])
  }

  ghost predicate RowsFaithful(rows: Rows, history: History) {
    forall c :: RowFaithful(rows, history, c)
  }

  ghost predicate HandlersFaithful(v: Server) {
    forall h :: h in v.handlers ==> HandlerFaithful(h)
  }

  /** Every click runs the legs it was shown and no others, and only confirmed legs are anywhere. */
  ghost predicate Faithful(s: State) {
    Traceable(ByLegs, s) && HandlersFaithful(s.server) && RowsFaithful(s.server.rows, s.history)
  }

  lemma GuardedHandlers(v: Server, d: DashboardAction)
    requires HandlersFaithful(v) && !ReadsAnother(v, d)
    ensures HandlersFaithful(DashboardStep(v, d))
  {
    if d.Proceed? && d.h in v.handlers {
      assert HandlerFaithful(d.h);
      GuardedProceed(v, d.h);
    }
  }

  lemma GuardedProceed(v: Server, h: Handler)
    requires HandlersFaithful(v) && HandlerFaithful(h) && h in v.handlers && !ReadsAnother(v, Proceed(h))
    ensures HandlersFaithful(ProceedWith(v, h))
  {
  }

  lemma UnstartedStaysFaithful(before: Rows, after: Rows, history: History, more: History)
    requires RowsFaithful(before, history) && StartsNothing(before, after)
    requires more.ranFor == history.ranFor && history.confirmed <= more.confirmed
    ensures RowsFaithful(after, more)
  {
    forall c ensures RowFaithful(after, more, c) {
      assert RowFaithful(before, history, c);
    }
  }

  lemma UpdatedStaysFaithful(rows: Rows, history: History, h: Handler)
    requires RowsFaithful(rows, history) && h.ToUpdate? && HandlerFaithful(h) && Pair(h.c, h.shown) in history.confirmed
    requires h.c in rows && rows[h.c].payload.Some? ==> rows[h.c].payload.value == h.legs
    ensures RowsFaithful(RunRow(rows, h.c), history.(ranFor := history.ranFor[h.c := h.shown]))
  {
    var after, more := RunRow(rows, h.c), history.(ranFor := history.ranFor[h.c := h.shown]);
    forall c ensures RowFaithful(after, more, c) {
      assert RowFaithful(rows, history, c);
    }
  }

  lemma GuardedRows(s: State, d: DashboardAction)
    requires Faithful(s) && !UpdatesAnother(s.server, d)
    ensures RowsFaithful(DashboardStep(s.server, d).rows, Recorded(s.server, s.history, d))
  {
    var v := s.server;
    if d.Proceed? && d.h in v.handlers && d.h.ToUpdate? {
      assert HandlerAttested(ByLegs, s.history.confirmed, d.h) && HandlerFaithful(d.h);
      UpdatedStaysFaithful(v.rows, s.history, d.h);
    } else {
      DashboardStartsNothing(v, d);
      UnstartedStaysFaithful(v.rows, DashboardStep(v, d).rows, s.history, Recorded(v, s.history, d));
    }
  }

  lemma GuardedStepStaysFaithful(s: State, a: Action)
    requires Faithful(s) && Guarded(s, a)
    ensures Faithful(Step(s, a))
  {
    StepKeepsTraceable(ByLegs, s, a);
    match a
    case OnDashboard(d) =>
      GuardedHandlers(s.server, d);
      GuardedRows(s, d);
    case OnLink(l) =>
      var t := LinkStep(s, l);
      assert t.server.rows == s.server.rows && t.server.handlers == s.server.handlers && t.history == s.history;
    case OnServer(order) =>
      ServerStartsNothing(s.server, s.net.toServer, order);
      UnstartedStaysFaithful(s.server.rows, Step(s, a).server.rows, s.history, s.history);
    case OnBot(b) =>
  }

  lemma UnguardedBreaks(s: State, d: DashboardAction)
    requires Faithful(s) && (ReadsAnother(s.server, d) || UpdatesAnother(s.server, d))
    ensures !Faithful(Step(s, OnDashboard(d)))
  {
    var t := Step(s, OnDashboard(d));
    assert HandlerFaithful(d.h);
    if ReadsAnother(s.server, d) {
      var next := ToSend(d.h.c, s.server.rows[d.h.c].payload.value, d.h.shown);
      assert next in t.server.handlers && !HandlerFaithful(next);
    } else {
      assert !RowFaithful(t.server.rows, t.history, d.h.c);
    }
  }

  /** One step keeps every click faithful exactly when both comparisons hold. */
  lemma StepKeepsLegsIff(s: State, a: Action)
    requires Faithful(s)
    ensures Faithful(Step(s, a)) <==> Guarded(s, a)
  {
    if Guarded(s, a) {
      GuardedStepStaysFaithful(s, a);
    } else {
      UnguardedBreaks(s, a.d);
    }
  }

  /** Every state along the run is faithful. */
  ghost predicate AlwaysFaithful(actions: seq<Action>) {
    Faithful(Run(START, actions)) && (actions != [] ==> AlwaysFaithful(actions[..|actions| - 1]))
  }

  /** Both comparisons hold at every step of the run. */
  predicate AllGuarded(actions: seq<Action>) {
    actions != [] ==>
      && AllGuarded(actions[..|actions| - 1])
      && Guarded(Run(START, actions[..|actions| - 1]), actions[|actions| - 1])
  }

  /**
   Over every run: every click runs what it was shown, throughout, if and only if both comparisons hold at every step.
   */
  lemma {:induction false} RunsAreFaithfulIff(actions: seq<Action>)
    ensures AlwaysFaithful(actions) <==> AllGuarded(actions)
  {
    if actions == [] {
      StartIsFaithful();
    } else {
      var init, last := actions[..|actions| - 1], actions[|actions| - 1];
      RunsAreFaithfulIff(init);
      if AlwaysFaithful(init) {
        StepKeepsLegsIff(Run(START, init), last);
      }
    }
  }

  lemma StartIsFaithful()
    ensures Faithful(START)
  {
  }

  /**
   With both comparisons made, only legs that a human was shown and accepted run, are sent or traded, over every run.
   */
  lemma GuardedRunsTraceLegs(actions: seq<Action>)
    requires AllGuarded(actions)
    ensures Traceable(ByLegs, Run(START, actions))
  {
    RunsAreFaithfulIff(actions);
  }
}
