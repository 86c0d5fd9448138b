/** What the protocol does not rule out: legs nobody confirmed, and orders after a delete. */
module Races {
  import opened Wrappers
  import opened Models
  import opened ArbServer
  import opened Provenance
  import opened Identity

  // ---- legs nobody confirmed ----

  /** The comparison that is left out: of the row with the page at the read, or with what was read at the update. */
  datatype Fault = StalePage | LateUpdate

  /** The step passes the comparison that is still made. */
  predicate Passes(fault: Fault, s: State, a: Action) {
    a.OnDashboard? ==>
      match fault
      case StalePage => !UpdatesAnother(s.server, a.d)
      case LateUpdate => !ReadsAnother(s.server, a.d)
  }

  predicate Permitted(n: Naming, fault: Fault, actions: seq<Action>) {
    actions != [] ==>
      var init, last := actions[..|actions| - 1], actions[|actions| - 1];
      Permitted(n, fault, init) && NamesItsReports(n, last) && Passes(fault, Run(START, init), last)
  }

  ghost predicate Reachable(n: Naming, fault: Fault, s: State) {
    exists actions :: Permitted(n, fault, actions) && Run(START, actions) == s
  }

  lemma Reach(n: Naming, fault: Fault, s: State, a: Action)
    requires Reachable(n, fault, s) && NamesItsReports(n, a) && Passes(fault, s, a)
    ensures Reachable(n, fault, Step(s, a))
  {
    var actions :| Permitted(n, fault, actions) && Run(START, actions) == s;
    assert (actions + [a])[..|actions|] == actions;
    assert Run(START, actions + [a]) == Step(s, a);
    assert Permitted(n, fault, actions + [a]);
  }

  lemma OnServerSide(n: Naming, fault: Fault, s: State, d: DashboardAction, v: Server)
    requires Reachable(n, fault, s) && Passes(fault, s, OnDashboard(d)) && DashboardStep(s.server, d) == v
    ensures Reachable(n, fault, s.(server := v, history := Recorded(s.server, s.history, d)))
  {
    Reach(n, fault, s, OnDashboard(d));
  }

  lemma Proceeded(n: Naming, fault: Fault, s: State, h: Handler, v: Server)
    requires Reachable(n, fault, s) && h in s.server.handlers && !h.ToUpdate?
    requires Passes(fault, s, OnDashboard(Proceed(h)))
    requires ProceedWith(s.server, h) == v
    ensures Reachable(n, fault, s.(server := v))
  {
    OnServerSide(n, fault, s, Proceed(h), v);
  }

  lemma OnBotSide(n: Naming, fault: Fault, s: State, b: BotAction, bot: Bot, net: Net)
    requires Reachable(n, fault, s) && NamesItsReports(n, OnBot(b))
    requires BotStep(s.bot, s.net.toBot, b) == bot && NetStep(s.net, s.bot.asked, b) == net
    ensures Reachable(n, fault, s.(bot := bot, net := net))
  {
    Reach(n, fault, s, OnBot(b));
  }

  lemma OnTable(n: Naming, fault: Fault, s: State, order: seq<Cid>, v: Server)
    requires Reachable(n, fault, s) && ServerStep(s.server, s.net.toServer, order) == v
    ensures Reachable(n, fault, s.(server := v, net := s.net.(toServer := InboxAfter(s.net.toServer))))
  {
    Reach(n, fault, s, OnServer(order));
  }

  lemma CommandForwarded(n: Naming, fault: Fault, s: State, command: ServerMsg)
    requires Reachable(n, fault, s) && s.server.commands == [command] && s.net.toBot == []
    ensures Reachable(n, fault, s.(server := s.server.(commands := []), net := s.net.(toBot := [command])))
  {
    Reach(n, fault, s, OnLink(ForwardCommand));
  }

  lemma ReplyForwarded(n: Naming, fault: Fault, s: State, reply: ServerMsg)
    requires Reachable(n, fault, s) && s.server.replies == [reply] && s.net.toBot == []
    ensures Reachable(n, fault, s.(server := s.server.(replies := []), net := s.net.(toBot := [reply])))
  {
    Reach(n, fault, s, OnLink(ForwardReply));
  }

  /** A row as it is found. */
  function NewRow(legs: Legs): Row {
    Row(Some(legs), false, false, true)
  }

  /** Nothing is on its way in either direction. */
  predicate Quiet(s: State) {
    s.server.commands == [] && s.net == Net([], [])
  }

  function ReportOf(c: Cid, legs: Legs): BotMsg {
    FoundArb(c, Some(legs), true)
  }

  /** A human selects a pair of a similarity hit; the bot resolves it and reports it back. */
  lemma Discovered(n: Naming, fault: Fault, s: State, c: Cid, legs: Legs)
    requires Reachable(n, fault, s) && Quiet(s) && Named(n, c, legs)
    ensures Reachable(n, fault, s.(net := Net([], [ReportOf(c, legs)])))
  {
    OnServerSide(n, fault, s, SubmitHit, s.server.(commands := [ServerMsg.Discovery]));
    CommandForwarded(n, fault, s.(server := s.server.(commands := [ServerMsg.Discovery])), ServerMsg.Discovery);
    var pairs, found: Cid -> Found := [Pair(c, legs)], _ => Registered;
    assert pairs[..0] == [] && Reports(pairs) == [ReportOf(c, legs)];
    var told := s.(net := Net([ServerMsg.Discovery], []));
    OnBotSide(n, fault, told, Handle(found, pairs), s.bot, Net([], [ReportOf(c, legs)]));
  }

  /** The report becomes a row. */
  lemma Inserted(n: Naming, fault: Fault, s: State, c: Cid, legs: Legs)
    requires Reachable(n, fault, s) && s.net == Net([], [ReportOf(c, legs)]) && s.server.rows == map[]
    ensures Reachable(n, fault, s.(net := Net([], []), server := s.server.(rows := map[c := NewRow(legs)])))
  {
    var v := s.server.(rows := map[c := NewRow(legs)]);
    assert v.replies == s.server.replies + [];
    OnTable(n, fault, s, [], v);
  }

  /** A page of the pair is open. */
  function Shown(c: Cid, seen: Legs): State {
    START.(server := START.server.(rows := map[c := NewRow(seen)], pages := {Pair(c, seen)}))
  }

  lemma ThenShown(n: Naming, fault: Fault, c: Cid, seen: Legs)
    requires Named(n, c, seen)
    ensures Reachable(n, fault, Shown(c, seen))
  {
    assert Run(START, []) == START && Permitted(n, fault, []);
    Discovered(n, fault, START, c, seen);
    Inserted(n, fault, START.(net := Net([], [ReportOf(c, seen)])), c, seen);
    var found := START.(server := START.server.(rows := map[c := NewRow(seen)]));
    OnServerSide(n, fault, found, View(c), Shown(c, seen).server);
  }

  /** The page is clicked while the row shows `legs`; the handler reads and sends those. */
  function Sent(s: State, c: Cid, seen: Legs, legs: Legs): State {
    s.(server := s.server.(handlers := multiset{ToUpdate(c, legs, seen)}, commands := [ConfirmedAndRun(c, legs)]),
       history := s.history.(confirmed := {Pair(c, seen)}))
  }

  lemma OneRead(v: Server, c: Cid, seen: Legs, legs: Legs)
    requires v.handlers == multiset{ToRead(c, seen)} && v.rows == map[c := NewRow(legs)]
    ensures ProceedWith(v, ToRead(c, seen)) == v.(handlers := multiset{ToSend(c, legs, seen)})
  {
  }

  lemma OneSent(v: Server, c: Cid, seen: Legs, legs: Legs)
    requires v.handlers == multiset{ToSend(c, legs, seen)} && v.commands == []
    ensures ProceedWith(v, ToSend(c, legs, seen))
            == v.(handlers := multiset{ToUpdate(c, legs, seen)}, commands := [ConfirmedAndRun(c, legs)])
  {
  }

  function Clicked(s: State, c: Cid, seen: Legs): State {
    s.(server := s.server.(handlers := multiset{ToRead(c, seen)}),
       history := s.history.(confirmed := {Pair(c, seen)}))
  }

  lemma ThenClicked(n: Naming, fault: Fault, s: State, c: Cid, seen: Legs)
    requires Reachable(n, fault, s) && s.server.pages == {Pair(c, seen)}
    requires s.server.handlers == multiset{} && s.history.confirmed == {}
    ensures Reachable(n, fault, Clicked(s, c, seen))
  {
    OnServerSide(n, fault, s, Click(Pair(c, seen)), s.server.(handlers := multiset{ToRead(c, seen)}));
  }

  lemma ThenSent(n: Naming, fault: Fault, s: State, c: Cid, seen: Legs, legs: Legs)
    requires Reachable(n, fault, s) && s.server.pages == {Pair(c, seen)} && s.server.rows == map[c := NewRow(legs)]
    requires s.server.handlers == multiset{} && s.server.commands == [] && s.history.confirmed == {}
    requires fault.LateUpdate? ==> legs == seen
    ensures Reachable(n, fault, Sent(s, c, seen, legs))
  {
    ThenClicked(n, fault, s, c, seen);
    var clicked := Clicked(s, c, seen);
    var read := clicked.server.(handlers := multiset{ToSend(c, legs, seen)});
    OneRead(clicked.server, c, seen, legs);
    Proceeded(n, fault, clicked, ToRead(c, seen), read);
    OneSent(read, c, seen, legs);
    Proceeded(n, fault, clicked.(server := read), ToSend(c, legs, seen), Sent(s, c, seen, legs).server);
  }

  /** The pair is deleted from the dashboard: the command is sent, then the row goes. */
  lemma ThenDeleted(n: Naming, fault: Fault, s: State, c: Cid)
    requires Reachable(n, fault, s) && s.server.rows.Keys == {c} && |s.server.commands| < COMMANDS_CAPACITY
    ensures Reachable(n, fault,
                      s.(server := s.server.(rows := map[], commands := s.server.commands + [DeleteRunning([c])])))
  {
    var v := s.server;
    var asked := v.(handlers := v.handlers + multiset{ToSendDelete([c])});
    var sent := v.(handlers := v.handlers + multiset{ToDelete([c])}, commands := v.commands + [DeleteRunning([c])]);
    OnServerSide(n, fault, s, AskDelete([c]), asked);
    DeleteSent(v, c);
    Proceeded(n, fault, s.(server := asked), ToSendDelete([c]), sent);
    DeleteDone(sent, v.handlers, c);
    Proceeded(n, fault, s.(server := sent), ToDelete([c]), sent.(rows := map[], handlers := v.handlers));
  }

  lemma DeleteSent(v: Server, c: Cid)
    requires |v.commands| < COMMANDS_CAPACITY
    ensures ProceedWith(v.(handlers := v.handlers + multiset{ToSendDelete([c])}), ToSendDelete([c]))
            == v.(handlers := v.handlers + multiset{ToDelete([c])}, commands := v.commands + [DeleteRunning([c])])
  {
    assert v.handlers + multiset{ToSendDelete([c])} - multiset{ToSendDelete([c])} == v.handlers;
  }

  lemma DeleteDone(v: Server, handlers: multiset<Handler>, c: Cid)
    requires v.handlers == handlers + multiset{ToDelete([c])} && v.rows.Keys == {c}
    ensures ProceedWith(v, ToDelete([c])) == v.(rows := map[], handlers := handlers)
  {
    assert v.handlers - multiset{ToDelete([c])} == handlers;
    assert Members([c]) == {c} && DeleteRows(v.rows, [c]) == map[];
  }

  /** The bot, told of a delete of what it does not watch, announces it back to a server that has no such row. */
  lemma DeleteEchoed(n: Naming, fault: Fault, s: State, c: Cid)
    requires Reachable(n, fault, s) && s.server.commands == [DeleteRunning([c])] && s.net == Net([], [])
    requires s.server.rows == map[] && s.bot.records == map[]
    ensures Reachable(n, fault, s.(server := s.server.(commands := [])))
  {
    CommandForwarded(n, fault, s, DeleteRunning([c]));
    var told := s.(server := s.server.(commands := []), net := Net([DeleteRunning([c])], []));
    var found: Cid -> Found := _ => Registered;
    var echo := BotMsg.DeleteArbs([c]);
    assert [c][..0] == [] && Deletes([c]) == [echo];
    OnBotSide(n, fault, told, Handle(found, []), s.bot, Net([], [echo]));
    OnTable(n, fault, told.(net := Net([], [echo])), [], told.server);
  }

  /** A message that carries the pair reaches the bot, which watches and trades it. */
  lemma ThenTraded(n: Naming, fault: Fault, s: State, p: Pair)
    requires Reachable(n, fault, s) && s.bot.records == map[] && s.bot.requests == [] && s.bot.orders == []
    requires s.net == Net([ConfirmedAndRun(p.c, p.legs)], []) || s.net == Net([RunningArbs([p.c], [p.legs])], [])
    ensures Reachable(n, fault, s.(net := Net([], []), bot := s.bot.(records := map[p.c := p.legs], orders := [p])))
  {
    var bot := s.bot.(records := map[p.c := p.legs]);
    ThenWatched(n, fault, s, p);
    WatchedTrades(n, fault, s.(net := Net([], []), bot := bot), p);
  }

  lemma WatchedTrades(n: Naming, fault: Fault, s: State, p: Pair)
    requires Reachable(n, fault, s) && s.bot.records == map[p.c := p.legs] && s.bot.requests == [] && s.bot.orders == []
    ensures Reachable(n, fault, s.(bot := s.bot.(orders := [p])))
  {
    var asking := s.bot.(requests := [p]);
    OnBotSide(n, fault, s, Request(p.c), asking, s.net);
    OnBotSide(n, fault, s.(bot := asking), Trade, s.bot.(orders := [p]), s.net);
  }

  lemma ThenWatched(n: Naming, fault: Fault, s: State, p: Pair)
    requires Reachable(n, fault, s) && s.bot.records == map[]
    requires s.net == Net([ConfirmedAndRun(p.c, p.legs)], []) || s.net == Net([RunningArbs([p.c], [p.legs])], [])
    ensures Reachable(n, fault, s.(net := Net([], []), bot := s.bot.(records := map[p.c := p.legs])))
  {
    var found: Cid -> Found := _ => Registered;
    assert [p.c][1..] == [] && AcceptZip(map[], [p.c], [p.legs], found) == map[p.c := p.legs];
    assert RemovedOf([p.c], [p.legs], found) == [];
    OnBotSide(n, fault, s, Handle(found, []), s.bot.(records := map[p.c := p.legs]), Net([], []));
  }

  /**
   The page is out of date: the pair was deleted, and another selection of the same tokens found with another side.
   The run command itself carries that.
   */
  lemma StalePageTrades(n: Naming, c: Cid, seen: Legs, other: Legs) returns (s: State)
    requires Named(n, c, seen) && Named(n, c, other)
    ensures Reachable(n, StalePage, s) && s.bot.orders == [Pair(c, other)] && s.history.confirmed == {Pair(c, seen)}
  {
    ThenShown(n, StalePage, c, seen);
    var shown := Shown(c, seen);
    ThenDeleted(n, StalePage, shown, c);
    var gone := shown.(server := shown.server.(rows := map[]));
    DeleteEchoed(n, StalePage, gone.(server := gone.server.(commands := [DeleteRunning([c])])), c);
    Discovered(n, StalePage, gone, c, other);
    Inserted(n, StalePage, gone.(net := Net([], [ReportOf(c, other)])), c, other);
    var again := shown.(server := shown.server.(rows := map[c := NewRow(other)]));
    ThenSent(n, StalePage, again, c, seen, other);
    var sent := Sent(again, c, seen, other);
    CommandForwarded(n, StalePage, sent, ConfirmedAndRun(c, other));
    var told := sent.(server := sent.server.(commands := []), net := Net([ConfirmedAndRun(c, other)], []));
    ThenTraded(n, StalePage, told, Pair(c, other));
    s := told.(net := Net([], []), bot := told.bot.(records := map[c := other], orders := [Pair(c, other)]));
  }

  /**
   Another selection was reported and waits at the server while the page is clicked; between the handler's send and
   its update the row is deleted and replaced.
   */
  function Late(c: Cid, seen: Legs, other: Legs): State {
    var sent := Sent(Shown(c, seen), c, seen, seen);
    sent.(server := sent.server.(rows := map[c := Row(Some(other), true, true, true)], handlers := multiset{},
                                 commands := [ConfirmedAndRun(c, seen), DeleteRunning([c])]),
          history := History({Pair(c, seen)}, map[c := seen]))
  }

  /** The state just before the update, with the row replaced. */
  function Replaced(c: Cid, seen: Legs, other: Legs): State {
    var sent := Sent(Shown(c, seen), c, seen, seen);
    sent.(server := sent.server.(rows := map[c := NewRow(other)],
                                 commands := [ConfirmedAndRun(c, seen), DeleteRunning([c])]))
  }

  lemma ThenReplaced(n: Naming, c: Cid, seen: Legs, other: Legs)
    requires Named(n, c, seen) && Named(n, c, other)
    ensures Reachable(n, LateUpdate, Replaced(c, seen, other))
  {
    ThenShown(n, LateUpdate, c, seen);
    Discovered(n, LateUpdate, Shown(c, seen), c, other);
    var waiting := Shown(c, seen).(net := Net([], [ReportOf(c, other)]));
    ThenSent(n, LateUpdate, waiting, c, seen, seen);
    var sent := Sent(waiting, c, seen, seen);
    ThenDeleted(n, LateUpdate, sent, c);
    var v := sent.server.(rows := map[], commands := [ConfirmedAndRun(c, seen), DeleteRunning([c])]);
    assert sent.server.commands + [DeleteRunning([c])] == v.commands;
    Inserted(n, LateUpdate, sent.(server := v), c, other);
  }

  lemma ThenLate(n: Naming, c: Cid, seen: Legs, other: Legs)
    requires Named(n, c, seen) && Named(n, c, other)
    ensures Reachable(n, LateUpdate, Late(c, seen, other))
  {
    ThenReplaced(n, c, seen, other);
    UpdateOne(Replaced(c, seen, other).server, c, seen, other);
    var replaced, late := Replaced(c, seen, other), Late(c, seen, other);
    OnServerSide(n, LateUpdate, replaced, Proceed(ToUpdate(c, seen, seen)), late.server);
  }

  lemma UpdateOne(v: Server, c: Cid, seen: Legs, other: Legs)
    requires v.handlers == multiset{ToUpdate(c, seen, seen)} && v.rows == map[c := NewRow(other)]
    ensures ProceedWith(v, ToUpdate(c, seen, seen))
            == v.(rows := map[c := Row(Some(other), true, true, true)], handlers := multiset{})
  {
  }

  /** The bot asks for what is running. */
  lemma ThenAsked(n: Naming, fault: Fault, s: State)
    requires Reachable(n, fault, s) && !s.bot.asked && s.net == Net([], [])
    ensures Reachable(n, fault, s.(bot := s.bot.(asked := true), net := Net([], [AskRunning(true)])))
  {
    OnBotSide(n, fault, s, AskRunningArbs, s.bot.(asked := true), Net([], [AskRunning(true)]));
  }

  /** The reply carries the pair of the one row that runs. */
  lemma ThenReplied(n: Naming, fault: Fault, s: State, p: Pair)
    requires Reachable(n, fault, s) && s.net == Net([], [AskRunning(true)])
    requires s.server.rows == map[p.c := Row(Some(p.legs), true, true, true)] && s.server.replies == []
    ensures Reachable(n, fault, s.(net := Net([RunningArbs([p.c], [p.legs])], [])))
  {
    var reply := RunningArbs([p.c], [p.legs]);
    ReplyMade(s.server, p);
    OnTable(n, fault, s, [p.c], s.server.(replies := [reply]));
    ReplyForwarded(n, fault, s.(server := s.server.(replies := [reply]), net := Net([], [])), reply);
  }

  /** The bot asks for what is running, and the reply carries the other legs. */
  lemma LateUpdateTrades(n: Naming, c: Cid, seen: Legs, other: Legs) returns (s: State)
    requires Named(n, c, seen) && Named(n, c, other)
    ensures Reachable(n, LateUpdate, s) && s.bot.orders == [Pair(c, other)] && s.history.confirmed == {Pair(c, seen)}
  {
    ThenLate(n, c, seen, other);
    var late, p := Late(c, seen, other), Pair(c, other);
    ThenAsked(n, LateUpdate, late);
    var asked := late.(bot := late.bot.(asked := true), net := Net([], [AskRunning(true)]));
    ThenReplied(n, LateUpdate, asked, p);
    var told := asked.(net := Net([RunningArbs([c], [other])], []));
    ThenTraded(n, LateUpdate, told, p);
    s := told.(net := Net([], []), bot := told.bot.(records := map[c := other], orders := [p]));
  }

  lemma ReplyMade(v: Server, p: Pair)
    requires v.rows == map[p.c := Row(Some(p.legs), true, true, true)] && v.replies == []
    ensures ServerStep(v, [AskRunning(true)], [p.c]) == v.(replies := [RunningArbs([p.c], [p.legs])])
    ensures InboxAfter([AskRunning(true)]) == []
  {
    ReplyOne(p.c, p.legs);
    AskServed(v, [p.c], RunningArbs([p.c], [p.legs]));
  }

  lemma AskServed(v: Server, order: seq<Cid>, reply: ServerMsg)
    requires Reply(v.rows, AskRunning(true), order) == [reply] && v.replies == []
    ensures Serve(v, AskRunning(true), order) == v.(replies := [reply])
  {
    assert v.replies + [reply] == [reply];
  }

  lemma ReplyOne(c: Cid, legs: Legs)
    ensures Reply(map[c := Row(Some(legs), true, true, true)], AskRunning(true), [c]) == [RunningArbs([c], [legs])]
  {
    var rows := map[c := Row(Some(legs), true, true, true)];
    assert [c][..0] == [] && Decoded(rows, []) == [];
    assert Decoded(rows, [c]) == [c];
    DecodedAreExactlyTheReadable(rows, [c]);
    assert Payloads(rows, [c]) == [legs];
  }

  /**
   Neither comparison is enough by itself. With either one left out, a run in which all ids are derived and the other
   comparison always holds trades legs that no human was shown, under an id that one was.
   */
  lemma UnconfirmedLegsCanTrade(n: Naming, fault: Fault, c: Cid, seen: Legs, other: Legs)
    requires Named(n, c, seen) && Named(n, c, other) && seen != other
    ensures exists s ::
              Reachable(n, fault, s) && Pair(c, other) in s.bot.orders && Pair(c, other) !in s.history.confirmed
  {
    if fault.StalePage? {
      var s := StalePageTrades(n, c, seen, other);
      assert Pair(c, other) in s.bot.orders;
    } else {
      var s := LateUpdateTrades(n, c, seen, other);
      assert Pair(c, other) in s.bot.orders;
    }
  }

  /** Pairs under one derived id have the same venues and tokens; only their sides can differ. */
  lemma OnlySidesDiffer(n: Naming, c: Cid, legs: Legs, other: Legs)
    requires n.Injective() && Named(n, c, legs) && Named(n, c, other)
    ensures other == Legs(legs.anchor.(leg := other.anchor.leg), legs.matched.(leg := other.matched.leg))
  {
  }

  // ---- orders after a delete ----

  /** The id is not watched at any point of the run. */
  predicate Unwatched(s: State, actions: seq<Action>, c: Cid) {
    c !in Run(s, actions).bot.records && (actions != [] ==> Unwatched(s, actions[..|actions| - 1], c))
  }

  function Outstanding(bot: Bot, p: Pair): nat {
    multiset(bot.orders)[p] + multiset(bot.requests)[p]
  }

  lemma BotAddsNone(bot: Bot, toBot: seq<ServerMsg>, b: BotAction, p: Pair)
    requires p.c !in bot.records
    ensures Outstanding(BotStep(bot, toBot, b), p) <= Outstanding(bot, p)
  {
    if (b.Trade? || b.Decline?) && bot.requests != [] {
      assert bot.requests == [bot.requests[0]] + bot.requests[1..];
    }
  }

  lemma StepAddsNone(s: State, a: Action, p: Pair)
    requires p.c !in s.bot.records
    ensures Outstanding(Step(s, a).bot, p) <= Outstanding(s.bot, p)
  {
    if a.OnBot? {
      BotAddsNone(s.bot, s.net.toBot, a.b, p);
    }
  }

  lemma {:induction false} UnwatchedAddsNone(s: State, actions: seq<Action>, p: Pair)
    requires Unwatched(s, actions, p.c)
    ensures Outstanding(Run(s, actions).bot, p) <= Outstanding(s.bot, p)
  {
    if actions != [] {
      var init := actions[..|actions| - 1];
      UnwatchedAddsNone(s, init, p);
      StepAddsNone(Run(s, init), actions[|actions| - 1], p);
    }
  }

  predicate OnlyTrades(actions: seq<Action>) {
    forall i :: 0 <= i < |actions| ==> actions[i] == OnBot(Trade)
  }

  /** The bot once the first `k` of its requests are traded. */
  function Traded(bot: Bot, k: nat): Bot
    requires k <= |bot.requests|
  {
    bot.(requests := bot.requests[k..], orders := bot.orders + bot.requests[..k])
  }

  lemma TradedOneMore(bot: Bot, toBot: seq<ServerMsg>, k: nat)
    requires k < |bot.requests|
    ensures BotStep(Traded(bot, k), toBot, Trade) == Traded(bot, k + 1)
  {
    assert bot.requests[k..][1..] == bot.requests[k + 1..];
    assert bot.orders + bot.requests[..k] + [bot.requests[k]] == bot.orders + bot.requests[..k + 1];
  }

  lemma TradesOneMore(s: State, k: nat)
    requires k < |s.bot.requests|
    ensures Step(s.(bot := Traded(s.bot, k)), OnBot(Trade)) == s.(bot := Traded(s.bot, k + 1))
  {
    TradedOneMore(s.bot, s.net.toBot, k);
  }

  /** The executor never looks at the records: it trades on. */
  lemma {:induction false} TradesOn(s: State, actions: seq<Action>)
    requires OnlyTrades(actions) && |actions| <= |s.bot.requests|
    ensures Run(s, actions) == s.(bot := Traded(s.bot, |actions|))
  {
    if actions == [] {
      assert Traded(s.bot, 0) == s.bot;
    } else {
      TradesOn(s, actions[..|actions| - 1]);
      TradesOneMore(s, |actions| - 1);
    }
  }

  lemma {:induction false} TradesLeaveUnwatched(s: State, actions: seq<Action>, c: Cid)
    requires OnlyTrades(actions) && |actions| <= |s.bot.requests| && c !in s.bot.records
    ensures Unwatched(s, actions, c)
  {
    TradesOn(s, actions);
    if actions != [] {
      TradesLeaveUnwatched(s, actions[..|actions| - 1], c);
    }
  }

  predicate Places(s: State, actions: seq<Action>, p: Pair) {
    multiset(s.bot.orders)[p] < multiset(Run(s, actions).bot.orders)[p]
  }

  /** Some continuation that never registers the pair's id again places an order for the pair. */
  ghost predicate CanStillTrade(s: State, p: Pair) {
    exists actions :: Unwatched(s, actions, p.c) && Places(s, actions, p)
  }

  lemma OnlyQueuedCanTrade(s: State, p: Pair)
    requires CanStillTrade(s, p)
    ensures p in s.bot.requests
  {
    var actions :| Unwatched(s, actions, p.c) && Places(s, actions, p);
    UnwatchedAddsNone(s, actions, p);
    assert p in multiset(s.bot.requests);
  }

  lemma TradedPlaces(bot: Bot, k: nat)
    requires k < |bot.requests|
    ensures multiset(bot.orders)[bot.requests[k]] < multiset(Traded(bot, k + 1).orders)[bot.requests[k]]
  {
    assert bot.requests[k] in bot.requests[..k + 1];
    assert multiset(Traded(bot, k + 1).orders) == multiset(bot.orders) + multiset(bot.requests[..k + 1]);
  }

  lemma QueuedCanTrade(s: State, p: Pair)
    requires p.c !in s.bot.records && p in s.bot.requests
    ensures CanStillTrade(s, p)
  {
    var k :| 0 <= k < |s.bot.requests| && s.bot.requests[k] == p;
    var actions := seq(k + 1, _ => OnBot(Trade));
    TradesOn(s, actions);
    TradesLeaveUnwatched(s, actions, p.c);
    TradedPlaces(s.bot, k);
    assert Places(s, actions, p);
  }

  /**
   Once the bot has processed a delete of an id, and for as long as the id is not registered again, an order for a
   pair of it can follow if and only if a request for that pair was queued or in execution when it was processed.
   */
  lemma OrderAfterDeleteIff(s: State, found: Cid -> Found, pairs: seq<Pair>, p: Pair)
    requires s.net.toBot != [] && s.net.toBot[0].DeleteRunning? && p.c in s.net.toBot[0].deleted
    ensures CanStillTrade(Step(s, OnBot(Handle(found, pairs))), p) <==> p in s.bot.requests
  {
    var t := Step(s, OnBot(Handle(found, pairs)));
    assert p.c !in t.bot.records && t.bot.requests == s.bot.requests;
    if p in s.bot.requests {
      QueuedCanTrade(t, p);
    }
    if CanStillTrade(t, p) {
      OnlyQueuedCanTrade(t, p);
    }
  }
}
