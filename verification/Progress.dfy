/**
 What the accesses of the review protocol do, stated on the state around them, and that a confirmed pair gets traded.
 */
module Progress {
  import opened Wrappers
  import opened Models
  import opened ArbServer
  import opened Provenance
  import opened Identity
  import opened Races

  // ---- stream: lossy and first in, first out ----

  /** Forwarding takes the oldest message and puts it behind all others on their way; nothing else moves. */
  lemma ForwardingKeepsOrder(s: State)
    ensures var t := Step(s, OnLink(ForwardCommand));
            && t.net.toBot + t.server.commands == s.net.toBot + s.server.commands
            && (s.server.commands != [] ==> |t.net.toBot| == |s.net.toBot| + 1)
            && t == s.(net := s.net.(toBot := t.net.toBot), server := s.server.(commands := t.server.commands))
    ensures var t := Step(s, OnLink(ForwardReply));
            && t.net.toBot + t.server.replies == s.net.toBot + s.server.replies
            && (s.server.replies != [] ==> |t.net.toBot| == |s.net.toBot| + 1)
            && t == s.(net := s.net.(toBot := t.net.toBot), server := s.server.(replies := t.server.replies))
  {
    if s.server.commands != [] {
      assert s.server.commands == [s.server.commands[0]] + s.server.commands[1..];
    }
    if s.server.replies != [] {
      assert s.server.replies == [s.server.replies[0]] + s.server.replies[1..];
    }
  }

  /** A loss removes one message and closes the gap. */
  ghost predicate LosesOne<T>(before: seq<T>, after: seq<T>, i: nat) {
    if i >= |before| then after == before
    else
      && |after| == |before| - 1
      && (forall k :: 0 <= k < i ==> after[k] == before[k])
      && (forall k :: i <= k < |after| ==> after[k] == before[k + 1])
  }

  lemma LossesLoseOne(s: State, i: nat)
    ensures var t := Step(s, OnLink(LoseToBot(i)));
            LosesOne(s.net.toBot, t.net.toBot, i) && t == s.(net := s.net.(toBot := t.net.toBot))
    ensures var t := Step(s, OnLink(LoseToServer(i)));
            LosesOne(s.net.toServer, t.net.toServer, i) && t == s.(net := s.net.(toServer := t.net.toServer))
  {
  }

  // ---- server ----

  /** The server takes the oldest message; its reply goes behind the others, and nothing else but the rows changes. */
  lemma ServingAnswers(s: State, order: seq<Cid>)
    requires s.net.toServer != [] && !s.net.toServer[0].DeleteArbs?
    ensures var msg, t := s.net.toServer[0], Step(s, OnServer(order));
            && t.net == Net(s.net.toBot, s.net.toServer[1..])
            && t.server == s.server.(rows := RowsAfter(s.server.rows, msg), replies := t.server.replies)
            && t.server.replies == s.server.replies + Reply(s.server.rows, msg, order)
            && t.bot == s.bot && t.history == s.history
  {
  }

  /** What is recorded as confirmed is clicked, on a page that is open; what set a row running is its handler's page. */
  lemma HistoryIsTrue(s: State, d: DashboardAction)
    ensures var t := Step(s, OnDashboard(d));
            && s.history.confirmed <= t.history.confirmed
            && (forall p :: p in t.history.confirmed && p !in s.history.confirmed ==>
                d == Click(p) && p in s.server.pages)
            && (t.history.ranFor != s.history.ranFor ==>
                  && d.Proceed? && d.h in s.server.handlers && d.h.ToUpdate?
                  && t.history.ranFor == s.history.ranFor[d.h.c := d.h.shown])
  {
  }

  // ---- bot: messages ----

  /** What one pair of a reply does to the record of its id. */
  ghost predicate Accepted(before: map<Cid, Legs>, after: map<Cid, Legs>, p: Pair, found: Cid -> Found) {
    match found(p.c)
    case Registered => p.c in after && after[p.c] == p.legs
    case Dropped => (p.c in after <==> p.c in before) && (p.c in after ==> after[p.c] == before[p.c])
    case Removed => p.c !in after
  }

  /** Every pair of a reply is dealt with under its own id, and no other record changes. */
  lemma {:induction false} EveryPairIsAccepted(records: map<Cid, Legs>, ids: seq<Cid>, arbs: seq<Legs>,
                                               found: Cid -> Found)
    requires |ids| == |arbs| && forall i, j :: 0 <= i < j < |ids| ==> ids[i] != ids[j]
    ensures var after := AcceptZip(records, ids, arbs, found);
            && (forall i :: 0 <= i < |ids| ==> Accepted(records, after, Pair(ids[i], arbs[i]), found))
            && (forall c :: c !in ids ==> (c in after <==> c in records) && (c in after ==> after[c] == records[c]))
    decreases |ids|
  {
    if ids != [] {
      var next := Accept(records, Pair(ids[0], arbs[0]), found);
      EveryPairIsAccepted(next, ids[1..], arbs[1..], found);
      var after := AcceptZip(next, ids[1..], arbs[1..], found);
      assert forall i :: 1 <= i < |ids| ==> ids[i] == ids[1..][i - 1] && arbs[i] == arbs[1..][i - 1];
      assert ids[0] !in ids[1..];
      forall i | 0 <= i < |ids| ensures Accepted(records, after, Pair(ids[i], arbs[i]), found) {
        if i > 0 {
          assert Accepted(next, after, Pair(ids[1..][i - 1], arbs[1..][i - 1]), found);
        }
      }
    }
  }

  /** The bot announces every id it is told to drop, and reports every pair of a list, one message each and in order. */
  lemma {:induction false} DeletesAreOneEach(ids: seq<Cid>)
    ensures |Deletes(ids)| == |ids| && forall i :: 0 <= i < |ids| ==> Deletes(ids)[i] == BotMsg.DeleteArbs([ids[i]])
  {
    if ids != [] {
      DeletesAreOneEach(ids[..|ids| - 1]);
    }
  }

  lemma {:induction false} ReportsAreOneEach(pairs: seq<Pair>)
    ensures |Reports(pairs)| == |pairs|
    ensures forall i :: 0 <= i < |pairs| ==> Reports(pairs)[i] == FoundArb(pairs[i].c, Some(pairs[i].legs), true)
  {
    if pairs != [] {
      ReportsAreOneEach(pairs[..|pairs| - 1]);
    }
  }

  /** The ids that a reply makes the bot drop: those found to close soon. */
  lemma {:induction false} RemovedOnesAreAnnounced(ids: seq<Cid>, arbs: seq<Legs>, found: Cid -> Found)
    requires |ids| == |arbs|
    ensures forall c :: c in RemovedOf(ids, arbs, found) <==> c in ids && found(c).Removed?
    decreases |ids|
  {
    if ids != [] {
      RemovedOnesAreAnnounced(ids[1..], arbs[1..], found);
      assert ids == [ids[0]] + ids[1..];
    }
  }

  /** Handling a message takes it off the stream and sends what it calls for. */
  lemma HandlingAnswers(s: State, found: Cid -> Found, pairs: seq<Pair>)
    requires s.net.toBot != []
    ensures var msg, t := s.net.toBot[0], Step(s, OnBot(Handle(found, pairs)));
            && t.net.toBot == s.net.toBot[1..] && s.net.toServer <= t.net.toServer
            && t.server == s.server && t.bot.requests == s.bot.requests && t.bot.orders == s.bot.orders
            && var sent := t.net.toServer[|s.net.toServer|..];
            match msg
            case Discovery() => sent == Reports(pairs) && t.bot.records == s.bot.records
            case ConfirmedAndRun(c, legs) =>
              && Accepted(s.bot.records, t.bot.records, Pair(c, legs), found)
              && sent == if found(c).Removed? then [BotMsg.DeleteArbs([c])] else []
            case RunningArbs(ids, arbs) =>
              sent == Deletes(RemovedOf(ids, arbs, found))
                  && t.bot.records == AcceptZip(s.bot.records, ids, arbs, found)
            case DeleteRunning(deleted) =>
              sent == Deletes(deleted) && forall c :: c in t.bot.records <==> c in s.bot.records && c !in deleted
  {
    var msg := s.net.toBot[0];
    if msg.ConfirmedAndRun? {
      DeletesAreOneEach([msg.c]);
      assert Deletes([msg.c]) == [BotMsg.DeleteArbs([msg.c])];
    }
  }

  // ---- bot: its own steps ----

  /** The executor takes requests in order: one is traded or declined, the others keep their places. */
  lemma ExecutorTakesInOrder(s: State)
    requires s.bot.requests != []
    ensures var t := Step(s, OnBot(Trade));
            && t.bot.orders + t.bot.requests == s.bot.orders + s.bot.requests && |t.bot.orders| == |s.bot.orders| + 1
            && t.bot.records == s.bot.records && t.server == s.server && t.net == s.net
    ensures var t := Step(s, OnBot(Decline));
            [s.bot.requests[0]] + t.bot.requests == s.bot.requests && t.bot.orders == s.bot.orders
  {
  }

  lemma BotSteps(s: State, c: Cid)
    ensures var t := Step(s, OnBot(Unwatch(c)));
            && c !in t.bot.records && t.bot.requests == s.bot.requests && t.bot.orders == s.bot.orders && t.net == s.net
            && forall x :: x != c ==>
                 (x in t.bot.records <==> x in s.bot.records)
                 && (x in t.bot.records ==> t.bot.records[x] == s.bot.records[x])
    ensures var t := Step(s, OnBot(Request(c)));
            && t.bot.records == s.bot.records && t.bot.orders == s.bot.orders && t.net == s.net
            && (c in s.bot.records ==> t.bot.requests == s.bot.requests + [Pair(c, s.bot.records[c])])
            && (c !in s.bot.records ==> t.bot.requests == s.bot.requests)
    ensures var t := Step(s, OnBot(RestartBot));
            && t.bot.records == map[] && t.bot.requests == [] && !t.bot.asked
            && t.bot.orders == s.bot.orders && t.net == s.net
    ensures var t := Step(s, OnBot(ReportOther));
            t.net.toServer == s.net.toServer + [OtherReport] && t.net.toBot == s.net.toBot && t.bot == s.bot
  {
  }

  /** The bot asks for what is running once after a start. */
  lemma BotAsksOnce(s: State)
    ensures var t := Step(s, OnBot(AskRunningArbs));
            && t.bot.asked && t.bot == s.bot.(asked := true)
            && (s.bot.asked ==> t.net == s.net)
            && (!s.bot.asked ==> t.net == s.net.(toServer := s.net.toServer + [AskRunning(true)]))
            && Step(t, OnBot(AskRunningArbs)) == t
  {
  }

  // ---- dashboard ----

  /** A page shows the row as it is; of a row that runs, or does not decode, or is not there, none is offered. */
  lemma PagesShowTheRow(v: Server, c: Cid)
    ensures var t := DashboardStep(v, View(c));
            && t == v.(pages := t.pages) && v.pages <= t.pages
            && (forall p :: p in t.pages && p !in v.pages ==>
                  p.c == c && c in v.rows && v.rows[c].payload == Some(p.legs) && !v.rows[c].running)
            && (c in v.rows && v.rows[c].payload.Some? && !v.rows[c].running ==>
                  Pair(c, v.rows[c].payload.value) in t.pages)
  {
  }

  /** A command is queued behind the others; a full queue makes its handler wait, and a submitted hit is dropped. */
  lemma CommandsQueueUp(v: Server, h: Handler)
    requires h in v.handlers && (h.ToSend? || h.ToSendDelete?)
    ensures var t := DashboardStep(v, Proceed(h));
            if |v.commands| >= 512 then t == v
            else t.commands == v.commands + [if h.ToSend? then ConfirmedAndRun(h.c, h.legs) else DeleteRunning(h.ids)]
  {
  }

  lemma HitsQueueUp(v: Server)
    ensures DashboardStep(v, SubmitHit)
            == if |v.commands| >= 512 then v else v.(commands := v.commands + [ServerMsg.Discovery])
  {
  }

  /** A row that is gone, or does not decode, ends a confirm-and-run; a handler may give up at any access. */
  lemma HandlersEnd(v: Server, h: Handler)
    requires h in v.handlers
    ensures h.ToRead? && (h.c !in v.rows || v.rows[h.c].payload.None?) ==>
              DashboardStep(v, Proceed(h)) == v.(handlers := v.handlers - multiset{h})
    ensures DashboardStep(v, Abandon(h)) == v.(handlers := v.handlers - multiset{h})
  {
  }

  /** What the other clicks and a restart change, and that they change nothing else. */
  lemma DashboardSteps(v: Server, c: Cid, ids: seq<Cid>, page: Pair)
    ensures var t := DashboardStep(v, ConfirmOnly(c));
            && t == v.(rows := t.rows) && OnlyFlagsOf(v.rows, t.rows, c)
            && (c in t.rows ==> t.rows[c].confirmed && t.rows[c].running == v.rows[c].running)
    ensures DashboardStep(v, AskDelete(ids)) == v.(handlers := v.handlers + multiset{ToSendDelete(ids)})
    ensures page !in v.pages ==> DashboardStep(v, Click(page)) == v
    ensures page in v.pages ==>
              DashboardStep(v, Click(page)) == v.(handlers := v.handlers + multiset{ToRead(page.c, page.legs)})
    ensures DashboardStep(v, RestartServer) == Server(v.rows, v.pages, multiset{}, [], [])
  {
  }

  /** The last access of a handler: the row runs, or the rows are gone, and the handler is done. */
  lemma HandlersFinish(v: Server, h: Handler)
    requires h in v.handlers
    ensures h.ToUpdate? ==>
              var t := DashboardStep(v, Proceed(h));
              && t == v.(rows := t.rows, handlers := v.handlers - multiset{h}) && OnlyFlagsOf(v.rows, t.rows, h.c)
              && (h.c in t.rows ==> t.rows[h.c].confirmed && t.rows[h.c].running)
    ensures h.ToDelete? ==>
              var t := DashboardStep(v, Proceed(h));
              && t == v.(rows := t.rows, handlers := v.handlers - multiset{h})
              && (forall c :: c in t.rows <==> c in v.rows && c !in h.ids)
              && (forall c :: c in t.rows ==> t.rows[c] == v.rows[c])
  {
  }

  // ---- the way of a confirmed pair ----

  /** The update ends the handler, and the run command is still queued. */
  lemma ThenRunning(n: Naming, fault: Fault, c: Cid, seen: Legs) returns (s: State)
    requires Named(n, c, seen)
    ensures Reachable(n, fault, s) && s.history.confirmed == {Pair(c, seen)} && s.net == Net([], [])
    ensures s.server.rows == map[c := Row(Some(seen), true, true, true)] && s.server.handlers == multiset{}
    ensures s.server.commands == [ConfirmedAndRun(c, seen)] && s.bot == START.bot
  {
    ThenShown(n, fault, c, seen);
    ThenSent(n, fault, Shown(c, seen), c, seen, seen);
    var sent := Sent(Shown(c, seen), c, seen, seen);
    s := SentRuns(n, fault, sent, c, seen);
  }

  lemma SentRuns(n: Naming, fault: Fault, sent: State, c: Cid, seen: Legs) returns (s: State)
    requires Reachable(n, fault, sent) && sent.server.handlers == multiset{ToUpdate(c, seen, seen)}
    requires sent.server.rows == map[c := NewRow(seen)]
    ensures Reachable(n, fault, s) && s.history.confirmed == sent.history.confirmed
    ensures s.net == sent.net && s.bot == sent.bot && s.server.commands == sent.server.commands
    ensures s.server.rows == map[c := Row(Some(seen), true, true, true)] && s.server.handlers == multiset{}
  {
    UpdateOne(sent.server, c, seen, seen);
    var v := sent.server.(rows := map[c := Row(Some(seen), true, true, true)], handlers := multiset{});
    OnServerSide(n, fault, sent, Proceed(ToUpdate(c, seen, seen)), v);
    s := sent.(server := v, history := Recorded(sent.server, sent.history, Proceed(ToUpdate(c, seen, seen))));
  }

  /** A pair that is shown, confirmed and left alone runs on the server and is watched and traded by the bot. */
  lemma ConfirmedPairTrades(n: Naming, fault: Fault, c: Cid, seen: Legs) returns (s: State)
    requires Named(n, c, seen)
    ensures Reachable(n, fault, s) && s.history.confirmed == {Pair(c, seen)}
    ensures s.server.rows == map[c := Row(Some(seen), true, true, true)] && s.server.handlers == multiset{}
    ensures s.bot.records == map[c := seen] && s.bot.orders == [Pair(c, seen)]
  {
    var running := ThenRunning(n, fault, c, seen);
    CommandForwarded(n, fault, running, ConfirmedAndRun(c, seen));
    var told := running.(server := running.server.(commands := []), net := Net([ConfirmedAndRun(c, seen)], []));
    ThenTraded(n, fault, told, Pair(c, seen));
    s := told.(net := Net([], []), bot := told.bot.(records := map[c := seen], orders := [Pair(c, seen)]));
  }
}
