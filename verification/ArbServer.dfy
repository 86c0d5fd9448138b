/**
 The server's table of arbs and its answers to the bot (`web/service/repository/postgres/query.sql.go`,
 `ProcessEbo` in `web/server/grpc.go`).
 */
module ArbServer {
  import opened Wrappers
  import opened Models

  datatype LegRef = LegRef(platform: Platform, token: string, leg: Leg)

  /** What a pair trades: both legs, each a venue, a token and a side. */
  datatype Legs = Legs(anchor: LegRef, matched: LegRef)

  /** A row of the arbs table; `payload` is absent when the stored JSON does not decode. */
  datatype Row = Row(payload: Option<Legs>, confirmed: bool, running: bool, cross: bool)

  type Rows = map<Cid, Row>

  datatype ServerMsg =
    | Discovery
    | ConfirmedAndRun(c: Cid, legs: Legs)
    | RunningArbs(ids: seq<Cid>, arbs: seq<Legs>)
    | DeleteRunning(deleted: seq<Cid>)

  datatype BotMsg =
    | FoundArb(c: Cid, payload: Option<Legs>, cross: bool)
    | AskRunning(cross: bool)
    | DeleteArbs(deleted: seq<Cid>)
    | OtherReport

  // ---- statements ----

  /** INSERT … ON CONFLICT DO NOTHING, flags defaulting to false. */
  function InsertRow(rows: Rows, c: Cid, payload: Option<Legs>, cross: bool): Rows {
    if c in rows then rows else rows[c := Row(payload, false, false, cross)]
  }

  function ConfirmRow(rows: Rows, c: Cid): Rows {
    if c in rows then rows[c := rows[c].(confirmed := true)] else rows
  }

  function RunRow(rows: Rows, c: Cid): Rows {
    if c in rows then rows[c := rows[c].(confirmed := true, running := true)] else rows
  }

  /** The same rows with the same payloads and kinds; only the flags of `c` may differ. */
  ghost predicate OnlyFlagsOf(before: Rows, after: Rows, c: Cid) {
    && after.Keys == before.Keys
    && forall x :: x in before ==>
         && after[x].payload == before[x].payload && after[x].cross == before[x].cross
         && (x != c ==> after[x] == before[x])
  }

  /** Whatever runs was confirmed. */
  ghost predicate RunningIsConfirmed(rows: Rows) {
    forall c :: c in rows && rows[c].running ==> rows[c].confirmed
  }

  /**
   The two flag updates are the only changes to the flags of one row that confirm it, keeping or setting its running
   flag.
   */
  lemma FlagUpdatesAreUnique(before: Rows, after: Rows, c: Cid)
    requires OnlyFlagsOf(before, after, c)
    ensures (c in before ==> after[c].confirmed && after[c].running == before[c].running) <==>
            after == ConfirmRow(before, c)
    ensures (c in before ==> after[c].confirmed && after[c].running) <==> after == RunRow(before, c)
  {
  }

  /** No statement makes a row run without confirming it, and confirming after running changes nothing. */
  lemma StatementsKeepFlags(rows: Rows, msg: BotMsg, c: Cid)
    requires RunningIsConfirmed(rows)
    ensures RunningIsConfirmed(ConfirmRow(rows, c)) && RunningIsConfirmed(RunRow(rows, c))
            && RunningIsConfirmed(RowsAfter(rows, msg))
    ensures ConfirmRow(RunRow(rows, c), c) == RunRow(ConfirmRow(rows, c), c) == RunRow(rows, c)
  {
  }

  function Members(ids: seq<Cid>): set<Cid> {
    set c | c in ids
  }

  function DeleteRows(rows: Rows, ids: seq<Cid>): Rows {
    rows - Members(ids)
  }

  /** The select's answer, in some order: each running cross-platform row once. */
  predicate Enumerates(order: seq<Cid>, rows: Rows) {
    && (forall c :: c in order ==> c in rows && rows[c].running && rows[c].cross)
    && (forall c :: c in rows && rows[c].running && rows[c].cross ==> c in order)
    && (forall i, j :: 0 <= i < j < |order| ==> order[i] != order[j])
  }

  // ---- replies ----

  predicate Readable(rows: Rows, c: Cid) {
    c in rows && rows[c].payload.Some?
  }

  /** The selected rows whose payload decodes, in order. */
  function Decoded(rows: Rows, order: seq<Cid>): seq<Cid> {
    if order == [] then []
    else
      var last := order[|order| - 1];
      Decoded(rows, order[..|order| - 1]) + if Readable(rows, last) then [last] else []
  }

  lemma {:induction false} DecodedAreExactlyTheReadable(rows: Rows, order: seq<Cid>)
    ensures forall c :: c in Decoded(rows, order) <==> c in order && Readable(rows, c)
  {
    if order != [] {
      var init, last := order[..|order| - 1], order[|order| - 1];
      DecodedAreExactlyTheReadable(rows, init);
      assert order == init + [last];
    }
  }

  /** Ids and arbs of a running-arbs reply stay zipped, each arb that of its own row. */
  ghost predicate Zipped(rows: Rows, ids: seq<Cid>, arbs: seq<Legs>) {
    |ids| == |arbs| && forall i :: 0 <= i < |ids| ==> ids[i] in rows && rows[ids[i]].payload == Some(arbs[i])
  }

  function Payloads(rows: Rows, ids: seq<Cid>): seq<Legs>
    requires forall c :: c in ids ==> Readable(rows, c)
  {
    seq(|ids|, i requires 0 <= i < |ids| && Readable(rows, ids[i]) => rows[ids[i]].payload.value)
  }

  function RowsAfter(rows: Rows, msg: BotMsg): Rows {
    match msg
    case FoundArb(c, payload, cross) => InsertRow(rows, c, payload, cross)
    case DeleteArbs(deleted) => DeleteRows(rows, deleted)
    case _ => rows
  }

  /** The one reply there is: to a request for the running cross-platform arbs. */
  ghost predicate RepliesTo(rows: Rows, msg: BotMsg, order: seq<Cid>, reply: Option<ServerMsg>) {
    if msg == AskRunning(true) && Enumerates(order, rows)
    then
      && reply.Some? && reply.value.RunningArbs?
      && reply.value.ids == Decoded(rows, order)
      && Zipped(rows, reply.value.ids, reply.value.arbs)
    else reply.None?
  }

  class ArbServer {
    var rows: Rows

    constructor ()
      ensures rows == map[]
    {
      rows := map[];
    }

    method InsertNewArb(c: Cid, payload: Option<Legs>, cross: bool)
      modifies this
      ensures rows == InsertRow(old(rows), c, payload, cross)
      ensures forall x :: x in old(rows) ==> x in rows && rows[x] == old(rows)[x]
    {
      if c !in rows {
        rows := rows[c := Row(payload, false, false, cross)];
      }
    }

    method UpdateArbConfirm(c: Cid)
      modifies this
      ensures OnlyFlagsOf(old(rows), rows, c)
      ensures c in rows ==> rows[c].confirmed && rows[c].running == old(rows)[c].running
    {
      if c in rows {
        rows := rows[c := rows[c].(confirmed := true)];
      }
    }

    method UpdateArbStatus(c: Cid) returns (updated: Option<Row>)
      modifies this
      ensures OnlyFlagsOf(old(rows), rows, c)
      ensures c in rows ==> rows[c].confirmed && rows[c].running
      ensures if c in old(rows) then updated == Some(Row(old(rows)[c].payload, true, true, old(rows)[c].cross))
              else updated.None?
    {
      if c in rows {
        rows := rows[c := rows[c].(confirmed := true, running := true)];
        return Some(rows[c]);
      }
      updated := None;
    }

    method DeleteArbs(deleted: seq<Cid>)
      modifies this
      ensures rows == DeleteRows(old(rows), deleted)
    {
      for i := 0 to |deleted|
        invariant rows == DeleteRows(old(rows), deleted[..i])
      {
        rows := rows - {deleted[i]};
        assert Members(deleted[..i + 1]) == Members(deleted[..i]) + {deleted[i]};
      }
      assert deleted[..|deleted|] == deleted;
    }

    /** Decodes the selected rows one by one; a row that does not decode is skipped in both lists. */
    method RunningReply(order: seq<Cid>) returns (ids: seq<Cid>, arbs: seq<Legs>)
      requires Enumerates(order, rows)
      ensures ids == Decoded(rows, order) && Zipped(rows, ids, arbs)
      ensures forall c :: c in ids <==> c in rows && rows[c].running && rows[c].cross && rows[c].payload.Some?
    {
      ids, arbs := [], [];
      for i := 0 to |order|
        invariant ids == Decoded(rows, order[..i]) && Zipped(rows, ids, arbs)
      {
        assert order[..i + 1][..i] == order[..i];
        var payload := rows[order[i]].payload;
        if payload.Some? {
          ids := ids + [order[i]];
          arbs := arbs + [payload.value];
        }
      }
      assert order[..|order|] == order;
      DecodedAreExactlyTheReadable(rows, order);
    }

    /** One message from the bot: inserts, deletes, or a request for the running arbs. */
    method ProcessEbo(msg: BotMsg, order: seq<Cid>) returns (reply: Option<ServerMsg>)
      requires Enumerates(order, rows)
      modifies this
      ensures rows == RowsAfter(old(rows), msg)
      ensures RepliesTo(old(rows), msg, order, reply)
    {
      reply := None;
      match msg {
        case FoundArb(c, payload, cross) => InsertNewArb(c, payload, cross);
        case DeleteArbs(deleted) => DeleteArbs(deleted);
        case AskRunning(cross) =>
          if cross {
            var ids, arbs := RunningReply(order);
            reply := Some(RunningArbs(ids, arbs));
          }
        case OtherReport =>
      }
    }
  }
}
