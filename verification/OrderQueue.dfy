/** The transactional outbox between router and broker, with crashes at any point. */
module OrderQueue {
  import opened Domain
  import opened Sorting
  import opened SimBroker

  datatype RowStatus = Pending | Sent | Failed

  datatype Row = Row(clientOrderId: string, request: OrderRequest, enqueuedAt: int, attempts: nat, status: RowStatus,
                     brokerTicket: Option<nat>)

  /** How a broker call ends: with a result, or with an exception. */
  datatype Outcome = Returned(result: OrderResult) | Raised

  function Completed(row: Row, outcome: Outcome): Row {
    match outcome
    case Raised => row.(attempts := row.attempts + 1, status := Failed)
    case Returned(result) =>
      if result.ok then
        row.(attempts := row.attempts + 1, status := Sent,
             brokerTicket := if result.ticket.Some? then result.ticket else row.brokerTicket)
      else
        row.(attempts := row.attempts + 1, status := Failed)
  }

  /** How a row shows the end of its call: sent exactly when the call returned an accepted order, with the ticket
      the broker gave, otherwise failed; one more attempt, and nothing else of the row changes. */
  predicate Answered(before: Row, after: Row, outcome: Outcome) {
    var accepted := outcome.Returned? && outcome.result.ok;
    && (after.status == Sent <==> accepted)
    && (after.status == Failed <==> !accepted)
    && (accepted && outcome.result.ticket.Some? ==> after.brokerTicket == outcome.result.ticket)
    && (!accepted || outcome.result.ticket.None? ==> after.brokerTicket == before.brokerTicket)
    && after.attempts == before.attempts + 1
    && after.clientOrderId == before.clientOrderId && after.request == before.request
    && after.enqueuedAt == before.enqueuedAt
  }

  lemma CompletedIsAnswered(before: Row, after: Row, outcome: Outcome)
    ensures after == Completed(before, outcome) <==> Answered(before, after, outcome)
  {
  }

  /** Only row `id` changes, and as its call's outcome says. */
  predicate AnsweredAt(before: seq<Row>, after: seq<Row>, id: nat, outcome: Outcome)
    requires id < |before|
  {
    && |after| == |before|
    && (forall i :: 0 <= i < |before| && i != id ==> after[i] == before[i])
    && Answered(before[id], after[id], outcome)
  }

  predicate Known(rows: seq<Row>, clientOrderId: string) {
    exists i :: 0 <= i < |rows| && rows[i].clientOrderId == clientOrderId
  }

  function NewRow(clientOrderId: string, request: OrderRequest, now: int): Row {
    Row(clientOrderId, request, now, 0, Pending, None)
  }

  /** The pending rows among the first `n`, as stored; row ids are table positions. */
  function PendingBelow(rows: seq<Row>, n: nat): (ids: seq<nat>)
    requires n <= |rows|
    ensures forall i :: 0 <= i < |ids| ==> ids[i] < n
  {
    if n == 0 then []
    else PendingBelow(rows, n - 1) + if rows[n - 1].status == Pending then [n - 1] else []
  }

  function EnqueuedAt(rows: seq<Row>, id: nat): int {
    if id < |rows| then rows[id].enqueuedAt else 0
  }

  /** The rows a replay works through: the pending ones, by the time they were enqueued. The wall clock may
      have run backwards, so this need not be the order in which they were stored. */
  function PendingIds(rows: seq<Row>): (ids: seq<nat>)
    ensures forall i :: 0 <= i < |ids| ==> ids[i] < |rows|
  {
    var stored := PendingBelow(rows, |rows|);
    var ids := SortBy(stored, (id: nat) => EnqueuedAt(rows, id));
    assert forall i :: 0 <= i < |ids| ==> ids[i] in multiset(ids) && ids[i] in multiset(stored);
    ids
  }

  // ---- The object: each store transaction is atomic --------------------------------

  class OrderQueue {
    var rows: seq<Row>

    constructor ()
      ensures rows == []
    {
      rows := [];
    }

    /** The first transaction of a submission: refuse a known id, otherwise persist a pending row. */
    method Enqueue(clientOrderId: string, request: OrderRequest, now: int) returns (rowId: Option<nat>)
      modifies this
      ensures Known(old(rows), clientOrderId) ==> rowId == None && rows == old(rows)
      ensures !Known(old(rows), clientOrderId) ==>
        rowId == Some(|old(rows)|) && rows == old(rows) + [NewRow(clientOrderId, request, now)]
    {
      if Known(rows, clientOrderId) {
        return None;
      }
      rowId := Some(|rows|);
      rows := rows + [NewRow(clientOrderId, request, now)];
    }

    method UpdateStatus(rowId: nat, result: OrderResult)
      modifies this
      ensures rowId < |old(rows)| ==> AnsweredAt(old(rows), rows, rowId, Returned(result))
      ensures rowId >= |old(rows)| ==> rows == old(rows)
    {
      if rowId < |rows| {
        var row := rows[rowId];
        row := row.(attempts := row.attempts + 1);
        if result.ok {
          row := row.(status := Sent);
          if result.ticket.Some? {
            row := row.(brokerTicket := result.ticket);
          }
        } else {
          row := row.(status := Failed);
        }
        rows := rows[rowId := row];
      }
    }

    method MarkFailed(rowId: nat)
      modifies this
      ensures rowId < |old(rows)| ==> AnsweredAt(old(rows), rows, rowId, Raised)
      ensures rowId >= |old(rows)| ==> rows == old(rows)
    {
      if rowId < |rows| {
        rows := rows[rowId := rows[rowId].(attempts := rows[rowId].attempts + 1, status := Failed)];
      }
    }

    /** The second transaction, after the broker call. */
    method Finish(rowId: nat, outcome: Outcome)
      requires rowId < |rows|
      modifies this
      ensures rows == old(rows)[rowId := Completed(old(rows)[rowId], outcome)]
    {
      hide Completed, Answered;
      if outcome.Raised? {
        MarkFailed(rowId);
      } else {
        UpdateStatus(rowId, outcome.result);
      }
      CompletedIsAnswered(old(rows)[rowId], rows[rowId], outcome);
    }

    /** A submission that no crash interrupts; `outcome` is what the broker call does. */
    method Submit(clientOrderId: string, request: OrderRequest, now: int, outcome: Outcome) returns (result: Outcome)
      modifies this
      ensures Known(old(rows), clientOrderId) ==> rows == old(rows) && result == Returned(REFUSED)
      ensures !Known(old(rows), clientOrderId) ==>
        && result == outcome && |rows| == |old(rows)| + 1 && rows[..|old(rows)|] == old(rows)
        && var row := rows[|old(rows)|];
           && row.clientOrderId == clientOrderId && row.request == request && row.enqueuedAt == now
           && row.attempts == 1 && Answered(NewRow(clientOrderId, request, now), row, outcome)
    {
      var rowId := Enqueue(clientOrderId, request, now);
      if rowId.None? {
        return Returned(REFUSED);
      }
      Finish(rowId.value, outcome);
      return outcome;
    }

    /** A replay that no crash interrupts: every row pending at its start is completed, and no other row changes.
        The answers are the requests whose call returned. */
    method ReplayPendingResults(outcomes: nat -> Outcome) returns (replayed: seq<(OrderRequest, OrderResult)>)
      modifies this
      ensures |rows| == |old(rows)|
      ensures forall i :: 0 <= i < |rows| ==>
        if old(rows)[i].status == Pending then Answered(old(rows)[i], rows[i], outcomes(i)) else rows[i] == old(rows)[i]
      ensures replayed == Answers(old(rows), PendingIds(old(rows)), outcomes)
    {
      hide Completed, Answered, PendingIds;
      var before := rows;
      var ids := PendingIds(rows);
      replayed := [];
      for n := 0 to |ids|
        invariant rows == CompleteAll(before, ids[..n], outcomes)
        invariant replayed == Answers(before, ids[..n], outcomes)
      {
        assert ids[..n + 1][..n] == ids[..n];
        var outcome := outcomes(ids[n]);
        Finish(ids[n], outcome);
        if outcome.Returned? {
          replayed := replayed + [(before[ids[n]].request, outcome.result)];
        }
      }
      assert ids[..|ids|] == ids;
      PendingAnswered(before, outcomes);
    }
  }

  /** Completes the listed rows, one after the other. */
  function CompleteAll(rows: seq<Row>, ids: seq<nat>, outcomes: nat -> Outcome): (done: seq<Row>)
    requires forall i :: 0 <= i < |ids| ==> ids[i] < |rows|
    ensures |done| == |rows|
  {
    if ids == [] then rows
    else
      var before, id := CompleteAll(rows, ids[..|ids| - 1], outcomes), ids[|ids| - 1];
      before[id := Completed(before[id], outcomes(id))]
  }

  lemma {:induction false} CompleteAllExact(rows: seq<Row>, ids: seq<nat>, outcomes: nat -> Outcome)
    requires Distinct(ids) && forall i :: 0 <= i < |ids| ==> ids[i] < |rows|
    ensures forall i :: 0 <= i < |rows| ==>
      CompleteAll(rows, ids, outcomes)[i] == if i in ids then Completed(rows[i], outcomes(i)) else rows[i]
  {
    hide Completed;
    if ids != [] {
      var init, id := ids[..|ids| - 1], ids[|ids| - 1];
      assert ids == init + [id] && id !in init;
      CompleteAllExact(rows, init, outcomes);
    }
  }

  /** Completing the pending rows answers each of them once and leaves the others alone. */
  lemma PendingAnswered(rows: seq<Row>, outcomes: nat -> Outcome)
    ensures
      var done := CompleteAll(rows, PendingIds(rows), outcomes);
      forall i :: 0 <= i < |rows| ==>
        if rows[i].status == Pending then Answered(rows[i], done[i], outcomes(i)) else done[i] == rows[i]
  {
    hide Completed, Answered, PendingIds;
    var done := CompleteAll(rows, PendingIds(rows), outcomes);
    PendingIdsExact(rows);
    CompleteAllExact(rows, PendingIds(rows), outcomes);
    forall i | 0 <= i < |rows| && rows[i].status == Pending ensures Answered(rows[i], done[i], outcomes(i)) {
      CompletedIsAnswered(rows[i], done[i], outcomes(i));
    }
  }

  function Answers(rows: seq<Row>, ids: seq<nat>, outcomes: nat -> Outcome): seq<(OrderRequest, OrderResult)>
    requires forall i :: 0 <= i < |ids| ==> ids[i] < |rows|
  {
    if ids == [] then []
    else
      var id := ids[|ids| - 1];
      Answers(rows, ids[..|ids| - 1], outcomes)
        + match outcomes(id) {
            case Raised => []
            case Returned(result) => [(rows[id].request, result)]
          }
  }

  /** An answer is reported exactly for each completed row whose call returned: its request and that result. */
  lemma {:induction false} AnswersExact(rows: seq<Row>, ids: seq<nat>, outcomes: nat -> Outcome,
                                        request: OrderRequest, result: OrderResult)
    requires forall i :: 0 <= i < |ids| ==> ids[i] < |rows|
    ensures (request, result) in Answers(rows, ids, outcomes)
       <==> exists id :: id in ids && id < |rows| && rows[id].request == request && outcomes(id) == Returned(result)
    ensures |Answers(rows, ids, outcomes)| <= |ids|
    ensures (forall id :: id in ids ==> outcomes(id).Returned?) ==> |Answers(rows, ids, outcomes)| == |ids|
  {
    if ids != [] {
      var init, last := ids[..|ids| - 1], ids[|ids| - 1];
      assert ids == init + [last] && last in ids;
      assert forall id :: id in ids <==> id in init || id == last;
      AnswersExact(rows, init, outcomes, request, result);
    }
  }

  lemma {:induction false} PendingBelowExact(rows: seq<Row>, n: nat)
    requires n <= |rows|
    ensures forall id :: id in PendingBelow(rows, n) <==> 0 <= id < n && rows[id].status == Pending
    ensures Distinct(PendingBelow(rows, n))
  {
    if n > 0 {
      PendingBelowExact(rows, n - 1);
    }
  }

  lemma DistinctIsOnce(ids: seq<nat>)
    ensures Distinct(ids) <==> forall id :: multiset(ids)[id] <= 1
  {
    if Distinct(ids) {
      forall id ensures multiset(ids)[id] <= 1 {
        AtMostOnce(ids, id);
      }
    } else {
      var i, j :| 0 <= i < j < |ids| && ids[i] == ids[j];
      assert ids == ids[..i + 1] + ids[i + 1..];
      assert ids[j] in ids[i + 1..];
      assert multiset(ids)[ids[i]] >= 2;
    }
  }

  lemma {:induction false} AtMostOnce(ids: seq<nat>, id: nat)
    requires Distinct(ids)
    ensures multiset(ids)[id] <= 1
  {
    if ids != [] {
      var init, last := ids[..|ids| - 1], ids[|ids| - 1];
      assert ids == init + [last] && last !in init;
      AtMostOnce(init, id);
    }
  }

  /** Exactly the pending rows, each once, oldest first. */
  lemma PendingIdsExact(rows: seq<Row>)
    ensures forall id: nat :: id in PendingIds(rows) <==> id < |rows| && rows[id].status == Pending
    ensures Distinct(PendingIds(rows))
    ensures forall i, j :: 0 <= i < j < |PendingIds(rows)| ==>
      EnqueuedAt(rows, PendingIds(rows)[i]) <= EnqueuedAt(rows, PendingIds(rows)[j])
  {
    hide SortBy, EnqueuedAt;
    var stored, ids := PendingBelow(rows, |rows|), PendingIds(rows);
    var key := (id: nat) => EnqueuedAt(rows, id);
    PendingBelowExact(rows, |rows|);
    assert ids == SortBy(stored, key);
    forall id: nat ensures id in ids <==> id in stored {
      assert id in multiset(ids) <==> id in multiset(stored);
    }
    DistinctIsOnce(stored);
    DistinctIsOnce(ids);
    SortByIsStableSort(stored, key, 0);
    forall i, j | 0 <= i < j < |ids| ensures EnqueuedAt(rows, ids[i]) <= EnqueuedAt(rows, ids[j]) {
      assert key(ids[i]) <= key(ids[j]);
    }
  }
}
