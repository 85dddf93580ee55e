/** The outbox as a protocol: submissions, replays, broker calls and crashes interleaved in any order. */
module OutboxProtocol {
  import opened Domain
  import opened SimBroker
  import opened OrderQueue

  /** Where a submission is between its two transactions. */
  datatype Flight = Persisted | Calling

  /** A replay works through the rows pending when it began; `size` is the table size at that moment. */
  datatype Replay = Idle | Replaying(remaining: seq<nat>, calling: Option<nat>, size: nat)

  /** What the broker answered to a call for row `id`, as recorded. */
  datatype Answer = Answer(id: nat, outcome: Outcome)

  /** The durable table, the volatile flights and replay, and the history of broker calls, of their recorded
      answers and of calls whose outcome was lost to a crash or a cancellation. */
  datatype Outbox = Outbox(
    rows: seq<Row>, flights: map<nat, Flight>, replay: Replay, calls: seq<nat>, answers: seq<Answer>,
    lost: multiset<nat>, interruptions: nat)

  const EMPTY: Outbox := Outbox([], map[], Idle, [], [], multiset{}, 0)

  datatype Step =
    | Enqueue(clientOrderId: string, request: OrderRequest, now: int)
    | Call(id: nat)
    | Complete(id: nat, outcome: Outcome)
    | Cancel(id: nat)
    | BeginReplay
    | ReplayCall
    | ReplayComplete(outcome: Outcome)
    | EndReplay
    | AbortReplay
    | Crash

  /** A replay only begins while no submission is in flight. */
  predicate Enabled(o: Outbox, step: Step) {
    match step
    case Enqueue(_, _, _) => true
    case Call(id) => id in o.flights && o.flights[id] == Persisted
    case Complete(id, _) => id in o.flights && o.flights[id] == Calling && id < |o.rows|
    case Cancel(id) => id in o.flights
    case BeginReplay => o.replay.Idle? && o.flights == map[]
    case ReplayCall => o.replay.Replaying? && o.replay.calling.None? && o.replay.remaining != []
    case ReplayComplete(_) => o.replay.Replaying? && o.replay.calling.Some? && o.replay.calling.value < |o.rows|
    case EndReplay => o.replay.Replaying? && o.replay.calling.None? && o.replay.remaining == []
    case AbortReplay => o.replay.Replaying?
    case Crash => true
  }

  /** A call for this row is in progress, and a crash would lose its outcome. */
  predicate InCall(o: Outbox, id: nat) {
    || (id in o.flights && o.flights[id] == Calling)
    || (o.replay.Replaying? && o.replay.calling == Some(id))
  }

  function AllInCall(o: Outbox): (ids: set<nat>)
    ensures forall id: nat :: id in ids <==> InCall(o, id)
  {
    (set id | id in o.flights && o.flights[id] == Calling)
    + (if o.replay.Replaying? && o.replay.calling.Some? then {o.replay.calling.value} else {})
  }

  function StartReplay(o: Outbox): Outbox {
    o.(replay := Replaying(PendingIds(o.rows), None, |o.rows|))
  }

  function CallNext(o: Outbox): Outbox
    requires o.replay.Replaying? && o.replay.remaining != []
  {
    var r := o.replay;
    o.(calls := o.calls + [r.remaining[0]],
       replay := r.(remaining := r.remaining[1..], calling := Some(r.remaining[0])))
  }

  function Next(o: Outbox, step: Step): Outbox
    requires Enabled(o, step)
  {
    match step
    case Enqueue(clientOrderId, request, now) =>
      if Known(o.rows, clientOrderId) then o
      else o.(rows := o.rows + [NewRow(clientOrderId, request, now)], flights := o.flights[|o.rows| := Persisted])
    case Call(id) => o.(flights := o.flights[id := Calling], calls := o.calls + [id])
    case Complete(id, outcome) =>
      o.(rows := o.rows[id := Completed(o.rows[id], outcome)], flights := o.flights - {id},
         answers := o.answers + [Answer(id, outcome)])
    case Cancel(id) =>
      o.(flights := o.flights - {id}, interruptions := o.interruptions + 1,
         lost := o.lost + if o.flights[id] == Calling then multiset{id} else multiset{})
    case BeginReplay => StartReplay(o)
    case ReplayCall => CallNext(o)
    case ReplayComplete(outcome) =>
      var id := o.replay.calling.value;
      o.(rows := o.rows[id := Completed(o.rows[id], outcome)], replay := o.replay.(calling := None),
         answers := o.answers + [Answer(id, outcome)])
    case EndReplay => o.(replay := Idle)
    case AbortReplay =>
      o.(replay := Idle, interruptions := o.interruptions + 1,
         lost := o.lost + if o.replay.calling.Some? then multiset{o.replay.calling.value} else multiset{})
    case Crash =>
      o.(flights := map[], replay := Idle, interruptions := o.interruptions + 1,
         lost := o.lost + multiset(AllInCall(o)))
  }

  // ---- The invariant --------------------------------------------------------------------

  ghost predicate UniqueIds(rows: seq<Row>) {
    forall i, j :: 0 <= i < j < |rows| ==> rows[i].clientOrderId != rows[j].clientOrderId
  }

  /** Untouched while pending, completed once. */
  ghost predicate AttemptsMatchStatus(rows: seq<Row>) {
    forall i :: 0 <= i < |rows| ==> rows[i].attempts == Count(rows[i].status != Pending)
  }

  ghost predicate PendingRow(rows: seq<Row>, id: nat) {
    id < |rows| && rows[id].status == Pending
  }

  /** Flights and the replay hold pending rows, and never the same one. */
  ghost predicate OneHolder(o: Outbox) {
    && (forall id :: id in o.flights ==> PendingRow(o.rows, id))
    && (o.replay.Replaying? ==>
          var r := o.replay;
          && r.size <= |o.rows|
          && (forall id :: id in r.remaining ==> id < r.size && PendingRow(o.rows, id) && id !in o.flights)
          && (forall i, j :: 0 <= i < j < |r.remaining| ==> r.remaining[i] != r.remaining[j])
          && (r.calling.Some? ==>
                && r.calling.value < r.size && PendingRow(o.rows, r.calling.value)
                && r.calling.value !in r.remaining && r.calling.value !in o.flights))
  }

  /** What a replay has still to do: every older row that is pending. */
  ghost predicate ReplayCovers(o: Outbox) {
    o.replay.Replaying? ==>
      forall id: nat :: id < o.replay.size && PendingRow(o.rows, id)
        ==> id in o.replay.remaining || o.replay.calling == Some(id)
  }

  /** The row exists and is sent or failed. */
  predicate Done(rows: seq<Row>, id: nat) {
    id < |rows| && rows[id].status != Pending
  }

  ghost predicate CallsConserved(o: Outbox, id: nat) {
    multiset(o.calls)[id] == Count(Done(o.rows, id)) + Count(InCall(o, id)) + o.lost[id]
  }

  /** Every broker call was answered, is in progress, or was lost; and an interruption loses at most one per row. */
  ghost predicate CallsAccounted(o: Outbox) {
    forall id: nat :: CallsConserved(o, id) && o.lost[id] <= o.interruptions
  }

  /** The recorded answers for row `id`, oldest first. */
  function AnswersFor(answers: seq<Answer>, id: nat): seq<Outcome> {
    if answers == [] then []
    else
      var last := answers[|answers| - 1];
      AnswersFor(answers[..|answers| - 1], id) + if last.id == id then [last.outcome] else []
  }

  /** The row as it was enqueued. */
  function Untouched(row: Row): Row {
    NewRow(row.clientOrderId, row.request, row.enqueuedAt)
  }

  /** A completed row shows the one answer recorded for it; a pending one has none and is as enqueued. */
  ghost predicate ShowsAnswer(o: Outbox, id: nat) {
    var told := AnswersFor(o.answers, id);
    if Done(o.rows, id) then |told| == 1 && Answered(Untouched(o.rows[id]), o.rows[id], told[0])
    else told == [] && (id < |o.rows| ==> o.rows[id] == Untouched(o.rows[id]))
  }

  ghost predicate AnswersShown(o: Outbox) {
    forall id: nat :: ShowsAnswer(o, id)
  }

  ghost predicate Safe(o: Outbox) {
    && UniqueIds(o.rows) && AttemptsMatchStatus(o.rows)
    && OneHolder(o) && ReplayCovers(o) && CallsAccounted(o) && AnswersShown(o)
  }

  /** A row keeps its id and request; a completed row never changes again. */
  ghost predicate RowsOnlyAdvance(before: seq<Row>, after: seq<Row>) {
    && |before| <= |after|
    && forall i :: 0 <= i < |before| ==>
         && after[i].clientOrderId == before[i].clientOrderId && after[i].request == before[i].request
         && (before[i].status != Pending ==> after[i] == before[i])
  }

  lemma CallAppended(calls: seq<nat>, called: nat, id: nat)
    ensures multiset(calls + [called])[id] == multiset(calls)[id] + Count(id == called)
  {
  }

  /** If one row's call moved between the three places and the others stayed, calls stay accounted for. */
  lemma OneCallMoved(o: Outbox, o': Outbox, k: nat)
    requires CallsAccounted(o) && CallsConserved(o', k) && o'.lost[k] <= o'.interruptions
    requires o.interruptions <= o'.interruptions
    requires forall id: nat :: id != k ==>
      && multiset(o'.calls)[id] == multiset(o.calls)[id] && o'.lost[id] == o.lost[id]
      && (InCall(o', id) <==> InCall(o, id))
      && (Done(o'.rows, id) <==> Done(o.rows, id))
    ensures CallsAccounted(o')
  {
    hide InCall, Done;
    forall id: nat ensures CallsConserved(o', id) && o'.lost[id] <= o'.interruptions {
      assert CallsConserved(o, id) && o.lost[id] <= o.interruptions;
    }
  }

  lemma CompletedIsDone(row: Row, outcome: Outcome)
    ensures
      var done := Completed(row, outcome);
      && done.status != Pending && done.attempts == row.attempts + 1
      && done.clientOrderId == row.clientOrderId && done.request == row.request
  {
  }

  lemma EnqueueCalls(o: Outbox, clientOrderId: string, request: OrderRequest, now: int)
    requires OneHolder(o) && CallsAccounted(o)
    ensures CallsAccounted(Next(o, Enqueue(clientOrderId, request, now)))
  {
    hide Known;
    assert CallsConserved(o, |o.rows|);
    OneCallMoved(o, Next(o, Enqueue(clientOrderId, request, now)), |o.rows|);
  }

  lemma CompleteCalls(o: Outbox, id: nat, outcome: Outcome)
    requires OneHolder(o) && CallsAccounted(o) && Enabled(o, Complete(id, outcome))
    ensures CallsAccounted(Next(o, Complete(id, outcome)))
  {
    hide Completed;
    assert CallsConserved(o, id);
    CompletedIsDone(o.rows[id], outcome);
    OneCallMoved(o, Next(o, Complete(id, outcome)), id);
  }

  lemma CancelCalls(o: Outbox, id: nat)
    requires OneHolder(o) && CallsAccounted(o) && Enabled(o, Cancel(id))
    ensures CallsAccounted(Next(o, Cancel(id)))
  {
    assert CallsConserved(o, id);
    OneCallMoved(o, Next(o, Cancel(id)), id);
  }

  lemma ReplayCompleteCalls(o: Outbox, step: Step)
    requires OneHolder(o) && CallsAccounted(o) && Enabled(o, step) && step.ReplayComplete?
    ensures CallsAccounted(Next(o, step))
  {
    hide Completed, PendingIds;
    var id := o.replay.calling.value;
    assert CallsConserved(o, id);
    CompletedIsDone(o.rows[id], step.outcome);
    OneCallMoved(o, Next(o, step), id);
  }

  /** Nothing that is counted has moved. */
  lemma SameCalls(o: Outbox, o': Outbox)
    requires CallsAccounted(o) && o'.rows == o.rows && o'.calls == o.calls && o'.lost == o.lost
    requires o.interruptions <= o'.interruptions && forall id: nat :: InCall(o', id) <==> InCall(o, id)
    ensures CallsAccounted(o')
  {
    hide Done, InCall;
    forall id: nat ensures CallsConserved(o', id) && o'.lost[id] <= o'.interruptions {
      assert CallsConserved(o, id) && o.lost[id] <= o.interruptions;
    }
  }

  lemma AbortReplayCalls(o: Outbox)
    requires OneHolder(o) && CallsAccounted(o) && Enabled(o, AbortReplay)
    ensures CallsAccounted(Next(o, AbortReplay))
  {
    hide Done;
    var o' := Next(o, AbortReplay);
    if o.replay.calling.Some? {
      var id := o.replay.calling.value;
      assert CallsConserved(o, id);
      OneCallMoved(o, o', id);
    } else {
      SameCalls(o, o');
    }
  }

  lemma BeginOrEndCalls(o: Outbox, step: Step)
    requires CallsAccounted(o) && Enabled(o, step) && (step.BeginReplay? || step.EndReplay?)
    ensures CallsAccounted(Next(o, step))
  {
    hide PendingIds, CallsAccounted;
    SameCalls(o, Next(o, step));
  }

  /** A call, by a submission or by the replay, of a row that no call is in progress for. */
  lemma NewCall(o: Outbox, o': Outbox, called: nat)
    requires CallsAccounted(o) && !InCall(o, called) && InCall(o', called)
    requires forall id: nat :: id != called ==> (InCall(o', id) <==> InCall(o, id))
    requires o'.rows == o.rows && o'.lost == o.lost && o'.interruptions == o.interruptions
    requires o'.calls == o.calls + [called]
    ensures CallsAccounted(o')
  {
    hide InCall;
    assert CallsConserved(o, called);
    forall id: nat ensures multiset(o'.calls)[id] == multiset(o.calls)[id] + Count(id == called) {
      CallAppended(o.calls, called, id);
    }
    OneCallMoved(o, o', called);
  }

  lemma CallsStep(o: Outbox, step: Step)
    requires OneHolder(o) && CallsAccounted(o) && Enabled(o, step)
    ensures CallsAccounted(Next(o, step))
  {
    hide CallsAccounted;
    match step {
      case Call(id) => NewCall(o, Next(o, step), id);
      case ReplayCall => NewCall(o, Next(o, step), o.replay.remaining[0]);
      case Crash => CrashKeepsCalls(o);
      case Enqueue(clientOrderId, request, now) => EnqueueCalls(o, clientOrderId, request, now);
      case Complete(id, outcome) => CompleteCalls(o, id, outcome);
      case Cancel(id) => CancelCalls(o, id);
      case ReplayComplete(_) => ReplayCompleteCalls(o, step);
      case AbortReplay => AbortReplayCalls(o);
      case _ => BeginOrEndCalls(o, step);
    }
  }

  lemma CrashKeepsCalls(o: Outbox)
    requires CallsAccounted(o)
    ensures CallsAccounted(Next(o, Crash))
  {
    var o' := Next(o, Crash);
    forall id: nat ensures CallsConserved(o', id) && o'.lost[id] <= o'.interruptions {
      assert CallsConserved(o, id) && o.lost[id] <= o.interruptions;
      assert multiset(AllInCall(o))[id] == Count(id in AllInCall(o));
    }
  }

  lemma SubmissionHolders(o: Outbox, step: Step)
    requires OneHolder(o) && ReplayCovers(o) && Enabled(o, step)
    requires step.Enqueue? || step.Call? || step.Complete? || step.Cancel?
    ensures OneHolder(Next(o, step)) && ReplayCovers(Next(o, step))
  {
    hide Known, Completed;
    if step.Complete? {
      CompletedIsDone(o.rows[step.id], step.outcome);
    }
  }

  lemma ReplayHolders(o: Outbox, step: Step)
    requires OneHolder(o) && ReplayCovers(o) && Enabled(o, step)
    requires step.BeginReplay? || step.ReplayCall? || step.ReplayComplete?
    ensures OneHolder(Next(o, step)) && ReplayCovers(Next(o, step))
  {
    hide PendingIds, Completed;
    match step
    case BeginReplay => PendingIdsExact(o.rows);
    case ReplayCall =>
      var all := o.replay.remaining;
      assert all == [all[0]] + all[1..];
      assert all[0] in all && (forall id :: id in all[1..] ==> id in all);
      assert all[0] !in all[1..];
    case ReplayComplete(outcome) => CompletedIsDone(o.rows[o.replay.calling.value], outcome);
  }

  lemma HoldersStep(o: Outbox, step: Step)
    requires OneHolder(o) && ReplayCovers(o) && Enabled(o, step)
    ensures OneHolder(Next(o, step)) && ReplayCovers(Next(o, step))
  {
    hide PendingIds, Completed, AllInCall, Known;
    match step {
      case EndReplay =>
      case AbortReplay =>
      case Crash =>
      case BeginReplay => ReplayHolders(o, step);
      case ReplayCall => ReplayHolders(o, step);
      case ReplayComplete(_) => ReplayHolders(o, step);
      case _ => SubmissionHolders(o, step);
    }
  }

  lemma RowAdded(rows: seq<Row>, clientOrderId: string, request: OrderRequest, now: int)
    requires UniqueIds(rows) && AttemptsMatchStatus(rows) && !Known(rows, clientOrderId)
    ensures
      var rows' := rows + [NewRow(clientOrderId, request, now)];
      UniqueIds(rows') && AttemptsMatchStatus(rows') && RowsOnlyAdvance(rows, rows')
  {
  }

  lemma RowCompleted(rows: seq<Row>, id: nat, outcome: Outcome)
    requires UniqueIds(rows) && AttemptsMatchStatus(rows) && PendingRow(rows, id)
    ensures
      var rows' := rows[id := Completed(rows[id], outcome)];
      UniqueIds(rows') && AttemptsMatchStatus(rows') && RowsOnlyAdvance(rows, rows')
  {
    hide Completed;
    CompletedIsDone(rows[id], outcome);
  }

  lemma RowsStep(o: Outbox, step: Step)
    requires UniqueIds(o.rows) && AttemptsMatchStatus(o.rows) && OneHolder(o) && Enabled(o, step)
    ensures
      var rows := Next(o, step).rows;
      UniqueIds(rows) && AttemptsMatchStatus(rows) && RowsOnlyAdvance(o.rows, rows)
  {
    hide PendingIds, Completed, UniqueIds, AttemptsMatchStatus, Known, AllInCall, RowsOnlyAdvance;
    Unchanged(o.rows);
    match step {
      case Enqueue(clientOrderId, request, now) =>
        if !Known(o.rows, clientOrderId) {
          RowAdded(o.rows, clientOrderId, request, now);
        }
      case Complete(id, outcome) => RowCompleted(o.rows, id, outcome);
      case ReplayComplete(outcome) => RowCompleted(o.rows, o.replay.calling.value, outcome);
      case _ =>
    }
  }

  lemma Unchanged(rows: seq<Row>)
    ensures RowsOnlyAdvance(rows, rows)
  {
  }

  lemma AnswerAppended(answers: seq<Answer>, a: Answer, id: nat)
    ensures AnswersFor(answers + [a], id) == AnswersFor(answers, id) + if a.id == id then [a.outcome] else []
  {
    assert (answers + [a])[..|answers|] == answers;
  }

  /** A row that was pending takes the answer recorded for it, and no other row or answer changes. */
  lemma AnswerRecorded(o: Outbox, o': Outbox, id: nat, outcome: Outcome)
    requires AnswersShown(o) && PendingRow(o.rows, id)
    requires o'.rows == o.rows[id := Completed(o.rows[id], outcome)]
    requires o'.answers == o.answers + [Answer(id, outcome)]
    ensures AnswersShown(o')
  {
    hide Completed, Answered, AnswersFor;
    CompletedIsAnswered(o.rows[id], o'.rows[id], outcome);
    AnsweredParts(o.rows[id], o'.rows[id], outcome);
    forall k: nat ensures ShowsAnswer(o', k) {
      assert ShowsAnswer(o, k);
      AnswerAppended(o.answers, Answer(id, outcome), k);
    }
  }

  lemma AnsweredParts(before: Row, after: Row, outcome: Outcome)
    requires Answered(before, after, outcome)
    ensures after.status != Pending && Untouched(after) == Untouched(before)
  {
  }

  lemma AnswersStep(o: Outbox, step: Step)
    requires OneHolder(o) && AnswersShown(o) && Enabled(o, step)
    ensures AnswersShown(Next(o, step))
  {
    hide Completed, Answered, PendingIds, AllInCall, Known, AnswersFor;
    var o' := Next(o, step);
    match step {
      case Complete(id, outcome) => AnswerRecorded(o, o', id, outcome);
      case ReplayComplete(outcome) => AnswerRecorded(o, o', o.replay.calling.value, outcome);
      case _ =>
        forall id: nat ensures ShowsAnswer(o', id) {
          assert ShowsAnswer(o, id);
        }
    }
  }

  /** Every step keeps the protocol safe, and rows only ever advance from pending to sent or failed. */
  lemma StepSafe(o: Outbox, step: Step)
    requires Safe(o) && Enabled(o, step)
    ensures Safe(Next(o, step)) && RowsOnlyAdvance(o.rows, Next(o, step).rows)
  {
    hide Next, CallsAccounted, OneHolder, ReplayCovers, UniqueIds, AttemptsMatchStatus, RowsOnlyAdvance, Enabled,
      AnswersShown;
    AnswersStep(o, step);
    CallsStep(o, step);
    HoldersStep(o, step);
    RowsStep(o, step);
  }

  /** `trace[i]` steps to `trace[i + 1]`. */
  ghost predicate Path(trace: seq<Outbox>, steps: seq<Step>) {
    && |trace| == |steps| + 1
    && forall i :: 0 <= i < |steps| ==> Enabled(trace[i], steps[i]) && trace[i + 1] == Next(trace[i], steps[i])
  }

  ghost predicate Run(trace: seq<Outbox>, steps: seq<Step>) {
    Path(trace, steps) && trace[0] == EMPTY
  }

  lemma EmptyIsSafe()
    ensures Safe(EMPTY)
  {
    assert forall id: nat :: !InCall(EMPTY, id);
  }

  lemma {:induction false} RunSafe(trace: seq<Outbox>, steps: seq<Step>, i: nat)
    requires Run(trace, steps) && i <= |steps|
    ensures Safe(trace[i])
  {
    hide Safe, Next, Enabled;
    if i == 0 {
      EmptyIsSafe();
    } else {
      RunSafe(trace, steps, i - 1);
      StepSafe(trace[i - 1], steps[i - 1]);
    }
  }

  lemma {:induction false} RunAdvances(trace: seq<Outbox>, steps: seq<Step>, i: nat, j: nat)
    requires Run(trace, steps) && i <= j <= |steps|
    ensures RowsOnlyAdvance(trace[i].rows, trace[j].rows)
  {
    hide Safe, Next, Enabled;
    if i < j {
      RunAdvances(trace, steps, i, j - 1);
      RunSafe(trace, steps, j - 1);
      StepSafe(trace[j - 1], steps[j - 1]);
    }
  }

  // ---- What the protocol promises ------------------------------------------------------------

  /** A completed row has had a broker call; no row has had more than one plus the interruptions. */
  lemma CallBounds(trace: seq<Outbox>, steps: seq<Step>, i: nat, id: nat)
    requires Run(trace, steps) && i <= |steps|
    ensures
      var o := trace[i];
      && (Done(o.rows, id) ==> multiset(o.calls)[id] >= 1)
      && multiset(o.calls)[id] <= 1 + o.interruptions
  {
    hide Next, Enabled;
    RunSafe(trace, steps, i);
    assert CallsConserved(trace[i], id);
  }

  /** In every state of every run a row is sent exactly when its broker call returned an accepted order, under
      the ticket of that order; failed exactly when the call was refused or raised; pending while no call of it has
      been answered. Every call was answered, is in progress, or was lost. */
  lemma StatusIsTheAnswer(trace: seq<Outbox>, steps: seq<Step>, i: nat, id: nat)
    requires Run(trace, steps) && i <= |steps| && id < |trace[i].rows|
    ensures
      var o, row := trace[i], trace[i].rows[id];
      var told := AnswersFor(o.answers, id);
      && (row.status == Pending <==> told == [])
      && (row.status == Sent <==> |told| == 1 && told[0].Returned? && told[0].result.ok)
      && (row.status == Failed <==> |told| == 1 && (told[0].Raised? || !told[0].result.ok))
      && row.brokerTicket == (if row.status == Sent then told[0].result.ticket else None)
      && multiset(o.calls)[id] == |told| + Count(InCall(o, id)) + o.lost[id]
  {
    hide Next, Enabled;
    RunSafe(trace, steps, i);
    assert ShowsAnswer(trace[i], id) && CallsConserved(trace[i], id);
  }

  /** A replay that runs to its end leaves none of the rows it began with pending;
      without new submissions meanwhile it leaves no row pending. */
  lemma CompletedReplayLeavesNothing(trace: seq<Outbox>, steps: seq<Step>, i: nat)
    requires Run(trace, steps) && i < |steps| && steps[i] == EndReplay
    ensures
      var o, size := trace[i + 1], trace[i].replay.size;
      && trace[i + 1].rows == trace[i].rows && size <= |o.rows|
      && forall id: nat :: id < size ==> Done(o.rows, id)
  {
    hide CallsAccounted;
    RunSafe(trace, steps, i);
    var o := trace[i];
    forall id: nat | id < o.replay.size ensures Done(o.rows, id) {
      assert !PendingRow(o.rows, id);
    }
  }

  // ---- Why a replay must wait for submissions to finish --------------------------------------------

  /** Neither a crash nor a cancellation. */
  predicate Uninterrupted(step: Step) {
    !step.Crash? && !step.Cancel? && !step.AbortReplay?
  }

  /** The replay works its way to row `id` and calls the broker for it. */
  lemma {:induction false} ReplayReaches(o: Outbox, id: nat) returns (trace: seq<Outbox>, steps: seq<Step>)
    requires o.replay.Replaying? && o.replay.calling.None? && id in o.replay.remaining
    requires forall row :: row in o.replay.remaining ==> row < |o.rows|
    ensures Path(trace, steps) && trace[0] == o && forall i :: 0 <= i < |steps| ==> Uninterrupted(steps[i])
    ensures
      var last := trace[|steps|];
      && last.lost == o.lost && last.interruptions == o.interruptions
      && multiset(last.calls)[id] > multiset(o.calls)[id]
    decreases |o.replay.remaining|
  {
    hide Completed, PendingIds, StartReplay;
    var row := o.replay.remaining[0];
    var called := Next(o, ReplayCall);
    CallAppended(o.calls, row, id);
    if row == id {
      trace, steps := [o, called], [ReplayCall];
    } else {
      assert o.replay.remaining == [row] + o.replay.remaining[1..];
      assert row in o.replay.remaining && forall r :: r in called.replay.remaining ==> r in o.replay.remaining;
      var answered := Next(called, ReplayComplete(Raised));
      var rest, more := ReplayReaches(answered, id);
      trace, steps := [o, called] + rest, [ReplayCall, ReplayComplete(Raised)] + more;
      forall i | 0 <= i < |steps|
        ensures Enabled(trace[i], steps[i]) && trace[i + 1] == Next(trace[i], steps[i]) && Uninterrupted(steps[i])
      {
        if i >= 2 {
          assert trace[i] == rest[i - 2] && steps[i] == more[i - 2] && trace[i + 1] == rest[i - 1];
        }
      }
    }
  }

  /** In every safe state, whatever submission is in flight: if a replay started there, its row could be called
      twice with nothing interrupted. */
  lemma UnguardedReplayCallsTwice(o: Outbox, id: nat) returns (trace: seq<Outbox>, steps: seq<Step>)
    requires Safe(o) && o.replay.Idle? && id in o.flights
    ensures Path(trace, steps) && trace[0] == StartReplay(o)
    ensures forall i :: 0 <= i < |steps| ==> Uninterrupted(steps[i])
    ensures
      var last := trace[|steps|];
      && last.lost == o.lost && last.interruptions == o.interruptions
      && multiset(last.calls)[id] >= last.lost[id] + 2
  {
    hide PendingIds, UniqueIds, AttemptsMatchStatus;
    var started := StartReplay(o);
    PendingIdsExact(o.rows);
    assert PendingRow(o.rows, id) && CallsConserved(o, id);
    if o.flights[id] == Calling {
      trace, steps := ReplayReaches(started, id);
    } else {
      var called := Next(started, Call(id));
      CallAppended(o.calls, id, id);
      var rest, more := ReplayReaches(called, id);
      trace, steps := [started] + rest, [Call(id)] + more;
      forall i | 0 <= i < |steps|
        ensures Enabled(trace[i], steps[i]) && trace[i + 1] == Next(trace[i], steps[i]) && Uninterrupted(steps[i])
      {
        if i >= 1 {
          assert trace[i] == rest[i - 1] && steps[i] == more[i - 1] && trace[i + 1] == rest[i];
        }
      }
    }
  }

  /** Whatever happens from here on without an interruption, no row is called more than once beyond the
      calls already lost. */
  ghost predicate NeverTwice(o: Outbox) {
    forall trace, steps |
      Path(trace, steps) && trace[0] == o && (forall i :: 0 <= i < |steps| ==> Uninterrupted(steps[i]))
      :: OncePerRow(trace[|steps|])
  }

  ghost predicate OncePerRow(o: Outbox) {
    forall id: nat :: multiset(o.calls)[id] <= o.lost[id] + 1
  }

  lemma {:induction false} SafeAlong(trace: seq<Outbox>, steps: seq<Step>, i: nat)
    requires Path(trace, steps) && i <= |steps| && Safe(trace[0])
    ensures Safe(trace[i])
  {
    hide Safe, Next, Enabled;
    if i > 0 {
      SafeAlong(trace, steps, i - 1);
      StepSafe(trace[i - 1], steps[i - 1]);
    }
  }

  lemma SafeMeansOnce(o: Outbox)
    requires Safe(o)
    ensures OncePerRow(o)
  {
    forall id: nat ensures multiset(o.calls)[id] <= o.lost[id] + 1 {
      assert CallsConserved(o, id);
    }
  }

  lemma HeldTwice(o: Outbox)
    requires OneHolder(o) && o.flights != map[]
    ensures !OneHolder(StartReplay(o))
  {
    hide PendingIds;
    PendingIdsExact(o.rows);
    var id := SomeMember(o.flights.Keys);
    assert id in PendingIds(o.rows);
  }

  /** A replay that starts in a safe state keeps every row to one call, and to one holder, exactly when no
      submission is in flight. */
  lemma ReplaySafeIffQuiet(o: Outbox)
    requires Safe(o) && o.replay.Idle?
    ensures NeverTwice(StartReplay(o)) <==> o.flights == map[]
    ensures OneHolder(StartReplay(o)) <==> o.flights == map[]
  {
    hide Safe, OneHolder, StartReplay, OncePerRow;
    SafeParts(o);
    if o.flights == map[] {
      QuietStart(o);
      SafeParts(StartReplay(o));
      forall trace, steps | Path(trace, steps) && trace[0] == StartReplay(o) ensures OncePerRow(trace[|steps|]) {
        SafeAlong(trace, steps, |steps|);
        SafeMeansOnce(trace[|steps|]);
      }
    } else {
      HeldTwice(o);
      var id := SomeMember(o.flights.Keys);
      var trace, steps := UnguardedReplayCallsTwice(o, id);
      assert !OncePerRow(trace[|steps|]) by { TwiceIsNotOnce(trace[|steps|], id); }
    }
  }

  lemma SafeParts(o: Outbox)
    requires Safe(o)
    ensures OneHolder(o)
  {
  }

  lemma QuietStart(o: Outbox)
    requires Safe(o) && o.replay.Idle? && o.flights == map[]
    ensures Safe(StartReplay(o))
  {
    hide Safe;
    StepSafe(o, BeginReplay);
  }

  lemma TwiceIsNotOnce(o: Outbox, id: nat)
    requires multiset(o.calls)[id] >= o.lost[id] + 2
    ensures !OncePerRow(o)
  {
  }

  /** That state is reached at once: one submission is enough. */
  lemma OneSubmissionIsInFlight(request: OrderRequest, now: int) returns (o: Outbox)
    ensures Run([EMPTY, o], [Enqueue("order-1", request, now)])
    ensures Safe(o) && o.replay.Idle? && 0 in o.flights
  {
    EmptyIsSafe();
    o := Next(EMPTY, Enqueue("order-1", request, now));
    StepSafe(EMPTY, Enqueue("order-1", request, now));
  }
}
