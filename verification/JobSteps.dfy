/** Every step of the bulk-job protocol keeps the invariant. */
module JobSteps {
  import opened Text
  import opened Verdicts
  import opened BulkQueue
  import opened JobState
  import opened JobRows
  import opened JobInvariant

  // ---------------------------------------------------------------- failing with a refund

  lemma BrokenTasks(tasks: map<TaskId, Task>)
    ensures AllBroken(tasks).Keys == tasks.Keys
    ensures forall id | id in tasks :: AllBroken(tasks)[id] == tasks[id].(status := Broken)
  {
  }

  lemma RefundCounts(st: State, credits: nat)
    requires SourceOk(st) && RowsOk(st) && !st.deleted
    ensures SourceOk(Refund(st, credits)) && RowsOk(Refund(st, credits))
  {
    hide Queue, Normalize, Emails, CountIf, AllBroken;
  }

  lemma RefundStatus(st: State, credits: nat)
    requires SourceOk(st) && RowsOk(st) && StatusOk(st) && !st.deleted
    requires Active(st.job.status) || (st.job.status == Completed && Wanted(st) == {})
    ensures StatusOk(Refund(st, credits))
  {
    hide Queue, SourceOk, RowsOk, Emails, AllBroken;
  }

  lemma RefundTasks(st: State, credits: nat)
    requires TasksOk(st) && !st.deleted
    ensures TasksOk(Refund(st, credits)) && ProgressOk(Refund(st, credits)) && CoverOk(Refund(st, credits))
  {
    hide Queue, Emails, AllBroken;
    BrokenTasks(st.tasks);
  }

  lemma RefundBill(st: State, credits: nat)
    requires SourceOk(st) && RowsOk(st) && BillOk(st) && !st.deleted && credits == Summary(st.ledger).lastCharge
    requires Active(st.job.status) || (st.job.status == Completed && Wanted(st) == {})
    ensures BillOk(Refund(st, credits))
  {
    hide Queue, Summary, SourceOk, RowsOk, Emails, AllBroken;
    SummarySnoc(st.ledger, FullRefund(credits));
    if st.job.status == Completed { RowsBound(st); }
  }

  /** A job with its last charge outstanding fails and gets exactly that charge back. */
  lemma RefundInv(st: State, credits: nat)
    requires Inv(st) && !st.deleted && st.flight == None && credits == Summary(st.ledger).lastCharge
    requires Active(st.job.status) || (st.job.status == Completed && Wanted(st) == {})
    ensures Inv(Refund(st, credits))
  {
    hide Queue, Summary, SourceOk, RowsOk, StatusOk, TasksOk, ProgressOk, CoverOk, BillOk, AllBroken, Wanted;
    RefundCounts(st, credits);
    RefundStatus(st, credits);
    RefundTasks(st, credits);
    RefundBill(st, credits);
  }

  lemma RowsBound(st: State)
    requires SourceOk(st) && RowsOk(st) && Wanted(st) == {}
    ensures st.rows == [] && st.job.tally.risky == 0
  {
    hide Queue, Normalize;
    RowCount(st.rows);
  }

  lemma FailPreparingInv(st: State)
    requires Inv(st) && st.flight == None
    ensures Inv(FailPreparing(st))
  {
    hide Queue, Recount, Normalize, Emails, Summary;
    if !st.deleted && st.job.status == Preparing {
      WantedCount(st);
      RefundInv(st, MaxInt(st.job.total - st.job.invalidSyntax, 0));
    }
  }

  lemma SubmitFailsInv(st: State)
    requires Inv(st) && Legal(st, SubmitFails)
    ensures Inv(Refund(st, |Queue(st.source)|))
  {
    hide Queue, Recount, Normalize, Emails;
    WantedCount(st);
    SingleEntry(st.ledger);
    assert Rowed(st) == {} by { assert st.rows == []; EmptyRows(); }
    RefundInv(st, |Queue(st.source)|);
  }

  lemma EmptyRows()
    ensures Emails([]) == {}
  {
  }

  lemma SingleEntry(ledger: seq<Entry>)
    requires |ledger| == 1
    ensures var b := Summary(ledger); b.charges + b.fullRefunds + b.unknownRefunds + b.deleteRefunds == 1
  {
    assert ledger[..0] == [];
  }

  // ---------------------------------------------------------------- launching an enqueue

  /** The list that is queued holds exactly the addresses without a row. */
  lemma BatchElements(b: Batch, list: seq<Email>)
    requires BatchOf(b, list) && NoDup(list)
    ensures NoDup(b.ordered) && Elements(b.ordered) == Elements(list) && |b.ordered| == |list|
  {
    SameElements(list, b.ordered);
  }

  /** What Launch needs to know about the batch and the state it starts from. */
  ghost predicate Launchable(st: State, b: Batch) {
    && TasksOk(st) && BatchOf(b, b.ordered) && NoDup(b.ordered) && b.ordered != []
    && Elements(b.ordered) == Wanted(st) - Rowed(st)
    && st.job.status != Failed
  }

  lemma LaunchIds(st: State, b: Batch, refund: bool)
    requires Tiles(b.chunks, |b.ordered|)
    ensures forall id :: id in Launch(st, b, refund).tasks <==> st.nextId <= id < st.nextId + |b.chunks|
    ensures forall id | id in Launch(st, b, refund).tasks ::
              && Launch(st, b, refund).tasks[id] == TaskOf(b.ordered, b.chunks[id - st.nextId])
              && Launch(st, b, refund).tasks[id].emails == Elements(Slice(b.ordered, b.chunks[id - st.nextId]))
  {
    hide NewTasks, Plans, Tiles, Slice;
    var tasks := NewTasks(st.nextId, b.ordered, b.chunks, |b.chunks|);
    assert Launch(st, b, refund).tasks == tasks;
  }

  lemma NewTaskAgrees(ordered: seq<Email>, c: Chunk, rowed: set<Email>)
    requires c.startIndex <= c.endIndex < |ordered| && NoDup(ordered) && Elements(ordered) !! rowed
    ensures var t := TaskOf(ordered, c);
            && t.emails <= Elements(ordered)
            && t.size == |t.emails| > 0
            && TaskAgrees(t, rowed)
  {
    var s := Slice(ordered, c);
    SliceNoDup(ordered, c);
    forall e | e in s ensures e in ordered {
    }
    assert Elements(s) * rowed == {};
    assert s[0] in Elements(s);
  }

  lemma LaunchTask(st: State, b: Batch, refund: bool, id: TaskId)
    requires Launchable(st, b) && id in Launch(st, b, refund).tasks
    ensures var t := Launch(st, b, refund).tasks[id];
            && st.nextId <= id < st.nextId + |b.chunks|
            && t.emails == Elements(Slice(b.ordered, b.chunks[id - st.nextId])) <= Elements(b.ordered)
            && t.size == |t.emails| > 0
            && TaskAgrees(t, Rowed(st))
  {
    hide Queue, Emails, Launch, TasksOk, TaskAgrees, TaskOf, Slice;
    LaunchIds(st, b, refund);
    NewTaskAgrees(b.ordered, b.chunks[id - st.nextId], Rowed(st));
  }

  lemma LaunchTasks(st: State, b: Batch, refund: bool)
    requires Launchable(st, b)
    ensures TasksOk(Launch(st, b, refund)) && ProgressOk(Launch(st, b, refund)) && CoverOk(Launch(st, b, refund))
    ensures Launch(st, b, refund).tasks != map[]
  {
    hide Queue, Emails, NewTasks, Plans, Slice, TaskOf, TaskAgrees, TasksOk, CoverOk;
    var st' := Launch(st, b, refund);
    LaunchIds(st, b, refund);
    forall id | id in st'.tasks
      ensures TaskAgrees(st'.tasks[id], Rowed(st'))
    {
      LaunchTask(st, b, refund, id);
    }
    LaunchTasksOk(st, b, refund);
    LaunchCover(st, b, refund);
    assert b.chunks != [];
    assert st.nextId in st'.tasks;
  }

  lemma LaunchTasksOk(st: State, b: Batch, refund: bool)
    requires Launchable(st, b)
    ensures TasksOk(Launch(st, b, refund))
  {
    hide Queue, Emails, NewTasks, Plans, Slice, TaskOf, TaskAgrees, Tiles;
    var st' := Launch(st, b, refund);
    LaunchIds(st, b, refund);
    forall id | id in st'.tasks
      ensures st'.tasks[id].emails <= Wanted(st')
      ensures st'.tasks[id].size == |st'.tasks[id].emails| > 0
    {
      LaunchTask(st, b, refund, id);
    }
    forall i, j | i in st'.tasks && j in st'.tasks && i != j ensures st'.tasks[i].emails !! st'.tasks[j].emails {
      LaunchApart(st, b, refund, i, j);
    }
  }

  lemma LaunchApart(st: State, b: Batch, refund: bool, i: TaskId, j: TaskId)
    requires BatchOf(b, b.ordered) && NoDup(b.ordered)
    requires i in Launch(st, b, refund).tasks && j in Launch(st, b, refund).tasks && i != j
    ensures Launch(st, b, refund).tasks[i].emails !! Launch(st, b, refund).tasks[j].emails
  {
    hide Slice, TaskOf, Launch;
    LaunchIds(st, b, refund);
    SlicesDisjoint(b.ordered, b.chunks, i - st.nextId, j - st.nextId);
  }

  lemma LaunchCover(st: State, b: Batch, refund: bool)
    requires Launchable(st, b)
    ensures CoverOk(Launch(st, b, refund))
  {
    hide Queue, Emails, NewTasks, Plans, Slice, TasksOk;
    var st' := Launch(st, b, refund);
    LaunchIds(st, b, refund);
    forall e | e in Wanted(st') ensures e in Rowed(st') || InSomeTask(st', e) {
      if e !in Rowed(st') {
        assert e in Elements(b.ordered);
        var k := SlicesCover(b.ordered, b.chunks, e);
        assert st.nextId + k in st'.tasks && e in st'.tasks[st.nextId + k].emails;
      }
    }
  }

  /** A plan of a fresh enqueue: it stands for exactly its task, and nothing of it is answered or sent. */
  ghost predicate PlanFits(st: State, id: TaskId, p: Plan) {
    && p.task == id && id in st.tasks
    && ToSendOk(st, p) && ToWriteOk(st, p)
    && Elements(p.misses) + Emails(p.hits) == st.tasks[id].emails
    && Elements(p.misses) !! Emails(p.hits)
  }

  lemma LaunchPlan(st: State, b: Batch, refund: bool, k: nat)
    requires Launchable(st, b) && k < |b.chunks|
    ensures PlanFits(Launch(st, b, refund), st.nextId + k, Plans(st.nextId, b.ordered, b.chunks, b.cache, b.policies)[k])
  {
    hide Queue, Emails, Slice, TaskAgrees, Launch, Plans, TasksOk, PlanFits, Tiles, NoDup, TaskOf;
    LaunchIds(st, b, refund);
    assert st.nextId + k in Launch(st, b, refund).tasks;
    LaunchTask(st, b, refund, st.nextId + k);
    PlanParts(st.nextId, b, k);
    LaunchUnsent(st, b, refund, st.nextId + k);
    FreshPlan(Launch(st, b, refund), st.nextId + k, Plans(st.nextId, b.ordered, b.chunks, b.cache, b.policies)[k]);
  }

  /** Nothing has been sent under a new task id. */
  lemma LaunchUnsent(st: State, b: Batch, refund: bool, id: TaskId)
    requires TasksOk(st) && Tiles(b.chunks, |b.ordered|) && id >= st.nextId
    ensures id !in Launch(st, b, refund).sent && Rowed(Launch(st, b, refund)) == Rowed(st)
  {
    hide NewTasks, Plans, Queue;
  }

  lemma FreshPlan(st: State, id: TaskId, p: Plan)
    requires p.task == id && id in st.tasks && id !in st.sent && st.tasks[id].emails !! Rowed(st)
    requires Elements(p.misses) + Emails(p.hits) == st.tasks[id].emails && Elements(p.misses) !! Emails(p.hits) && DistinctEmails(p.hits)
    ensures PlanFits(st, id, p)
  {
    hide Emails;
  }

  /** A plan splits the addresses of its chunk into cached answers and addresses to probe. */
  lemma PlanParts(first: TaskId, b: Batch, k: nat)
    requires BatchOf(b, b.ordered) && NoDup(b.ordered) && k < |b.chunks|
    ensures var p := Plans(first, b.ordered, b.chunks, b.cache, b.policies)[k];
            && p.task == first + k
            && Elements(p.misses) + Emails(p.hits) == Elements(Slice(b.ordered, b.chunks[k]))
            && Elements(p.misses) !! Emails(p.hits)
            && DistinctEmails(p.hits)
  {
    hide Emails, Hits, Misses, Slice, Known;
    SliceNoDup(b.ordered, b.chunks[k]);
    HitsAndMisses(Slice(b.ordered, b.chunks[k]), b.cache, b.policies);
  }

  lemma LaunchFlight(st: State, b: Batch, refund: bool)
    requires Launchable(st, b)
    requires refund ==> |b.ordered| == Summary(st.ledger).lastCharge
    requires !refund ==> st.job.status != Preparing
    ensures FlightOk(Launch(st, b, refund)) && DeliveryOk(Launch(st, b, refund))
  {
    hide Queue, Emails, Summary, Plans, NewTasks, PlanFits, Slice, FlightOk, OnItsWay, TasksOk, Launch, Tiles,
         ProgressOk, CoverOk;
    var st' := Launch(st, b, refund);
    LaunchFields(st, b, refund);
    var plans := Plans(st.nextId, b.ordered, b.chunks, b.cache, b.policies);
    LaunchTasks(st, b, refund);
    LaunchIds(st, b, refund);
    forall k | 0 <= k < |plans| ensures PlanFits(st', st.nextId + k, plans[k]) {
      LaunchPlan(st, b, refund, k);
    }
    StartedFlight(st', plans, st.nextId);
    AllPending(st', plans, st.nextId);
  }

  /** The start of an enqueue: every plan is both to be sent and to be written. */
  ghost predicate Started(st: State, plans: seq<Plan>, first: TaskId) {
    && st.flight.Some? && st.flight.value.toSend == plans && st.flight.value.toWrite == plans && st.flight.value.written == []
    && (forall k | 0 <= k < |plans| :: PlanFits(st, first + k, plans[k]))
    && (forall id | id in st.tasks :: first <= id < first + |plans|)
  }

  lemma StartedFlight(st: State, plans: seq<Plan>, first: TaskId)
    requires Started(st, plans, first) && st.tasks != map[] && st.job.status != Failed
    requires st.flight.value.refundOnFailure ==> st.flight.value.queued == Summary(st.ledger).lastCharge
    requires !st.flight.value.refundOnFailure ==> st.job.status != Preparing
    ensures FlightOk(st)
  {
    hide Emails, Summary, ToSendOk, ToWriteOk;
    forall p | p in plans ensures ToSendOk(st, p) && ToWriteOk(st, p) {
      var k :| 0 <= k < |plans| && plans[k] == p;
      assert PlanFits(st, first + k, plans[k]);
    }
    forall i, j | 0 <= i < |plans| && 0 <= j < |plans| && plans[i].task == plans[j].task
      ensures i == j && Elements(plans[i].misses) !! Emails(plans[j].hits)
    {
      assert PlanFits(st, first + i, plans[i]) && PlanFits(st, first + j, plans[j]);
    }
  }

  lemma AllPending(st: State, plans: seq<Plan>, first: TaskId)
    requires Started(st, plans, first)
    ensures OnItsWay(st)
  {
    hide Emails, ToSendOk, ToWriteOk;
    forall id, e | id in st.tasks && e in st.tasks[id].emails ensures PlanPending(st, id, e) {
      var p := plans[id - first];
      assert PlanFits(st, first + (id - first), plans[id - first]);
      assert p in plans && p.task == id;
    }
  }

  lemma LaunchRest(st: State, b: Batch, refund: bool)
    requires Tiles(b.chunks, |b.ordered|)
    ensures SourceOk(st) <==> SourceOk(Launch(st, b, refund))
    ensures RowsOk(st) <==> RowsOk(Launch(st, b, refund))
    ensures StatusOk(st) <==> StatusOk(Launch(st, b, refund))
    ensures BillOk(st) <==> BillOk(Launch(st, b, refund))
  {
    hide Queue, Emails, Summary, Plans, NewTasks, Normalize, Recount;
  }

  /** Launching a shuffle of the unanswered addresses of an active job keeps the invariant. */
  lemma LaunchInv(st: State, list: seq<Email>, b: Batch, refund: bool)
    requires SourceOk(st) && st.credits >= 0 && !st.deleted && RowsOk(st) && StatusOk(st) && TasksOk(st) && BillOk(st)
    requires Active(st.job.status) && BatchOf(b, list) && NoDup(list) && Elements(list) == Wanted(st) - Rowed(st)
    requires refund ==> |list| == Summary(st.ledger).lastCharge
    requires !refund ==> st.job.status != Preparing
    ensures Inv(Launch(st, b, refund)) && DeliveryOk(Launch(st, b, refund))
  {
    hide Queue, Emails, Summary, Plans, NewTasks, Normalize, Recount, SourceOk, RowsOk, StatusOk, TasksOk, BillOk,
         ProgressOk, CoverOk, FlightOk, DeliveryOk, Launch;
    BatchElements(b, list);
    Unanswered(st);
    assert Elements(b.ordered) != {};
    LaunchTasks(st, b, refund);
    LaunchFlight(st, b, refund);
    LaunchRest(st, b, refund);
    LaunchFields(st, b, refund);
  }

  lemma LaunchFields(st: State, b: Batch, refund: bool)
    requires Tiles(b.chunks, |b.ordered|)
    ensures var st', plans := Launch(st, b, refund), Plans(st.nextId, b.ordered, b.chunks, b.cache, b.policies);
            && st'.deleted == st.deleted && st'.credits == st.credits && st'.ledger == st.ledger && st'.job == st.job
            && st'.flight == Some(Flight(|b.ordered|, refund, plans, plans, []))
  {
    hide Plans, NewTasks;
  }

  lemma PrepareInv(st: State, b: Batch)
    requires Inv(st) && Legal(st, PrepareEv(b))
    ensures Inv(Prepare(st, b))
    ensures !st.deleted && st.job.status == Preparing ==> DeliveryOk(Prepare(st, b))
  {
    hide Queue, Summary, Normalize, Recount, Launch;
    if !st.deleted && st.job.status == Preparing {
      QueueFacts(st.source);
      WantedCount(st);
      EmptyRows();
      assert Wanted(st) - Rowed(st) == Wanted(st);
      LaunchInv(st, Queue(st.source), b, true);
    }
  }

  // ---------------------------------------------------------------- resume and retry

  /** A paused or failed job always has addresses left, and the stored processed_count is what requeueing recomputes. */
  lemma RemainingNeverEmpty(st: State)
    requires Inv(st) && !st.deleted && (st.job.status == Paused || (st.job.status == Failed && Queue(st.source) != []))
    ensures Remaining(st.source, st.rows) != []
    ensures Elements(Remaining(st.source, st.rows)) == Wanted(st) - Rowed(st)
    ensures NoDup(Remaining(st.source, st.rows))
    ensures |Remaining(st.source, st.rows)| == |Wanted(st)| - |st.rows|
    ensures |st.rows| + st.job.invalidSyntax == st.job.processed < st.job.total
  {
    hide Queue, Summary, Normalize, Recount, Remaining, Emails, TasksOk, CoverOk, ProgressOk, FlightOk, BillOk;
    RemainingFacts(st.source, st.rows);
    WantedCount(st);
    FullRows(st);
    RowCount(st.rows);
    NoDupCount(Remaining(st.source, st.rows));
    assert Wanted(st) == Rowed(st) + (Wanted(st) - Rowed(st));
    assert |Wanted(st)| == |Rowed(st)| + |Wanted(st) - Rowed(st)|;
    if Queue(st.source) != [] {
      assert Queue(st.source)[0] in Wanted(st);
    }
  }

  /** The state requeueRemainingWork launches from, after the optional charge. */
  function Repaid(st: State, charge: bool): State {
    var n := |Remaining(st.source, st.rows)|;
    var paid := if charge then st.(credits := st.credits - n, ledger := st.ledger + [Charge(n)]) else st;
    paid.(job := st.job.(status := Pending))
  }

  lemma RequeueShape(st: State, charge: bool, b: Batch)
    requires Inv(st) && !st.deleted && st.job.status == (if charge then Failed else Paused) && Tiles(b.chunks, |b.ordered|)
    requires charge ==> st.credits >= |Remaining(st.source, st.rows)| && Queue(st.source) != []
    ensures Requeue(st, charge, b) == Launch(Repaid(st, charge), b, charge)
  {
    hide Summary, Normalize, Recount, Remaining, Emails, TasksOk, CoverOk, ProgressOk, FlightOk, BillOk, Launch, Queue;
    RemainingNeverEmpty(st);
    WantedCount(st);
    assert st.job.(status := Pending, processed := st.job.processed) == st.job.(status := Pending);
  }

  lemma RepaidParts(st: State, charge: bool)
    requires Inv(st) && !st.deleted && st.job.status == (if charge then Failed else Paused)
    requires charge ==> st.credits >= |Remaining(st.source, st.rows)| && Queue(st.source) != []
    ensures var r := Repaid(st, charge);
            && SourceOk(r) && r.credits >= 0 && !r.deleted && RowsOk(r) && StatusOk(r) && TasksOk(r) && BillOk(r)
            && (charge ==> |Remaining(st.source, st.rows)| == Summary(r.ledger).lastCharge)
            && Wanted(r) == Wanted(st) && Rowed(r) == Rowed(st)
  {
    hide Summary, Normalize, Recount, Remaining, Emails, CoverOk, ProgressOk, FlightOk, Queue;
    RemainingNeverEmpty(st);
    SummarySnoc(st.ledger, Charge(|Remaining(st.source, st.rows)|));
  }

  lemma RequeueInv(st: State, charge: bool, b: Batch)
    requires Inv(st) && BatchOf(b, Remaining(st.source, st.rows))
    ensures Inv(Requeue(st, charge, b))
    ensures Requeue(st, charge, b) == st || DeliveryOk(Requeue(st, charge, b))
  {
    hide Summary, Normalize, Recount, Remaining, Emails, RowsOk, StatusOk, SourceOk, TasksOk, BillOk, CoverOk,
         ProgressOk, FlightOk, Queue, Launch, DeliveryOk, Wanted, Rowed;
    if st.deleted || st.job.status != (if charge then Failed else Paused) || Queue(st.source) == [] {
      return;
    }
    RemainingNeverEmpty(st);
    if charge && st.credits < |Remaining(st.source, st.rows)| {
      return;
    }
    RequeueShape(st, charge, b);
    RepaidParts(st, charge);
    LaunchInv(Repaid(st, charge), Remaining(st.source, st.rows), b, charge);
  }

  // ---------------------------------------------------------------- the enqueue

  lemma SendInv(st: State)
    requires Inv(st) && st.flight.Some? && st.flight.value.toSend != []
    ensures Inv(Send(st))
  {
    hide Summary, Normalize, Recount, Emails, Queue, RowsOk, StatusOk, ProgressOk, BillOk, SourceOk;
    var st', f := Send(st), st.flight.value;
    var p := f.toSend[0];
    assert p in f.toSend && ToSendOk(st, p);
    SendFlight(st);
    SentFrame(st, st');
  }

  lemma SentFrame(st: State, st': State)
    requires SourceOk(st) && CoreOk(st) && st' == st.(flight := st'.flight, sent := st'.sent)
    requires forall id | id in st'.sent :: id < st.nextId && (id in st.tasks ==> st'.sent[id] <= st.tasks[id].emails)
    ensures SourceOk(st') && CoreOk(st')
  {
    hide SourceOk, RowsOk, StatusOk, TasksOk, ProgressOk, CoverOk, BillOk;
    SameCounts(st, st');
    SameProgress(st, st');
    SameBill(st, st');
    SentTasks(st, st');
  }

  lemma SentTasks(st: State, st': State)
    requires TasksOk(st) && st' == st.(flight := st'.flight, sent := st'.sent)
    requires forall id | id in st'.sent :: id < st.nextId && (id in st.tasks ==> st'.sent[id] <= st.tasks[id].emails)
    ensures TasksOk(st')
  {
    hide Queue;
  }

  lemma SendFlight(st: State)
    requires FlightOk(st) && Legal(st, SendEv)
    ensures FlightOk(Send(st))
  {
    hide Summary, Emails, Queue;
    var st', f := Send(st), st.flight.value;
    assert f.toSend[0] in f.toSend && ToSendOk(st, f.toSend[0]);
    forall q | q in f.toSend[1..] ensures ToSendOk(st', q) {
      assert q in f.toSend && ToSendOk(st, q);
      var i :| 0 <= i < |f.toSend[1..]| && f.toSend[1..][i] == q;
      assert f.toSend[0].task != f.toSend[i + 1].task;
    }
    forall q | q in f.toWrite ensures ToWriteOk(st', q) {
      assert ToWriteOk(st, q);
    }
    assert forall q | q in f.toSend[1..] :: q in f.toSend;
  }

  /** Taking the next chunk of cached answers off the list. */
  function Dropped1(st: State): State
    requires st.flight.Some? && st.flight.value.toWrite != []
  {
    st.(flight := Some(st.flight.value.(toWrite := st.flight.value.toWrite[1..])))
  }

  lemma DropPlanInv(st: State)
    requires Inv(st) && st.flight.Some? && st.flight.value.toWrite != [] && st.flight.value.toSend == []
    ensures Inv(Dropped1(st))
    ensures forall p | p in st.flight.value.toWrite[1..] :: p.task != st.flight.value.toWrite[0].task
  {
    hide Summary, Emails, Queue, SourceOk, CoreOk;
    var st', f := Dropped1(st), st.flight.value;
    forall q | q in f.toWrite[1..]
      ensures ToWriteOk(st', q) && q.task != f.toWrite[0].task
    {
      assert q in f.toWrite && ToWriteOk(st, q);
      var i :| 0 <= i < |f.toWrite[1..]| && f.toWrite[1..][i] == q;
      assert f.toWrite[0].task != f.toWrite[i + 1].task;
    }
    FlightFrame(st, st');
  }

  lemma WriteHitsAbsorbable(st: State, p: Plan)
    requires ToWriteOk(st, p) && p.hits != [] && st.flight.Some? && st.flight.value.toWrite != []
    ensures Absorbable(Dropped1(st), p.task, Push(st.tasks[p.task], |p.hits|), p.hits)
  {
    hide Emails;
  }

  lemma WriteHitsShape(st: State)
    requires st.flight.Some? && st.flight.value.toWrite != [] && !st.deleted
    requires st.flight.value.toWrite[0].hits != [] && st.flight.value.toWrite[0].task in st.tasks
    ensures var p := st.flight.value.toWrite[0];
            WriteHits(st) == RiskyRefund(Absorb(Dropped1(st), p.task, Push(st.tasks[p.task], |p.hits|), p.hits))
                             .(flight := Some(st.flight.value.(toWrite := st.flight.value.toWrite[1..],
                                                               written := st.flight.value.written + RowAddresses(p.hits))))
  {
    hide Advance, Push;
  }

  lemma RowAddressSet(rows: seq<Row>)
    ensures Elements(RowAddresses(rows)) == Emails(rows)
  {
    forall e ensures e in Elements(RowAddresses(rows)) <==> e in Emails(rows) {
      if e in Emails(rows) {
        var i :| 0 <= i < |rows| && rows[i].email == e;
        assert RowAddresses(rows)[i] == e;
      }
    }
  }

  lemma MoreWritten(st: State, more: seq<Email>)
    requires Inv(st) && !st.deleted && st.flight.Some? && Elements(more) <= Rowed(st)
    ensures Inv(st.(flight := Some(st.flight.value.(written := st.flight.value.written + more))))
  {
    hide Summary, Emails, Queue, SourceOk, CoreOk;
    var f := st.flight.value;
    var st' := st.(flight := Some(f.(written := f.written + more)));
    assert Elements(f.written + more) == Elements(f.written) + Elements(more);
    forall p | p in f.toSend ensures ToSendOk(st', p) { assert ToSendOk(st, p); }
    forall p | p in f.toWrite ensures ToWriteOk(st', p) { assert ToWriteOk(st, p); }
    FlightFrame(st, st');
  }

  lemma WriteHitsInv(st: State)
    requires Inv(st) && st.flight.Some? && st.flight.value.toSend == [] && st.flight.value.toWrite != []
    ensures Inv(WriteHits(st))
  {
    hide Inv, Emails, Rowed, WriteHits, ToWriteOk, Summary;
    var p := st.flight.value.toWrite[0];
    NotFailedInFlight(st);
    if p.hits == [] {
      DropPlanInv(st);
      NothingToWrite(st);
    } else {
      NextToWrite(st);
      WriteSomeHitsInv(st, p);
    }
  }

  lemma NextToWrite(st: State)
    requires Inv(st) && st.flight.Some? && st.flight.value.toWrite != []
    ensures ToWriteOk(st, st.flight.value.toWrite[0])
  {
    hide CoreOk, SourceOk, ToWriteOk, Summary, Emails;
  }

  lemma WriteSomeHitsInv(st: State, p: Plan)
    requires Inv(st) && !st.deleted && st.flight.Some? && st.flight.value.toSend == [] && st.flight.value.toWrite != []
    requires p == st.flight.value.toWrite[0] && p.hits != [] && ToWriteOk(st, p)
    ensures Inv(WriteHits(st))
  {
    hide Inv, Emails, RiskyRefund, Push, Rowed, RowAddresses, WriteHits, Absorb, Absorbable, Summary, Dropped1;
    DropPlanInv(st);
    WriteHitsAbsorbable(st, p);
    WriteHitsShape(st);
    AbsorbedHits(st, p);
    Dropped1Fields(st);
    var grown := Absorb(Dropped1(st), p.task, Push(st.tasks[p.task], |p.hits|), p.hits);
    RiskyRefundFrame(grown);
    GrownFields(Dropped1(st), p.task, Push(st.tasks[p.task], |p.hits|), p.hits);
    RowAddressSet(p.hits);
    RowedDepends(RiskyRefund(grown), grown);
    MoreWritten(RiskyRefund(grown), RowAddresses(p.hits));
  }

  lemma Dropped1Fields(st: State)
    requires st.flight.Some? && st.flight.value.toWrite != []
    ensures Dropped1(st).flight == Some(st.flight.value.(toWrite := st.flight.value.toWrite[1..]))
    ensures Dropped1(st).deleted == st.deleted
  {
  }

  lemma GrownFields(st: State, id: TaskId, t: Task, added: seq<Row>)
    ensures var g := Absorb(st, id, t, added); g.flight == st.flight && g.deleted == st.deleted && Emails(added) <= Rowed(g)
  {
    EmailsConcat(st.rows, added);
  }

  lemma NothingToWrite(st: State)
    requires st.flight.Some? && st.flight.value.toWrite != [] && st.flight.value.toWrite[0].hits == []
    ensures WriteHits(st) == Dropped1(st)
  {
    NoAddresses();
    assert st.flight.value.written + [] == st.flight.value.written;
  }

  lemma AbsorbedHits(st: State, p: Plan)
    requires st.flight.Some? && st.flight.value.toSend == [] && st.flight.value.toWrite != [] && p.task in st.tasks
    requires Inv(Dropped1(st)) && Absorbable(Dropped1(st), p.task, Push(st.tasks[p.task], |p.hits|), p.hits)
    requires forall q | q in st.flight.value.toWrite[1..] :: q.task != p.task
    ensures Inv(RiskyRefund(Absorb(Dropped1(st), p.task, Push(st.tasks[p.task], |p.hits|), p.hits)))
  {
    hide Inv, Summary, Emails, RiskyRefund, Push, Absorbable, Absorb, Dropped1;
    Dropped1Fields(st);
    AbsorbedByTask(Dropped1(st), p.task, Push(st.tasks[p.task], |p.hits|), p.hits);
  }

  lemma AbsorbedByTask(d: State, id: TaskId, t: Task, added: seq<Row>)
    requires Inv(d) && d.flight.Some? && d.flight.value.toSend == [] && Absorbable(d, id, t, added)
    requires forall q | q in d.flight.value.toWrite :: q.task != id
    ensures Inv(RiskyRefund(Absorb(d, id, t, added)))
  {
    hide Summary, Emails, RowsOk, StatusOk, TasksOk, BillOk, CoverOk, ProgressOk, FlightOk, Absorbable, RiskyRefund,
         SourceOk, Advance;
    NotFailedInFlight(d);
    AbsorbInv(d, id, t, added);
    AbsorbFlight(d, id, t, added);
    RefundedInv(d, Absorb(d, id, t, added));
  }

  lemma RowedDepends(a: State, b: State)
    requires a.rows == b.rows
    ensures Rowed(a) == Rowed(b)
  {
  }

  lemma NoAddresses()
    ensures RowAddresses([]) == []
  {
  }

  lemma NotFailedInFlight(st: State)
    requires Inv(st) && st.flight.Some?
    ensures !st.deleted && st.job.status != Failed
  {
    hide Summary, Normalize, Recount, Emails, Queue;
  }

  lemma FlightHasTasks(st: State)
    requires Inv(st) && st.flight.Some?
    ensures st.tasks != map[]
  {
    hide SourceOk, CoreOk, ToSendOk, ToWriteOk, Summary;
  }

  lemma FinishInv(st: State)
    requires Inv(st) && Legal(st, FinishEv)
    ensures Inv(Finish(st))
  {
    hide Summary, Normalize, Recount, Emails, Queue, CoreOk, SourceOk, FlightOk;
    var g := st.(flight := None);
    GroundedInv(st);
    if st.job.status == Preparing {
      PreparedPending(st);
    }
  }

  /** The state with another status of the job. */
  function WithStatus(st: State, status: JobStatus): State {
    st.(job := st.job.(status := status))
  }

  lemma MovedCounts(st: State, status: JobStatus)
    requires SourceOk(st) && RowsOk(st) && StatusOk(st) && Active(st.job.status) && status in {Pending, Processing, Paused}
    ensures var b := WithStatus(st, status); SourceOk(b) && RowsOk(b) && StatusOk(b)
  {
    hide Queue, Normalize, CountIf, Emails;
  }

  lemma MovedBill(st: State, status: JobStatus)
    requires BillOk(st) && Active(st.job.status) && status in {Pending, Processing, Paused}
    ensures BillOk(WithStatus(st, status))
  {
    hide Queue, Summary;
  }

  lemma MovedProgress(st: State, status: JobStatus)
    requires TasksOk(st) && ProgressOk(st) && Active(st.job.status) && status in {Pending, Processing, Paused}
    ensures TasksOk(WithStatus(st, status)) && ProgressOk(WithStatus(st, status))
  {
    hide Queue, Emails, TaskAgrees, TasksOk;
    SameTaskTable(st, WithStatus(st, status));
  }

  lemma MovedCover(st: State, status: JobStatus)
    requires CoverOk(st) && Active(st.job.status) && status in {Pending, Processing, Paused}
    requires st.job.status == Preparing ==> st.tasks != map[]
    ensures CoverOk(WithStatus(st, status))
  {
    hide Queue, Emails;
    assert forall e :: InSomeTask(WithStatus(st, status), e) <==> InSomeTask(st, e);
  }

  /** An unfinished job may wait, run or pause as it likes. */
  lemma MoveStatus(st: State, status: JobStatus)
    requires Inv(st) && !st.deleted && Active(st.job.status) && status in {Pending, Processing, Paused}
    requires st.job.status == Preparing ==> st.tasks != map[]
    ensures Inv(WithStatus(st, status))
  {
    hide SourceOk, RowsOk, StatusOk, TasksOk, ProgressOk, CoverOk, BillOk, FlightOk;
    MovedCounts(st, status);
    MovedBill(st, status);
    MovedProgress(st, status);
    MovedCover(st, status);
    SamePlans(st, WithStatus(st, status));
  }

  lemma PreparedPending(st: State)
    requires Inv(st) && st.flight.Some? && st.job.status == Preparing
    ensures Inv(st.(flight := None, job := st.job.(status := Pending)))
  {
    hide Inv;
    NotFailedInFlight(st);
    FlightHasTasks(st);
    MoveStatus(st, Pending);
    GroundedInv(WithStatus(st, Pending));
  }

  /** Dropping an enqueue without finishing it. */
  lemma GroundedInv(st: State)
    requires Inv(st) && st.flight.Some?
    ensures Inv(st.(flight := None)) && !st.deleted
  {
    hide Summary, Emails, Queue, CoreOk, SourceOk;
    FlightFrame(st, st.(flight := None));
  }

  /** While something is still to be sent or written the job is unfinished. */
  lemma UnfinishedFlight(st: State)
    requires Inv(st) && st.flight.Some?
    requires || (exists p | p in st.flight.value.toSend :: p.misses != [])
             || (exists p | p in st.flight.value.toWrite :: p.hits != [])
    ensures Active(st.job.status)
  {
    hide Summary, Normalize, Recount, Emails, Queue;
    if p :| p in st.flight.value.toSend && p.misses != [] {
      assert ToSendOk(st, p);
      assert p.misses[0] in Elements(p.misses);
      assert st.tasks[p.task].emails <= Wanted(st);
    } else {
      var p :| p in st.flight.value.toWrite && p.hits != [];
      assert ToWriteOk(st, p);
      assert p.hits[0].email in Emails(p.hits) by { HasAddress(p.hits); }
      assert st.tasks[p.task].emails <= Wanted(st);
    }
  }

  lemma HasAddress(rows: seq<Row>)
    requires rows != []
    ensures rows[0].email in Emails(rows)
  {
  }

  lemma SendFailsInv(st: State)
    requires Inv(st) && Legal(st, SendFails)
    ensures Inv(FailSend(st))
  {
    hide Summary, Normalize, Recount, Emails, Queue, SourceOk, CoreOk, ToSendOk, ToWriteOk;
    assert st.flight.value.toSend[0] in st.flight.value.toSend;
    UnfinishedFlight(st);
    GroundedInv(st);
    var g := st.(flight := None);
    if st.flight.value.refundOnFailure {
      RefundInv(g, st.flight.value.queued);
    } else {
      PausedInv(g);
    }
  }

  lemma PausedInv(st: State)
    requires Inv(st) && !st.deleted && st.flight == None && Active(st.job.status) && st.job.status != Preparing
    ensures Inv(st.(job := st.job.(status := Paused)))
  {
    hide Inv;
    MoveStatus(st, Paused);
  }

  lemma KeepAll(rows: seq<Row>)
    ensures Without(rows, {}) == rows
  {
    if rows != [] { KeepAll(rows[..|rows| - 1]); }
  }

  lemma {:induction false} WithoutShorter(rows: seq<Row>, gone: set<Email>)
    ensures |Without(rows, gone)| <= |rows|
  {
    if rows != [] { WithoutShorter(rows[..|rows| - 1], gone); }
  }

  /** The state between the rollback's recount and its refund. */
  function RolledBack(st: State, written: seq<Email>): State {
    var kept := Without(st.rows, Elements(written));
    st.(rows := kept, job := st.job.(processed := |kept| + st.job.invalidSyntax, tally := Recounted(st.(rows := kept)), status := Failed))
  }

  lemma RollbackShape(st: State, written: seq<Email>, credits: nat)
    requires !st.deleted
    ensures Rollback(st, written, credits)
         == RolledBack(st, written).(tasks := AllBroken(st.tasks), credits := st.credits + credits, ledger := st.ledger + [FullRefund(credits)])
  {
    hide Without, CountIf;
    BrokenTasks(st.tasks);
    BrokenTasks(AllBroken(st.tasks));
    assert AllBroken(AllBroken(st.tasks)) == AllBroken(st.tasks);
  }

  lemma RolledBackRows(st: State, written: seq<Email>)
    requires SourceOk(st) && RowsOk(st) && StatusOk(st) && Active(st.job.status)
    ensures var r := RolledBack(st, written); SourceOk(r) && RowsOk(r) && StatusOk(r)
  {
    hide Queue, Normalize, CountIf, Emails, Fresh;
    FreshFacts(st.rows, Elements(written));
    WithoutShorter(st.rows, Elements(written));
  }

  /** What a failed job with a refund has in common with the job before it. */
  lemma FailedAlike(st: State, r: State, credits: nat)
    requires Inv(st) && !st.deleted && st.flight == None && Active(st.job.status) && credits == Summary(st.ledger).lastCharge
    requires SourceOk(r) && RowsOk(r) && StatusOk(r) && r.job.status == Failed
    requires r == st.(rows := r.rows, job := r.job)
    ensures Inv(r.(tasks := AllBroken(st.tasks), credits := st.credits + credits, ledger := st.ledger + [FullRefund(credits)]))
  {
    hide Queue, Summary, SourceOk, StatusOk, RowsOk, AllBroken, TasksOk, BillOk, CoverOk, ProgressOk;
    var st' := r.(tasks := AllBroken(st.tasks), credits := st.credits + credits, ledger := st.ledger + [FullRefund(credits)]);
    FailedParts(r, st');
    RefundTasks(st, credits);
    FailedTasks(Refund(st, credits), st');
    FailedBill(st, st', credits);
  }

  lemma FailedParts(r: State, st': State)
    requires SourceOk(r) && RowsOk(r) && StatusOk(r) && st' == r.(tasks := st'.tasks, credits := st'.credits, ledger := st'.ledger)
    ensures SourceOk(st') && RowsOk(st') && StatusOk(st')
  {
    hide Queue, Normalize, CountIf, Emails;
  }

  lemma FailedTasks(a: State, b: State)
    requires TasksOk(a) && ProgressOk(a) && a.job.status == Failed == b.job.status
    requires b.tasks == a.tasks && b.sent == a.sent && b.nextId == a.nextId && b.source == a.source
    ensures TasksOk(b) && ProgressOk(b) && CoverOk(b)
  {
    hide Queue, Emails;
  }

  lemma FailedBill(st: State, st': State, credits: nat)
    requires BillOk(st) && Active(st.job.status) && credits == Summary(st.ledger).lastCharge
    requires st'.source == st.source && st'.ledger == st.ledger + [FullRefund(credits)] && st'.job.status == Failed
    ensures BillOk(st')
  {
    hide Queue, Summary;
    SummarySnoc(st.ledger, FullRefund(credits));
  }

  lemma RollbackInv(st: State, written: seq<Email>, credits: nat)
    requires Inv(st) && !st.deleted && st.flight == None && Active(st.job.status) && credits == Summary(st.ledger).lastCharge
    ensures Inv(Rollback(st, written, credits))
  {
    hide Summary, Queue, SourceOk, RowsOk, StatusOk, TasksOk, ProgressOk, CoverOk, BillOk, Rollback, Without, Recounted, AllBroken;
    RollbackShape(st, written, credits);
    RolledBackRows(st, written);
    FailedAlike(st, RolledBack(st, written), credits);
  }

  lemma WriteFailsInv(st: State)
    requires Inv(st) && Legal(st, WriteFails)
    ensures Inv(FailWrite(st))
  {
    hide Summary, Normalize, Recount, Emails, Queue, Rollback, SourceOk, CoreOk, ToSendOk, ToWriteOk;
    assert st.flight.value.toWrite[0] in st.flight.value.toWrite;
    UnfinishedFlight(st);
    GroundedInv(st);
    var g := st.(flight := None);
    if st.flight.value.refundOnFailure {
      RollbackInv(g, st.flight.value.written, st.flight.value.queued);
    } else {
      KeepAll(st.rows);
      assert Elements(st.flight.value.written) == {};
      PausedInv(g);
    }
  }

  // ---------------------------------------------------------------- the remaining steps

  lemma ReclaimInv(st: State, servers: set<string>, watchdog: bool)
    requires Inv(st)
    ensures Inv(Reclaim(st, servers, watchdog))
  {
    hide Inv, Reclaimed;
    if st.deleted {
      NothingToReclaim(st, servers);
    } else {
      ReclaimedTasks(st.tasks, servers);
      SameTasksInv(st, Reclaimed(st.tasks, servers));
      var a := st.(tasks := Reclaimed(st.tasks, servers));
      if Reclaim(st, servers, watchdog) != a {
        BackToPending(a);
      }
    }
  }

  lemma ReclaimedTasks(tasks: map<TaskId, Task>, servers: set<string>)
    ensures Moved(tasks, Reclaimed(tasks, servers))
  {
  }

  lemma NothingToReclaim(st: State, servers: set<string>)
    requires Inv(st) && st.deleted
    ensures Reclaimed(st.tasks, servers) == st.tasks
  {
    hide Queue, Normalize, Summary;
    assert Reclaimed(map[], servers) == map[];
  }

  lemma BackToPending(st: State)
    requires Inv(st) && !st.deleted && st.job.status == Processing
    ensures Inv(st.(job := st.job.(status := Pending)))
  {
    hide Inv;
    MoveStatus(st, Pending);
  }

  lemma SamePlans(a: State, b: State)
    requires FlightOk(a) && b == a.(job := b.job) && b.job.status !in {Failed, Preparing}
    ensures FlightOk(b)
  {
    hide Summary, Emails;
    if a.flight.Some? {
      forall p | p in a.flight.value.toSend ensures ToSendOk(b, p) { assert ToSendOk(a, p); }
      forall p | p in a.flight.value.toWrite ensures ToWriteOk(b, p) { assert ToWriteOk(a, p); }
    }
  }

  lemma PauseInv(st: State)
    requires Inv(st)
    ensures Inv(Pause(st))
  {
    hide Inv;
    if Pause(st) != st {
      MoveStatus(st, Paused);
    }
  }

  lemma DeleteInv(st: State)
    requires Inv(st) && st.flight == None
    ensures Inv(Delete(st))
  {
    hide Summary, Normalize, Recount, Emails, Queue, CountIf;
    if !st.deleted && st.job.status in {Completed, Failed, Paused} {
      SummarySnoc(st.ledger, DeleteRefund(DeleteRefundAmount(st)));
    }
  }

  /** A separate refund check never pays twice. */
  lemma RiskyCheckIdentity(st: State)
    requires Inv(st)
    ensures RiskyRefund(st) == st
  {
    hide Summary, Normalize, Recount, Emails, Queue;
    RefundsOnRecord(st.ledger);
  }

  lemma CountNone(tasks: map<TaskId, Task>, s: TaskStatus)
    ensures CountTasks(tasks, s) == 0 <==> forall id | id in tasks :: tasks[id].status != s
  {
    var those := set id | id in tasks && tasks[id].status == s;
    assert |those| == 0 <==> those == {};
    if those == {} {
      forall id | id in tasks ensures tasks[id].status != s {
        assert id !in those;
      }
    }
  }

  /** Every current task is done only if every address has its row. */
  lemma AllDone(st: State)
    requires Inv(st) && !st.deleted && st.job.status != Failed && st.tasks != map[]
    requires forall id | id in st.tasks :: st.tasks[id].status == Done
    ensures Rowed(st) == Wanted(st)
  {
    hide Summary, Normalize, Recount, Emails, Queue;
    forall e | e in Wanted(st) ensures e in Rowed(st) {
      if InSomeTask(st, e) {
        var id :| id in st.tasks && e in st.tasks[id].emails;
        assert TaskAgrees(st.tasks[id], Rowed(st));
      }
    }
  }

  lemma FullyPushed(st: State)
    requires Inv(st) && !st.deleted && st.job.status != Failed
    ensures Requeued(st.tasks) == st.tasks
  {
    hide Summary, Normalize, Recount, Emails, Queue;
    forall id | id in st.tasks && st.tasks[id].status == Done ensures st.tasks[id].pushed == st.tasks[id].size {
      assert TaskAgrees(st.tasks[id], Rowed(st));
      assert st.tasks[id].emails * Rowed(st) == st.tasks[id].emails;
    }
  }

  /** Reconciliation changes nothing exactly when the job is finished or gone, or has tasks;
      a preparing or failed job without tasks is declared completed. */
  lemma ReconcileIdentityIff(st: State)
    requires Inv(st)
    ensures Reconcile(st) == st <==> st.deleted || st.job.status == Completed || st.tasks != map[]
  {
    hide Summary, Normalize, Recount, Emails, Queue, Requeued, CountTasks;
    CountNone(st.tasks, Queued);
    CountNone(st.tasks, Running);
    CountNone(st.tasks, Broken);
    if !st.deleted && st.job.status != Failed {
      FullyPushed(st);
      forall id | id in st.tasks ensures st.tasks[id].status in {Queued, Running, Done} {
        assert TaskAgrees(st.tasks[id], Rowed(st));
      }
      if st.tasks != map[] && CountTasks(st.tasks, Queued) + CountTasks(st.tasks, Running) == 0 {
        AllDone(st);
        FullRows(st);
      }
    }
    if st.tasks == map[] {
      assert Requeued(map[]) == map[] by { NoneRequeued(); }
    } else {
      var id :| id in st.tasks;
    }
  }

  lemma NoneRequeued()
    ensures Requeued(map[]) == map[]
  {
  }

  // ---------------------------------------------------------------- runs

  /** Every legal step keeps the invariant. */
  lemma StepInv(st: State, ev: Event)
    requires Inv(st) && Legal(st, ev)
    ensures Inv(Step(st, ev))
  {
    hide Inv, Queue, Report, Refund, Prepare, FailPreparing, Send, FailSend, WriteHits, FailWrite, Finish, Reclaim,
         Pause, Requeue, Delete, RiskyRefund, Reconcile, BatchOf, Remaining, Emails;
    match ev
    case SubmitFails => SubmitFailsInv(st);
    case PrepareEv(b) => PrepareInv(st, b);
    case PrepareFails => FailPreparingInv(st);
    case Crash => GroundedInv(st);
    case SendEv => SendInv(st);
    case SendFails => SendFailsInv(st);
    case WriteEv => WriteHitsInv(st);
    case WriteFails => WriteFailsInv(st);
    case FinishEv => FinishInv(st);
    case ReportEv(id, server, results) => ReportInv(st, id, server, results);
    case ReclaimEv(servers, watchdog) => ReclaimInv(st, servers, watchdog);
    case PauseEv => PauseInv(st);
    case ResumeEv(b) => RequeueInv(st, false, b);
    case RetryEv(b) => RequeueInv(st, true, b);
    case DeleteEv => DeleteInv(st);
    case RiskyCheck => RiskyCheckIdentity(st);
    case ReconcileEv => ReconcileIdentityIff(st);
    case OtherActivity(balance) => OtherInv(st, balance);
  }

  lemma OtherInv(st: State, balance: nat)
    requires Inv(st)
    ensures Inv(st.(credits := balance))
  {
    hide Summary, Normalize, Recount, Emails, Queue, SourceOk, RowsOk, StatusOk, TasksOk, ProgressOk, CoverOk, FlightOk;
    var st' := st.(credits := balance);
    if st.deleted {
      SourceFrame(st, st');
    } else {
      AccountFrame(st, st');
      AccountFlight(st, st');
    }
  }

  lemma SourceFrame(st: State, st': State)
    requires SourceOk(st) && st'.source == st.source && st'.job == st.job
    ensures SourceOk(st')
  {
    hide Queue, Normalize;
  }

  /** A legal run from a state that satisfies the invariant. */
  ghost predicate GoodRun(st: State, evs: seq<Event>) {
    Inv(st) && LegalRun(st, evs)
  }

  lemma {:induction false} RunInv(st: State, evs: seq<Event>)
    requires GoodRun(st, evs)
    ensures Inv(Run(st, evs))
    decreases |evs|
  {
    hide Inv, Legal, Step;
    if evs != [] {
      StepInv(st, evs[0]);
      RunInv(Step(st, evs[0]), evs[1..]);
    }
  }
}
