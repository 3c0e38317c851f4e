/** What the serialisation of commands on one job, and the distinctness of a batch, are needed for. */
module JobRaces {
  import opened Text
  import opened Verdicts
  import opened BulkQueue
  import opened JobState
  import opened JobRows
  import opened JobInvariant
  import opened JobSteps
  import opened JobDelivery
  import opened JobHistory
  import opened JobBilling

  // ---------------------------------------------------------------- batches that repeat an address

  /** Whatever a batch contains, the counters still equal a recount of the rows it leaves. */
  lemma AnyBatchCounts(st: State, id: TaskId, server: string, results: seq<Row>)
    requires Reached(st)
    ensures var st' := Report(st, id, server, results);
            && st'.job.processed == st'.job.invalidSyntax + |st'.rows|
            && st'.job.tally == Recounted(st')
  {
    hide Inv, Emails, Fresh, Report, CountIf, Terminal, Recounted;
    ReachableInv(st);
    RightCounters(st);
    if Terminal(st.job.status) || id !in st.tasks || st.tasks[id].status !in {Queued, Running} {
      Ignored(st, id, server, results);
    } else {
      ReportEffect(st, id, server, results);
      AddedCounters(st, Report(st, id, server, results), Fresh(results, Emails(st.rows)));
    }
  }

  lemma RightCounters(st: State)
    requires Inv(st) && !st.deleted
    ensures st.job.processed == st.job.invalidSyntax + |st.rows| && st.job.tally == Recounted(st)
  {
    hide SourceOk, StatusOk, TasksOk, ProgressOk, CoverOk, BillOk, FlightOk, DistinctEmails, Wanted, Rowed, Recounted;
  }

  lemma AddedCounters(st: State, st': State, added: seq<Row>)
    requires st.job.processed == st.job.invalidSyntax + |st.rows| && st.job.tally == Recounted(st)
    requires st'.rows == st.rows + added && st'.job == if added == [] then st.job else Advance(st.job, added)
    ensures st'.job.processed == st'.job.invalidSyntax + |st'.rows| && st'.job.tally == Recounted(st')
  {
    hide CountIf;
    RecountConcat(st.rows, added);
    if added == [] { assert st'.rows == st.rows; }
  }

  /** An accepted batch leaves one row per address exactly when its new addresses are pairwise distinct. */
  lemma DistinctKeptIff(st: State, id: TaskId, server: string, results: seq<Row>)
    requires Reached(st) && !Terminal(st.job.status) && id in st.tasks && st.tasks[id].status in {Queued, Running}
    ensures DistinctEmails(Report(st, id, server, results).rows) <==> DistinctEmails(Fresh(results, Emails(st.rows)))
  {
    hide Queue, Emails, Summary, Normalize, Fresh, Recount, Advance, TasksOk, CoverOk, ProgressOk, BillOk, FlightOk,
         StatusOk, SourceOk, Report;
    ReachableInv(st);
    var added := Fresh(results, Emails(st.rows));
    ReportEffect(st, id, server, results);
    FreshFacts(results, Emails(st.rows));
    if DistinctEmails(added) {
      DistinctConcat(st.rows, added);
    } else {
      DistinctSuffix(st.rows, added);
    }
  }

  lemma DistinctSuffix(a: seq<Row>, b: seq<Row>)
    ensures DistinctEmails(a + b) ==> DistinctEmails(b)
  {
    if DistinctEmails(a + b) {
      forall i, j | 0 <= i < j < |b| ensures b[i].email != b[j].email {
        assert (a + b)[|a| + i] == b[i] && (a + b)[|a| + j] == b[j];
      }
    }
  }

  // ---------------------------------------------------------------- a resume that overtakes an enqueue

  /** Cached answers of the enqueue a resume has overtaken are still written: the new tasks that hold their addresses
      do not learn of it, so task progress stays right exactly when there was nothing left to write. */
  lemma LateHitsIff(st: State, b: Batch, p: Plan)
    requires Reached(st) && st.job.status == Paused && st.flight.Some? && p in st.flight.value.toWrite
    requires BatchOf(b, Remaining(st.source, st.rows))
    ensures ProgressOk(PersistHits(Requeue(st, false, b), p)) <==> p.hits == []
  {
    hide Inv, Queue, Emails, Summary, Normalize, Recount, Remaining, Launch, ProgressOk, PersistHits, Wanted;
    ReachableInv(st);
    var r := Requeue(st, false, b);
    PlannedWrite(st, p);
    SameWanted(st, r);
    RequeueInv(st, false, b);
    Overtaken(st, b);
    ResumedProgress(r);
    if p.hits == [] {
      NothingPersisted(r, p);
    } else {
      LateProgress(st, r, p);
    }
  }

  lemma PlannedWrite(st: State, p: Plan)
    requires Inv(st) && !st.deleted && st.flight.Some? && p in st.flight.value.toWrite
    ensures ToWriteOk(st, p) && p.task < st.nextId
    ensures Emails(p.hits) <= Wanted(st) && Emails(p.hits) !! Rowed(st)
  {
    hide Queue, Emails, Summary, Normalize, Recount;
    assert ToWriteOk(st, p);
    assert st.tasks[p.task].emails <= Wanted(st);
  }

  lemma SameWanted(a: State, b: State)
    ensures a.source == b.source ==> Wanted(a) == Wanted(b)
  {
    hide Queue;
  }

  lemma NothingPersisted(st: State, p: Plan)
    requires p.hits == []
    ensures PersistHits(st, p) == st
  {
  }

  lemma ResumedProgress(st: State)
    requires Inv(st) && !st.deleted
    ensures ProgressOk(st)
  {
    hide ProgressOk;
  }

  /** After the resume: the same rows, a pending job, and only new tasks. */
  lemma Overtaken(st: State, b: Batch)
    requires Inv(st) && !st.deleted && st.job.status == Paused && BatchOf(b, Remaining(st.source, st.rows))
    ensures var r := Requeue(st, false, b);
            && !r.deleted && r.job.status == Pending && r.rows == st.rows && r.source == st.source
            && r.tasks != map[] && forall id | id in r.tasks :: id >= st.nextId
  {
    hide Inv, Queue, Emails, Summary, Normalize, Recount, Remaining, Launch;
    StillQueued(st);
    RemainingNeverEmpty(st);
    var from := st.(job := st.job.(status := Pending, processed := Requeue(st, false, b).job.processed));
    RequeueIs(st, b, from);
    LaunchIds(from, b, false);
    LaunchKeeps(from, b);
    LaunchFields(from, b, false);
    RequeueInv(st, false, b);
    FlightHasTasks(Requeue(st, false, b));
  }

  lemma StillQueued(st: State)
    requires Inv(st) && !st.deleted && st.job.status == Paused
    ensures Queue(st.source) != []
  {
    hide Queue, Emails, Summary, Normalize, Recount;
    Unanswered(st);
  }

  lemma RequeueIs(st: State, b: Batch, from: State)
    requires !st.deleted && st.job.status == Paused && Queue(st.source) != [] && Remaining(st.source, st.rows) != []
    requires Tiles(b.chunks, |b.ordered|)
    requires from == st.(job := st.job.(status := Pending, processed := Requeue(st, false, b).job.processed))
    ensures Requeue(st, false, b) == Launch(from, b, false)
  {
    hide Queue, Remaining, NewTasks, Plans;
  }

  lemma LaunchKeeps(st: State, b: Batch)
    requires Tiles(b.chunks, |b.ordered|)
    ensures var r := Launch(st, b, false); r.rows == st.rows && r.source == st.source && r.job == st.job && r.deleted == st.deleted
  {
  }

  lemma LateProgress(st: State, r: State, p: Plan)
    requires Inv(r) && !r.deleted && r.job.status in {Preparing, Pending} && r.tasks != map[] && r.rows == st.rows && r.source == st.source
    requires p.hits != [] && p.task !in r.tasks && Emails(p.hits) <= Wanted(st) && Emails(p.hits) !! Rowed(st)
    ensures !ProgressOk(PersistHits(r, p))
  {
    hide Inv, Queue, Emails, Summary, Normalize, Recount, RiskyRefund, Advance, TaskAgrees;
    HasAddress(p.hits);
    var e := p.hits[0].email;
    assert e in Wanted(r) && e !in Rowed(r);
    HeldByTask(r, e);
    var id :| id in r.tasks && e in r.tasks[id].emails;
    var late := PersistHits(r, p);
    LateWrite(r, p);
    OneMoreRow(r.tasks[id], Rowed(r), Emails(p.hits), e);
    ResumedProgress(r);
    assert late.tasks[id] == r.tasks[id];
  }

  lemma HeldByTask(st: State, e: Email)
    requires Inv(st) && !st.deleted && st.job.status in {Preparing, Pending} && st.tasks != map[] && e in Wanted(st) && e !in Rowed(st)
    ensures InSomeTask(st, e)
  {
    hide Queue, Emails, Summary, Normalize, Recount;
  }

  lemma LateWrite(r: State, p: Plan)
    requires !r.deleted && p.task !in r.tasks && p.hits != [] && r.job.status in {Preparing, Pending}
    ensures var late := PersistHits(r, p);
            late.tasks == r.tasks && Rowed(late) == Rowed(r) + Emails(p.hits) && late.job.status != Failed
  {
    hide Emails, Recount;
    EmailsConcat(r.rows, p.hits);
  }

  /** A task cannot agree with the rows both before and after one of its addresses is answered behind its back. */
  lemma OneMoreRow(t: Task, rowed: set<Email>, more: set<Email>, e: Email)
    requires e in t.emails && e !in rowed && e in more
    ensures !(TaskAgrees(t, rowed) && TaskAgrees(t, rowed + more))
  {
    var before, after := t.emails * rowed, t.emails * (rowed + more);
    assert before + {e} <= after;
    var rest := after - (before + {e});
    assert after == before + {e} + rest;
    assert |after| == |before| + 1 + |rest|;
  }

  /** The same holds of a second preparation that overlaps an enqueue. */
  lemma OverlappingPrepareIff(st: State, b: Batch, p: Plan)
    requires Reached(st) && st.job.status == Preparing && st.flight.Some? && p in st.flight.value.toWrite
    requires BatchOf(b, Queue(st.source))
    ensures ProgressOk(PersistHits(Prepare(st, b), p)) <==> p.hits == []
  {
    hide Inv, Queue, Emails, Summary, Normalize, Recount, Launch, ProgressOk, PersistHits, Wanted;
    ReachableInv(st);
    var r := Prepare(st, b);
    PlannedWrite(st, p);
    Reprepared(st, b);
    ResumedProgress(r);
    SameWanted(st, r);
    if p.hits == [] {
      NothingPersisted(r, p);
    } else {
      LateProgress(st, r, p);
    }
  }

  lemma Reprepared(st: State, b: Batch)
    requires Inv(st) && !st.deleted && st.job.status == Preparing && st.flight.Some? && BatchOf(b, Queue(st.source))
    ensures var r := Prepare(st, b);
            && Inv(r) && !r.deleted && r.job.status == Preparing && r.rows == st.rows && r.source == st.source
            && r.tasks != map[] && forall id | id in r.tasks :: id >= st.nextId
  {
    hide Inv, Queue, Emails, Summary, Normalize, Recount, Plans, NewTasks;
    var down := st.(flight := None);
    GroundedInv(st);
    assert Prepare(st, b) == Prepare(down, b);
    PrepareInv(down, b);
    LaunchIds(st, b, true);
    SomethingQueued(st, b);
    assert st.nextId in Launch(st, b, true).tasks;
  }

  lemma SomethingQueued(st: State, b: Batch)
    requires Inv(st) && !st.deleted && st.job.status == Preparing && BatchOf(b, Queue(st.source))
    ensures b.chunks != []
  {
    hide Queue, Emails, Summary, Normalize, Recount;
    Unanswered(st);
    assert |multiset(b.ordered)| == |multiset(Queue(st.source))|;
  }

  // ---------------------------------------------------------------- a resume whose writes fail half-way

  /** The resume failure branch drops the rows of its attempt without recounting: the counters stay right
      exactly when nothing had been written. */
  lemma DropWithoutRecountIff(st: State)
    requires Reached(st) && st.flight.Some?
    ensures RowsOk(DropHitsAndPause(st, st.flight.value.written)) <==> st.flight.value.written == []
  {
    hide Queue, Emails, Summary, Normalize, CountIf, Without, SourceOk, StatusOk, TasksOk, ProgressOk, CoverOk, BillOk, ToSendOk, ToWriteOk;
    ReachableInv(st);
    var gone := st.flight.value.written;
    if gone == [] {
      KeepAll(st.rows);
      assert Elements(gone) == {};
    } else {
      assert gone[0] in Elements(gone);
      FewerRows(st.rows, Elements(gone));
    }
  }

  lemma FewerRows(rows: seq<Row>, gone: set<Email>)
    requires DistinctEmails(rows) && gone <= Emails(rows) && gone != {}
    ensures |Without(rows, gone)| < |rows|
  {
    hide Emails;
    FreshFacts(rows, gone);
    RowCount(rows);
    RowCount(Without(rows, gone));
    assert Emails(Without(rows, gone)) == Emails(rows) - gone;
    assert Emails(rows) == (Emails(rows) - gone) + gone;
  }

  // ---------------------------------------------------------------- deletion in mid-enqueue

  /** Whatever leaves a running enqueue running: its sends and writes, reports, reclaims, pauses, refund checks. */
  predicate GoesOn(ev: Event) {
    !ev.SendFails? && !ev.WriteFails? && !ev.FinishEv? && !ev.Crash? && !ev.ReconcileEv?
  }

  predicate RefundOnRecord(ledger: seq<Entry>) {
    exists e | e in ledger :: !e.Charge?
  }

  /** The ledger and the terms of the enqueue stay as they are. */
  ghost predicate SameTerms(a: State, b: State) {
    && b.ledger == a.ledger
    && a.flight.Some? && b.flight.Some?
    && b.flight.value.queued == a.flight.value.queued && b.flight.value.refundOnFailure == a.flight.value.refundOnFailure
  }

  lemma GoesOnStep(st: State, ev: Event)
    requires st.flight.Some? && Legal(st, ev) && GoesOn(ev) && RefundOnRecord(st.ledger)
    ensures SameTerms(st, Step(st, ev))
  {
    hide Emails, Advance, Push, Fresh, Reclaimed, RowAddresses, Queue, Remaining, BatchOf;
  }

  /** Once a refund is on record, nothing that leaves the enqueue running touches the ledger. */
  lemma {:induction false} GoesOnRun(st: State, evs: seq<Event>)
    requires st.flight.Some? && LegalRun(st, evs) && RefundOnRecord(st.ledger) && forall ev | ev in evs :: GoesOn(ev)
    ensures SameTerms(st, Run(st, evs))
    decreases |evs|
  {
    hide Legal, Step, GoesOn, RefundOnRecord;
    if evs != [] {
      GoesOnStep(st, evs[0]);
      GoesOnRun(Step(st, evs[0]), evs[1..]);
    }
  }

  /** What the failure of an enqueue pays back, in either phase. */
  lemma FailureNet(st: State)
    requires st.flight.Some?
    ensures var back := if st.flight.value.refundOnFailure then st.flight.value.queued else 0;
            Net(FailSend(st)) == Net(FailWrite(st)) == Net(st) - back
  {
    hide Summary, Without, Recount;
    SummarySnoc(st.ledger, FullRefund(st.flight.value.queued));
  }

  /** A paused job deleted while it is still being queued, whose enqueue fails later in either phase, is billed for its
      known answers exactly when the enqueue was a resume; otherwise it is refunded twice. */
  lemma DeletedInFlightIff(st: State, evs: seq<Event>)
    requires Reached(st) && st.job.status == Paused && st.flight.Some? && Charges(st) == 1
    requires LegalRun(Delete(st), evs) && forall ev | ev in evs :: GoesOn(ev)
    ensures var end := Run(Delete(st), evs);
            && end.flight.Some?
            && (Net(FailSend(end)) == KnownAnswers(st) <==> !st.flight.value.refundOnFailure)
            && (Net(FailWrite(end)) == KnownAnswers(st) <==> !st.flight.value.refundOnFailure)
  {
    hide Queue, Emails, Normalize, CountIf, Summary, DeleteRefundAmount, Delete, Without, Recount, Charges, GoesOn,
         RefundOnRecord, FailSend, FailWrite;
    ReachableInv(st);
    DeletePausedNet(st);
    PausedInFlight(st);
    DeleteRecorded(st);
    GoesOnRun(Delete(st), evs);
    FailureNet(Run(Delete(st), evs));
  }

  lemma PausedInFlight(st: State)
    requires Inv(st) && !st.deleted && st.job.status == Paused && st.flight.Some? && Charges(st) == 1
    ensures Summary(st.ledger).lastCharge == st.job.total - st.job.invalidSyntax > 0
    ensures st.flight.value.refundOnFailure ==> st.flight.value.queued == Summary(st.ledger).lastCharge
  {
    hide Queue, Emails, Normalize, Recount, Summary;
    WantedCount(st);
    FullRows(st);
  }

  lemma DeleteRecorded(st: State)
    requires Reached(st) && st.job.status == Paused
    ensures Delete(st).flight == st.flight && RefundOnRecord(Delete(st).ledger)
  {
    hide DeleteRefundAmount, Reachable;
    DeleteClampsDead(st);
    assert DeleteRefund(DeleteRefundAmount(st)) in Delete(st).ledger;
  }

  // ---------------------------------------------------------------- a preparation given up in mid-enqueue

  lemma PreparingInFlight(st: State)
    requires Inv(st) && !st.deleted && Active(st.job.status) && st.flight.Some? && st.flight.value.refundOnFailure
    ensures Net(st) == Summary(st.ledger).lastCharge == st.flight.value.queued
    ensures st.job.status == Preparing ==> st.flight.value.queued == st.job.total - st.job.invalidSyntax > 0
  {
    hide Queue, Emails, Normalize, Recount, Summary;
    WantedCount(st);
    FullRows(st);
  }

  /** A preparation given up while it is being enqueued is refunded; the failure of that enqueue then refunds it again.
      The two refunds add up to the charge exactly when the job was no longer preparing. */
  lemma GivenUpInFlightIff(st: State)
    requires Reached(st) && Active(st.job.status) && st.flight.Some? && st.flight.value.refundOnFailure
    ensures Net(FailSend(FailPreparing(st))) == 0 <==> st.job.status != Preparing
    ensures Net(FailWrite(FailPreparing(st))) == 0 <==> st.job.status != Preparing
  {
    hide Inv, Reachable, FailSend, FailWrite, Net, Refund;
    ReachableInv(st);
    PreparingInFlight(st);
    if st.job.status == Preparing { GivenUpNet(st); }
    FailureNet(FailPreparing(st));
  }

  lemma GivenUpNet(st: State)
    requires !st.deleted && st.job.status == Preparing && st.job.total >= st.job.invalidSyntax
    ensures var up := FailPreparing(st);
            && Net(up) == Net(st) - (st.job.total - st.job.invalidSyntax)
            && up.flight == st.flight && up.job.status == Failed && !up.deleted && up.rows == st.rows
            && RefundOnRecord(up.ledger)
  {
    hide Summary;
    SummarySnoc(st.ledger, FullRefund(st.job.total - st.job.invalidSyntax));
    assert FullRefund(st.job.total - st.job.invalidSyntax) in FailPreparing(st).ledger;
  }

  /** However far that enqueue gets before it fails, the whole charge is paid back twice. */
  lemma GivenUpTwiceRefunded(st: State, evs: seq<Event>)
    requires Reached(st) && st.job.status == Preparing && st.flight.Some?
    requires LegalRun(FailPreparing(st), evs) && forall ev | ev in evs :: GoesOn(ev)
    ensures var end, charged := Run(FailPreparing(st), evs), st.job.total - st.job.invalidSyntax;
            end.flight.Some? && Net(FailSend(end)) == Net(FailWrite(end)) == -charged < 0
  {
    hide Inv, Reachable, FailSend, FailWrite, Summary, FailPreparing, GoesOn, RefundOnRecord;
    ReachableInv(st);
    PreparingRefunds(st);
    PreparingInFlight(st);
    GivenUpNet(st);
    GoesOnRun(FailPreparing(st), evs);
    FailureNet(Run(FailPreparing(st), evs));
  }

  lemma PreparingRefunds(st: State)
    requires Inv(st) && !st.deleted && st.job.status == Preparing && st.flight.Some?
    ensures st.flight.value.refundOnFailure
  {
    hide SourceOk, CoreOk, ToSendOk, ToWriteOk, Summary;
  }

  /** A cached answer written late revives the refunded job: it stays failed exactly when there was nothing to write. */
  lemma RevivedIff(st: State, p: Plan)
    requires Reached(st) && st.job.status == Preparing && st.flight.Some? && p in st.flight.value.toWrite
    ensures PersistHits(FailPreparing(st), p).job.status == Failed <==> p.hits == []
  {
    hide Emails, Recount, Push, AllBroken;
    assert !st.deleted;
  }

  // ---------------------------------------------------------------- addresses outside the payload

  /** An accepted batch of distinct addresses keeps rows and task progress right exactly when its new addresses
      belong to the reported task. */
  lemma ForeignAddressIff(st: State, id: TaskId, server: string, results: seq<Row>)
    requires Reached(st) && !Terminal(st.job.status) && id in st.tasks && st.tasks[id].status in {Queued, Running}
    requires DistinctEmails(results)
    ensures var st' := Report(st, id, server, results);
            RowsOk(st') && ProgressOk(st') <==> Emails(Fresh(results, Emails(st.rows))) <= st.tasks[id].emails
  {
    hide Inv, Queue, Emails, Recount, Summary, Fresh, Advance, RowsOk, ProgressOk, Report;
    ReachableInv(st);
    var added := Fresh(results, Emails(st.rows));
    FreshFacts(results, Emails(st.rows));
    ReportEffect(st, id, server, results);
    if added == [] {
      EmptyRows();
      OnlyClaimed(st, id, server, results);
      ClaimInv(st, id, server);
      ResumedProgress(Report(st, id, server, results));
    } else if Emails(added) <= st.tasks[id].emails {
      OwnAddresses(st, id, server, results);
    } else {
      var e :| e in Emails(added) && e !in st.tasks[id].emails;
      ForeignAddress(st, id, server, results, e);
    }
  }

  lemma OnlyClaimed(st: State, id: TaskId, server: string, results: seq<Row>)
    requires Inv(st) && !st.deleted && !Terminal(st.job.status) && id in st.tasks && st.tasks[id].status in {Queued, Running}
    requires Fresh(results, Emails(st.rows)) == []
    ensures Report(st, id, server, results) == st.(tasks := st.tasks[id := Claim(st.tasks[id], server)])
    ensures RowsOk(Report(st, id, server, results))
  {
    hide Queue, Emails, Recount, Summary, Fresh, Normalize;
  }

  lemma OwnAddresses(st: State, id: TaskId, server: string, results: seq<Row>)
    requires Inv(st) && !st.deleted && !Terminal(st.job.status) && id in st.tasks && st.tasks[id].status in {Queued, Running}
    requires var added := Fresh(results, Emails(st.rows));
             added != [] && DistinctEmails(added) && Emails(added) <= st.tasks[id].emails && Emails(added) !! Rowed(st)
    ensures RowsOk(Report(st, id, server, results)) && ProgressOk(Report(st, id, server, results))
  {
    hide Inv, Queue, Emails, Recount, Summary, Fresh, Advance, RiskyRefund, RowsOk, ProgressOk, StatusOk, TasksOk, CoverOk, SourceOk;
    var added := Fresh(results, Emails(st.rows));
    var t := Push(Claim(st.tasks[id], server), |added|).(worker := server);
    AbsorbInv(st, id, t, added);
    RiskyRefundFrame(Absorb(st, id, t, added));
    AccountFrame(Absorb(st, id, t, added), RiskyRefund(Absorb(st, id, t, added)));
  }

  lemma ForeignAddress(st: State, id: TaskId, server: string, results: seq<Row>, e: Email)
    requires Inv(st) && !st.deleted && !Terminal(st.job.status) && id in st.tasks && st.tasks[id].status in {Queued, Running}
    requires e in Emails(Fresh(results, Emails(st.rows))) && e !in st.tasks[id].emails && e !in Rowed(st)
    ensures !(RowsOk(Report(st, id, server, results)) && ProgressOk(Report(st, id, server, results)))
  {
    hide Inv, Queue, Emails, Recount, Summary, Fresh, Advance, Report, TaskAgrees;
    var st' := Report(st, id, server, results);
    ReportEffect(st, id, server, results);
    FreshFacts(results, Emails(st.rows));
    AdvanceNotFailed(st.job, Fresh(results, Emails(st.rows)));
    if e in Wanted(st) {
      ActiveCover(st, id, e);
      var k :| k in st.tasks && e in st.tasks[k].emails;
      OtherTaskUntouched(st, id, server, results, k);
      OneMoreRow(st.tasks[k], Rowed(st), Emails(results), e);
      ResumedProgress(st);
    }
  }

  lemma ActiveCover(st: State, id: TaskId, e: Email)
    requires Inv(st) && !st.deleted && !Terminal(st.job.status) && id in st.tasks && e in Wanted(st) && e !in Rowed(st)
    ensures InSomeTask(st, e)
  {
    hide Queue, Emails, Recount, Summary, Normalize;
  }

  lemma OtherTaskUntouched(st: State, id: TaskId, server: string, results: seq<Row>, k: TaskId)
    requires k in st.tasks && k != id
    ensures k in Report(st, id, server, results).tasks && Report(st, id, server, results).tasks[k] == st.tasks[k]
  {
    hide Emails, Fresh, Advance;
  }

  /** Likewise for cached answers: they keep rows and task progress right exactly when they are about addresses of
      their own task, as cache rows stored under their own address are. */
  lemma ForeignHitIff(st: State, p: Plan)
    requires Reached(st) && !Terminal(st.job.status) && p.task in st.tasks
    requires p.hits != [] && DistinctEmails(p.hits) && Emails(p.hits) !! Rowed(st)
    ensures var st' := PersistHits(st, p);
            RowsOk(st') && ProgressOk(st') <==> Emails(p.hits) <= st.tasks[p.task].emails
  {
    hide Inv, Queue, Emails, Recount, Summary, Advance, RowsOk, ProgressOk, RiskyRefund, StatusOk, TasksOk, CoverOk, SourceOk,
         PersistHits, Absorb;
    ReachableInv(st);
    var grown := Absorb(st, p.task, Push(st.tasks[p.task], |p.hits|), p.hits);
    PersistShape(st, p);
    if Emails(p.hits) <= st.tasks[p.task].emails {
      AbsorbInv(st, p.task, Push(st.tasks[p.task], |p.hits|), p.hits);
      RiskyRefundFrame(grown);
      AccountFrame(grown, RiskyRefund(grown));
    } else {
      var e :| e in Emails(p.hits) && e !in st.tasks[p.task].emails;
      ForeignHit(st, p, e);
    }
  }

  lemma PersistShape(st: State, p: Plan)
    requires !st.deleted && p.task in st.tasks && p.hits != []
    ensures PersistHits(st, p) == RiskyRefund(Absorb(st, p.task, Push(st.tasks[p.task], |p.hits|), p.hits))
    ensures var st' := PersistHits(st, p);
            && st'.source == st.source && st'.job.status != Failed && Rowed(st') == Rowed(st) + Emails(p.hits)
            && st'.tasks == st.tasks[p.task := Push(st.tasks[p.task], |p.hits|)]
  {
    hide Emails, Recount, Push;
    EmailsConcat(st.rows, p.hits);
    RiskyRefundFrame(Absorb(st, p.task, Push(st.tasks[p.task], |p.hits|), p.hits));
  }

  lemma ForeignHit(st: State, p: Plan, e: Email)
    requires Inv(st) && !st.deleted && !Terminal(st.job.status) && p.task in st.tasks && p.hits != []
    requires e in Emails(p.hits) && e !in st.tasks[p.task].emails && e !in Rowed(st)
    ensures !(RowsOk(PersistHits(st, p)) && ProgressOk(PersistHits(st, p)))
  {
    hide Inv, Queue, Emails, Recount, Summary, PersistHits, TaskAgrees, RiskyRefund, Absorb;
    PersistShape(st, p);
    SameWanted(st, PersistHits(st, p));
    if e in Wanted(st) {
      ActiveCover(st, p.task, e);
      var k :| k in st.tasks && e in st.tasks[k].emails;
      OneMoreRow(st.tasks[k], Rowed(st), Emails(p.hits), e);
      ResumedProgress(st);
      assert k in PersistHits(st, p).tasks && PersistHits(st, p).tasks[k] == st.tasks[k];
    }
  }
}
