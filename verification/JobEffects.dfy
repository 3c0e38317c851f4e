/** What the main transactions do, field by field: who is charged or paid what, which rows are stored, which tasks exist. */
module JobEffects {
  import opened Text
  import opened Mailbox
  import opened Verdicts
  import opened BulkQueue
  import opened DomainIntel
  import opened JobState
  import opened JobRows
  import opened Payloads
  import opened JobAnswers
  import opened JobInvariant
  import opened JobSteps

  // ---------------------------------------------------------------- submission

  /** The non-empty canonical forms of the addresses, each once. */
  ghost predicate UniqueList(emails: seq<string>, unique: seq<Email>) {
    NoDup(unique) && forall e :: e in unique <==> e != "" && exists i | 0 <= i < |emails| :: CanonicalOf(emails[i], e)
  }

  ghost function ValidOf(emails: seq<Email>): set<Email> {
    set e | e in emails && IsValidMailboxSyntax(e)
  }

  /** Each refusal has its one cause, in the order of the checks; an accepted list is charged one credit per valid address. */
  ghost predicate SubmitOutcome(unique: seq<Email>, credits: nat, active: nat, maxEmails: nat, maxActive: nat, a: Accepted) {
    var n, valid := |unique|, |ValidOf(unique)|;
    var fits, free := 0 < n <= maxEmails, maxActive == 0 || active < maxActive;
    && (a == Rejected(NoEmails) <==> n == 0)
    && (a == Rejected(TooManyEmails) <==> n > 0 && n > maxEmails)
    && (a == Rejected(TooManyJobs) <==> fits && !free)
    && (a == Rejected(InsufficientCredits) <==> fits && free && credits < valid)
    && (a.Created? <==> fits && free && credits >= valid)
    && (a.Created? ==>
          var st := a.state;
          && multiset(st.source) == multiset(unique)
          && st.credits == credits - valid && st.ledger == [Charge(valid)]
          && st.job.status == (if valid == 0 then Completed else Preparing)
          && st.job.total == n && st.job.invalidSyntax == st.job.processed == st.job.tally.undeliverable == n - valid
          && st.job.tally.deliverable == st.job.tally.risky == st.job.tally.catchAll == st.job.tally.disposable == st.job.tally.role == 0
          && !st.deleted && st.tasks == map[] && st.rows == [] && st.sent == map[] && st.flight == None)
  }

  lemma QueueCount(source: seq<Email>)
    requires NoDup(source)
    ensures |Queue(source)| == |ValidOf(source)|
    ensures NoDup(Queue(source)) && Elements(Queue(source)) == ValidOf(source)
  {
    hide IsValidMailboxSyntax, Queue;
    QueueFacts(source);
    assert Elements(Queue(source)) == ValidOf(source);
    NoDupCount(Queue(source));
  }

  lemma SubmitMeans(emails: seq<string>, credits: nat, active: nat, maxEmails: nat, maxActive: nat, unique: seq<Email>)
    requires UniqueList(emails, unique)
    ensures SubmitOutcome(unique, credits, active, maxEmails, maxActive, Accept(emails, credits, active, maxEmails, maxActive))
  {
    hide Deduped, Queue, CanonicalOf, IsValidMailboxSyntax;
    var source := Deduped(emails);
    DedupedMeans(emails);
    QueueCount(source);
    assert forall e :: e in source <==> e in unique;
    SameLists(source, unique);
    assert ValidOf(source) == ValidOf(unique);
  }

  lemma SameLists(a: seq<Email>, b: seq<Email>)
    requires NoDup(a) && NoDup(b) && forall e :: e in a <==> e in b
    ensures |a| == |b| && multiset(a) == multiset(b)
  {
    NoDupCount(a);
    NoDupCount(b);
    assert Elements(a) == Elements(b);
    forall e ensures multiset(a)[e] == multiset(b)[e] {
      OnceEach(a, e);
      OnceEach(b, e);
    }
  }

  // ---------------------------------------------------------------- preparation, resume and retry

  /** The stored list is canonical and without duplicates, and rows are about its valid addresses. */
  ghost predicate InOrder(st: State) {
    && NoDup(st.source) && (forall e | e in st.source :: e != "" && Normalize(e) == e)
    && Emails(st.rows) <= ValidOf(st.source)
  }

  /** So it is in every state of every run. */
  lemma AlwaysInOrder(st: State)
    requires Inv(st) && !st.deleted
    ensures InOrder(st) && st.job.invalidSyntax <= st.job.total
  {
    hide Queue, Normalize, IsValidMailboxSyntax, StatusOk, TasksOk, ProgressOk, CoverOk, BillOk, FlightOk, Emails;
    QueueCount(st.source);
  }

  /** The list that is queued, in whatever order: the valid addresses of the stored list without a row. */
  ghost predicate Queues(b: Batch, st: State) {
    NoDup(b.ordered) && forall e :: e in b.ordered <==> e in ValidOf(st.source) && e !in Emails(st.rows)
  }

  /** A preparing job is cut into tasks; any other is left alone. */
  ghost predicate PrepareOutcome(st: State, b: Batch, table: Table, st': State) {
    if st.deleted || st.job.status != Preparing then st' == st
    else
      && NoDup(b.ordered) && (forall e :: e in b.ordered <==> e in ValidOf(st.source))
      && Enqueues(st', st.nextId, b, table) && st'.flight.value.refundOnFailure
      && st' == st.(tasks := st'.tasks, nextId := st'.nextId, flight := st'.flight)
  }

  lemma BatchContents(b: Batch, list: seq<Email>)
    requires BatchOf(b, list) && NoDup(list)
    ensures NoDup(b.ordered) && forall e :: e in b.ordered <==> e in list
    ensures |b.ordered| == |list|
  {
    SameElements(list, b.ordered);
    forall e ensures e in b.ordered <==> e in list {
      assert e in b.ordered <==> e in multiset(b.ordered);
    }
  }

  lemma PrepareMeans(st: State, b: Batch, table: Table)
    requires InOrder(st) && BatchOf(b, Queue(st.source)) && DecidesAsTable(b.ordered, b.policies, table)
    ensures PrepareOutcome(st, b, table, Prepare(st, b))
  {
    hide Queue, Launch, Enqueues, DecidesAsTable, Normalize, IsValidMailboxSyntax;
    if !st.deleted && st.job.status == Preparing {
      QueueFacts(st.source);
      QueueCount(st.source);
      BatchContents(b, Queue(st.source));
      LaunchMeans(st, b, true, Queue(st.source), table);
    }
  }

  /** A resume or retry: what is left is queued, a retry is charged for it, and nothing happens to a job it is not meant for. */
  ghost predicate RequeueOutcome(st: State, charge: bool, b: Batch, table: Table, st': State) {
    var left := ValidOf(st.source) - Emails(st.rows);
    var counted := |st.rows| + st.job.invalidSyntax;
    var job := st.job.(processed := if counted > st.job.total then st.job.total else counted);
    if st.deleted || st.job.status != (if charge then Failed else Paused) || ValidOf(st.source) == {} then st' == st
    else if left == {} then st' == st.(job := job.(status := Completed))
    else if charge && st.credits < |left| then st' == st
    else
      && Queues(b, st) && |b.ordered| == |left|
      && Enqueues(st', st.nextId, b, table) && st'.flight.value.refundOnFailure == charge
      && st'.credits == (if charge then st.credits - |left| else st.credits)
      && st'.ledger == (if charge then st.ledger + [Charge(|left|)] else st.ledger)
      && st'.job == job.(status := Pending)
      && st' == st.(tasks := st'.tasks, nextId := st'.nextId, flight := st'.flight,
                    credits := st'.credits, ledger := st'.ledger, job := st'.job)
  }

  lemma LeftOver(st: State)
    requires InOrder(st)
    ensures NoDup(Remaining(st.source, st.rows))
    ensures forall e :: e in Remaining(st.source, st.rows) <==> e in ValidOf(st.source) && e !in Emails(st.rows)
    ensures |Remaining(st.source, st.rows)| == |ValidOf(st.source) - Emails(st.rows)|
    ensures Queue(st.source) == [] <==> ValidOf(st.source) == {}
    ensures Remaining(st.source, st.rows) == [] <==> ValidOf(st.source) - Emails(st.rows) == {}
    ensures forall e | e in Remaining(st.source, st.rows) :: Normalize(e) == e && IsValidMailboxSyntax(e)
  {
    hide Queue, Remaining, Normalize, IsValidMailboxSyntax, Emails;
    var r := Remaining(st.source, st.rows);
    QueueCount(st.source);
    RemainingFacts(st.source, st.rows);
    NoDupCount(r);
    assert Elements(r) == ValidOf(st.source) - Emails(st.rows);
    assert forall e :: e in r <==> e in Elements(r);
  }

  lemma RequeueMeans(st: State, charge: bool, b: Batch, table: Table)
    requires InOrder(st) && BatchOf(b, Remaining(st.source, st.rows)) && DecidesAsTable(b.ordered, b.policies, table)
    ensures RequeueOutcome(st, charge, b, table, Requeue(st, charge, b))
  {
    hide Queue, Remaining, Requeue, Launch, Enqueues, DecidesAsTable, Normalize, IsValidMailboxSyntax, InOrder, ValidOf, Emails;
    LeftOver(st);
    BatchContents(b, Remaining(st.source, st.rows));
    RequeueCases(st, charge, b);
    LaunchMeans(Charged(st, charge), b, charge, Remaining(st.source, st.rows), table);
  }

  /** The state from which a resume or retry is launched. */
  function Charged(st: State, charge: bool): State {
    var n, counted := |Remaining(st.source, st.rows)|, |st.rows| + st.job.invalidSyntax;
    st.(job := st.job.(status := Pending, processed := if counted > st.job.total then st.job.total else counted),
        credits := if charge then st.credits - n else st.credits, ledger := if charge then st.ledger + [Charge(n)] else st.ledger)
  }

  // ---------------------------------------------------------------- batch reports


  /** Every counter grows by the rows it counts. */
  ghost predicate CountsGrow(before: Tally, after: Tally, added: seq<Row>) {
    && after.deliverable == before.deliverable + |set i | 0 <= i < |added| && added[i].verdict == Valid|
    && after.undeliverable == before.undeliverable + |set i | 0 <= i < |added| && added[i].verdict == Invalid|
    && after.risky == before.risky + |set i | 0 <= i < |added| && added[i].verdict == Unknown|
    && after.catchAll == before.catchAll + |set i | 0 <= i < |added| && (added[i].verdict == CatchAll || added[i].isCatchAll)|
    && after.disposable == before.disposable + |set i | 0 <= i < |added| && (added[i].verdict == Disposable || added[i].isDisposable)|
    && after.role == before.role + |set i | 0 <= i < |added| && added[i].isRole|
  }

  /** The job row after new rows. */
  ghost predicate JobGrows(before: Job, after: Job, added: seq<Row>) {
    && after.total == before.total && after.invalidSyntax == before.invalidSyntax
    && after.processed == before.processed + |added|
    && CountsGrow(before.tally, after.tally, added)
    && after.status == (if after.processed >= after.total then Completed else if before.status == Paused then Paused else Processing)
  }

  /** The task row after it is reported by a server: claimed if it was queued or another's, and pushed on by the new rows. */
  ghost predicate TaskReported(before: Task, after: Task, server: string, n: nat) {
    var claimed := before.status == Queued || (before.worker != "" && before.worker != server);
    && after.size == before.size && after.emails == before.emails
    && (n == 0 ==> after.pushed == before.pushed)
    && (n == 0 && claimed ==> after.status == Running && after.worker == server)
    && (n == 0 && !claimed ==> after == before)
    && (n > 0 ==> after.worker == server && after.status == (if before.pushed + n >= before.size then Done else Running)
                  && after.pushed == (if before.pushed + n >= before.size then before.size else before.pushed + n))
  }

  /** The owner's account after new rows: a job that completes pays back its unknown results, unless a refund is on record. */
  ghost predicate Settles(st: State, st': State) {
    var owed := st'.job.status == Completed && st'.job.tally.risky > 0 && forall e | e in st.ledger :: e.Charge?;
    && st'.credits == (if owed then st.credits + st'.job.tally.risky else st.credits)
    && st'.ledger == (if owed then st.ledger + [UnknownRefund(st'.job.tally.risky)] else st.ledger)
  }

  /** A report for a task that is neither queued nor running, or to a job that has ended, is ignored; any other adds the rows
      its results stand for. */
  ghost predicate ReportOutcome(st: State, id: TaskId, server: string, results: seq<Payload>, table: Table, st': State) {
    if st.deleted || st.job.status in {Completed, Failed, Cancelled} || id !in st.tasks || st.tasks[id].status !in {Queued, Running} then
      st' == st
    else exists added ::
      && Reports(results, table, Emails(st.rows), added)
      && st'.rows == st.rows + added
      && id in st'.tasks && TaskReported(st.tasks[id], st'.tasks[id], server, |added|)
      && (if added == [] then st'.job == st.job && st'.credits == st.credits && st'.ledger == st.ledger
          else JobGrows(st.job, st'.job, added) && Settles(st, st'))
      && st' == st.(rows := st'.rows, tasks := st.tasks[id := st'.tasks[id]], job := st'.job, credits := st'.credits, ledger := st'.ledger)
  }

  lemma AdvanceMeans(job: Job, added: seq<Row>)
    ensures JobGrows(job, Advance(job, added), added)
  {
    hide Recount;
    RecountMeans(added);
  }

  lemma ClaimMeans(t: Task, server: string, n: nat)
    ensures var claimed := Claim(t, server);
            TaskReported(t, if n == 0 then claimed else Push(claimed, n).(worker := server), server, n)
  {
  }

  lemma RefundMeans(st: State, grown: State)
    requires !grown.deleted && grown.ledger == st.ledger && grown.credits == st.credits
    ensures Settles(st, RiskyRefund(grown))
    ensures RiskyRefund(grown) == grown.(credits := RiskyRefund(grown).credits, ledger := RiskyRefund(grown).ledger)
  {
  }

  lemma ReportMeans(st: State, id: TaskId, server: string, results: seq<Payload>, table: Table)
    ensures ReportOutcome(st, id, server, results, table, Report(st, id, server, Rows(results, table)))
  {
    hide Rows, Emails, Fresh, Reports, Advance, RiskyRefund, JobGrows, Settles, TaskReported, Push, Claim;
    if !st.deleted && !Terminal(st.job.status) && id in st.tasks && st.tasks[id].status in {Queued, Running} {
      var added := Fresh(Rows(results, table), Emails(st.rows));
      var t := Claim(st.tasks[id], server);
      ReportedRows(results, table, Emails(st.rows));
      ClaimMeans(st.tasks[id], server, |added|);
      if added == [] {
        assert st.rows + added == st.rows;
      } else {
        var grown := st.(rows := st.rows + added, job := Advance(st.job, added),
                         tasks := st.tasks[id := Push(t, |added|).(worker := server)]);
        AdvanceMeans(st.job, added);
        RefundMeans(st, grown);
        SettledGrown(st, grown, RiskyRefund(grown));
      }
    }
  }

  lemma SettledGrown(st: State, grown: State, end: State)
    requires Settles(st, end) && end == grown.(credits := end.credits, ledger := end.ledger)
    ensures end.job == grown.job && end.rows == grown.rows && end.tasks == grown.tasks
  {
  }

  // ---------------------------------------------------------------- the enqueue

  /** Cached answers become rows of their task; a deleted job only gets the rows. */
  ghost predicate WriteOutcome(st: State, st': State) {
    st.flight.Some? && st.flight.value.toWrite != [] &&
    var f := st.flight.value;
    var p := f.toWrite[0];
    && st'.flight.Some? && st'.flight.value.toWrite == f.toWrite[1..]
    && |st'.flight.value.written| == |f.written| + |p.hits|
    && (forall i | 0 <= i < |f.written| :: st'.flight.value.written[i] == f.written[i])
    && (forall i | 0 <= i < |p.hits| :: st'.flight.value.written[|f.written| + i] == p.hits[i].email)
    && st'.flight.value == f.(toWrite := st'.flight.value.toWrite, written := st'.flight.value.written)
    && st'.rows == st.rows + p.hits
    && (if st.deleted || p.hits == [] then st'.job == st.job && st'.tasks == st.tasks && st'.credits == st.credits && st'.ledger == st.ledger
        else
          && JobGrows(st.job, st'.job, p.hits) && Settles(st, st')
          && st'.tasks.Keys == st.tasks.Keys && (forall id | id in st.tasks && id != p.task :: st'.tasks[id] == st.tasks[id])
          && (p.task in st.tasks ==> TaskWritten(st.tasks[p.task], st'.tasks[p.task], |p.hits|)))
    && st' == st.(flight := st'.flight, rows := st'.rows, job := st'.job, tasks := st'.tasks, credits := st'.credits, ledger := st'.ledger)
  }

  ghost predicate TaskWritten(before: Task, after: Task, n: nat) {
    && after.size == before.size && after.emails == before.emails && after.worker == before.worker
    && after.pushed == (if before.pushed + n >= before.size then before.size else before.pushed + n)
    && after.status == (if before.pushed + n >= before.size then Done else Running)
  }

  lemma PersistMeans(st: State, p: Plan)
    ensures var st' := PersistHits(st, p);
            && st'.rows == st.rows + p.hits
            && (if st.deleted || p.hits == [] then st'.job == st.job && st'.tasks == st.tasks && st'.credits == st.credits && st'.ledger == st.ledger
                else
                  && JobGrows(st.job, st'.job, p.hits) && Settles(st, st')
                  && st'.tasks.Keys == st.tasks.Keys && (forall id | id in st.tasks && id != p.task :: st'.tasks[id] == st.tasks[id])
                  && (p.task in st.tasks ==> TaskWritten(st.tasks[p.task], st'.tasks[p.task], |p.hits|)))
            && st' == st.(rows := st'.rows, job := st'.job, tasks := st'.tasks, credits := st'.credits, ledger := st'.ledger)
  {
    hide Advance, RiskyRefund, JobGrows, Settles;
    if p.hits == [] {
      assert st.rows + p.hits == st.rows;
    } else if !st.deleted {
      var grown := st.(rows := st.rows + p.hits, job := Advance(st.job, p.hits),
                       tasks := if p.task in st.tasks then st.tasks[p.task := Push(st.tasks[p.task], |p.hits|)] else st.tasks);
      AdvanceMeans(st.job, p.hits);
      RefundMeans(st, grown);
      SettledGrown(st, grown, RiskyRefund(grown));
    }
  }

  lemma WriteMeans(st: State)
    requires st.flight.Some? && st.flight.value.toWrite != []
    ensures WriteOutcome(st, WriteHits(st))
  {
    hide PersistHits, JobGrows, Settles, TaskWritten;
    PersistMeans(st, st.flight.value.toWrite[0]);
    SameAccount(st, PersistHits(st, st.flight.value.toWrite[0]), WriteHits(st));
  }

  lemma SameAccount(st: State, a: State, b: State)
    requires b.job == a.job && b.credits == a.credits && b.ledger == a.ledger
    ensures Settles(st, a) ==> Settles(st, b)
  {
  }

  /** The misses of a chunk reach the worker queue under its task. */
  lemma SendMeans(st: State)
    requires st.flight.Some? && st.flight.value.toSend != []
    ensures var p, st' := st.flight.value.toSend[0], Send(st);
            && st' == st.(flight := st'.flight, sent := st'.sent)
            && st'.flight == Some(st.flight.value.(toSend := st.flight.value.toSend[1..]))
            && (forall id | id != p.task :: (id in st'.sent <==> id in st.sent) && (id in st.sent ==> st'.sent[id] == st.sent[id]))
            && (p.misses == [] ==> st'.sent == st.sent)
            && (p.misses != [] ==> p.task in st'.sent && forall e :: e in st'.sent[p.task] <==> e in p.misses)
  {
  }

  /** The end of an enqueue only turns a job that was being prepared into a pending one. */
  lemma FinishMeans(st: State)
    ensures Finish(st).flight == None && Finish(st) == st.(flight := None, job := Finish(st).job)
    ensures Finish(st).job == if st.deleted || st.job.status != Preparing then st.job else st.job.(status := Pending)
  {
  }

  /** The job fails, its tasks are given up, and the credits come back with a refund on record. */
  ghost predicate Refunded(st: State, credits: nat, st': State) {
    && st'.credits == st.credits + credits && st'.ledger == st.ledger + [FullRefund(credits)]
    && st'.tasks.Keys == st.tasks.Keys && (forall id | id in st.tasks :: st'.tasks[id] == st.tasks[id].(status := Broken))
    && st'.job == (if st.deleted then st.job else st.job.(status := Failed))
    && st' == st.(credits := st'.credits, ledger := st'.ledger, tasks := st'.tasks, job := st'.job)
  }

  /** A preparation that is given up pays back one credit per valid address; a failed enqueue pays back what it queued,
      and on resume pauses the job instead. */
  lemma GiveUpMeans(st: State)
    ensures st.deleted || st.job.status != Preparing ==> FailPreparing(st) == st
    ensures !st.deleted && st.job.status == Preparing && st.job.total >= st.job.invalidSyntax ==>
              Refunded(st, st.job.total - st.job.invalidSyntax, FailPreparing(st))
    ensures st.flight.Some? && st.flight.value.refundOnFailure ==> Refunded(st.(flight := None), st.flight.value.queued, FailSend(st))
    ensures st.flight.Some? && !st.flight.value.refundOnFailure ==>
              FailSend(st) == st.(flight := None, job := if st.deleted then st.job else st.job.(status := Paused))
  {
  }

  /** Rolling an attempt back drops the rows it wrote and no other, counts what is left, and refunds. */
  ghost predicate RollbackOutcome(st: State, written: seq<Email>, credits: nat, st': State) {
    && Kept(st.rows, written, st'.rows)
    && st'.credits == st.credits + credits && st'.ledger == st.ledger + [FullRefund(credits)]
    && st'.tasks.Keys == st.tasks.Keys && (forall id | id in st.tasks :: st'.tasks[id] == st.tasks[id].(status := Broken))
    && (st.deleted ==> st'.job == st.job)
    && (!st.deleted ==>
          && st'.job == st.job.(status := Failed, processed := |st'.rows| + st.job.invalidSyntax, tally := st'.job.tally)
          && CountsGrow(Tally(0, st.job.invalidSyntax, 0, 0, 0, 0), st'.job.tally, st'.rows))
    && st' == st.(rows := st'.rows, credits := st'.credits, ledger := st'.ledger, tasks := st'.tasks, job := st'.job)
  }

  /** `kept` is `rows` without those about the addresses in `gone`, in order. */
  ghost predicate Kept(rows: seq<Row>, gone: seq<Email>, kept: seq<Row>)
    decreases |rows|
  {
    if rows == [] then kept == []
    else
      var front, r := rows[..|rows| - 1], rows[|rows| - 1];
      if r.email in gone then Kept(front, gone, kept) else kept != [] && kept[|kept| - 1] == r && Kept(front, gone, kept[..|kept| - 1])
  }

  lemma {:induction false} KeptRows(rows: seq<Row>, gone: seq<Email>)
    ensures Kept(rows, gone, Without(rows, Elements(gone)))
  {
    if rows != [] {
      KeptRows(rows[..|rows| - 1], gone);
    }
  }

  lemma RollbackMeans(st: State, written: seq<Email>, credits: nat)
    ensures RollbackOutcome(st, written, credits, Rollback(st, written, credits))
  {
    hide CountIf, Without, Kept;
    var kept := Without(st.rows, Elements(written));
    KeptRows(st.rows, written);
    RecountMeans(kept);
  }

  // ---------------------------------------------------------------- user commands

  /** Deleting a finished job pays nothing; a paused one gets back its price less one credit per known answer. */
  ghost predicate DeleteOutcome(st: State, st': State) {
    var unknown := |set i | 0 <= i < |st.rows| && st.rows[i].verdict == Unknown|;
    var unused := st.job.total - st.job.invalidSyntax - (|st.rows| - unknown);
    if st.deleted || st.job.status !in {Completed, Failed, Paused} then st' == st
    else
      && st'.deleted && st'.rows == [] && st'.tasks == map[]
      && st'.job == (if st.job.status == Paused then st.job.(status := Cancelled) else st.job)
      && st'.credits == (if st.job.status == Paused && unused > 0 then st.credits + unused else st.credits)
      && st'.ledger == (if st.job.status == Paused && unused > 0 then st.ledger + [DeleteRefund(unused)] else st.ledger)
      && st' == st.(deleted := true, rows := [], tasks := map[], job := st'.job, credits := st'.credits, ledger := st'.ledger)
  }

  lemma DeleteMeans(st: State)
    requires st.job.invalidSyntax <= st.job.total
    ensures DeleteOutcome(st, Delete(st))
  {
    hide CountIf;
    CountIs(Risky, st.rows);
    assert (set i | 0 <= i < |st.rows| && st.rows[i].verdict == Unknown) == set i | 0 <= i < |st.rows| && InColumn(Risky, st.rows[i]);
  }

  /** Pausing stops a pending or running job, and changes nothing else. */
  lemma PauseMeans(st: State)
    ensures Pause(st) == if !st.deleted && st.job.status in {Pending, Processing} then st.(job := st.job.(status := Paused)) else st
  {
  }

  // ---------------------------------------------------------------- reconciliation

  ghost predicate SomeTask(st: State, s: TaskStatus) {
    exists id | id in st.tasks :: st.tasks[id].status == s
  }

  /** Completed, with answers missing. */
  predicate Short(t: Task) {
    t.status == Done && t.pushed < t.size
  }

  /** A job with work left is left alone; chunks that are short go back to the queue; else the tasks decide the status, and
      unknown results are paid back without a look at the ledger. */
  ghost predicate ReconcileOutcome(st: State, st': State) {
    var short := exists id | id in st.tasks :: Short(st.tasks[id]);
    if st.deleted || SomeTask(st, Queued) || SomeTask(st, Running) then st' == st
    else if !SomeTask(st, Broken) && st.job.processed < st.job.total && short then
      && st'.tasks.Keys == st.tasks.Keys
      && (forall id | id in st.tasks ::
            st'.tasks[id] == if Short(st.tasks[id]) then st.tasks[id].(status := Queued, worker := "") else st.tasks[id])
      && st'.job == (if st.job.status in {Paused, Failed, Cancelled, Completed} then st.job else st.job.(status := Processing))
      && st' == st.(tasks := st'.tasks, job := st'.job)
    else if st.job.status == Completed then st' == st
    else if SomeTask(st, Broken) then st' == st.(job := st.job.(status := Failed))
    else
      && st'.job == st.job.(status := Completed)
      && st'.credits == st.credits + st.job.tally.risky
      && st'.ledger == (if st.job.tally.risky > 0 then st.ledger + [UnknownRefund(st.job.tally.risky)] else st.ledger)
      && st' == st.(job := st'.job, credits := st'.credits, ledger := st'.ledger)
  }

  lemma CountSome(st: State, s: TaskStatus)
    ensures CountTasks(st.tasks, s) > 0 <==> SomeTask(st, s)
  {
    CountNone(st.tasks, s);
  }

  lemma ShortRequeued(st: State)
    ensures Requeued(st.tasks) != st.tasks <==> exists id | id in st.tasks :: Short(st.tasks[id])
  {
    if id :| id in st.tasks && Short(st.tasks[id]) {
      assert Requeued(st.tasks)[id] != st.tasks[id];
    }
  }

  lemma ReconcileMeans(st: State)
    ensures ReconcileOutcome(st, Reconcile(st))
  {
    hide CountTasks, SomeTask;
    CountSome(st, Queued);
    CountSome(st, Running);
    CountSome(st, Broken);
    ShortRequeued(st);
  }
}
