/** The bulk-job protocol: one job, its tasks, its result rows, the worker queue and its owner's account.
    Every step is one committed transaction (or one queue operation); the functions give the state after it. */
module JobState {
  import opened Text
  import opened Mailbox
  import opened Verdicts
  import opened BulkQueue
  import opened DomainIntel

  type Email = string
  type TaskId = nat

  /** A `job_results` row. The table has no unique key on the address. */
  datatype Row = Row(email: Email, verdict: Verdict, isDeliverable: bool, isCatchAll: bool, isDisposable: bool, isRole: bool)

  datatype Tally = Tally(deliverable: nat, undeliverable: nat, risky: nat, catchAll: nat, disposable: nat, role: nat)

  datatype JobStatus = Preparing | Pending | Processing | Paused | Completed | Failed | Cancelled

  datatype Job = Job(status: JobStatus, total: nat, invalidSyntax: nat, processed: nat, tally: Tally)

  datatype TaskStatus = Queued | Running | Done | Broken | Dropped

  /** A `job_tasks` row: `size` is end_index - start_index + 1, `emails` the slice of the list it stands for. */
  datatype Task = Task(size: nat, emails: set<Email>, pushed: nat, status: TaskStatus, worker: string)

  datatype Entry = Charge(credits: nat) | FullRefund(credits: nat) | UnknownRefund(credits: nat) | DeleteRefund(credits: nat)

  /** What one chunk is split into before it is queued: cached answers and addresses a worker must probe. */
  datatype Plan = Plan(task: TaskId, misses: seq<Email>, hits: seq<Row>)

  /** An enqueueBulkChunks call in progress. */
  datatype Flight = Flight(queued: nat, refundOnFailure: bool, toSend: seq<Plan>, toWrite: seq<Plan>, written: seq<Email>)

  datatype State = State(
    source: seq<Email>,             // the stored list, canonical and without duplicates
    job: Job,
    deleted: bool,
    tasks: map<TaskId, Task>,
    nextId: TaskId,
    rows: seq<Row>,
    sent: map<TaskId, set<Email>>,  // payloads handed to the worker queue, never forgotten
    flight: Option<Flight>,
    credits: int,                   // the owner's balance
    ledger: seq<Entry>)             // the owner's entries about this job

  // ---------------------------------------------------------------- rows and counters

  datatype Column = Deliverable | Undeliverable | Risky | CatchAllColumn | DisposableColumn | Role

  /** The CASE expression of one counter. */
  predicate InColumn(c: Column, r: Row) {
    match c
    case Deliverable => r.verdict == Valid
    case Undeliverable => r.verdict == Invalid
    case Risky => r.verdict == Unknown
    case CatchAllColumn => r.verdict == CatchAll || r.isCatchAll
    case DisposableColumn => r.verdict == Disposable || r.isDisposable
    case Role => r.isRole
  }

  function CountIf(c: Column, rows: seq<Row>): (n: nat)
    ensures n <= |rows|
  {
    if rows == [] then 0
    else CountIf(c, rows[..|rows| - 1]) + (if InColumn(c, rows[|rows| - 1]) then 1 else 0)
  }

  function Recount(rows: seq<Row>): Tally {
    Tally(CountIf(Deliverable, rows), CountIf(Undeliverable, rows), CountIf(Risky, rows),
          CountIf(CatchAllColumn, rows), CountIf(DisposableColumn, rows), CountIf(Role, rows))
  }

  function Plus(a: Tally, b: Tally): Tally {
    Tally(a.deliverable + b.deliverable, a.undeliverable + b.undeliverable, a.risky + b.risky,
          a.catchAll + b.catchAll, a.disposable + b.disposable, a.role + b.role)
  }

  function Emails(rows: seq<Row>): set<Email> {
    set r | r in rows :: r.email
  }

  /** Rows whose address has no stored row yet; the batch itself is not de-duplicated. */
  function Fresh(results: seq<Row>, known: set<Email>): (f: seq<Row>)
    ensures forall r | r in f :: r in results && r.email !in known
  {
    if results == [] then []
    else
      var before, last := Fresh(results[..|results| - 1], known), results[|results| - 1];
      if last.email in known then before else before + [last]
  }

  function Without(rows: seq<Row>, gone: set<Email>): seq<Row> {
    Fresh(rows, gone)
  }

  // ---------------------------------------------------------------- job and task progress

  /** JobStatusAfterProgressSQL */
  function AfterProgress(job: Job, inc: nat): JobStatus {
    if job.processed + inc >= job.total then Completed
    else if job.status == Paused then Paused
    else Processing
  }

  function Advance(job: Job, added: seq<Row>): Job {
    job.(processed := job.processed + |added|, tally := Plus(job.tally, Recount(added)), status := AfterProgress(job, |added|))
  }

  function Push(t: Task, n: nat): Task {
    t.(pushed := if t.pushed + n <= t.size then t.pushed + n else t.size,
       status := if t.pushed + n >= t.size then Done else Running)
  }

  function MaxInt(a: int, b: int): int { if a > b then a else b }

  /** CheckAndApplyRiskyRefund: pays back unknown results once, unless any refund of this job is on record. */
  function RiskyRefund(st: State): State {
    if !st.deleted && st.job.status == Completed && st.job.tally.risky > 0 && !exists e | e in st.ledger :: !e.Charge? then
      st.(credits := st.credits + st.job.tally.risky, ledger := st.ledger + [UnknownRefund(st.job.tally.risky)])
    else st
  }

  function AllBroken(tasks: map<TaskId, Task>): map<TaskId, Task> {
    map id | id in tasks :: tasks[id].(status := Broken)
  }

  /** RefundBulkJob */
  function Refund(st: State, credits: nat): State {
    var st' := if st.deleted then st else st.(job := st.job.(status := Failed));
    st'.(tasks := AllBroken(st.tasks), credits := st.credits + credits, ledger := st.ledger + [FullRefund(credits)])
  }

  // ---------------------------------------------------------------- accepting a list

  /** The addresses of the stored list that pass the syntax gate, in order. */
  function Queue(source: seq<Email>): (q: seq<Email>)
    ensures |q| <= |source|
  {
    if source == [] then []
    else
      var before, last := Queue(source[..|source| - 1]), source[|source| - 1];
      if IsValidMailboxSyntax(last) then before + [last] else before
  }

  datatype AcceptError = NoEmails | TooManyEmails | TooManyJobs | InsufficientCredits

  datatype Accepted = Rejected(error: AcceptError) | Created(state: State)

  /** SubmitBulkJob and CreateBulkJob for a user with `credits` and `active` other jobs. */
  function Accept(emails: seq<string>, credits: nat, active: nat, maxEmails: nat, maxActive: nat): Accepted {
    var source := Deduped(emails);
    var queued := |Queue(source)|;
    if |source| == 0 then Rejected(NoEmails)
    else if |source| > maxEmails then Rejected(TooManyEmails)
    else if maxActive > 0 && active >= maxActive then Rejected(TooManyJobs)
    else if credits < queued then Rejected(InsufficientCredits)
    else
      var invalid := |source| - queued;
      Created(State(source,
                    Job(if queued == 0 then Completed else Preparing, |source|, invalid, invalid, Tally(0, invalid, 0, 0, 0, 0)),
                    false, map[], 0, [], map[], None, credits - queued, [Charge(queued)]))
  }

  // ---------------------------------------------------------------- queueing a list

  function Elements<T>(s: seq<T>): set<T> {
    set x | x in s
  }

  function Slice(ordered: seq<Email>, c: Chunk): (s: seq<Email>)
    requires c.startIndex <= c.endIndex < |ordered|
    ensures |s| == c.endIndex - c.startIndex + 1
  {
    ordered[c.startIndex..c.endIndex + 1]
  }

  function TaskOf(ordered: seq<Email>, c: Chunk): Task
    requires c.startIndex <= c.endIndex < |ordered|
  {
    Task(c.endIndex - c.startIndex + 1, Elements(Slice(ordered, c)), 0, Queued, "")
  }

  /** One task row per chunk; `k` rows are inserted, with ids from `first` on. */
  function NewTasks(first: TaskId, ordered: seq<Email>, chunks: seq<Chunk>, k: nat): (tasks: map<TaskId, Task>)
    requires Tiles(chunks, |ordered|) && k <= |chunks|
    ensures forall id :: id in tasks <==> first <= id < first + k
    ensures forall id | id in tasks :: tasks[id] == TaskOf(ordered, chunks[id - first])
  {
    if k == 0 then map[] else NewTasks(first, ordered, chunks, k - 1)[first + k - 1 := TaskOf(ordered, chunks[k - 1])]
  }

  /** The answer a chunk address gets without SMTP: a cache row, else a blocking domain policy. */
  function Known(email: Email, cache: map<Email, Row>, policies: map<string, string>): Option<Row> {
    if email in cache then Some(cache[email])
    else match ResolveDomainIntel(email, policies)
         case Some(intel) => Some(Row(email, intel.verdict, false, false, intel.isDisposable, false))
         case None => None
  }

  function Hits(chunk: seq<Email>, cache: map<Email, Row>, policies: map<string, string>): seq<Row> {
    if chunk == [] then []
    else
      var before := Hits(chunk[..|chunk| - 1], cache, policies);
      match Known(chunk[|chunk| - 1], cache, policies)
      case Some(row) => before + [row]
      case None => before
  }

  function Misses(chunk: seq<Email>, cache: map<Email, Row>, policies: map<string, string>): seq<Email> {
    if chunk == [] then []
    else
      var before := Misses(chunk[..|chunk| - 1], cache, policies);
      if Known(chunk[|chunk| - 1], cache, policies).Some? then before else before + [chunk[|chunk| - 1]]
  }

  function Plans(first: TaskId, ordered: seq<Email>, chunks: seq<Chunk>, cache: map<Email, Row>,
                 policies: map<string, string>): (plans: seq<Plan>)
    requires Tiles(chunks, |ordered|)
    ensures |plans| == |chunks|
  {
    seq(|chunks|, k requires 0 <= k < |chunks| =>
      Plan(first + k, Misses(Slice(ordered, chunks[k]), cache, policies), Hits(Slice(ordered, chunks[k]), cache, policies)))
  }

  /** How a list was shuffled and cut, and what is known about it without SMTP. */
  datatype Batch = Batch(ordered: seq<Email>, chunks: seq<Chunk>, cache: map<Email, Row>, policies: map<string, string>)

  /** The batch is a shuffle of `list`, cut into consecutive chunks; cache rows are stored under their own address. */
  ghost predicate BatchOf(b: Batch, list: seq<Email>) {
    && multiset(b.ordered) == multiset(list)
    && Tiles(b.chunks, |b.ordered|)
    && forall e | e in b.cache :: b.cache[e].email == e
  }

  /** Replaces the tasks and starts an enqueue. */
  function Launch(st: State, b: Batch, refundOnFailure: bool): State
    requires Tiles(b.chunks, |b.ordered|)
  {
    var plans := Plans(st.nextId, b.ordered, b.chunks, b.cache, b.policies);
    st.(tasks := NewTasks(st.nextId, b.ordered, b.chunks, |b.chunks|),
        nextId := st.nextId + |b.chunks|,
        flight := Some(Flight(|b.ordered|, refundOnFailure, plans, plans, [])))
  }

  /** PrepareBulkJob up to the enqueue; a job that is not preparing is left alone. */
  function Prepare(st: State, b: Batch): State
    requires Tiles(b.chunks, |b.ordered|)
  {
    if st.deleted || st.job.status != Preparing then st else Launch(st, b, true)
  }

  /** FailPreparingJob, and the refund when the stored list cannot be read. */
  function FailPreparing(st: State): State {
    if st.deleted || st.job.status != Preparing then st
    else Refund(st, MaxInt(st.job.total - st.job.invalidSyntax, 0))
  }

  /** The syntax-valid addresses of the list that have no row (requeueRemainingWork). */
  function Remaining(source: seq<Email>, rows: seq<Row>): seq<Email> {
    Unrowed(source, set r | r in rows :: Normalize(r.email))
  }

  function Unrowed(source: seq<Email>, rowed: set<Email>): seq<Email> {
    if source == [] then []
    else
      var before, email := Unrowed(source[..|source| - 1], rowed), Normalize(source[|source| - 1]);
      if email == "" || email in rowed || !IsValidMailboxSyntax(email) then before else before + [email]
  }

  /** requeueRemainingWork: resume of a paused job, or (with `charge`) retry of a failed one. */
  function Requeue(st: State, charge: bool, b: Batch): State
    requires Tiles(b.chunks, |b.ordered|)
  {
    var remaining := Remaining(st.source, st.rows);
    var counted := |st.rows| + st.job.invalidSyntax;
    var processed := if counted > st.job.total then st.job.total else counted;
    if st.deleted || st.job.status != (if charge then Failed else Paused) || Queue(st.source) == [] then st
    else if remaining == [] then st.(job := st.job.(status := Completed, processed := processed))
    else if charge && st.credits < |remaining| then st
    else
      var paid := if charge then st.(credits := st.credits - |remaining|, ledger := st.ledger + [Charge(|remaining|)]) else st;
      Launch(paid.(job := st.job.(status := Pending, processed := processed)), b, charge)
  }

  // ---------------------------------------------------------------- the enqueue, piece by piece

  /** Phase 2: the misses of the next chunk go to the worker queue. */
  function Send(st: State): State
    requires st.flight.Some? && st.flight.value.toSend != []
  {
    var f := st.flight.value;
    var plan := f.toSend[0];
    var st' := st.(flight := Some(f.(toSend := f.toSend[1..])));
    if plan.misses == [] then st' else st'.(sent := st.sent[plan.task := Elements(plan.misses)])
  }

  /** processCacheHits: one transaction, without a look at the job status or at stored rows. */
  function PersistHits(st: State, plan: Plan): State {
    if plan.hits == [] then st
    else
      var written := st.(rows := st.rows + plan.hits);
      if st.deleted then written
      else
        RiskyRefund(written.(job := Advance(st.job, plan.hits),
                             tasks := if plan.task in st.tasks then st.tasks[plan.task := Push(st.tasks[plan.task], |plan.hits|)]
                                      else st.tasks))
  }

  function RowAddresses(rows: seq<Row>): seq<Email> {
    seq(|rows|, i requires 0 <= i < |rows| => rows[i].email)
  }

  /** Phase 3: the cached answers of the next chunk become rows. */
  function WriteHits(st: State): State
    requires st.flight.Some? && st.flight.value.toWrite != []
  {
    var f := st.flight.value;
    PersistHits(st, f.toWrite[0]).(flight := Some(f.(toWrite := f.toWrite[1..], written := f.written + RowAddresses(f.toWrite[0].hits))))
  }

  /** The enqueue is over; a job that was being prepared becomes pending. */
  function Finish(st: State): State {
    st.(flight := None,
        job := if !st.deleted && st.job.status == Preparing then st.job.(status := Pending) else st.job)
  }

  /** Phase 2 fails: refund the job, or on resume put it back to paused. */
  function FailSend(st: State): State
    requires st.flight.Some?
  {
    var f := st.flight.value;
    var st' := st.(flight := None);
    if f.refundOnFailure then Refund(st', f.queued)
    else if st.deleted then st'
    else st'.(job := st.job.(status := Paused))
  }

  /** rollbackPrepareHitEmails: drop the rows of this attempt, recount, fail and refund. */
  function Rollback(st: State, written: seq<Email>, credits: nat): State {
    var kept := Without(st.rows, Elements(written));
    var tally := Recount(kept);
    var st' := if st.deleted then st.(rows := kept)
               else st.(rows := kept, job := st.job.(processed := |kept| + st.job.invalidSyntax,
                                                     tally := tally.(undeliverable := tally.undeliverable + st.job.invalidSyntax),
                                                     status := Failed));
    Refund(st'.(tasks := AllBroken(st.tasks)), credits)
  }

  /** Phase 3 fails on resume: the rows of this attempt go, the counters stay, the job is paused. */
  function DropHitsAndPause(st: State, written: seq<Email>): State {
    st.(rows := Without(st.rows, Elements(written)),
        job := if st.deleted then st.job else st.job.(status := Paused))
  }

  function FailWrite(st: State): State
    requires st.flight.Some?
  {
    var f := st.flight.value;
    var st' := st.(flight := None);
    if f.refundOnFailure then Rollback(st', f.written, f.queued) else DropHitsAndPause(st', f.written)
  }

  // ---------------------------------------------------------------- workers

  predicate Terminal(s: JobStatus) {
    s == Failed || s == Cancelled || s == Completed
  }

  /** A queued task, or one another server holds, is claimed by the reporting server. */
  function Claim(t: Task, server: string): Task {
    if t.status == Queued || (t.worker != "" && t.worker != server) then t.(status := Running, worker := server) else t
  }

  /** ReportTaskResults, on results already cleaned into rows. */
  function Report(st: State, id: TaskId, server: string, results: seq<Row>): State {
    if st.deleted || Terminal(st.job.status) then st
    else if id !in st.tasks || st.tasks[id].status !in {Queued, Running} then st
    else
      var added := Fresh(results, Emails(st.rows));
      var claimed := Claim(st.tasks[id], server);
      if added == [] then st.(tasks := st.tasks[id := claimed])
      else
        RiskyRefund(st.(rows := st.rows + added, job := Advance(st.job, added),
                        tasks := st.tasks[id := Push(claimed, |added|).(worker := server)]))
  }

  /** ReclaimProcessingTasks / ReclaimStaleWorkerTasks: running tasks of these servers go back to the queue. */
  function Reclaimed(tasks: map<TaskId, Task>, servers: set<string>): map<TaskId, Task> {
    map id | id in tasks ::
      if tasks[id].status == Running && tasks[id].worker in servers then tasks[id].(status := Queued, worker := "") else tasks[id]
  }

  /** With `watchdog`, a job that lost a running task goes back to pending (runStaleWorkerCycle). */
  function Reclaim(st: State, servers: set<string>, watchdog: bool): State {
    var affected := exists id | id in st.tasks :: st.tasks[id].status == Running && st.tasks[id].worker in servers;
    st.(tasks := Reclaimed(st.tasks, servers),
        job := if watchdog && affected && !st.deleted && st.job.status == Processing then st.job.(status := Pending) else st.job)
  }

  // ---------------------------------------------------------------- user commands

  function Pause(st: State): State {
    if !st.deleted && (st.job.status == Pending || st.job.status == Processing) then st.(job := st.job.(status := Paused)) else st
  }

  /** The clamped refund of a paused job that is deleted. */
  function DeleteRefundAmount(st: State): nat {
    var charged := MaxInt(st.job.total - st.job.invalidSyntax, 0);
    var keep := MaxInt(|st.rows| - CountIf(Risky, st.rows), 0);
    var refunded := MaxInt(charged - keep, 0);
    if refunded > charged then charged else refunded
  }

  function Delete(st: State): State {
    if st.deleted then st
    else match st.job.status
      case Completed => st.(deleted := true, rows := [], tasks := map[])
      case Failed => st.(deleted := true, rows := [], tasks := map[])
      case Paused =>
        var refunded := DeleteRefundAmount(st);
        var paid := if refunded > 0 then st.(credits := st.credits + refunded, ledger := st.ledger + [DeleteRefund(refunded)]) else st;
        paid.(job := st.job.(status := Cancelled), deleted := true, rows := [], tasks := map[])
      case _ => st
  }

  // ---------------------------------------------------------------- reconciliation

  function CountTasks(tasks: map<TaskId, Task>, s: TaskStatus): nat {
    |set id | id in tasks && tasks[id].status == s|
  }

  /** Done tasks with too few pushes go back to the queue. */
  function Requeued(tasks: map<TaskId, Task>): map<TaskId, Task> {
    map id | id in tasks ::
      if tasks[id].status == Done && tasks[id].pushed < tasks[id].size then tasks[id].(status := Queued, worker := "") else tasks[id]
  }

  /** ReconcileJobStatus: derives the job status from the tasks and refunds unknown results, with no ledger search. */
  function Reconcile(st: State): State {
    if CountTasks(st.tasks, Queued) + CountTasks(st.tasks, Running) > 0 || st.deleted then st
    else
      var failed := CountTasks(st.tasks, Broken);
      if failed == 0 && st.job.total > 0 && st.job.processed < st.job.total && Requeued(st.tasks) != st.tasks then
        st.(tasks := Requeued(st.tasks),
            job := if st.job.status == Paused || Terminal(st.job.status) then st.job else st.job.(status := Processing))
      else if st.job.status == Completed then st
      else if failed > 0 then st.(job := st.job.(status := Failed))
      else
        var done := st.(job := st.job.(status := Completed));
        if st.job.tally.risky > 0 then
          done.(credits := st.credits + st.job.tally.risky, ledger := st.ledger + [UnknownRefund(st.job.tally.risky)])
        else done
  }

  // ---------------------------------------------------------------- runs

  datatype Event =
    | SubmitFails
    | PrepareEv(batch: Batch)
    | PrepareFails
    | Crash
    | SendEv
    | SendFails
    | WriteEv
    | WriteFails
    | FinishEv
    | ReportEv(task: TaskId, server: string, results: seq<Row>)
    | ReclaimEv(servers: set<string>, watchdog: bool)
    | PauseEv
    | ResumeEv(batch: Batch)
    | RetryEv(batch: Batch)
    | DeleteEv
    | RiskyCheck
    | ReconcileEv
    | OtherActivity(balance: nat)

  predicate DistinctEmails(rows: seq<Row>) {
    forall i, j | 0 <= i < j < |rows| :: rows[i].email != rows[j].email
  }

  /** What the environment guarantees before a step: user commands and prepare attempts on one job are serialised
      with its enqueue, and a worker reports pairwise distinct addresses of a payload it was sent. */
  ghost predicate Legal(st: State, ev: Event) {
    match ev
    case SubmitFails => st.flight == None && !st.deleted && st.rows == [] && st.tasks == map[] && |st.ledger| == 1
    case PrepareEv(b) => st.flight == None && BatchOf(b, Queue(st.source))
    case PrepareFails => st.flight == None
    case Crash => st.flight.Some? && !st.deleted
    case SendEv => st.flight.Some? && st.flight.value.toSend != []
    case SendFails => st.flight.Some? && st.flight.value.toSend != [] && st.flight.value.toSend[0].misses != []
    case WriteEv => st.flight.Some? && st.flight.value.toSend == [] && st.flight.value.toWrite != []
    case WriteFails =>
      && st.flight.Some? && st.flight.value.toSend == [] && st.flight.value.toWrite != [] && st.flight.value.toWrite[0].hits != []
      && (!st.flight.value.refundOnFailure ==> st.flight.value.written == [])
    case FinishEv => st.flight.Some? && st.flight.value.toSend == [] && st.flight.value.toWrite == []
    case ReportEv(id, server, results) =>
      server != "" && results != [] && id in st.sent && Emails(results) <= st.sent[id] && DistinctEmails(results)
    case ReclaimEv(_, _) => true
    case PauseEv => true
    case ResumeEv(b) => st.flight == None && BatchOf(b, Remaining(st.source, st.rows))
    case RetryEv(b) => st.flight == None && BatchOf(b, Remaining(st.source, st.rows))
    case DeleteEv => st.flight == None
    case RiskyCheck => true
    case ReconcileEv => st.deleted || st.job.status == Completed || st.tasks != map[]
    case OtherActivity(_) => true
  }

  function Step(st: State, ev: Event): State
    requires Legal(st, ev)
  {
    match ev
    case SubmitFails => Refund(st, |Queue(st.source)|)
    case PrepareEv(b) => Prepare(st, b)
    case PrepareFails => FailPreparing(st)
    case Crash => st.(flight := None)
    case SendEv => Send(st)
    case SendFails => FailSend(st)
    case WriteEv => WriteHits(st)
    case WriteFails => FailWrite(st)
    case FinishEv => Finish(st)
    case ReportEv(id, server, results) => Report(st, id, server, results)
    case ReclaimEv(servers, watchdog) => Reclaim(st, servers, watchdog)
    case PauseEv => Pause(st)
    case ResumeEv(b) => Requeue(st, false, b)
    case RetryEv(b) => Requeue(st, true, b)
    case DeleteEv => Delete(st)
    case RiskyCheck => RiskyRefund(st)
    case ReconcileEv => Reconcile(st)
    case OtherActivity(balance) => st.(credits := balance)
  }

  ghost predicate LegalRun(st: State, evs: seq<Event>)
    decreases |evs|
  {
    evs == [] || (Legal(st, evs[0]) && LegalRun(Step(st, evs[0]), evs[1..]))
  }

  ghost function Run(st: State, evs: seq<Event>): State
    requires LegalRun(st, evs)
    decreases |evs|
  {
    if evs == [] then st else Run(Step(st, evs[0]), evs[1..])
  }
}
