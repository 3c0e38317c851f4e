/** What is stored for an address: from a batch report, from the cache, or from a blocking policy. */
module JobAnswers {
  import opened Text
  import opened Mailbox
  import opened Verdicts
  import opened BulkQueue
  import opened DomainIntel
  import opened JobState
  import opened JobRows
  import opened Payloads

  // ---------------------------------------------------------------- chunks of an enqueue

  /** Nothing but a worker's probe can answer the address. */
  predicate MustBeProbed(e: Email, cache: map<Email, Row>, table: Table) {
    e !in cache && !Blocks(TableFlags(table, DomainOf(e)))
  }

  /** The answer is that of the cache, else that of the blocking policy of its domain. */
  predicate AnsweredAs(e: Email, cache: map<Email, Row>, table: Table, r: Row) {
    if e in cache then r == cache[e]
    else
      var flags := TableFlags(table, DomainOf(e));
      && Blocks(flags) && r.email == e
      && (if flags.isDisposable then r.verdict == Disposable && r.isDisposable else r.verdict == Invalid && !r.isDisposable)
      && !r.isDeliverable && !r.isCatchAll && !r.isRole
  }

  /** The plan sends exactly the addresses that must be probed, and answers every other one, each in the order of the chunk. */
  ghost predicate PlanAnswers(p: Plan, chunk: seq<Email>, cache: map<Email, Row>, table: Table)
    decreases |chunk|
  {
    if chunk == [] then p.misses == [] && p.hits == []
    else
      var front, e := chunk[..|chunk| - 1], chunk[|chunk| - 1];
      if MustBeProbed(e, cache, table) then
        p.misses != [] && p.misses[|p.misses| - 1] == e && PlanAnswers(p.(misses := p.misses[..|p.misses| - 1]), front, cache, table)
      else
        p.hits != [] && AnsweredAs(e, cache, table, p.hits[|p.hits| - 1])
        && PlanAnswers(p.(hits := p.hits[..|p.hits| - 1]), front, cache, table)
  }

  /** The map decides the address as the table does. */
  ghost predicate DecidedAsTable(e: Email, policies: map<string, string>, table: Table) {
    Normalize(e) == e && IsValidMailboxSyntax(e) && ResolveDomainIntel(e, policies) == ResolveDomainIntel(e, Active(table))
  }

  lemma KnownMeans(e: Email, cache: map<Email, Row>, policies: map<string, string>, table: Table)
    requires Storable(table) && DecidedAsTable(e, policies, table)
    ensures Known(e, cache, policies) == None <==> MustBeProbed(e, cache, table)
    ensures forall r | Known(e, cache, policies) == Some(r) :: AnsweredAs(e, cache, table, r)
  {
    hide Normalize, IsValidMailboxSyntax, ResolveDomainIntel, TableFlags, DomainOf, Storable, Active;
    ValidSyntaxDomain(e);
    ReadersAgree(e, table);
  }

  lemma {:induction false} ChunkAnswers(id: TaskId, chunk: seq<Email>, cache: map<Email, Row>, policies: map<string, string>, table: Table)
    requires Storable(table) && forall e | e in chunk :: DecidedAsTable(e, policies, table)
    ensures PlanAnswers(Plan(id, Misses(chunk, cache, policies), Hits(chunk, cache, policies)), chunk, cache, table)
  {
    hide DecidedAsTable, Known, MustBeProbed, AnsweredAs, Storable;
    if chunk != [] {
      var front, e := chunk[..|chunk| - 1], chunk[|chunk| - 1];
      ChunkAnswers(id, front, cache, policies, table);
      KnownMeans(e, cache, policies, table);
    }
  }

  /** Every chunk has its task and its plan, with consecutive ids. */
  ghost predicate PlansAnswer(first: TaskId, plans: seq<Plan>, ordered: seq<Email>, chunks: seq<Chunk>, cache: map<Email, Row>, table: Table)
    requires Tiles(chunks, |ordered|)
  {
    && |plans| == |chunks|
    && forall k | 0 <= k < |chunks| ::
         plans[k].task == first + k && PlanAnswers(plans[k], ordered[chunks[k].startIndex..chunks[k].endIndex + 1], cache, table)
  }

  lemma EnqueueAnswers(first: TaskId, ordered: seq<Email>, chunks: seq<Chunk>, cache: map<Email, Row>,
                       policies: map<string, string>, table: Table)
    requires Tiles(chunks, |ordered|) && Storable(table) && forall e | e in ordered :: DecidedAsTable(e, policies, table)
    ensures PlansAnswer(first, Plans(first, ordered, chunks, cache, policies), ordered, chunks, cache, table)
  {
    hide DecidedAsTable, Storable, PlanAnswers, Hits, Misses;
    forall k | 0 <= k < |chunks|
      ensures PlanAnswers(Plans(first, ordered, chunks, cache, policies)[k], ordered[chunks[k].startIndex..chunks[k].endIndex + 1], cache, table)
    {
      ChunkAnswers(first + k, Slice(ordered, chunks[k]), cache, policies, table);
    }
  }

  /** What a chunk's plan comes to for one address. */
  lemma {:induction false} PlanOfAddress(p: Plan, chunk: seq<Email>, cache: map<Email, Row>, table: Table, e: Email)
    requires PlanAnswers(p, chunk, cache, table) && e in chunk
    ensures MustBeProbed(e, cache, table) ==> e in p.misses
    ensures !MustBeProbed(e, cache, table) ==> exists r | r in p.hits :: AnsweredAs(e, cache, table, r)
    decreases |chunk|
  {
    hide MustBeProbed, AnsweredAs;
    var front, last := chunk[..|chunk| - 1], chunk[|chunk| - 1];
    if e != last {
      assert e in front;
      if MustBeProbed(last, cache, table) {
        PlanOfAddress(p.(misses := p.misses[..|p.misses| - 1]), front, cache, table, e);
      } else {
        PlanOfAddress(p.(hits := p.hits[..|p.hits| - 1]), front, cache, table, e);
      }
    }
  }

  /** If the list is canonical, every valid address is decided as a walk over the whole table would decide it. */
  ghost predicate DecidesAsTable(emails: seq<Email>, policies: map<string, string>, table: Table) {
    (forall e | e in emails :: Normalize(e) == e) ==>
      forall k | 0 <= k < |emails| && IsValidMailboxSyntax(emails[k]) ::
        ResolveDomainIntel(emails[k], policies) == ResolveDomainIntel(emails[k], Active(table))
  }

  /** One queued task per chunk, with consecutive ids. */
  ghost predicate ChunkTasks(tasks: map<TaskId, Task>, first: TaskId, b: Batch)
    requires Tiles(b.chunks, |b.ordered|)
  {
    && (forall id :: id in tasks <==> first <= id < first + |b.chunks|)
    && (forall k: nat | k < |b.chunks| :: ChunkTask(tasks, first, b, k))
  }

  ghost predicate ChunkTask(tasks: map<TaskId, Task>, first: TaskId, b: Batch, k: nat)
    requires Tiles(b.chunks, |b.ordered|) && k < |b.chunks|
  {
    first + k in tasks && IsChunk(tasks[first + k], b.ordered[b.chunks[k].startIndex..b.chunks[k].endIndex + 1])
  }

  predicate IsChunk(t: Task, slice: seq<Email>) {
    t == Task(|slice|, set e | e in slice, 0, Queued, "")
  }

  /** An enqueue of the shuffled list: a task and a plan for each chunk, nothing sent or written yet. */
  ghost predicate Enqueues(st: State, first: TaskId, b: Batch, table: Table) {
    && Tiles(b.chunks, |b.ordered|)
    && st.nextId == first + |b.chunks| && ChunkTasks(st.tasks, first, b)
    && st.flight.Some? && st.flight.value.queued == |b.ordered| && st.flight.value.written == []
    && st.flight.value.toSend == st.flight.value.toWrite
    && (Storable(table) ==> PlansAnswer(first, st.flight.value.toSend, b.ordered, b.chunks, b.cache, table))
  }

  lemma ChunkBounds(b: Batch, k: nat)
    requires Tiles(b.chunks, |b.ordered|) && k < |b.chunks|
    ensures b.chunks[k].startIndex <= b.chunks[k].endIndex < |b.ordered|
  {
  }

  lemma LaunchedTask(tasks: map<TaskId, Task>, first: TaskId, b: Batch, k: nat)
    requires Tiles(b.chunks, |b.ordered|) && k < |b.chunks| && tasks == NewTasks(first, b.ordered, b.chunks, |b.chunks|)
    ensures ChunkTask(tasks, first, b, k)
  {
    hide Tiles, IsChunk, TaskOf, NewTasks;
    ChunkBounds(b, k);
    assert first + k in tasks;
    SliceTask(b.ordered, b.chunks[k]);
  }

  lemma LaunchedTasks(st: State, b: Batch, refund: bool)
    requires Tiles(b.chunks, |b.ordered|)
    ensures ChunkTasks(Launch(st, b, refund).tasks, st.nextId, b)
  {
    hide Plans, NewTasks, Tiles, ChunkTask;
    var tasks := NewTasks(st.nextId, b.ordered, b.chunks, |b.chunks|);
    forall k: nat | k < |b.chunks| { LaunchedTask(tasks, st.nextId, b, k); }
  }

  lemma SliceTask(ordered: seq<Email>, c: Chunk)
    requires c.startIndex <= c.endIndex < |ordered|
    ensures IsChunk(TaskOf(ordered, c), ordered[c.startIndex..c.endIndex + 1])
  {
  }

  lemma LaunchMeans(st: State, b: Batch, refund: bool, list: seq<Email>, table: Table)
    requires BatchOf(b, list) && DecidesAsTable(b.ordered, b.policies, table)
    requires forall e | e in list :: Normalize(e) == e && IsValidMailboxSyntax(e)
    ensures var st' := Launch(st, b, refund);
            && Enqueues(st', st.nextId, b, table) && st'.flight.value.refundOnFailure == refund
            && st' == st.(tasks := st'.tasks, nextId := st'.nextId, flight := st'.flight)
  {
    hide Normalize, IsValidMailboxSyntax, ResolveDomainIntel, Plans, PlansAnswer, Storable, Tiles, NewTasks, ChunkTasks;
    LaunchedTasks(st, b, refund);
    forall e | e in b.ordered ensures e in list { assert e in multiset(b.ordered); }
    if Storable(table) {
      forall e | e in b.ordered ensures DecidedAsTable(e, b.policies, table) {
        var k :| 0 <= k < |b.ordered| && b.ordered[k] == e;
      }
      EnqueueAnswers(st.nextId, b.ordered, b.chunks, b.cache, b.policies, table);
    }
  }

  // ---------------------------------------------------------------- batch reports

  /** The rows a report adds: for each result about an address without a row, the row it stands for, in their order. */
  ghost predicate Reports(results: seq<Payload>, table: Table, known: set<Email>, added: seq<Row>)
    decreases |results|
  {
    if results == [] then added == []
    else
      var front, p := results[..|results| - 1], results[|results| - 1];
      if added != [] && StandsFor(p, table, added[|added| - 1]) && added[|added| - 1].email !in known then
        Reports(front, table, known, added[..|added| - 1])
      else (forall r | StandsFor(p, table, r) :: r.email in known) && Reports(front, table, known, added)
  }

  lemma FreshSnoc(results: seq<Row>, r: Row, known: set<Email>)
    ensures Fresh(results + [r], known) == Fresh(results, known) + (if r.email in known then [] else [r])
  {
    assert (results + [r])[..|results|] == results;
  }

  lemma ReportsOne(results: seq<Payload>, table: Table, known: set<Email>, added: seq<Row>, r: Row)
    requires results != [] && StandsFor(results[|results| - 1], table, r) && r.email !in known
    requires Reports(results[..|results| - 1], table, known, added)
    ensures Reports(results, table, known, added + [r])
  {
    hide StandsFor;
    assert (added + [r])[..|added|] == added;
  }

  /** A result about a known or blank address adds nothing. */
  lemma ReportsNone(results: seq<Payload>, table: Table, known: set<Email>, added: seq<Row>)
    requires results != [] && forall r | StandsFor(results[|results| - 1], table, r) :: r.email in known
    requires Reports(results[..|results| - 1], table, known, added)
    ensures Reports(results, table, known, added)
  {
    hide StandsFor;
  }

  lemma RowsSnoc(results: seq<Payload>, table: Table)
    requires results != []
    ensures var before, last := Rows(results[..|results| - 1], table), RowFor(results[|results| - 1], table);
            Rows(results, table) == match last case Some(row) => before + [row] case None => before
  {
    hide RowFor;
  }

  lemma {:induction false} ReportedRows(results: seq<Payload>, table: Table, known: set<Email>)
    ensures Reports(results, table, known, Fresh(Rows(results, table), known))
  {
    hide Reports, StandsFor, RowFor, Rows, Fresh;
    if results == [] {
      NothingReported(table, known);
    } else {
      var front, p := results[..|results| - 1], results[|results| - 1];
      ReportedRows(front, table, known);
      RowsSnoc(results, table);
      match RowFor(p, table)
      case None =>
        forall r ensures !StandsFor(p, table, r) { RowMeans(p, table, r); }
        ReportsNone(results, table, known, Fresh(Rows(front, table), known));
      case Some(row) =>
        FreshSnoc(Rows(front, table), row, known);
        RowMeans(p, table, row);
        if row.email in known {
          forall r | StandsFor(p, table, r) ensures r.email in known { RowMeans(p, table, r); }
          ReportsNone(results, table, known, Fresh(Rows(front, table), known));
          assert Fresh(Rows(front, table), known) + [] == Fresh(Rows(front, table), known);
        } else {
          ReportsOne(results, table, known, Fresh(Rows(front, table), known), row);
        }
    }
  }

  lemma NothingReported(table: Table, known: set<Email>)
    ensures Reports([], table, known, Fresh(Rows([], table), known))
  {
  }
}
