/** Facts about result rows, counters, ledgers and lists that the protocol proofs share. */
module JobRows {
  import opened Text
  import opened Mailbox
  import opened Verdicts
  import opened BulkQueue
  import opened DomainIntel
  import opened JobState

  // ---------------------------------------------------------------- rows

  lemma EmailsConcat(a: seq<Row>, b: seq<Row>)
    ensures Emails(a + b) == Emails(a) + Emails(b)
  {
    forall e ensures e in Emails(a + b) <==> e in Emails(a) + Emails(b) {
      if e in Emails(a) {
        var r :| r in a && r.email == e;
        assert r in a + b;
      }
      if e in Emails(b) {
        var r :| r in b && r.email == e;
        assert r in a + b;
      }
    }
  }

  lemma DistinctConcat(a: seq<Row>, b: seq<Row>)
    requires DistinctEmails(a) && DistinctEmails(b) && Emails(a) !! Emails(b)
    ensures DistinctEmails(a + b)
  {
    forall i, j | 0 <= i < j < |a + b| ensures (a + b)[i].email != (a + b)[j].email {
      if i < |a| <= j {
        assert a[i].email in Emails(a) && b[j - |a|].email in Emails(b);
      }
    }
  }

  lemma LastIsNew(rows: seq<Row>)
    requires DistinctEmails(rows) && rows != []
    ensures rows[|rows| - 1].email !in Emails(rows[..|rows| - 1])
  {
  }

  lemma {:induction false} RowCount(rows: seq<Row>)
    requires DistinctEmails(rows)
    ensures |Emails(rows)| == |rows|
  {
    hide Emails;
    OneEmail();
    if rows != [] {
      var front, last := rows[..|rows| - 1], rows[|rows| - 1];
      RowCount(front);
      EmailsConcat(front, [last]);
      assert front + [last] == rows;
      LastIsNew(rows);
    }
  }

  lemma OneEmail()
    ensures Emails([]) == {} && forall r: Row :: Emails([r]) == {r.email}
  {
  }

  lemma {:induction false} CountConcat(c: Column, a: seq<Row>, b: seq<Row>)
    ensures CountIf(c, a + b) == CountIf(c, a) + CountIf(c, b)
  {
    if b == [] {
      assert a + b == a;
    } else {
      CountConcat(c, a, b[..|b| - 1]);
      assert (a + b)[..|a + b| - 1] == a + b[..|b| - 1];
    }
  }

  /** Counting in increments agrees with counting again. */
  lemma RecountConcat(a: seq<Row>, b: seq<Row>)
    ensures Recount(a + b) == Plus(Recount(a), Recount(b))
  {
    hide CountIf;
    CountConcat(Deliverable, a, b);
    CountConcat(Undeliverable, a, b);
    CountConcat(Risky, a, b);
    CountConcat(CatchAllColumn, a, b);
    CountConcat(DisposableColumn, a, b);
    CountConcat(Role, a, b);
  }

  lemma DistinctFront(rows: seq<Row>)
    requires DistinctEmails(rows) && rows != []
    ensures DistinctEmails(rows[..|rows| - 1]) && rows[|rows| - 1].email !in Emails(rows[..|rows| - 1])
  {
    LastIsNew(rows);
  }

  /** A column counts the positions whose row belongs to it. */
  lemma {:induction false} CountIs(c: Column, rows: seq<Row>)
    ensures CountIf(c, rows) == |set i | 0 <= i < |rows| && InColumn(c, rows[i])|
  {
    hide InColumn;
    var all := set i | 0 <= i < |rows| && InColumn(c, rows[i]);
    if rows == [] {
      assert all == {};
    } else {
      var front, last := rows[..|rows| - 1], |rows| - 1;
      CountIs(c, front);
      var before := set i | 0 <= i < |front| && InColumn(c, front[i]);
      forall i ensures i in all <==> i in before || (i == last && InColumn(c, rows[last])) {
        if 0 <= i < last { assert rows[i] == front[i]; }
      }
      OnePosition(before, all, last, InColumn(c, rows[last]));
    }
  }

  /** What each counter counts. */
  lemma RecountMeans(rows: seq<Row>)
    ensures Recount(rows).deliverable == |set i | 0 <= i < |rows| && rows[i].verdict == Valid|
    ensures Recount(rows).undeliverable == |set i | 0 <= i < |rows| && rows[i].verdict == Invalid|
    ensures Recount(rows).risky == |set i | 0 <= i < |rows| && rows[i].verdict == Unknown|
    ensures Recount(rows).catchAll == |set i | 0 <= i < |rows| && (rows[i].verdict == CatchAll || rows[i].isCatchAll)|
    ensures Recount(rows).disposable == |set i | 0 <= i < |rows| && (rows[i].verdict == Disposable || rows[i].isDisposable)|
    ensures Recount(rows).role == |set i | 0 <= i < |rows| && rows[i].isRole|
  {
    hide CountIf;
    CountIs(Deliverable, rows);
    CountIs(Undeliverable, rows);
    CountIs(Risky, rows);
    CountIs(CatchAllColumn, rows);
    CountIs(DisposableColumn, rows);
    CountIs(Role, rows);
    assert (set i | 0 <= i < |rows| && rows[i].verdict == Valid) == set i | 0 <= i < |rows| && InColumn(Deliverable, rows[i]);
    assert (set i | 0 <= i < |rows| && rows[i].verdict == Invalid) == set i | 0 <= i < |rows| && InColumn(Undeliverable, rows[i]);
    assert (set i | 0 <= i < |rows| && rows[i].verdict == Unknown) == set i | 0 <= i < |rows| && InColumn(Risky, rows[i]);
    assert (set i | 0 <= i < |rows| && (rows[i].verdict == CatchAll || rows[i].isCatchAll))
        == set i | 0 <= i < |rows| && InColumn(CatchAllColumn, rows[i]);
    assert (set i | 0 <= i < |rows| && (rows[i].verdict == Disposable || rows[i].isDisposable))
        == set i | 0 <= i < |rows| && InColumn(DisposableColumn, rows[i]);
    assert (set i | 0 <= i < |rows| && rows[i].isRole) == set i | 0 <= i < |rows| && InColumn(Role, rows[i]);
  }

  lemma {:induction false} FreshFacts(results: seq<Row>, known: set<Email>)
    ensures Emails(Fresh(results, known)) == Emails(results) - known
    ensures DistinctEmails(results) ==> DistinctEmails(Fresh(results, known))
  {
    hide Emails, DistinctEmails;
    OneEmail();
    if results == [] {
      assert DistinctEmails([]) by { NoneTwice(); }
    } else {
      var front, last := results[..|results| - 1], results[|results| - 1];
      FreshFacts(front, known);
      assert results == front + [last];
      EmailsConcat(front, [last]);
      EmailsConcat(Fresh(front, known), [last]);
      if DistinctEmails(results) {
        DistinctFront(results);
        assert DistinctEmails([last]) by { OnceOnly(last); }
        DistinctConcat(Fresh(front, known), [last]);
      }
    }
  }

  lemma NoneTwice()
    ensures DistinctEmails([])
  {
  }

  lemma OnceOnly(r: Row)
    ensures DistinctEmails([r])
  {
  }

  // ---------------------------------------------------------------- lists

  lemma {:induction false} NoDupCount<T(!new)>(s: seq<T>)
    requires NoDup(s)
    ensures |Elements(s)| == |s|
  {
    if s != [] {
      NoDupCount(s[..|s| - 1]);
      assert Elements(s) == Elements(s[..|s| - 1]) + {s[|s| - 1]};
      assert s[|s| - 1] !in Elements(s[..|s| - 1]);
    }
  }

  lemma {:induction false} QueueFacts(source: seq<Email>)
    ensures forall e :: e in Queue(source) <==> e in source && IsValidMailboxSyntax(e)
    ensures NoDup(source) ==> NoDup(Queue(source))
  {
    hide IsValidMailboxSyntax;
    if source != [] {
      var front, last := source[..|source| - 1], source[|source| - 1];
      QueueFacts(front);
      assert source == front + [last];
    }
  }

  /** For a canonical list, requeueing keeps exactly the queued addresses without a row, in order. */
  lemma {:induction false} UnrowedFacts(source: seq<Email>, rowed: set<Email>)
    requires forall e | e in source :: e != "" && Normalize(e) == e
    ensures forall e :: e in Unrowed(source, rowed) <==> e in Queue(source) && e !in rowed
    ensures NoDup(source) ==> NoDup(Unrowed(source, rowed))
  {
    hide IsValidMailboxSyntax, Normalize;
    if source != [] {
      var front, last := source[..|source| - 1], source[|source| - 1];
      assert source == front + [last];
      assert forall e | e in front :: e in source;
      UnrowedFacts(front, rowed);
      if NoDup(source) {
        assert last !in front;
        QueueFacts(front);
      }
    }
  }

  lemma RemainingFacts(source: seq<Email>, rows: seq<Row>)
    requires forall e | e in source :: e != "" && Normalize(e) == e
    requires NoDup(source) && Emails(rows) <= Elements(Queue(source))
    ensures Elements(Remaining(source, rows)) == Elements(Queue(source)) - Emails(rows)
    ensures NoDup(Remaining(source, rows))
  {
    hide Normalize, Unrowed, Queue;
    var rowed := set r | r in rows :: Normalize(r.email);
    forall r | r in rows ensures Normalize(r.email) == r.email {
      assert r.email in Emails(rows);
      QueueFacts(source);
    }
    assert rowed == Emails(rows);
    UnrowedFacts(source, rowed);
  }

  // ---------------------------------------------------------------- ledger

  datatype Bill = Bill(net: int, charges: nat, fullRefunds: nat, unknownRefunds: nat, deleteRefunds: nat, lastCharge: nat)

  /** Credits taken on balance, how often each kind of entry occurs, and the size of the last charge. */
  function Summary(ledger: seq<Entry>): Bill {
    if ledger == [] then Bill(0, 0, 0, 0, 0, 0)
    else
      var b := Summary(ledger[..|ledger| - 1]);
      match ledger[|ledger| - 1]
      case Charge(n) => b.(net := b.net + n, charges := b.charges + 1, lastCharge := n)
      case FullRefund(n) => b.(net := b.net - n, fullRefunds := b.fullRefunds + 1)
      case UnknownRefund(n) => b.(net := b.net - n, unknownRefunds := b.unknownRefunds + 1)
      case DeleteRefund(n) => b.(net := b.net - n, deleteRefunds := b.deleteRefunds + 1)
  }

  lemma SummarySnoc(ledger: seq<Entry>, e: Entry)
    ensures Summary(ledger + [e]) ==
            match e
            case Charge(n) => Summary(ledger).(net := Summary(ledger).net + n, charges := Summary(ledger).charges + 1, lastCharge := n)
            case FullRefund(n) => Summary(ledger).(net := Summary(ledger).net - n, fullRefunds := Summary(ledger).fullRefunds + 1)
            case UnknownRefund(n) => Summary(ledger).(net := Summary(ledger).net - n, unknownRefunds := Summary(ledger).unknownRefunds + 1)
            case DeleteRefund(n) => Summary(ledger).(net := Summary(ledger).net - n, deleteRefunds := Summary(ledger).deleteRefunds + 1)
  {
    assert (ledger + [e])[..|ledger|] == ledger;
  }

  lemma {:induction false} RefundsOnRecord(ledger: seq<Entry>)
    ensures (exists e | e in ledger :: !e.Charge?)
            <==> Summary(ledger).fullRefunds + Summary(ledger).unknownRefunds + Summary(ledger).deleteRefunds > 0
  {
    if ledger != [] {
      var front, last := ledger[..|ledger| - 1], ledger[|ledger| - 1];
      RefundsOnRecord(front);
      assert ledger == front + [last];
      if !last.Charge? {
        assert last in ledger;
      } else if exists e | e in ledger :: !e.Charge? {
        var e :| e in ledger && !e.Charge?;
        assert e in front;
      }
    }
  }

  // ---------------------------------------------------------------- requeueing, case by case

  lemma RequeueCases(st: State, charge: bool, b: Batch)
    requires Tiles(b.chunks, |b.ordered|)
    ensures var remaining := Remaining(st.source, st.rows);
            var counted := |st.rows| + st.job.invalidSyntax;
            var processed := if counted > st.job.total then st.job.total else counted;
            var idle := st.deleted || st.job.status != (if charge then Failed else Paused) || Queue(st.source) == [];
            && (idle ==> Requeue(st, charge, b) == st)
            && (!idle && remaining == [] ==> Requeue(st, charge, b) == st.(job := st.job.(status := Completed, processed := processed)))
            && (!idle && remaining != [] && charge && st.credits < |remaining| ==> Requeue(st, charge, b) == st)
            && (!idle && remaining != [] && !(charge && st.credits < |remaining|) ==>
                  Requeue(st, charge, b) ==
                  Launch(st.(job := st.job.(status := Pending, processed := processed),
                             credits := if charge then st.credits - |remaining| else st.credits,
                             ledger := if charge then st.ledger + [Charge(|remaining|)] else st.ledger), b, charge))
  {
    hide Queue, Remaining, Launch;
  }

  // ---------------------------------------------------------------- chunks of a batch

  lemma {:induction false} HitsAndMisses(chunk: seq<Email>, cache: map<Email, Row>, policies: map<string, string>)
    requires NoDup(chunk) && forall e | e in cache :: cache[e].email == e
    ensures Emails(Hits(chunk, cache, policies)) + Elements(Misses(chunk, cache, policies)) == Elements(chunk)
    ensures Emails(Hits(chunk, cache, policies)) !! Elements(Misses(chunk, cache, policies))
    ensures DistinctEmails(Hits(chunk, cache, policies))
    ensures |Hits(chunk, cache, policies)| + |Misses(chunk, cache, policies)| == |chunk|
  {
    hide ResolveDomainIntel;
    if chunk != [] {
      var front, last := chunk[..|chunk| - 1], chunk[|chunk| - 1];
      assert chunk == front + [last];
      HitsAndMisses(front, cache, policies);
      assert Elements(chunk) == Elements(front) + {last};
      assert last !in Elements(front);
      var known := Known(last, cache, policies);
      if known.Some? {
        assert known.value.email == last;
        EmailsConcat(Hits(front, cache, policies), [known.value]);
        assert Emails([known.value]) == {last};
        DistinctConcat(Hits(front, cache, policies), [known.value]);
      } else {
        assert Elements(Misses(chunk, cache, policies)) == Elements(Misses(front, cache, policies)) + {last};
      }
    }
  }

  lemma SliceNoDup(ordered: seq<Email>, c: Chunk)
    requires c.startIndex <= c.endIndex < |ordered| && NoDup(ordered)
    ensures NoDup(Slice(ordered, c))
    ensures |Elements(Slice(ordered, c))| == |Slice(ordered, c)|
  {
    NoDupCount(Slice(ordered, c));
  }

  /** The chunks of a tiling split the list: disjoint, and nothing left out. */
  lemma SlicesDisjoint(ordered: seq<Email>, chunks: seq<Chunk>, i: nat, j: nat)
    requires Tiles(chunks, |ordered|) && NoDup(ordered) && i < |chunks| && j < |chunks| && i != j
    ensures Elements(Slice(ordered, chunks[i])) !! Elements(Slice(ordered, chunks[j]))
  {
    var lo, hi := if i < j then i else j, if i < j then j else i;
    TilesOrdered(chunks, |ordered|, lo, hi);
    forall x | x in Slice(ordered, chunks[lo]) ensures x !in Slice(ordered, chunks[hi]) {
    }
  }

  lemma SlicesCover(ordered: seq<Email>, chunks: seq<Chunk>, e: Email) returns (k: nat)
    requires Tiles(chunks, |ordered|) && e in ordered
    ensures k < |chunks| && e in Slice(ordered, chunks[k])
  {
    var i :| 0 <= i < |ordered| && ordered[i] == e;
    k := TilesFind(chunks, |ordered|, i);
    assert Slice(ordered, chunks[k])[i - chunks[k].startIndex] == e;
  }
}
