/** pipeline/bulk.go: grouping by domain, round-robin shuffle and greedy chunking of a bulk list. */
module BulkQueue {
  import opened Text
  import opened Mailbox

  /** An inclusive index range of the prepared list. */
  datatype Chunk = Chunk(startIndex: nat, endIndex: nat)

  datatype PrepareConfig = PrepareConfig(baseChunkSize: int, maxPerDomain: int, minChunkSize: int)

  // ---------------------------------------------------------------- normalise and de-duplicate

  /** Canonical addresses in order of first appearance. */
  function Deduped(raw: seq<string>): seq<string> {
    if raw == [] then []
    else
      var before, email := Deduped(raw[..|raw| - 1]), Normalize(raw[|raw| - 1]);
      if email == "" || email in before then before else before + [email]
  }

  /** The address at position `k` appears in the input before that of any later position does. */
  ghost predicate FirstSeen(raw: seq<string>, out: seq<string>, k: nat)
    requires k < |out|
  {
    exists i | 0 <= i < |raw| :: CanonicalOf(raw[i], out[k]) && forall j, m | 0 <= j <= i && k < m < |out| :: !CanonicalOf(raw[j], out[m])
  }

  lemma DedupedMeans(raw: seq<string>)
    ensures NoDup(Deduped(raw))
    ensures forall e :: e in Deduped(raw) <==> e != "" && exists i | 0 <= i < |raw| :: CanonicalOf(raw[i], e)
    ensures forall k | 0 <= k < |Deduped(raw)| :: FirstSeen(raw, Deduped(raw), k)
  {
    hide Normalize, CanonicalOf, FirstSeen;
    DedupedContents(raw);
    forall e ensures e in Deduped(raw) <==> e != "" && exists i | 0 <= i < |raw| :: CanonicalOf(raw[i], e) {
      forall i | 0 <= i < |raw| ensures Normalize(raw[i]) == e <==> CanonicalOf(raw[i], e) { NormalizeMeans(raw[i], e); }
    }
    forall k | 0 <= k < |Deduped(raw)| ensures FirstSeen(raw, Deduped(raw), k) { DedupedFirst(raw, k); }
  }

  lemma {:induction false} FirstAt(raw: seq<string>, k: nat) returns (i: nat)
    requires k < |Deduped(raw)|
    ensures i < |raw| && Normalize(raw[i]) == Deduped(raw)[k]
    ensures forall j, m | 0 <= j <= i && k < m < |Deduped(raw)| :: Normalize(raw[j]) != Deduped(raw)[m]
  {
    hide Normalize;
    var front, last := raw[..|raw| - 1], Normalize(raw[|raw| - 1]);
    var before := Deduped(front);
    if k < |before| {
      i := FirstAt(front, k);
      if |Deduped(raw)| > |before| {
        forall j | 0 <= j <= i ensures Normalize(raw[j]) != last {
          if Normalize(front[j]) != "" { EarlierListed(front, j); }
        }
      }
    } else {
      i := |raw| - 1;
    }
  }

  lemma EarlierListed(raw: seq<string>, j: nat)
    requires j < |raw| && Normalize(raw[j]) != ""
    ensures Normalize(raw[j]) in Deduped(raw)
  {
    hide Normalize;
    DedupedContents(raw);
  }

  lemma DedupedFirst(raw: seq<string>, k: nat)
    requires k < |Deduped(raw)|
    ensures FirstSeen(raw, Deduped(raw), k)
  {
    hide Normalize, CanonicalOf;
    var i := FirstAt(raw, k);
    NormalizeMeans(raw[i], Deduped(raw)[k]);
    forall j, m | 0 <= j <= i && k < m < |Deduped(raw)| ensures !CanonicalOf(raw[j], Deduped(raw)[m]) {
      NormalizeMeans(raw[j], Deduped(raw)[m]);
    }
  }

  ghost predicate NoDup<T(!new)>(s: seq<T>) {
    forall i, j | 0 <= i < j < |s| :: s[i] != s[j]
  }

  /** The addresses without the blanks around them and in small letters, each once, in order of first appearance. */
  method NormalizeAndDedup(emails: seq<string>) returns (out: seq<string>)
    ensures out == Deduped(emails)
    ensures NoDup(out)
    ensures forall e :: e in out <==> e != "" && exists i | 0 <= i < |emails| :: CanonicalOf(emails[i], e)
    ensures forall k | 0 <= k < |out| :: FirstSeen(emails, out, k)
  {
    hide Normalize, CanonicalOf;
    DedupedMeans(emails);
    out := [];
    var seen: set<string> := {};
    for i := 0 to |emails|
      invariant out == Deduped(emails[..i])
      invariant forall e :: e in seen <==> e in out
    {
      assert emails[..i + 1][..i] == emails[..i];
      var email := Normalize(emails[i]);
      if email != "" && email !in seen {
        seen := seen + {email};
        out := out + [email];
      }
    }
    assert emails[..|emails|] == emails;
  }

  /** The result holds exactly the non-empty canonical forms, each once. */
  lemma {:induction false} DedupedContents(raw: seq<string>)
    ensures NoDup(Deduped(raw))
    ensures forall e :: e in Deduped(raw) <==> e != "" && exists i | 0 <= i < |raw| :: Normalize(raw[i]) == e
    ensures forall e | e in Deduped(raw) :: Normalize(e) == e
  {
    hide Normalize;
    if raw != [] {
      var front, last := raw[..|raw| - 1], raw[|raw| - 1];
      DedupedContents(front);
      NormalizeIdempotent(last);
      var before := Deduped(front);
      forall e
        ensures e in Deduped(raw) <==> e != "" && exists i | 0 <= i < |raw| :: Normalize(raw[i]) == e
      {
        if e in before {
          var i :| 0 <= i < |front| && Normalize(front[i]) == e;
          assert Normalize(raw[i]) == e;
        }
        if e != "" && exists i | 0 <= i < |raw| :: Normalize(raw[i]) == e {
          var i :| 0 <= i < |raw| && Normalize(raw[i]) == e;
          if i < |front| {
            assert Normalize(front[i]) == e;
          }
        }
      }
    }
  }

  /** Order of first appearance: a longer input only ever appends to the result. */
  lemma {:induction false} DedupedOrder(raw: seq<string>, k: nat)
    requires k <= |raw|
    ensures Deduped(raw[..k]) <= Deduped(raw)
    decreases |raw|
  {
    if k < |raw| {
      DedupedOrder(raw[..|raw| - 1], k);
      assert raw[..|raw| - 1][..k] == raw[..k];
    } else {
      assert raw[..k] == raw;
    }
  }

  /** Normalising a prepared list again changes nothing. */
  lemma {:induction false} DedupedFixpoint(s: seq<string>)
    requires NoDup(s) && forall e | e in s :: e != "" && Normalize(e) == e
    ensures Deduped(s) == s
  {
    hide Normalize;
    if s != [] {
      var front, last := s[..|s| - 1], s[|s| - 1];
      NoDupFront(s);
      forall e | e in front ensures e != "" && Normalize(e) == e {
        assert e in s;
      }
      DedupedFixpoint(front);
      assert last in s;
    }
  }

  lemma NoDupFront(s: seq<string>)
    requires NoDup(s) && s != []
    ensures NoDup(s[..|s| - 1]) && s[|s| - 1] !in s[..|s| - 1]
    ensures s[..|s| - 1] + [s[|s| - 1]] == s && forall e | e in s[..|s| - 1] :: e in s
  {
  }

  lemma DedupedIdempotent(raw: seq<string>)
    ensures Deduped(Deduped(raw)) == Deduped(raw)
  {
    DedupedContents(raw);
    DedupedFixpoint(Deduped(raw));
  }

  // ---------------------------------------------------------------- grouping and round robin

  /** The bucket an address goes to. */
  function Bucket(email: string): string {
    if DomainOf(email) == "" then "_invalid" else DomainOf(email)
  }

  function OfBucket(emails: seq<string>, d: string): seq<string> {
    if emails == [] then []
    else
      var before, last := OfBucket(emails[..|emails| - 1], d), emails[|emails| - 1];
      if Bucket(last) == d then before + [last] else before
  }

  /** How many addresses of bucket `d` a list holds. */
  function Served(emails: seq<string>, d: string): (n: nat)
    ensures n <= |emails|
  {
    if emails == [] then 0
    else Served(emails[..|emails| - 1], d) + (if Bucket(emails[|emails| - 1]) == d then 1 else 0)
  }

  lemma ServedSnoc(s: seq<string>, e: string, d: string)
    ensures Served(s + [e], d) == Served(s, d) + (if Bucket(e) == d then 1 else 0)
  {
    assert (s + [e])[..|s|] == s;
  }

  /** The address is of the domain, or of none for "_invalid". */
  predicate OfDomain(email: string, d: string) {
    (d != "" && DomainOf(email) == d) || (d == "_invalid" && DomainOf(email) == "")
  }

  lemma OnePosition<T(!new)>(before: set<T>, all: set<T>, last: T, hit: bool)
    requires last !in before && forall i :: i in all <==> i in before || (i == last && hit)
    ensures |all| == |before| + (if hit then 1 else 0)
  {
    if hit {
      assert all == before + {last};
    } else {
      assert all == before;
    }
  }

  /** How much of a domain a list holds is the number of positions with an address of that domain. */
  lemma {:induction false} ServedIs(emails: seq<string>, d: string)
    ensures Served(emails, d) == |set i | 0 <= i < |emails| && OfDomain(emails[i], d)|
  {
    hide DomainOf, OfDomain, Bucket;
    var all := set i | 0 <= i < |emails| && OfDomain(emails[i], d);
    if emails == [] {
      assert all == {};
    } else {
      var front, last := emails[..|emails| - 1], |emails| - 1;
      ServedIs(front, d);
      BucketIs(emails[last], d);
      var before := set i | 0 <= i < |front| && OfDomain(front[i], d);
      forall i ensures i in all <==> i in before || (i == last && OfDomain(emails[last], d)) {
        if 0 <= i < last { assert emails[i] == front[i]; }
      }
      OnePosition(before, all, last, OfDomain(emails[last], d));
    }
  }

  lemma BucketIs(email: string, d: string)
    ensures Bucket(email) == d <==> OfDomain(email, d)
  {
    hide DomainOf;
  }

  lemma OneMore(s: seq<string>, last: string, e: string)
    ensures multiset(s + [last])[e] == multiset(s)[e] + (if e == last then 1 else 0)
  {
    assert multiset(s + [last]) == multiset(s) + multiset{last};
  }

  lemma {:induction false} BucketSize(emails: seq<string>, d: string)
    ensures |OfBucket(emails, d)| == Served(emails, d)
    ensures forall e :: multiset(OfBucket(emails, d))[e] == if Bucket(e) == d then multiset(emails)[e] else 0
  {
    hide Bucket;
    if emails != [] {
      var front, last := emails[..|emails| - 1], emails[|emails| - 1];
      BucketSize(front, d);
      assert emails == front + [last];
      forall e ensures multiset(OfBucket(emails, d))[e] == if Bucket(e) == d then multiset(emails)[e] else 0 {
        OneMore(front, last, e);
        OneMore(OfBucket(front, d), last, e);
      }
    }
  }

  /** `d` is the bucket of one of the first `n` addresses. */
  ghost predicate Seen(emails: seq<string>, n: nat, d: string)
    requires n <= |emails|
  {
    exists j | 0 <= j < n :: Bucket(emails[j]) == d
  }

  lemma OfBucketSnoc(s: seq<string>, i: nat, d: string)
    requires i < |s|
    ensures OfBucket(s[..i + 1], d) == if Bucket(s[i]) == d then OfBucket(s[..i], d) + [s[i]] else OfBucket(s[..i], d)
  {
    hide Bucket;
    assert s[..i + 1][..i] == s[..i];
  }

  lemma SeenSnoc(emails: seq<string>, i: nat, d: string)
    requires i < |emails|
    ensures Seen(emails, i + 1, d) <==> Seen(emails, i, d) || Bucket(emails[i]) == d
  {
    hide Bucket;
    if Seen(emails, i, d) {
      var j :| 0 <= j < i && Bucket(emails[j]) == d;
      assert 0 <= j < i + 1;
    }
  }

  method GroupByDomain(emails: seq<string>) returns (groups: map<string, seq<string>>, order: seq<string>)
    ensures NoDup(order)
    ensures forall d :: d in groups <==> d in order
    ensures forall d :: d in groups <==> Seen(emails, |emails|, d)
    ensures forall d | d in groups :: groups[d] == OfBucket(emails, d)
    ensures forall d | d !in groups :: OfBucket(emails, d) == []
  {
    hide Bucket, OfBucket, Seen;
    groups, order := map[], [];
    forall d ensures !Seen(emails, 0, d) && OfBucket(emails[..0], d) == [] { StartEmpty(emails, d); }
    for i := 0 to |emails|
      invariant NoDup(order)
      invariant forall d :: d in groups <==> d in order
      invariant forall d :: d in groups <==> Seen(emails, i, d)
      invariant forall d | d in groups :: groups[d] == OfBucket(emails[..i], d)
      invariant forall d | d !in groups :: OfBucket(emails[..i], d) == []
    {
      forall x ensures Seen(emails, i + 1, x) <==> Seen(emails, i, x) || Bucket(emails[i]) == x { SeenSnoc(emails, i, x); }
      forall x { OfBucketSnoc(emails, i, x); }
      var d := Bucket(emails[i]);
      if d !in groups {
        order := order + [d];
        groups := groups[d := []];
      }
      groups := groups[d := groups[d] + [emails[i]]];
    }
    assert emails[..|emails|] == emails;
  }

  lemma StartEmpty(emails: seq<string>, d: string)
    ensures !Seen(emails, 0, d) && OfBucket(emails[..0], d) == []
  {
    hide Bucket;
    assert emails[..0] == [];
  }

  /** `rand.Shuffle`: a swap loop over arbitrary positions. */
  method Shuffle<T>(s: seq<T>) returns (t: seq<T>)
    ensures multiset(t) == multiset(s)
  {
    t := s;
    var i := |s| - 1;
    while i > 0
      invariant -1 <= i < |s| == |t|
      invariant multiset(t) == multiset(s)
    {
      var j: nat :| j <= i;
      t := t[i := t[j]][j := t[i]];
      i := i - 1;
    }
  }

  /** No bucket with mail left behind `out[..k]` is more than one address behind another bucket. */
  ghost predicate FairAt(out: seq<string>, emails: seq<string>, k: nat)
    requires k <= |out|
  {
    forall d, d' | Served(out[..k], d) < Served(emails, d) :: Served(out[..k], d) >= Served(out[..k], d') - 1
  }

  function Min(a: int, b: int): int { if a < b then a else b }

  ghost function Waiting(groups: map<string, seq<string>>, e: string): nat {
    if Bucket(e) in groups then multiset(groups[Bucket(e)])[e] else 0
  }

  /** Every address is either in `out` or still waits in its bucket. */
  ghost predicate Stock(emails: seq<string>, out: seq<string>, groups: map<string, seq<string>>) {
    && (forall d | d in groups :: |groups[d]| == Served(emails, d) - Served(out, d))
    && (forall d, i | d in groups && 0 <= i < |groups[d]| :: Bucket(groups[d][i]) == d)
    && (forall e :: multiset(emails)[e] == multiset(out)[e] + Waiting(groups, e))
  }

  /** After `r` rounds and `j` turns of the next one, how much each bucket has been served. */
  ghost predicate Turns(emails: seq<string>, out: seq<string>, order: seq<string>, r: nat, j: nat)
    requires j <= |order|
  {
    && (forall d | d !in order :: Served(emails, d) == 0 && Served(out, d) == 0)
    && (forall i | 0 <= i < |order| ::
          Served(out, order[i]) == Min(if i < j then r + 1 else r, Served(emails, order[i])))
  }

  lemma TurnsFair(emails: seq<string>, out: seq<string>, order: seq<string>, r: nat, j: nat)
    requires j <= |order| && Turns(emails, out, order, r, j)
    ensures forall d, d' | Served(out, d) < Served(emails, d) :: Served(out, d) >= Served(out, d') - 1
  {
    hide Served;
    forall d, d' | Served(out, d) < Served(emails, d)
      ensures Served(out, d) >= Served(out, d') - 1
    {
      assert d in order;
      var i :| 0 <= i < |order| && order[i] == d;
      assert Served(out, order[i]) == Min(if i < j then r + 1 else r, Served(emails, order[i]));
      if d' in order {
        var i' :| 0 <= i' < |order| && order[i'] == d';
        assert Served(out, order[i']) == Min(if i' < j then r + 1 else r, Served(emails, order[i']));
      }
    }
  }

  /** One turn of the round robin: bucket `order[j]` hands over its first address, if it has one. */
  lemma TurnsTake(emails: seq<string>, out: seq<string>, order: seq<string>, r: nat, j: nat, e: string)
    requires j < |order| && NoDup(order) && Turns(emails, out, order, r, j)
    requires Bucket(e) == order[j] && Served(out, order[j]) < Served(emails, order[j])
    ensures Turns(emails, out + [e], order, r, j + 1)
  {
    hide Served, Bucket;
    forall x ensures Served(out + [e], x) == Served(out, x) + (if x == order[j] then 1 else 0) { ServedSnoc(out, e, x); }
    forall i | 0 <= i < |order|
      ensures Served(out + [e], order[i]) == Min(if i < j + 1 then r + 1 else r, Served(emails, order[i]))
    {
      assert Served(out, order[i]) == Min(if i < j then r + 1 else r, Served(emails, order[i]));
      assert i != j ==> order[i] != order[j];
    }
  }

  lemma TurnsSkip(emails: seq<string>, out: seq<string>, order: seq<string>, r: nat, j: nat)
    requires j < |order| && Turns(emails, out, order, r, j)
    requires Served(out, order[j]) == Served(emails, order[j])
    ensures Turns(emails, out, order, r, j + 1)
  {
    hide Served;
    assert Served(out, order[j]) == Min(r, Served(emails, order[j]));
  }

  lemma StockTake(emails: seq<string>, out: seq<string>, groups: map<string, seq<string>>, d: string)
    requires Stock(emails, out, groups) && d in groups && groups[d] != []
    ensures Bucket(groups[d][0]) == d
    ensures Stock(emails, out + [groups[d][0]], groups[d := groups[d][1..]])
  {
    hide Served, Bucket;
    var e := groups[d][0];
    var out', groups' := out + [e], groups[d := groups[d][1..]];
    forall x ensures Served(out', x) == Served(out, x) + (if x == d then 1 else 0) { ServedSnoc(out, e, x); }
    forall x ensures multiset(emails)[x] == multiset(out')[x] + Waiting(groups', x) {
      assert multiset(out')[x] == multiset(out)[x] + multiset([e])[x];
      assert groups[d] == [e] + groups[d][1..];
      assert multiset(groups[d])[x] == multiset([e])[x] + multiset(groups[d][1..])[x];
      assert multiset(emails)[x] == multiset(out)[x] + Waiting(groups, x);
    }
    forall x, i | x in groups' && 0 <= i < |groups'[x]| ensures Bucket(groups'[x][i]) == x {
      if x == d {
        assert groups'[x][i] == groups[x][i + 1];
      } else {
        assert groups'[x][i] == groups[x][i];
      }
    }
  }

  lemma StockSize(emails: seq<string>, out: seq<string>, groups: map<string, seq<string>>)
    requires Stock(emails, out, groups)
    ensures |out| <= |emails|
    ensures |out| == |emails| ==> multiset(out) == multiset(emails)
    ensures (forall d | d in groups :: groups[d] == []) ==> |out| == |emails|
  {
    hide Served, Bucket;
    var a, b := multiset(out), multiset(emails);
    assert a <= b;
    assert b == a + (b - a);
    assert |b - a| == 0 ==> b - a == multiset{};
    if forall d | d in groups :: groups[d] == [] {
      assert forall e :: Waiting(groups, e) == 0;
      assert a == b;
    }
  }

  /** One round: every bucket that is not empty hands over its first address. */
  method ServeRound(emails: seq<string>, order: seq<string>, waiting: map<string, seq<string>>, served: seq<string>, ghost r: nat)
    returns (groups: map<string, seq<string>>, out: seq<string>, progress: bool)
    requires NoDup(order) && forall d :: d in waiting <==> d in order
    requires Stock(emails, served, waiting) && Turns(emails, served, order, r, 0)
    requires forall k | 0 <= k <= |served| :: FairAt(served, emails, k)
    ensures forall d :: d in groups <==> d in order
    ensures Stock(emails, out, groups) && Turns(emails, out, order, r, |order|)
    ensures forall k | 0 <= k <= |out| :: FairAt(out, emails, k)
    ensures |out| >= |served| && (progress ==> |out| > |served|)
    ensures !progress ==> out == served && forall d | d in groups :: groups[d] == []
  {
    hide Bucket, Served, Stock, Turns, FairAt;
    groups, out, progress := waiting, served, false;
    for j := 0 to |order|
      invariant forall d :: d in groups <==> d in order
      invariant Stock(emails, out, groups) && Turns(emails, out, order, r, j)
      invariant forall k | 0 <= k <= |out| :: FairAt(out, emails, k)
      invariant |out| >= |served| && (progress ==> |out| > |served|)
      invariant !progress ==> out == served && forall i | 0 <= i < j :: groups[order[i]] == []
    {
      var d := order[j];
      StockCount(emails, out, groups, d);
      if groups[d] == [] {
        TurnsSkip(emails, out, order, r, j);
        continue;
      }
      StockTake(emails, out, groups, d);
      TurnsTake(emails, out, order, r, j, groups[d][0]);
      ghost var shorter := out;
      out := out + [groups[d][0]];
      groups := groups[d := groups[d][1..]];
      progress := true;
      TurnsFair(emails, out, order, r, j + 1);
      StillFair(shorter, out, emails);
    }
  }

  /** Every bucket is shuffled in turn. */
  method ShuffleBuckets(order: seq<string>, buckets: map<string, seq<string>>) returns (groups: map<string, seq<string>>)
    requires forall d :: d in buckets <==> d in order
    ensures forall d :: d in groups <==> d in order
    ensures forall d | d in groups :: multiset(groups[d]) == multiset(buckets[d])
  {
    groups := buckets;
    for i := 0 to |order|
      invariant forall d :: d in groups <==> d in order
      invariant forall d | d in groups :: multiset(groups[d]) == multiset(buckets[d])
    {
      var bucket := Shuffle(groups[order[i]]);
      groups := groups[order[i] := bucket];
    }
  }

  /** Round-robin over the buckets, in shuffled order and with shuffled buckets. */
  method AdaptiveShuffle(emails: seq<string>) returns (out: seq<string>)
    ensures multiset(out) == multiset(emails)
    ensures forall k | 0 <= k <= |out| :: FairAt(out, emails, k)
  {
    hide Bucket, Served, OfBucket, Stock, Turns, FairAt, Seen;
    if |emails| <= 1 {
      out := emails;
      ShortFair(emails);
      return;
    }
    var groups, order := GroupByDomain(emails);
    var shuffled := Shuffle(order);
    SameElements(order, shuffled);
    order := shuffled;
    groups := ShuffleBuckets(order, groups);
    StartStock(emails, groups);
    StartTurns(emails, groups, order);
    out := [];
    StartFair(emails);
    ghost var r: nat := 0;
    while |out| < |emails|
      invariant forall d :: d in groups <==> d in order
      invariant Stock(emails, out, groups) && Turns(emails, out, order, r, 0)
      invariant forall k | 0 <= k <= |out| :: FairAt(out, emails, k)
      decreases |emails| - |out|
    {
      var progress;
      groups, out, progress := ServeRound(emails, order, groups, out, r);
      StockSize(emails, out, groups);
      NextRound(emails, out, order, r);
      if !progress {
        assert false;
      }
      r := r + 1;
    }
    StockSize(emails, out, groups);
  }

  lemma StockCount(emails: seq<string>, out: seq<string>, groups: map<string, seq<string>>, d: string)
    requires Stock(emails, out, groups) && d in groups
    ensures |groups[d]| == Served(emails, d) - Served(out, d)
  {
    hide Served, Bucket;
  }

  lemma NextRound(emails: seq<string>, out: seq<string>, order: seq<string>, r: nat)
    requires Turns(emails, out, order, r, |order|)
    ensures Turns(emails, out, order, r + 1, 0)
  {
    hide Served;
    forall i | 0 <= i < |order|
      ensures Served(out, order[i]) == Min(r + 1, Served(emails, order[i]))
    {
    }
  }

  lemma ShortFair(emails: seq<string>)
    requires |emails| <= 1
    ensures forall k | 0 <= k <= |emails| :: FairAt(emails, emails, k)
  {
    hide Bucket;
    forall k | 0 <= k <= |emails| ensures FairAt(emails, emails, k) {
      assert emails[..0] == [] && emails[..|emails|] == emails;
    }
  }

  lemma StartFair(emails: seq<string>)
    ensures FairAt([], emails, 0)
  {
    hide Bucket;
    var none: seq<string> := [];
    assert none[..0] == none;
  }

  lemma StillFair(shorter: seq<string>, out: seq<string>, emails: seq<string>)
    requires |out| == |shorter| + 1 && out[..|shorter|] == shorter
    requires forall k | 0 <= k <= |shorter| :: FairAt(shorter, emails, k)
    requires forall d, d' | Served(out, d) < Served(emails, d) :: Served(out, d) >= Served(out, d') - 1
    ensures forall k | 0 <= k <= |out| :: FairAt(out, emails, k)
  {
    hide Bucket, Served;
    forall k | 0 <= k <= |out| ensures FairAt(out, emails, k) {
      if k < |out| {
        assert FairAt(shorter, emails, k);
        assert out[..k] == shorter[..k];
      } else {
        assert out[..k] == out;
      }
    }
  }

  lemma StartStock(emails: seq<string>, groups: map<string, seq<string>>)
    requires forall d | d !in groups :: OfBucket(emails, d) == []
    requires forall d | d in groups :: multiset(groups[d]) == multiset(OfBucket(emails, d))
    ensures Stock(emails, [], groups)
  {
    hide Bucket, OfBucket;
    forall d | d in groups
      ensures |groups[d]| == Served(emails, d)
      ensures forall i | 0 <= i < |groups[d]| :: Bucket(groups[d][i]) == d
    {
      BucketSize(emails, d);
      assert |multiset(groups[d])| == |multiset(OfBucket(emails, d))|;
      forall i | 0 <= i < |groups[d]| ensures Bucket(groups[d][i]) == d {
        assert groups[d][i] in multiset(groups[d]);
      }
    }
    forall e ensures multiset(emails)[e] == Waiting(groups, e) {
      BucketSize(emails, Bucket(e));
    }
  }

  lemma StartTurns(emails: seq<string>, groups: map<string, seq<string>>, order: seq<string>)
    requires forall d :: d in groups <==> d in order
    requires forall d | d !in groups :: OfBucket(emails, d) == []
    ensures Turns(emails, [], order, 0, 0)
  {
    hide Bucket, OfBucket;
    forall d | d !in order ensures Served(emails, d) == 0 {
      BucketSize(emails, d);
    }
  }

  /** A permutation of a list without duplicates has none either. */
  lemma SameElements<T(!new)>(s: seq<T>, t: seq<T>)
    requires multiset(s) == multiset(t)
    ensures |s| == |t|
    ensures forall x :: x in s <==> x in t
    ensures NoDup(s) ==> NoDup(t)
  {
    assert |multiset(s)| == |multiset(t)|;
    forall x ensures x in s <==> x in t {
      assert x in multiset(s) <==> x in multiset(t);
    }
    if NoDup(s) && !NoDup(t) {
      var i, j :| 0 <= i < j < |t| && t[i] == t[j];
      assert t == t[..i] + [t[i]] + t[i + 1..j] + [t[j]] + t[j + 1..];
      assert multiset(t)[t[i]] >= 2;
      OnceEach(s, t[i]);
    }
  }

  lemma {:induction false} OnceEach<T(!new)>(s: seq<T>, x: T)
    requires NoDup(s)
    ensures multiset(s)[x] == if x in s then 1 else 0
  {
    if s != [] {
      OnceEach(s[1..], x);
      assert s == [s[0]] + s[1..];
    }
  }

  // ---------------------------------------------------------------- chunk sizes

  const KNOWN_FREE_DOMAINS: set<string> := {
    "gmail.com", "googlemail.com",
    "yahoo.com", "yahoo.co.uk", "ymail.com", "rocketmail.com",
    "outlook.com", "hotmail.com", "live.com", "msn.com",
    "icloud.com", "me.com", "mac.com",
    "aol.com", "protonmail.com", "proton.me",
    "zoho.com", "zohomail.com", "gmx.com", "gmx.net",
    "mail.com", "yandex.com", "yandex.ru",
    "mail.ru", "inbox.com", "fastmail.com"
  }

  predicate IsKnownFreeDomain(domain: string) {
    Normalize(domain) in KNOWN_FREE_DOMAINS
  }

  function DefaultPrepareConfig(baseChunkSize: int): (cfg: PrepareConfig)
    ensures cfg.baseChunkSize >= 50 && 25 <= cfg.maxPerDomain <= 100 && cfg.minChunkSize == 50
    ensures baseChunkSize >= 50 ==> cfg.baseChunkSize == baseChunkSize
    ensures baseChunkSize <= 50 ==> cfg.baseChunkSize == 50
    ensures 250 <= baseChunkSize < 1010 ==> 10 * cfg.maxPerDomain <= baseChunkSize < 10 * (cfg.maxPerDomain + 1)
    ensures baseChunkSize < 250 ==> cfg.maxPerDomain == 25
    ensures baseChunkSize >= 1010 ==> cfg.maxPerDomain == 100
  {
    var base := if baseChunkSize < 50 then 50 else baseChunkSize;
    var maxPer := base / 10;
    PrepareConfig(base, if maxPer < 25 then 25 else if maxPer > 100 then 100 else maxPer, 50)
  }

  /** The fallbacks BuildDynamicChunks applies to a configuration with non-positive fields. */
  function Effective(cfg: PrepareConfig): (c: PrepareConfig)
    ensures c.baseChunkSize >= 1 && c.minChunkSize >= 1 && c.maxPerDomain >= 1
  {
    PrepareConfig(
      if cfg.baseChunkSize < 1 then 1000 else cfg.baseChunkSize,
      if cfg.maxPerDomain < 1 then 50 else cfg.maxPerDomain,
      if cfg.minChunkSize < 1 then 50 else cfg.minChunkSize)
  }

  function DomainSet(emails: seq<string>): set<string> {
    set i | 0 <= i < |emails| :: DomainOf(emails[i])
  }

  function FreeCount(emails: seq<string>): nat {
    if emails == [] then 0
    else FreeCount(emails[..|emails| - 1]) + (if IsKnownFreeDomain(DomainOf(emails[|emails| - 1])) then 1 else 0)
  }

  /** The chunk size chosen for a look-ahead window of the list. */
  function WindowSize(window: seq<string>, cfg: PrepareConfig): int {
    var size :=
      if |DomainSet(window)| <= 2 then cfg.baseChunkSize / 4
      else if |DomainSet(window)| <= 10 then cfg.baseChunkSize / 2
      else if FreeCount(window) * 2 >= |window| then cfg.baseChunkSize / 2
      else cfg.baseChunkSize;
    var atLeast := if size < cfg.minChunkSize then cfg.minChunkSize else size;
    if atLeast > cfg.baseChunkSize then cfg.baseChunkSize else atLeast
  }

  /** The target for a chunk that starts at `start`. */
  function TargetSize(emails: seq<string>, start: nat, cfg: PrepareConfig): (size: int)
    requires start < |emails| && cfg.baseChunkSize >= 1
    ensures size <= cfg.baseChunkSize
    ensures cfg.minChunkSize <= cfg.baseChunkSize ==> size >= cfg.minChunkSize
    ensures cfg.minChunkSize >= 1 ==> size >= 1
  {
    var end := if start + cfg.baseChunkSize > |emails| then |emails| else start + cfg.baseChunkSize;
    WindowSize(emails[start..end], cfg)
  }

  // ---------------------------------------------------------------- window sizes, tier by tier

  /** The positions of a list whose address has a property, counted. */
  lemma {:induction false} FreeCountIs(emails: seq<string>)
    ensures FreeCount(emails) == |set i | 0 <= i < |emails| && IsKnownFreeDomain(DomainOf(emails[i]))|
  {
    hide IsKnownFreeDomain, DomainOf;
    var all := set i | 0 <= i < |emails| && IsKnownFreeDomain(DomainOf(emails[i]));
    if emails == [] {
      assert all == {};
    } else {
      var front, last := emails[..|emails| - 1], |emails| - 1;
      FreeCountIs(front);
      var before := set i | 0 <= i < |front| && IsKnownFreeDomain(DomainOf(front[i]));
      forall i ensures i in all <==> i in before || (i == last && IsKnownFreeDomain(DomainOf(emails[last]))) {
        if 0 <= i < last { assert emails[i] == front[i]; }
      }
      OnePosition(before, all, last, IsKnownFreeDomain(DomainOf(emails[last])));
    }
  }

  lemma FreeProviders(raw: string, e: string)
    requires CanonicalOf(raw, e)
    ensures IsKnownFreeDomain(raw) <==> e in [
              "gmail.com", "googlemail.com", "yahoo.com", "yahoo.co.uk", "ymail.com", "rocketmail.com", "outlook.com", "hotmail.com",
              "live.com", "msn.com", "icloud.com", "me.com", "mac.com", "aol.com", "protonmail.com", "proton.me", "zoho.com",
              "zohomail.com", "gmx.com", "gmx.net", "mail.com", "yandex.com", "yandex.ru", "mail.ru", "inbox.com", "fastmail.com"]
  {
    hide Normalize, CanonicalOf;
    NormalizeMeans(raw, e);
  }

  /** Two domains or fewer get a quarter of the base size, ten or fewer or a half of free addresses get half of it,
      and every other window the whole; then the minimum is applied, and the base again. */
  lemma WindowTiers(window: seq<string>, cfg: PrepareConfig)
    requires cfg.baseChunkSize >= 1
    ensures var domains := |set i | 0 <= i < |window| :: DomainOf(window[i])|;
            var free := |set i | 0 <= i < |window| && IsKnownFreeDomain(DomainOf(window[i]))|;
            var size, base, atLeast := WindowSize(window, cfg), cfg.baseChunkSize, cfg.minChunkSize;
            && (atLeast > base ==> size == base)
            && (domains <= 2 && atLeast <= base / 4 ==> 4 * size <= base < 4 * (size + 1))
            && (domains <= 2 && base / 4 <= atLeast <= base ==> size == atLeast)
            && (2 < domains <= 10 && atLeast <= base / 2 ==> 2 * size <= base < 2 * (size + 1))
            && (2 < domains <= 10 && base / 2 <= atLeast <= base ==> size == atLeast)
            && (domains > 10 && 2 * free >= |window| && atLeast <= base / 2 ==> 2 * size <= base < 2 * (size + 1))
            && (domains > 10 && 2 * free >= |window| && base / 2 <= atLeast <= base ==> size == atLeast)
            && (domains > 10 && 2 * free < |window| && atLeast <= base ==> size == base)
  {
    hide IsKnownFreeDomain, DomainOf, FreeCount;
    FreeCountIs(window);
  }

  /** The window of a chunk is the next base-size addresses, or what is left. */
  lemma WindowOf(emails: seq<string>, start: nat, cfg: PrepareConfig)
    requires start < |emails| && cfg.baseChunkSize >= 1
    ensures |emails| - start <= cfg.baseChunkSize ==> TargetSize(emails, start, cfg) == WindowSize(emails[start..], cfg)
    ensures |emails| - start > cfg.baseChunkSize ==> TargetSize(emails, start, cfg) == WindowSize(emails[start..start + cfg.baseChunkSize], cfg)
  {
    hide WindowSize;
    assert emails[start..] == emails[start..|emails|];
  }

  /** What a configuration with non-positive fields falls back to. */
  lemma Fallbacks(cfg: PrepareConfig)
    ensures Effective(cfg).baseChunkSize == if cfg.baseChunkSize >= 1 then cfg.baseChunkSize else 1000
    ensures Effective(cfg).maxPerDomain == if cfg.maxPerDomain >= 1 then cfg.maxPerDomain else 50
    ensures Effective(cfg).minChunkSize == if cfg.minChunkSize >= 1 then cfg.minChunkSize else 50
  {
  }

  lemma StartWindow()
    ensures DomainSet([]) == {} && FreeCount([]) == 0
  {
  }

  lemma GrowWindow(s: seq<string>, e: string)
    ensures DomainSet(s + [e]) == DomainSet(s) + {DomainOf(e)}
    ensures FreeCount(s + [e]) == FreeCount(s) + (if IsKnownFreeDomain(DomainOf(e)) then 1 else 0)
  {
    hide DomainOf, IsKnownFreeDomain;
    var all := s + [e];
    assert all[..|s|] == s;
    forall d ensures d in DomainSet(all) <==> d in DomainSet(s) || d == DomainOf(e) {
      if d in DomainSet(s) {
        var i :| 0 <= i < |s| && DomainOf(s[i]) == d;
        assert DomainOf(all[i]) == d;
      }
      if d == DomainOf(e) {
        assert DomainOf(all[|s|]) == d;
      }
    }
  }

  method DynamicTargetSize(emails: seq<string>, start: nat, cfg: PrepareConfig) returns (size: int)
    requires start < |emails| && cfg.baseChunkSize >= 1
    ensures size == TargetSize(emails, start, cfg)
  {
    hide IsKnownFreeDomain, DomainOf, DomainSet, FreeCount;
    StartWindow();
    var window := cfg.baseChunkSize;
    if start + window > |emails| {
      window := |emails| - start;
    }
    var unique: set<string> := {};
    var freeHits := 0;
    ghost var ahead := emails[start..start + window];
    for i := start to start + window
      invariant unique == DomainSet(ahead[..i - start])
      invariant freeHits == FreeCount(ahead[..i - start])
    {
      assert ahead[..i + 1 - start] == ahead[..i - start] + [emails[i]];
      GrowWindow(ahead[..i - start], emails[i]);
      var d := DomainOf(emails[i]);
      unique := unique + {d};
      if IsKnownFreeDomain(d) {
        freeHits := freeHits + 1;
      }
    }
    assert ahead[..window] == ahead;
    size := cfg.baseChunkSize;
    if |unique| <= 2 {
      size := cfg.baseChunkSize / 4;
    } else if |unique| <= 10 {
      size := cfg.baseChunkSize / 2;
    } else if freeHits * 2 >= window {
      size := cfg.baseChunkSize / 2;
    }
    if size < cfg.minChunkSize {
      size := cfg.minChunkSize;
    }
    if size > cfg.baseChunkSize {
      size := cfg.baseChunkSize;
    }
  }

  // ---------------------------------------------------------------- chunks

  /** The chunks are non-empty, consecutive and cover 0..n-1. */
  ghost predicate Tiles(chunks: seq<Chunk>, n: nat) {
    && (forall k | 0 <= k < |chunks| :: chunks[k].startIndex <= chunks[k].endIndex < n)
    && (forall k | 0 <= k < |chunks| - 1 :: chunks[k + 1].startIndex == chunks[k].endIndex + 1)
    && (chunks == [] <==> n == 0)
    && (chunks != [] ==> chunks[0].startIndex == 0 && chunks[|chunks| - 1].endIndex == n - 1)
  }

  /** `emails[start..end]` may form one chunk. */
  ghost predicate Admissible(emails: seq<string>, start: nat, end: nat, cfg: PrepareConfig)
    requires start < |emails| && start <= end <= |emails| && cfg.baseChunkSize >= 1
  {
    && end - start <= TargetSize(emails, start, cfg)
    && forall d :: Served(emails[start..end], d) <= cfg.maxPerDomain
  }

  /** The chunk is admissible and no longer one with the same start is. */
  ghost predicate Greedy(emails: seq<string>, c: Chunk, cfg: PrepareConfig)
    requires c.startIndex <= c.endIndex < |emails| && cfg.baseChunkSize >= 1
  {
    && Admissible(emails, c.startIndex, c.endIndex + 1, cfg)
    && forall end | c.endIndex + 1 < end <= |emails| :: !Admissible(emails, c.startIndex, end, cfg)
  }

  lemma {:induction false} ServedPrefix(s: seq<string>, k: nat, d: string)
    requires k <= |s|
    ensures Served(s[..k], d) <= Served(s, d)
  {
    hide Bucket;
    if k < |s| {
      ServedPrefix(s[..|s| - 1], k, d);
      assert s[..|s| - 1][..k] == s[..k];
    } else {
      assert s[..k] == s;
    }
  }

  /** Once a stretch is full, so is every longer one. */
  lemma FullStaysFull(emails: seq<string>, start: nat, end: nat, longer: nat, cfg: PrepareConfig)
    requires start < |emails| && start <= end <= longer <= |emails| && cfg.baseChunkSize >= 1
    requires !Admissible(emails, start, end, cfg)
    ensures !Admissible(emails, start, longer, cfg)
  {
    hide Served, TargetSize;
    if end - start <= TargetSize(emails, start, cfg) {
      var d :| Served(emails[start..end], d) > cfg.maxPerDomain;
      ServedPrefix(emails[start..longer], end - start, d);
      assert emails[start..longer][..end - start] == emails[start..end];
    }
  }

  lemma ServedNext(emails: seq<string>, start: nat, end: nat)
    requires start <= end < |emails|
    ensures forall d :: Served(emails[start..end + 1], d)
                        == Served(emails[start..end], d) + (if Bucket(emails[end]) == d then 1 else 0)
  {
    hide Served, Bucket;
    forall d { ServedSnoc(emails[start..end], emails[end], d); }
    assert emails[start..end + 1] == emails[start..end] + [emails[end]];
  }

  lemma GreedyHere(emails: seq<string>, start: nat, end: nat, cfg: PrepareConfig)
    requires start < end <= |emails| && cfg.baseChunkSize >= 1
    requires Admissible(emails, start, end, cfg)
    requires end < |emails| ==> !Admissible(emails, start, end + 1, cfg)
    ensures Greedy(emails, Chunk(start, end - 1), cfg)
  {
    hide Admissible;
    forall longer | end < longer <= |emails| ensures !Admissible(emails, start, longer, cfg) {
      FullStaysFull(emails, start, end + 1, longer, cfg);
    }
  }

  method BuildDynamicChunks(emails: seq<string>, config: PrepareConfig) returns (chunks: seq<Chunk>)
    ensures Tiles(chunks, |emails|)
    ensures forall k | 0 <= k < |chunks| :: Greedy(emails, chunks[k], Effective(config))
  {
    hide Bucket, Served, TargetSize, Greedy;
    var n := |emails|;
    chunks := [];
    if n == 0 {
      return;
    }
    var cfg := Effective(config);
    var i := 0;
    while i < n
      invariant 0 <= i <= n
      invariant Tiles(chunks, i)
      invariant forall k | 0 <= k < |chunks| :: Greedy(emails, chunks[k], cfg)
    {
      var target := DynamicTargetSize(emails, i, cfg);
      var domainCount: map<string, nat> := map[];
      var end := i;
      StartServed(emails, i);
      ghost var full := false;
      while end < n && end - i < target
        invariant i <= end <= n
        invariant forall d :: (if d in domainCount then domainCount[d] else 0) == Served(emails[i..end], d) <= cfg.maxPerDomain
        invariant end - i <= target
      {
        var d := Bucket(emails[end]);
        ServedNext(emails, i, end);
        var seen := if d in domainCount then domainCount[d] else 0;
        if seen >= cfg.maxPerDomain {
          assert Served(emails[i..end + 1], d) > cfg.maxPerDomain;
          full := true;
          if end == i {
            assert false;
          }
          break;
        }
        domainCount := domainCount[d := seen + 1];
        end := end + 1;
      }
      if end <= i {
        assert false;
      }
      GreedyHere(emails, i, end, cfg);
      chunks := chunks + [Chunk(i, end - 1)];
      i := end;
    }
  }

  lemma StartServed(emails: seq<string>, i: nat)
    requires i <= |emails|
    ensures forall d :: Served(emails[i..i], d) == 0
  {
    hide Bucket;
  }

  lemma LastChunk(chunks: seq<Chunk>, n: nat, i: nat)
    requires Tiles(chunks, n) && i < |chunks|
    ensures chunks[i].endIndex == n - 1 <==> i == |chunks| - 1
  {
    assert i < |chunks| - 1 ==> chunks[i + 1].startIndex == chunks[i].endIndex + 1 && chunks[i + 1].endIndex < n;
  }

  /** Greedy tilings are unique: the result does not depend on how the loop finds it. */
  lemma {:induction false} GreedyTilingUnique(emails: seq<string>, a: seq<Chunk>, b: seq<Chunk>, cfg: PrepareConfig, k: nat)
    requires cfg.baseChunkSize >= 1 && Tiles(a, |emails|) && Tiles(b, |emails|)
    requires forall i | 0 <= i < |a| :: Greedy(emails, a[i], cfg)
    requires forall i | 0 <= i < |b| :: Greedy(emails, b[i], cfg)
    requires k <= |a|
    ensures k <= |b| && a[..k] == b[..k]
    ensures k == |a| ==> a == b
  {
    hide Admissible;
    if k > 0 {
      GreedyTilingUnique(emails, a, b, cfg, k - 1);
      assert k - 1 < |b| by {
        if k >= 2 {
          assert a[k - 2] == a[..k - 1][k - 2] == b[..k - 1][k - 2] == b[k - 2];
          assert a[k - 1].startIndex == a[k - 2].endIndex + 1;
        }
      }
      if k >= 2 {
        assert a[k - 2] == a[..k - 1][k - 2] == b[..k - 1][k - 2] == b[k - 2];
      }
      assert Greedy(emails, a[k - 1], cfg) && Greedy(emails, b[k - 1], cfg);
      assert a[k - 1].startIndex == b[k - 1].startIndex;
      assert a[k - 1] == b[k - 1];
      assert a[..k] == a[..k - 1] + [a[k - 1]] && b[..k] == b[..k - 1] + [b[k - 1]];
    }
    if k == |a| {
      if k > 0 {
        assert a[k - 1] == a[..k][k - 1] == b[..k][k - 1] == b[k - 1];
        LastChunk(b, |emails|, k - 1);
      }
      assert a == a[..k] && b == b[..k];
    }
  }

  /** Under the production defaults every chunk but the last has at least 25 addresses. */
  lemma ChunkAtLeast25(emails: seq<string>, base: int, chunks: seq<Chunk>, k: nat)
    requires Tiles(chunks, |emails|)
    requires forall i | 0 <= i < |chunks| :: Greedy(emails, chunks[i], DefaultPrepareConfig(base))
    requires k < |chunks| - 1
    ensures chunks[k].endIndex - chunks[k].startIndex + 1 >= 25
  {
    hide Served, TargetSize;
    var cfg, c := DefaultPrepareConfig(base), chunks[k];
    assert Greedy(emails, c, cfg);
    assert chunks[k + 1].startIndex == c.endIndex + 1;
    assert !Admissible(emails, c.startIndex, c.endIndex + 2, cfg);
    if c.endIndex + 2 - c.startIndex <= TargetSize(emails, c.startIndex, cfg) {
      var d :| Served(emails[c.startIndex..c.endIndex + 2], d) > cfg.maxPerDomain;
      assert Served(emails[c.startIndex..c.endIndex + 2], d) <= |emails[c.startIndex..c.endIndex + 2]|;
    }
  }

  lemma {:induction false} ChunkSpan(emails: seq<string>, base: int, chunks: seq<Chunk>, k: nat)
    requires Tiles(chunks, |emails|)
    requires forall i | 0 <= i < |chunks| :: Greedy(emails, chunks[i], DefaultPrepareConfig(base))
    requires k < |chunks|
    ensures chunks[k].startIndex >= 25 * k
  {
    hide Greedy;
    if k > 0 {
      ChunkSpan(emails, base, chunks, k - 1);
      ChunkAtLeast25(emails, base, chunks, k - 1);
      assert chunks[k - 1 + 1].startIndex == chunks[k - 1].endIndex + 1;
    }
  }

  /** The chunk respects a size cap and a per-domain cap. */
  ghost predicate Capped(emails: seq<string>, c: Chunk, size: int, perDomain: int)
    requires c.startIndex <= c.endIndex < |emails|
  {
    var slice := emails[c.startIndex..c.endIndex + 1];
    && |slice| <= size
    && forall d :: Served(slice, d) <= perDomain
  }

  /** At most one chunk per 25 addresses, rounded up. */
  lemma ChunkCount(emails: seq<string>, base: int, chunks: seq<Chunk>)
    requires Tiles(chunks, |emails|)
    requires forall i | 0 <= i < |chunks| :: Greedy(emails, chunks[i], DefaultPrepareConfig(base))
    ensures |chunks| <= (|emails| + 24) / 25
    ensures forall i | 0 <= i < |chunks| :: Capped(emails, chunks[i], if base < 50 then 50 else base, 100)
  {
    hide Served, TargetSize;
    forall i | 0 <= i < |chunks| ensures Capped(emails, chunks[i], if base < 50 then 50 else base, 100) {
      assert Greedy(emails, chunks[i], DefaultPrepareConfig(base));
    }
    if chunks != [] {
      ChunkSpan(emails, base, chunks, |chunks| - 1);
    }
  }

  method PrepareQueue(emails: seq<string>, baseChunkSize: int) returns (ordered: seq<string>, chunks: seq<Chunk>)
    ensures multiset(ordered) == multiset(emails)
    ensures forall k | 0 <= k <= |ordered| :: FairAt(ordered, emails, k)
    ensures Tiles(chunks, |ordered|)
    ensures forall k | 0 <= k < |chunks| :: Greedy(ordered, chunks[k], DefaultPrepareConfig(baseChunkSize))
  {
    hide Greedy, FairAt;
    ordered := AdaptiveShuffle(emails);
    chunks := BuildDynamicChunks(ordered, DefaultPrepareConfig(baseChunkSize));
  }

  /** The chunk of a tiling that holds position `i`. */
  lemma TilesFind(chunks: seq<Chunk>, n: nat, i: nat) returns (k: nat)
    requires Tiles(chunks, n) && i < n
    ensures k < |chunks| && chunks[k].startIndex <= i <= chunks[k].endIndex
  {
    k := 0;
    while i > chunks[k].endIndex
      invariant k < |chunks| && chunks[k].startIndex <= i
      decreases |chunks| - k
    {
      assert k + 1 < |chunks|;
      assert chunks[k + 1].startIndex == chunks[k].endIndex + 1;
      k := k + 1;
    }
  }

  lemma {:induction false} TilesOrdered(chunks: seq<Chunk>, n: nat, i: nat, j: nat)
    requires Tiles(chunks, n) && i < j < |chunks|
    ensures chunks[i].endIndex < chunks[j].startIndex
  {
    assert chunks[j - 1 + 1].startIndex == chunks[j - 1].endIndex + 1;
    if i < j - 1 {
      TilesOrdered(chunks, n, i, j - 1);
    }
  }
}
