/** pipeline/domain_intel.go and the two readers of the `domains` table. */
module DomainIntel {
  import opened Text
  import opened Mailbox
  import opened Verdicts

  /** A row of the `domains` table, whose `domain` column is unique. */
  datatype Policy = Policy(kind: string, excluded: bool)
  type Table = map<string, Policy>

  // ---------------------------------------------------------------- parent walk

  /** `strings.Join(parts[i:], ".")` */
  function Suffix(parts: seq<string>, i: nat): string
    requires i <= |parts|
  {
    Join(parts[i..], '.')
  }

  /** First match among the candidates parts[i..], parts[i+1..], ... of at least two labels. */
  function Walk(parts: seq<string>, i: nat, policies: map<string, string>): Option<string>
    requires i <= |parts|
    decreases |parts| - i
  {
    if i + 2 > |parts| then None
    else if Suffix(parts, i) in policies then Some(policies[Suffix(parts, i)])
    else Walk(parts, i + 1, policies)
  }

  /** The walk finds the first candidate that has a policy, the most specific one. */
  lemma {:induction false} WalkIsFirst(parts: seq<string>, i: nat, policies: map<string, string>)
    requires i <= |parts|
    ensures match Walk(parts, i, policies)
            case None => forall j | i <= j <= |parts| - 2 :: Suffix(parts, j) !in policies
            case Some(kind) => exists j :: i <= j <= |parts| - 2 && Suffix(parts, j) in policies && policies[Suffix(parts, j)] == kind
                                 && forall k | i <= k < j :: Suffix(parts, k) !in policies
    decreases |parts| - i
  {
    hide Suffix;
    if i + 2 <= |parts| {
      WalkIsFirst(parts, i + 1, policies);
    }
  }

  method LookupDomainPolicy(rawDomain: string, policies: map<string, string>) returns (kind: string)
    ensures kind == PolicyOf(rawDomain, policies)
  {
    var domain := Normalize(rawDomain);
    if domain == "" || |policies| == 0 {
      NoPolicies(Split(domain, '.'), 0, policies);
      return "";
    }
    var parts := Split(domain, '.');
    if |parts| < 2 {
      return "";
    }
    var i := 0;
    while i <= |parts| - 2
      invariant 0 <= i <= |parts| - 1
      invariant Walk(parts, 0, policies) == Walk(parts, i, policies)
    {
      var candidate := Join(parts[i..], '.');
      if candidate in policies {
        return policies[candidate];
      }
      i := i + 1;
    }
    return "";
  }

  /** The policy type found for a domain, or empty. */
  function PolicyOf(rawDomain: string, policies: map<string, string>): string {
    match Walk(Split(Normalize(rawDomain), '.'), 0, policies)
    case Some(kind) => kind
    case None => ""
  }

  lemma {:induction false} NoPolicies(parts: seq<string>, i: nat, policies: map<string, string>)
    requires i <= |parts| && (parts == [""] || policies == map[])
    ensures Walk(parts, i, policies) == None
    decreases |parts| - i
  {
    if i + 2 <= |parts| { NoPolicies(parts, i + 1, policies); }
  }

  // ---------------------------------------------------------------- verdicts from policies

  predicate IsBlockingPolicy(kind: string) {
    kind in ["disposable", "spam-trap", "blacklist"]
  }

  datatype Intel = Intel(verdict: Verdict, score: int, isDisposable: bool, isSpamTrap: bool, isBlacklisted: bool)

  /** The verdict a blocking policy settles without SMTP; None means the mailbox must be probed. */
  function ResolveDomainIntel(email: string, policies: map<string, string>): Option<Intel> {
    var kind := PolicyOf(DomainOf(email), policies);
    if !IsBlockingPolicy(kind) then None
    else if kind == "disposable" then Some(Intel(Disposable, 10, true, false, false))
    else if kind == "spam-trap" then Some(Intel(Invalid, 0, false, true, false))
    else Some(Intel(Invalid, 0, false, false, true))
  }

  // ---------------------------------------------------------------- the list of domains to load

  /** `d` and every parent domain of `d` with at least two labels are in the set. */
  ghost predicate ClosedAt(s: set<string>, d: string) {
    && d in s
    && forall i | 1 <= i <= |Split(d, '.')| - 2 :: Suffix(Split(d, '.'), i) in s
  }

  ghost predicate Closed(s: set<string>) {
    forall d | d in s :: ClosedAt(s, d)
  }

  /** The parents of a parent are parents of the domain itself. */
  lemma ParentOfParent(d: string, i: nat)
    requires 1 <= i < |Split(d, '.')|
    ensures Split(Suffix(Split(d, '.'), i), '.') == Split(d, '.')[i..]
    ensures forall j | 1 <= j <= |Split(d, '.')| - i - 2 ::
              Suffix(Split(Suffix(Split(d, '.'), i), '.'), j) == Suffix(Split(d, '.'), i + j)
  {
    var parts := Split(d, '.');
    assert forall p | p in parts[i..] :: p in parts;
    SplitJoin(parts[i..], '.');
    forall j | 1 <= j <= |parts| - i - 2
      ensures Suffix(Split(Suffix(parts, i), '.'), j) == Suffix(parts, i + j)
    {
      assert parts[i..][j..] == parts[i + j..];
    }
  }

  method UniqueDomains(emails: seq<string>) returns (out: seq<string>)
    ensures Closed(set d | d in out)
    ensures forall k | 0 <= k < |emails| && DomainOf(emails[k]) != "" :: DomainOf(emails[k]) in out
    ensures forall d | d in out :: FromList(emails, |emails|, d)
    ensures forall i, j | 0 <= i < j < |out| :: out[i] != out[j]
  {
    hide DomainOf, Split, Suffix, FromList;
    var seen: set<string> := {};
    out := [];
    for k := 0 to |emails|
      invariant forall d :: d in seen <==> d in out
      invariant Closed(seen)
      invariant forall i | 0 <= i < k && DomainOf(emails[i]) != "" :: DomainOf(emails[i]) in seen
      invariant forall d | d in seen :: FromList(emails, k, d)
      invariant forall i, j | 0 <= i < j < |out| :: out[i] != out[j]
    {
      var d := DomainOf(emails[k]);
      forall x | FromList(emails, k, x) ensures FromList(emails, k + 1, x) { Earlier(emails, k, x); }
      if d == "" || d in seen {
        continue;
      }
      var parts := Split(d, '.');
      FromSelf(emails, k, 0);
      ghost var before := seen;
      seen := seen + {d};
      out := out + [d];
      var i := 1;
      while i <= |parts| - 2
        invariant 1 <= i
        invariant forall x :: x in seen <==> x in out
        invariant before <= seen && d in seen
        invariant forall x | x in seen :: x in before || x == d || exists j :: 1 <= j < i && j <= |parts| - 2 && x == Suffix(parts, j)
        invariant forall j | 1 <= j < i && j <= |parts| - 2 :: Suffix(parts, j) in seen
        invariant forall x | x in seen :: FromList(emails, k + 1, x)
        invariant forall i, j | 0 <= i < j < |out| :: out[i] != out[j]
      {
        var parent := Suffix(parts, i);
        FromSelf(emails, k, i);
        if parent !in seen {
          seen := seen + {parent};
          out := out + [parent];
        }
        i := i + 1;
      }
      StillClosed(before, seen, d);
    }
    assert (set d | d in out) == seen;
  }

  /** `d` is the domain of one of the first `n` addresses, or a parent of one. */
  ghost predicate FromList(emails: seq<string>, n: nat, d: string)
    requires n <= |emails|
  {
    exists k, i ::
      && 0 <= k < n && 0 <= i < |Split(DomainOf(emails[k]), '.')|
      && d == Suffix(Split(DomainOf(emails[k]), '.'), i)
  }

  lemma Earlier(emails: seq<string>, k: nat, d: string)
    requires k < |emails| && FromList(emails, k, d)
    ensures FromList(emails, k + 1, d)
  {
    hide Split, Suffix, DomainOf;
  }

  lemma FromSelf(emails: seq<string>, k: nat, i: nat)
    requires k < |emails| && i < |Split(DomainOf(emails[k]), '.')|
    ensures FromList(emails, k + 1, Suffix(Split(DomainOf(emails[k]), '.'), i))
    ensures i == 0 ==> FromList(emails, k + 1, DomainOf(emails[k]))
  {
    hide DomainOf, Split;
    var d := DomainOf(emails[k]);
    JoinSplit(d, '.');
    assert Split(d, '.')[0..] == Split(d, '.');
  }

  lemma StillClosed(before: set<string>, seen: set<string>, d: string)
    requires Closed(before) && before <= seen && d in seen
    requires forall x | x in seen :: x in before || x == d
               || exists j :: 1 <= j <= |Split(d, '.')| - 2 && x == Suffix(Split(d, '.'), j)
    requires forall j | 1 <= j <= |Split(d, '.')| - 2 :: Suffix(Split(d, '.'), j) in seen
    ensures Closed(seen)
  {
    hide Split, Suffix;
    forall x | x in seen ensures ClosedAt(seen, x) {
      if x in before {
        assert ClosedAt(before, x);
      } else if x != d {
        var j :| 1 <= j <= |Split(d, '.')| - 2 && x == Suffix(Split(d, '.'), j);
        ParentOfParent(d, j);
        assert |Split(x, '.')| == |Split(d, '.')| - j;
      }
    }
  }

  // ---------------------------------------------------------------- batch load against the full table

  /** All active rows, as a walk over the whole table would see them. */
  function Active(table: Table): map<string, string> {
    map d | d in table && !table[d].excluded :: table[d].kind
  }

  /** The rows a batch query returns. */
  function Selected(table: Table, wanted: set<string>): set<string> {
    set d | d in table && !table[d].excluded && d in wanted
  }

  /** Every selected row is stored under its lower-cased domain; of two that fold to one key either may win. */
  ghost predicate Folded(table: Table, rows: set<string>, loaded: map<string, string>) {
    && (forall d | d in rows :: Lower(d) in loaded)
    && (forall k | k in loaded :: exists d | d in rows :: Lower(d) == k && d in table && table[d].kind == loaded[k])
  }

  /** loadDomainPolicyMap: the active rows whose domain is in the list, loaded in batches of 500. */
  method LoadDomainPolicyMap(table: Table, domains: seq<string>) returns (loaded: map<string, string>)
    ensures Folded(table, Selected(table, set d | d in domains), loaded)
  {
    hide Folded;
    loaded := map[];
    assert Folded(table, Selected(table, set d | d in domains[..0]), loaded) by { NothingFolded(table, domains); }
    var i := 0;
    while i < |domains|
      invariant 0 <= i <= |domains|
      invariant Folded(table, Selected(table, set d | d in domains[..i]), loaded)
    {
      var end := i + 500;
      if end > |domains| {
        end := |domains|;
      }
      loaded := FoldBatch(table, domains[i..end], loaded, Selected(table, set d | d in domains[..i]));
      SelectedMore(table, domains, i, end);
      i := end;
    }
    assert domains[..|domains|] == domains;
  }

  lemma NothingFolded(table: Table, domains: seq<string>)
    ensures Folded(table, Selected(table, set d | d in domains[..0]), map[])
  {
  }

  lemma SelectedMore(table: Table, domains: seq<string>, i: nat, end: nat)
    requires i <= end <= |domains|
    ensures Selected(table, set d | d in domains[..end])
         == Selected(table, set d | d in domains[..i]) + Selected(table, set d | d in domains[i..end])
  {
    assert domains[..end] == domains[..i] + domains[i..end];
  }

  /** One query's rows, in whatever order the database returns them. */
  method FoldBatch(table: Table, batch: seq<string>, start: map<string, string>, ghost before: set<string>)
    returns (loaded: map<string, string>)
    requires Folded(table, before, start)
    ensures Folded(table, before + Selected(table, set d | d in batch), loaded)
  {
    hide Folded, Lower;
    loaded := start;
    var all := set d | d in table && !table[d].excluded && d in batch;
    var rows := all;
    assert before + (all - rows) == before;
    while rows != {}
      invariant rows <= all
      invariant Folded(table, before + (all - rows), loaded)
      decreases rows
    {
      var d :| d in rows;
      FoldOne(table, before + (all - rows), loaded, d);
      loaded := loaded[Lower(d) := table[d].kind];
      assert before + (all - rows) + {d} == before + (all - (rows - {d}));
      rows := rows - {d};
    }
    assert before + (all - rows) == before + Selected(table, set d | d in batch);
  }

  lemma FoldOne(table: Table, rows: set<string>, loaded: map<string, string>, d: string)
    requires Folded(table, rows, loaded) && d in table
    ensures Folded(table, rows + {d}, loaded[Lower(d) := table[d].kind])
  {
    hide Lower;
    var more := loaded[Lower(d) := table[d].kind];
    forall k | k in more ensures exists x | x in rows + {d} :: Lower(x) == k && x in table && table[x].kind == more[k] {
      if k == Lower(d) {
        assert d in rows + {d};
      } else {
        var x :| x in rows && Lower(x) == k && x in table && table[x].kind == loaded[k];
        assert x in rows + {d};
      }
    }
  }

  function Restricted(table: Table, wanted: set<string>): map<string, string> {
    map d | d in table && !table[d].excluded && d in wanted :: table[d].kind
  }

  /** For a list in lower case folding is the identity: exactly the active rows of the list are loaded. */
  lemma FoldedLower(table: Table, wanted: set<string>, loaded: map<string, string>)
    requires Folded(table, Selected(table, wanted), loaded) && forall d | d in wanted :: Lower(d) == d
    ensures loaded == Restricted(table, wanted)
  {
    hide Lower;
    forall k ensures k in loaded <==> k in Restricted(table, wanted) {
      if k in Restricted(table, wanted) {
        assert k in Selected(table, wanted) && Lower(k) in loaded;
      }
    }
  }

  /** Walking the restricted map finds what walking the whole table finds. */
  lemma {:induction false} WalkAgrees(parts: seq<string>, i: nat, table: Table, wanted: set<string>)
    requires i <= |parts|
    requires forall j | i <= j <= |parts| - 2 :: Suffix(parts, j) in wanted
    ensures Walk(parts, i, Restricted(table, wanted)) == Walk(parts, i, Active(table))
    decreases |parts| - i
  {
    if i + 2 <= |parts| {
      WalkAgrees(parts, i + 1, table, wanted);
    }
  }

  lemma {:induction false} LowerSuffix(parts: seq<string>, i: nat)
    requires i < |parts| && Lower(Join(parts, '.')) == Join(parts, '.')
    ensures Lower(Suffix(parts, i)) == Suffix(parts, i)
  {
    if i == 0 {
      assert parts[0..] == parts;
    } else {
      var rest := Join(parts[1..], '.');
      var whole := Join(parts, '.');
      assert whole == parts[0] + ['.'] + rest;
      forall k | 0 <= k < |rest| ensures LowerChar(rest[k]) == rest[k] {
        assert whole[|parts[0]| + 1 + k] == rest[k] && Lower(whole)[|parts[0]| + 1 + k] == LowerChar(rest[k]);
      }
      LowerSuffix(parts[1..], i - 1);
      assert parts[1..][i - 1..] == parts[i..];
    }
  }

  /** The batch-loaded map decides every address of the list exactly as the full table does. */
  lemma RestrictedPolicyAgrees(emails: seq<string>, k: nat, table: Table, wanted: set<string>)
    requires k < |emails| && Closed(wanted)
    requires DomainOf(emails[k]) != "" ==> DomainOf(emails[k]) in wanted
    requires Normalize(DomainOf(emails[k])) == DomainOf(emails[k])
    ensures PolicyOf(DomainOf(emails[k]), Restricted(table, wanted)) == PolicyOf(DomainOf(emails[k]), Active(table))
  {
    hide Trim, Lower, Split, DomainOf;
    var d := DomainOf(emails[k]);
    var parts := Split(d, '.');
    JoinSplit(d, '.');
    if d == "" {
      EmptySplit();
      NoPolicies(parts, 0, Restricted(table, wanted));
      NoPolicies(parts, 0, Active(table));
    } else {
      assert ClosedAt(wanted, d);
      assert parts[0..] == parts;
      WalkAgrees(parts, 0, table, wanted);
    }
  }

  /** The domains listed for a canonical list are in lower case. */
  lemma ListedInLowerCase(emails: seq<string>, n: nat, d: string)
    requires n <= |emails| && FromList(emails, n, d) && forall e | e in emails :: Normalize(e) == e
    ensures Lower(d) == d
  {
    hide Trim, Split, DomainOf, Lower;
    var k, i :| 0 <= k < n && 0 <= i < |Split(DomainOf(emails[k]), '.')| && d == Suffix(Split(DomainOf(emails[k]), '.'), i);
    assert Normalize(emails[k]) == emails[k];
    LowerDomain(emails[k]);
    JoinSplit(DomainOf(emails[k]), '.');
    LowerSuffix(Split(DomainOf(emails[k]), '.'), i);
  }

  lemma LowerTail(s: string, k: nat)
    requires k <= |s| && Lower(s) == s
    ensures Lower(s[k..]) == s[k..]
  {
    forall i | 0 <= i < |s[k..]| ensures LowerChar(s[k..][i]) == s[k..][i] {
      assert s[k..][i] == s[k + i] && Lower(s)[k + i] == LowerChar(s[k + i]);
    }
  }

  lemma LowerDomain(email: string)
    requires Normalize(email) == email
    ensures Lower(DomainOf(email)) == DomainOf(email)
  {
    hide Trim, LastIndex;
    LowerIdempotent(email);
    LowerTail(email, LastIndex(email, '@') + 1);
  }

  /** For every queued address of a canonical list the map a job loads once answers as the table would. */
  lemma QueuedPolicyAgrees(emails: seq<string>, domains: seq<string>, k: nat, table: Table, loaded: map<string, string>)
    requires k < |emails| && IsValidMailboxSyntax(emails[k]) && forall e | e in emails :: Normalize(e) == e
    requires Closed(set d | d in domains) && forall d | d in domains :: FromList(emails, |emails|, d)
    requires forall i | 0 <= i < |emails| && DomainOf(emails[i]) != "" :: DomainOf(emails[i]) in domains
    requires Folded(table, Selected(table, set d | d in domains), loaded)
    ensures ResolveDomainIntel(emails[k], loaded) == ResolveDomainIntel(emails[k], Active(table))
  {
    hide Trim, Lower, Split, DomainOf, PolicyOf, IsValidMailboxSyntax, FromList, Folded, Closed, Suffix;
    assert emails[k] in emails;
    forall d | d in domains ensures Lower(d) == d {
      ListedInLowerCase(emails, |emails|, d);
    }
    FoldedLower(table, (set d | d in domains), loaded);
    ValidSyntaxDomain(emails[k]);
    RestrictedPolicyAgrees(emails, k, table, set d | d in domains);
  }

  lemma EmptySplit()
    ensures Split("", '.') == [""]
  {
  }

  lemma LowerIdempotent(d: string)
    requires Normalize(d) == d
    ensures Lower(d) == d
  {
    hide Trim;
    var t := Trim(d);
    assert |t| == |d|;
    assert forall i | 0 <= i < |d| :: d[i] == LowerChar(t[i]) && LowerChar(d[i]) == d[i];
  }

  // ---------------------------------------------------------------- the per-row walk

  datatype Flags = Flags(isFree: bool, isDisposable: bool, isSpamTrap: bool, isBlacklisted: bool)

  function FlagsFor(kind: string): Flags {
    Flags(kind == "free", kind == "disposable", kind in ["spam-trap", "spam_trap"], kind == "blacklist")
  }

  /** worker_repo.go: walks the table itself, one query per candidate. */
  method CheckDomainPolicy(table: Table, domain: string) returns (flags: Flags)
    ensures flags == TableFlags(table, domain)
  {
    flags := Flags(false, false, false, false);
    var parts := Split(domain, '.');
    if |parts| < 2 {
      return;
    }
    var i := 0;
    while i <= |parts| - 2
      invariant 0 <= i <= |parts| - 1
      invariant Walk(parts, 0, Active(table)) == Walk(parts, i, Active(table))
      invariant flags == Flags(false, false, false, false)
    {
      var candidate := Join(parts[i..], '.');
      if candidate in table && !table[candidate].excluded {
        flags := FlagsFor(table[candidate].kind);
        return;
      }
      i := i + 1;
    }
  }

  function TableFlags(table: Table, domain: string): Flags {
    match Walk(Split(domain, '.'), 0, Active(table))
    case Some(kind) => FlagsFor(kind)
    case None => Flags(false, false, false, false)
  }

  // ---------------------------------------------------------------- the policy of a domain, by its text

  /** `c` is `d` or one of its parent domains, with two labels or more. */
  ghost predicate ParentOrSelf(c: string, d: string) {
    '.' in c && (c == d || exists sub :: d == sub + "." + c)
  }

  /** `c` is the most specific of them with an active row. */
  ghost predicate Decides(table: Table, d: string, c: string) {
    && ParentOrSelf(c, d) && c in table && !table[c].excluded
    && forall other | other in table && !table[other].excluded && ParentOrSelf(other, d) :: |other| <= |c|
  }

  ghost predicate NoneDecides(table: Table, d: string) {
    forall other | other in table && !table[other].excluded :: !ParentOrSelf(other, d)
  }

  lemma {:induction false} SplitConcat(a: string, b: string)
    ensures Split(a + "." + b, '.') == Split(a, '.') + Split(b, '.')
    decreases |a|
  {
    hide Split, FirstIndex;
    var at := FirstIndex(a, '.');
    SplitStep(a, '.');
    assert "." == ['.'];
    if at < 0 {
      SplitFirst(a, b, '.');
    } else {
      var head, rest := a[..at], a[at + 1..];
      assert a + "." + b == head + ['.'] + (rest + "." + b);
      SplitFirst(head, rest + "." + b, '.');
      SplitConcat(rest, b);
      assert [head] + (Split(rest, '.') + Split(b, '.')) == [head] + Split(rest, '.') + Split(b, '.');
    }
  }

  lemma {:induction false} JoinConcat(a: seq<string>, b: seq<string>)
    requires a != [] && b != []
    ensures Join(a + b, '.') == Join(a, '.') + "." + Join(b, '.')
  {
    hide Join;
    assert "." == ['.'];
    JoinCons(a[0], a[1..], '.');
    JoinCons(a[0], a[1..] + b, '.');
    assert a == [a[0]] + a[1..] && a + b == [a[0]] + (a[1..] + b);
    if a[1..] != [] {
      JoinConcat(a[1..], b);
      assert Join(a + b, '.') == a[0] + ['.'] + (Join(a[1..], '.') + "." + Join(b, '.'));
    } else {
      assert a[1..] + b == b && a == [a[0]];
    }
  }

  lemma DottedText(c: string)
    ensures '.' in c <==> |Split(c, '.')| >= 2
  {
    hide Split, FirstIndex;
    SplitStep(c, '.');
    var at := FirstIndex(c, '.');
    if at >= 0 { assert c[at] == '.'; }
  }

  /** The candidates of the walk are the domain and its parents, as texts. */
  lemma CandidateIff(d: string, c: string)
    ensures ParentOrSelf(c, d) <==> exists j :: 0 <= j <= |Split(d, '.')| - 2 && Suffix(Split(d, '.'), j) == c
  {
    hide Split, Suffix;
    var parts := Split(d, '.');
    if ParentOrSelf(c, d) {
      var j := CandidateAt(d, c);
      assert Suffix(parts, j) == c;
    }
    if j :| 0 <= j <= |parts| - 2 && Suffix(parts, j) == c {
      CandidateText(d, j);
    }
  }

  lemma CandidateAt(d: string, c: string) returns (j: int)
    requires ParentOrSelf(c, d)
    ensures 0 <= j <= |Split(d, '.')| - 2 && Suffix(Split(d, '.'), j) == c
    ensures j == |Split(d, '.')| - |Split(c, '.')|
  {
    hide Split, Join;
    DottedText(c);
    JoinSplit(c, '.');
    if c == d {
      j := 0;
      assert Split(d, '.')[0..] == Split(d, '.');
    } else {
      var sub :| d == sub + "." + c;
      SplitConcat(sub, c);
      j := |Split(sub, '.')|;
      assert Split(d, '.')[j..] == Split(c, '.');
    }
  }

  lemma CandidateText(d: string, j: nat)
    requires j <= |Split(d, '.')| - 2
    ensures ParentOrSelf(Suffix(Split(d, '.'), j), d)
  {
    hide Split, Join;
    var parts, c := Split(d, '.'), Suffix(Split(d, '.'), j);
    SplitJoin(parts[j..], '.');
    DottedText(c);
    JoinSplit(d, '.');
    if j == 0 {
      assert parts[0..] == parts;
    } else {
      JoinConcat(parts[..j], parts[j..]);
      assert parts[..j] + parts[j..] == parts;
    }
  }

  lemma {:induction false} LaterIsShorter(parts: seq<string>, i: nat, j: nat)
    requires i < j < |parts|
    ensures |Suffix(parts, j)| < |Suffix(parts, i)|
    decreases j - i
  {
    hide Join;
    JoinCons(parts[i], parts[i + 1..], '.');
    assert parts[i..] == [parts[i]] + parts[i + 1..];
    if i + 1 < j { LaterIsShorter(parts, i + 1, j); }
  }

  /** The walk over the table finds the kind of the deciding domain, and nothing only if none decides. */
  lemma WalkDecides(table: Table, d: string)
    ensures forall c | Decides(table, d, c) :: Walk(Split(d, '.'), 0, Active(table)) == Some(table[c].kind)
    ensures NoneDecides(table, d) <==> Walk(Split(d, '.'), 0, Active(table)) == None
    ensures NoneDecides(table, d) || exists c :: Decides(table, d, c)
  {
    hide Split, Suffix, Walk, ParentOrSelf;
    var parts := Split(d, '.');
    forall c { CandidateIff(d, c); }
    WalkIsFirst(parts, 0, Active(table));
    match Walk(parts, 0, Active(table))
    case None =>
    case Some(kind) =>
      var j :| 0 <= j <= |parts| - 2 && Suffix(parts, j) in Active(table) && Active(table)[Suffix(parts, j)] == kind
               && forall k | 0 <= k < j :: Suffix(parts, k) !in Active(table);
      assert Suffix(parts, j) in table && ParentOrSelf(Suffix(parts, j), d);
      forall other | other in table && !table[other].excluded && ParentOrSelf(other, d) ensures |other| <= |Suffix(parts, j)| {
        var k :| 0 <= k <= |parts| - 2 && Suffix(parts, k) == other;
        assert other in Active(table);
        if j < k { LaterIsShorter(parts, j, k); }
      }
      assert Decides(table, d, Suffix(parts, j));
      forall c | Decides(table, d, c) ensures c == Suffix(parts, j) {
        var k :| 0 <= k <= |parts| - 2 && Suffix(parts, k) == c;
        assert c in Active(table);
        if j < k { LaterIsShorter(parts, j, k); }
      }
  }

  /** What the per-row reader says about a domain: the flag of the most specific active row, or nothing. */
  lemma FlagsMean(table: Table, d: string)
    ensures forall c | Decides(table, d, c) ::
              var kind := table[c].kind;
              TableFlags(table, d) == Flags(kind == "free", kind == "disposable", kind in ["spam-trap", "spam_trap"], kind == "blacklist")
    ensures NoneDecides(table, d) ==> TableFlags(table, d) == Flags(false, false, false, false)
    ensures NoneDecides(table, d) || exists c :: Decides(table, d, c)
  {
    hide Split, Walk, Decides, NoneDecides;
    WalkDecides(table, d);
  }

  /** What the batch lookup says about a domain, on the active rows of the table. */
  lemma PolicyMeans(table: Table, raw: string, d: string)
    requires CanonicalOf(raw, d)
    ensures forall c | Decides(table, d, c) :: PolicyOf(raw, Active(table)) == table[c].kind
    ensures NoneDecides(table, d) ==> PolicyOf(raw, Active(table)) == ""
  {
    hide Split, Walk, Decides, NoneDecides, Normalize, CanonicalOf;
    NormalizeMeans(raw, d);
    WalkDecides(table, d);
  }

  /** The kinds the service stores, and how each may be written. */
  lemma KindSpellings(raw: string, e: string)
    requires CanonicalOf(raw, e)
    ensures NormalizeDomainType(raw) ==
            if e in ["disposable", "free", "blacklist", "spam-trap"] then Some(e)
            else if e == "spam_trap" then Some("spam-trap") else None
  {
    hide Normalize, CanonicalOf;
    NormalizeMeans(raw, e);
  }

  // ---------------------------------------------------------------- what the service stores

  const ALLOWED_KINDS := {"disposable", "free", "blacklist", "spam-trap"}

  /** normalizeDomainType, through which every row is written; None is "invalid domain type". */
  function NormalizeDomainType(raw: string): (kind: Option<string>)
    ensures kind.Some? ==> kind.value in ALLOWED_KINDS
  {
    var lowered := Normalize(raw);
    var kind := if lowered == "spam_trap" then "spam-trap" else lowered;
    if kind in ALLOWED_KINDS then Some(kind) else None
  }

  /** Every row was written by the service. */
  ghost predicate Storable(table: Table) {
    forall d | d in table :: exists raw :: NormalizeDomainType(raw) == Some(table[d].kind)
  }

  /** On a stored table the batch reader settles an address exactly when the per-row reader flags it, with the verdict
      and the flags that reader's policy override gives. */
  lemma ReadersAgree(email: string, table: Table)
    requires Normalize(DomainOf(email)) == DomainOf(email) && Storable(table)
    ensures var flags, intel := TableFlags(table, DomainOf(email)), ResolveDomainIntel(email, Active(table));
            && (intel.Some? <==> flags.isDisposable || flags.isSpamTrap || flags.isBlacklisted)
            && (intel.Some? ==>
                  && intel.value.isDisposable == flags.isDisposable
                  && intel.value.isSpamTrap == flags.isSpamTrap
                  && intel.value.isBlacklisted == flags.isBlacklisted
                  && intel.value.verdict == (if flags.isDisposable then Disposable else Invalid))
  {
    hide Split, Trim, DomainOf, NormalizeDomainType, Suffix;
    WalkIsFirst(Split(DomainOf(email), '.'), 0, Active(table));
    if Walk(Split(DomainOf(email), '.'), 0, Active(table)).Some? {
      var d :| d in Active(table) && Active(table)[d] == Walk(Split(DomainOf(email), '.'), 0, Active(table)).value;
      assert d in table;
    }
  }

  /** A row written past the service with the spelling `spam_trap` would part the readers, and no other row would. */
  lemma ReadersAgreeIff(email: string, table: Table)
    requires Normalize(DomainOf(email)) == DomainOf(email)
    ensures var flags := TableFlags(table, DomainOf(email));
            (ResolveDomainIntel(email, Active(table)).Some? <==> flags.isDisposable || flags.isSpamTrap || flags.isBlacklisted)
            <==> PolicyOf(DomainOf(email), Active(table)) != "spam_trap"
  {
    hide Split, Trim, DomainOf;
  }

  /** Such a table and an address the readers disagree on. */
  lemma ReadersDisagree() returns (email: string, table: Table)
    ensures Normalize(DomainOf(email)) == DomainOf(email)
    ensures ResolveDomainIntel(email, Active(table)) == None && TableFlags(table, DomainOf(email)).isSpamTrap
  {
    email, table := "a@bb.co", map["bb.co" := Policy("spam_trap", false)];
    hide Split, Join, DomainOf, Normalize;
    SmallDomain();
    JoinSplit("bb.co", '.');
    assert ["bb", "co"][0..] == ["bb", "co"];
    assert Suffix(["bb", "co"], 0) == "bb.co";
    assert Walk(["bb", "co"], 0, Active(table)) == Some("spam_trap");
  }

  lemma SmallDomain()
    ensures DomainOf("a@bb.co") == "bb.co" && Normalize("bb.co") == "bb.co" && Split("bb.co", '.') == ["bb", "co"]
  {
    hide Normalize, Split, Join, LastIndex;
    assert "a@bb.co"[1] == '@' && forall i | 2 <= i < 7 :: "a@bb.co"[i] != '@';
    assert LastIndex("a@bb.co", '@') == 1 && "a@bb.co"[2..] == "bb.co";
    SmallCanonical();
    JoinCons("bb", ["co"], '.');
    JoinCons("co", [], '.');
    assert ["bb"] + ["co"] == ["bb", "co"];
    assert "bb" + ['.'] + "co" == "bb.co";
    forall p | p in ["bb", "co"] ensures '.' !in p {
    }
    SplitJoin(["bb", "co"], '.');
  }

  lemma SmallCanonical()
    ensures Normalize("bb.co") == "bb.co"
  {
    var d := "bb.co";
    assert !IsSpace(d[0]) && !IsSpace(d[4]);
    assert forall i | 0 <= i < |d| :: LowerChar(d[i]) == d[i];
  }
}
