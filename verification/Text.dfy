/** The string operations of Go's `strings` package that the backend relies on, over ASCII. */
module Text {

  predicate IsSpace(c: char) {
    c == ' ' || c == '\t' || c == '\n' || c == '\r' || c as int == 11 || c as int == 12
  }

  function LowerChar(c: char): char {
    if 'A' <= c <= 'Z' then (c as int + 32) as char else c
  }

  function Lower(s: string): string {
    seq(|s|, i requires 0 <= i < |s| => LowerChar(s[i]))
  }

  function TrimLeft(s: string): string {
    if s != [] && IsSpace(s[0]) then TrimLeft(s[1..]) else s
  }

  function TrimRight(s: string): string {
    if s != [] && IsSpace(s[|s| - 1]) then TrimRight(s[..|s| - 1]) else s
  }

  function Trim(s: string): string {
    TrimRight(TrimLeft(s))
  }

  /** `strings.ToLower(strings.TrimSpace(s))`, the canonical form of every address. */
  function Normalize(s: string): string {
    Lower(Trim(s))
  }

  predicate Trimmed(s: string) {
    s == [] || (!IsSpace(s[0]) && !IsSpace(s[|s| - 1]))
  }

  lemma {:induction false} TrimLeftStarts(s: string)
    ensures TrimLeft(s) == [] || !IsSpace(TrimLeft(s)[0])
  {
    if s != [] && IsSpace(s[0]) { TrimLeftStarts(s[1..]); }
  }

  lemma {:induction false} TrimRightEnds(s: string)
    ensures TrimRight(s) == [] || (!IsSpace(TrimRight(s)[|TrimRight(s)| - 1]) && TrimRight(s)[0] == s[0])
  {
    if s != [] && IsSpace(s[|s| - 1]) { TrimRightEnds(s[..|s| - 1]); }
  }

  lemma TrimTrims(s: string)
    ensures Trimmed(Trim(s))
  {
    TrimLeftStarts(s);
    TrimRightEnds(TrimLeft(s));
  }

  /** Text without blanks and capitals is canonical. */
  lemma PlainText(s: string)
    requires forall i | 0 <= i < |s| :: !IsSpace(s[i]) && LowerChar(s[i]) == s[i]
    ensures Normalize(s) == s
  {
    assert Trim(s) == s;
  }

  /** Normalising twice is normalising once. */
  lemma NormalizeIdempotent(s: string)
    ensures Normalize(Normalize(s)) == Normalize(s)
  {
    var n := Normalize(s);
    TrimTrims(s);
    assert |n| == |Trim(s)| && Trimmed(n);
    assert Trim(n) == n;
    assert forall i | 0 <= i < |n| :: LowerChar(n[i]) == n[i];
  }

  // ---------------------------------------------------------------- what canonical text is, letter by letter

  const CAPITALS := "ABCDEFGHIJKLMNOPQRSTUVWXYZ"
  const SMALL := "abcdefghijklmnopqrstuvwxyz"
  const BLANKS := " \t\n\r\U{0B}\U{0C}"

  /** `l` is the small letter of the capital `c`, or `c` itself if it is none. */
  predicate SmallOf(c: char, l: char) {
    || (exists k | 0 <= k < 26 :: c == CAPITALS[k] && l == SMALL[k])
    || (c !in CAPITALS && l == c)
  }

  lemma Alphabet(k: nat)
    requires k < 26
    ensures |CAPITALS| == |SMALL| == 26
    ensures CAPITALS[k] as int == 'A' as int + k && SMALL[k] as int == 'a' as int + k
  {
  }

  lemma Capital(c: char)
    ensures c in CAPITALS <==> 'A' <= c <= 'Z'
  {
    hide CAPITALS, SMALL;
    Alphabet(0);
    forall k: nat | k < 26 { Alphabet(k); }
    if 'A' <= c <= 'Z' {
      Alphabet(c as int - 'A' as int);
      assert CAPITALS[c as int - 'A' as int] == c;
    }
  }

  lemma SmallLetter(c: char)
    ensures c in SMALL <==> 'a' <= c <= 'z'
  {
    hide CAPITALS, SMALL;
    Alphabet(0);
    forall k: nat | k < 26 { Alphabet(k); }
    if 'a' <= c <= 'z' {
      Alphabet(c as int - 'a' as int);
      assert SMALL[c as int - 'a' as int] == c;
    }
  }

  /** Every capital becomes its small letter, and every other character stays. */
  lemma LowerLetters(c: char, l: char)
    ensures LowerChar(c) == l <==> SmallOf(c, l)
  {
    hide CAPITALS, SMALL;
    Capital(c);
    forall k: nat | k < 26 { Alphabet(k); }
    if 'A' <= c <= 'Z' {
      var k := c as int - 'A' as int;
      assert CAPITALS[k] == c && LowerChar(c) == SMALL[k];
    }
  }

  lemma Blank(c: char)
    ensures IsSpace(c) <==> c in BLANKS
  {
    assert BLANKS == [' ', '\t', '\n', '\r', 11 as char, 12 as char];
  }

  predicate OnlyBlanks(s: string) {
    forall i | 0 <= i < |s| :: s[i] in BLANKS
  }

  /** No blank at either end. */
  predicate Bare(s: string) {
    s == "" || (s[0] !in BLANKS && s[|s| - 1] !in BLANKS)
  }

  lemma {:induction false} TrimLeftTakes(before: string, rest: string)
    requires OnlyBlanks(before) && (rest == "" || rest[0] !in BLANKS)
    ensures TrimLeft(before + rest) == rest
    decreases |before|
  {
    if before == "" {
      assert before + rest == rest;
      if rest != "" { Blank(rest[0]); }
    } else {
      Blank(before[0]);
      assert (before + rest)[1..] == before[1..] + rest;
      TrimLeftTakes(before[1..], rest);
    }
  }

  lemma {:induction false} TrimRightTakes(rest: string, after: string)
    requires OnlyBlanks(after) && (rest == "" || rest[|rest| - 1] !in BLANKS)
    ensures TrimRight(rest + after) == rest
    decreases |after|
  {
    if after == "" {
      assert rest + after == rest;
      if rest != "" { Blank(rest[|rest| - 1]); }
    } else {
      Blank(after[|after| - 1]);
      assert (rest + after)[..|rest + after| - 1] == rest + after[..|after| - 1];
      TrimRightTakes(rest, after[..|after| - 1]);
    }
  }

  lemma {:induction false} OnlyBlanksTrimmed(s: string)
    requires OnlyBlanks(s)
    ensures TrimLeft(s) == ""
  {
    if s != "" {
      Blank(s[0]);
      OnlyBlanksTrimmed(s[1..]);
    }
  }

  /** Trimming takes away the blanks at both ends, and nothing else. */
  lemma TrimExact(before: string, core: string, after: string)
    requires OnlyBlanks(before) && OnlyBlanks(after) && Bare(core)
    ensures Trim(before + core + after) == core
  {
    if core == "" {
      assert before + core + after == before + after;
      OnlyBlanksTrimmed(before + after);
    } else {
      assert before + core + after == before + (core + after);
      TrimLeftTakes(before, core + after);
      TrimRightTakes(core, after);
    }
  }

  lemma {:induction false} BlanksBefore(s: string)
    ensures exists before :: OnlyBlanks(before) && s == before + TrimLeft(s)
  {
    if s != "" && IsSpace(s[0]) {
      BlanksBefore(s[1..]);
      var before :| OnlyBlanks(before) && s[1..] == before + TrimLeft(s[1..]);
      Blank(s[0]);
      assert OnlyBlanks([s[0]] + before) && s == [s[0]] + before + TrimLeft(s);
    } else {
      assert OnlyBlanks("") && s == "" + TrimLeft(s);
    }
  }

  lemma {:induction false} BlanksAfter(s: string)
    ensures exists after :: OnlyBlanks(after) && s == TrimRight(s) + after
  {
    if s != "" && IsSpace(s[|s| - 1]) {
      var front := s[..|s| - 1];
      BlanksAfter(front);
      var after :| OnlyBlanks(after) && front == TrimRight(front) + after;
      Blank(s[|s| - 1]);
      assert OnlyBlanks(after + [s[|s| - 1]]) && s == TrimRight(s) + (after + [s[|s| - 1]]);
    } else {
      assert OnlyBlanks("") && s == TrimRight(s) + "";
    }
  }

  /** `core` is `raw` without the blanks around it. */
  ghost predicate CoreOf(raw: string, core: string) {
    Bare(core) && exists before, after :: OnlyBlanks(before) && OnlyBlanks(after) && raw == before + core + after
  }

  lemma TrimMeans(raw: string, core: string)
    ensures Trim(raw) == core <==> CoreOf(raw, core)
  {
    hide OnlyBlanks, Bare;
    if CoreOf(raw, core) {
      var before, after :| OnlyBlanks(before) && OnlyBlanks(after) && raw == before + core + after;
      TrimExact(before, core, after);
    }
    if Trim(raw) == core {
      BlanksBefore(raw);
      BlanksAfter(TrimLeft(raw));
      var before :| OnlyBlanks(before) && raw == before + TrimLeft(raw);
      var after :| OnlyBlanks(after) && TrimLeft(raw) == core + after;
      assert raw == before + core + after;
      TrimmedBare(raw);
    }
  }

  lemma TrimmedBare(raw: string)
    ensures Bare(Trim(raw))
  {
    hide Trim;
    TrimTrims(raw);
    var t := Trim(raw);
    if t != "" {
      Blank(t[0]);
      Blank(t[|t| - 1]);
    }
  }

  /** `e` is `s` in small letters. */
  predicate InSmall(s: string, e: string) {
    |e| == |s| && forall i | 0 <= i < |e| :: SmallOf(s[i], e[i])
  }

  lemma LowerMeans(s: string, e: string)
    ensures Lower(s) == e <==> InSmall(s, e)
  {
    hide LowerChar, SmallOf;
    if |e| == |s| {
      forall i | 0 <= i < |s| ensures LowerChar(s[i]) == e[i] <==> SmallOf(s[i], e[i]) { LowerLetters(s[i], e[i]); }
    }
  }

  /** `e` is `raw` without the blanks around it, in small letters. */
  ghost predicate CanonicalOf(raw: string, e: string) {
    exists core :: CoreOf(raw, core) && InSmall(core, e)
  }

  /** Normalising gives the one canonical form. */
  lemma NormalizeMeans(raw: string, e: string)
    ensures Normalize(raw) == e <==> CanonicalOf(raw, e)
  {
    hide Trim, CoreOf, Lower, InSmall;
    if Normalize(raw) == e {
      TrimMeans(raw, Trim(raw));
      LowerMeans(Trim(raw), e);
    }
    if CanonicalOf(raw, e) {
      var core :| CoreOf(raw, core) && InSmall(core, e);
      TrimMeans(raw, core);
      LowerMeans(core, e);
    }
  }

  /** Position of the last occurrence of `c`, or -1 (`strings.LastIndexByte`). */
  function LastIndex(s: string, c: char): (r: int)
    ensures -1 <= r < |s|
    ensures r >= 0 ==> s[r] == c
    ensures forall i | r < i < |s| :: s[i] != c
  {
    if s == [] then -1
    else if s[|s| - 1] == c then |s| - 1
    else LastIndex(s[..|s| - 1], c)
  }

  /** Position of the first occurrence of `c`, or -1 (`strings.IndexByte`). */
  function FirstIndex(s: string, c: char): (r: int)
    ensures -1 <= r < |s|
    ensures r >= 0 ==> s[r] == c
    ensures forall i | 0 <= i < (if r < 0 then |s| else r) :: s[i] != c
  {
    if s == [] then -1
    else if s[0] == c then 0
    else var r := FirstIndex(s[1..], c); if r < 0 then -1 else r + 1
  }

  /** `strings.Split(s, sep)` for a one-byte separator: never empty. */
  function Split(s: string, sep: char): (parts: seq<string>)
    ensures |parts| > 0
    ensures forall p | p in parts :: sep !in p
  {
    var at := FirstIndex(s, sep);
    if at < 0 then [s] else [s[..at]] + Split(s[at + 1..], sep)
  }

  /** `strings.Join(parts, sep)`. */
  function Join(parts: seq<string>, sep: char): string {
    if parts == [] then ""
    else if |parts| == 1 then parts[0]
    else parts[0] + [sep] + Join(parts[1..], sep)
  }

  /** One unfolding of Split. */
  lemma SplitStep(s: string, sep: char)
    ensures var at := FirstIndex(s, sep);
            Split(s, sep) == if at < 0 then [s] else [s[..at]] + Split(s[at + 1..], sep)
  {
    hide FirstIndex;
  }

  /** One unfolding of Join. */
  lemma JoinCons(head: string, rest: seq<string>, sep: char)
    ensures Join([head], sep) == head
    ensures rest != [] ==> Join([head] + rest, sep) == head + [sep] + Join(rest, sep)
  {
    assert ([head] + rest)[0] == head && ([head] + rest)[1..] == rest;
  }

  lemma {:induction false} JoinSplit(s: string, sep: char)
    ensures Join(Split(s, sep), sep) == s
    decreases |s|
  {
    hide Split, Join, FirstIndex;
    var at := FirstIndex(s, sep);
    SplitStep(s, sep);
    if at < 0 {
      JoinCons(s, [], sep);
    } else {
      var rest := Split(s[at + 1..], sep);
      JoinSplit(s[at + 1..], sep);
      JoinCons(s[..at], rest, sep);
      assert s == s[..at] + [sep] + s[at + 1..];
    }
  }

  lemma SplitAt(head: string, tail: string, sep: char)
    requires sep !in head
    ensures FirstIndex(head, sep) == -1
    ensures FirstIndex(head + [sep] + tail, sep) == |head|
  {
    hide FirstIndex;
    var s := head + [sep] + tail;
    assert s[|head|] == sep;
    assert forall i | 0 <= i < |head| :: s[i] == head[i];
  }

  lemma LastIndexIs(s: string, c: char, k: nat)
    requires k < |s| && s[k] == c && forall i | k < i < |s| :: s[i] != c
    ensures LastIndex(s, c) == k
  {
    hide LastIndex;
  }

  lemma AfterHead(head: string, tail: string, sep: char, i: nat)
    requires |head| < i < |head + [sep] + tail|
    ensures (head + [sep] + tail)[i] in tail
  {
    assert (head + [sep] + tail)[i] == tail[i - |head| - 1];
  }

  lemma LastAt(head: string, tail: string, sep: char)
    requires sep !in tail
    ensures LastIndex(head + [sep] + tail, sep) == |head|
  {
    hide LastIndex;
    var s := head + [sep] + tail;
    forall i | |head| < i < |s| ensures s[i] != sep {
      AfterHead(head, tail, sep, i);
    }
    LastIndexIs(s, sep, |head|);
  }

  lemma {:induction false} SplitJoin(parts: seq<string>, sep: char)
    requires parts != [] && forall p | p in parts :: sep !in p
    ensures Split(Join(parts, sep), sep) == parts
    decreases |parts|
  {
    hide Split, Join, FirstIndex;
    var head, rest := parts[0], parts[1..];
    assert parts == [head] + rest && head in parts;
    JoinCons(head, rest, sep);
    if rest == [] {
      assert parts == [head];
      SplitAt(head, "", sep);
      SplitStep(head, sep);
    } else {
      assert forall p | p in rest :: p in parts;
      SplitJoin(rest, sep);
      SplitFirst(head, Join(rest, sep), sep);
    }
  }

  lemma SplitFirst(head: string, tail: string, sep: char)
    requires sep !in head
    ensures Split(head + [sep] + tail, sep) == [head] + Split(tail, sep)
  {
    hide Split, FirstIndex;
    var s := head + [sep] + tail;
    SplitAt(head, tail, sep);
    SplitStep(s, sep);
    assert s[..|head|] == head && s[|head| + 1..] == tail;
  }
}
