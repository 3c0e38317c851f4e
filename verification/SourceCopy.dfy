/** service/prepare_lock.go: the Redis copy of a stored list, joined with newlines and split again. */
module SourceCopy {
  import opened Text

  method JoinLines(emails: seq<string>) returns (payload: string)
    ensures payload == Join(emails, '\n')
  {
    payload := "";
    for i := 0 to |emails|
      invariant payload == Join(emails[..i], '\n')
    {
      JoinSnoc(emails[..i], emails[i]);
      assert emails[..i + 1] == emails[..i] + [emails[i]];
      if i > 0 {
        payload := payload + ['\n'];
      }
      payload := payload + emails[i];
    }
    assert emails[..|emails|] == emails;
  }

  lemma {:induction false} JoinSnoc(parts: seq<string>, last: string)
    ensures Join(parts + [last], '\n') == if parts == [] then last else Join(parts, '\n') + ['\n'] + last
  {
    if |parts| == 1 {
      assert (parts + [last])[1..] == [last];
    } else if |parts| > 1 {
      JoinSnoc(parts[1..], last);
      assert (parts + [last])[1..] == parts[1..] + [last];
    }
  }

  /** A line without the carriage return that may end it. */
  function Chomp(line: string): string {
    if line != [] && line[|line| - 1] == '\r' then line[..|line| - 1] else line
  }

  function Line(line: string): seq<string> {
    if Chomp(line) == "" then [] else [Chomp(line)]
  }

  /** The lines that have something on them. */
  function NonEmpty(lines: seq<string>): seq<string> {
    if lines == [] then []
    else Line(lines[0]) + NonEmpty(lines[1..])
  }

  function Lines(s: string): seq<string> {
    NonEmpty(Split(s, '\n'))
  }

  method SplitNonEmptyLines(s: string) returns (out: seq<string>)
    ensures out == Lines(s)
  {
    hide Lines, Line;
    out := [];
    var start := 0;
    assert s[0..] == s;
    for i := 0 to |s| + 1
      invariant 0 <= start <= i && (i == |s| + 1 || (start <= |s| && Lines(s) == out + Lines(s[start..]) && '\n' !in s[start..i]))
      invariant i == |s| + 1 ==> out == Lines(s)
    {
      if i == |s| || s[i] == '\n' {
        var line := s[start..i];
        NextLine(s, start, i);
        out := AddLine(out, line);
        start := i + 1;
      } else {
        assert s[start..i + 1] == s[start..i] + [s[i]];
      }
    }
  }

  method AddLine(out: seq<string>, raw: string) returns (more: seq<string>)
    ensures more == out + Line(raw)
  {
    var line := raw;
    if |line| > 0 && line[|line| - 1] == '\r' {
      line := line[..|line| - 1];
    }
    more := if line != "" then out + [line] else out;
  }

  lemma NextLine(s: string, start: nat, i: nat)
    requires start <= i <= |s| && '\n' !in s[start..i] && (i == |s| || s[i] == '\n')
    ensures Lines(s[start..]) == Line(s[start..i]) + (if i == |s| then [] else Lines(s[i + 1..]))
  {
    hide Lines, Line;
    SliceOfTail(s, start, i);
    if i < |s| { TailOfTail(s, start, i); }
    FirstLine(s[start..], i - start);
  }

  lemma SliceOfTail(s: string, start: nat, i: nat)
    requires start <= i <= |s|
    ensures s[start..][..i - start] == s[start..i]
  {
  }

  lemma TailOfTail(s: string, start: nat, i: nat)
    requires start <= i < |s|
    ensures s[start..][i - start + 1..] == s[i + 1..] && s[start..][i - start] == s[i]
  {
  }

  lemma FirstLine(s: string, n: nat)
    requires n <= |s| && '\n' !in s[..n] && (n == |s| || s[n] == '\n')
    ensures Lines(s) == Line(s[..n]) + (if n == |s| then [] else Lines(s[n + 1..]))
  {
    assert forall i | 0 <= i < n :: s[i] == s[..n][i];
    assert FirstIndex(s, '\n') == if n == |s| then -1 else n;
    if n == |s| {
      assert s[..n] == s && Split(s, '\n') == [s];
      assert NonEmpty([s]) == Line(s) + NonEmpty([]);
    } else {
      assert ([s[..n]] + Split(s[n + 1..], '\n'))[1..] == Split(s[n + 1..], '\n');
    }
  }

  lemma KeptFirst(lines: seq<string>)
    requires lines != []
    ensures lines[0] in lines && [lines[0]] + lines[1..] == lines && forall l | l in lines[1..] :: l in lines
  {
  }

  lemma {:induction false} AllKept(lines: seq<string>)
    requires forall l | l in lines :: Chomp(l) == l != ""
    ensures NonEmpty(lines) == lines
  {
    hide Chomp;
    if lines != [] {
      KeptFirst(lines);
      AllKept(lines[1..]);
    }
  }

  /** What a line comes to: its text without one carriage return at the end. */
  lemma LineMeans(text: string)
    ensures Line(text + "\r") == if text == "" then [] else [text]
    ensures (text == "" || text[|text| - 1] != '\r') ==> Line(text) == if text == "" then [] else [text]
  {
    assert "\r" == ['\r'] && (text + "\r")[..|text|] == text;
  }

  /** The lines of a text come one after the other, each for itself. */
  lemma LinesMean(lines: seq<string>, more: seq<string>)
    requires lines != [] && more != [] && forall l | l in lines + more :: '\n' !in l
    ensures Lines(Join(lines + more, '\n')) == Lines(Join(lines, '\n')) + Lines(Join(more, '\n'))
    ensures |lines| == 1 ==> Lines(Join(lines, '\n')) == Line(lines[0])
  {
    hide Split, Join, Line;
    forall l | l in lines ensures '\n' !in l { assert l in lines + more; }
    forall l | l in more ensures '\n' !in l { assert l in lines + more; }
    SplitJoin(lines, '\n');
    SplitJoin(more, '\n');
    SplitJoin(lines + more, '\n');
    NonEmptyConcat(lines, more);
    if |lines| == 1 { assert NonEmpty(lines) == Line(lines[0]) + []; }
  }

  lemma {:induction false} NonEmptyConcat(a: seq<string>, b: seq<string>)
    ensures NonEmpty(a + b) == NonEmpty(a) + NonEmpty(b)
  {
    hide Line;
    if a == [] {
      assert a + b == b;
    } else {
      NonEmptyConcat(a[1..], b);
      assert (a + b)[1..] == a[1..] + b && (a + b)[0] == a[0];
      Regroup(Line(a[0]), NonEmpty(a[1..]), NonEmpty(b));
    }
  }

  lemma Regroup(a: seq<string>, b: seq<string>, c: seq<string>)
    ensures a + (b + c) == a + b + c
  {
  }

  /** A list of non-empty one-line addresses comes back from its copy as it was stored. */
  lemma CopyRoundTrip(emails: seq<string>)
    requires emails != [] && forall e | e in emails :: e != "" && '\n' !in e && e[|e| - 1] != '\r'
    ensures Lines(Join(emails, '\n')) == emails
  {
    SplitJoin(emails, '\n');
    AllKept(emails);
  }
}
