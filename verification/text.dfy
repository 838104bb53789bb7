/** The string operations the loop leans on: whitespace, trimming, splitting, lines and case. */
module Text {
  import opened Basics

  /** The characters with the Unicode White_Space property. */
  predicate IsWs(c: char) {
    || '\t' <= c <= '\r'
    || c == ' ' || c == '\U{85}' || c == '\U{A0}' || c == '\U{1680}'
    || '\U{2000}' <= c <= '\U{200A}'
    || c == '\U{2028}' || c == '\U{2029}' || c == '\U{202F}' || c == '\U{205F}' || c == '\U{3000}'
  }

  predicate AllWs(s: string) {
    forall i | 0 <= i < |s| :: IsWs(s[i])
  }

  predicate NoWs(s: string) {
    forall i | 0 <= i < |s| :: !IsWs(s[i])
  }

  function TrimStart(s: string): string {
    if s != "" && IsWs(s[0]) then TrimStart(s[1..]) else s
  }

  function TrimEnd(s: string): string {
    if s != "" && IsWs(s[|s| - 1]) then TrimEnd(s[..|s| - 1]) else s
  }

  function Trim(s: string): string {
    TrimEnd(TrimStart(s))
  }

  /** Neither end is whitespace. */
  predicate Trimmed(s: string) {
    s == "" || (!IsWs(s[0]) && !IsWs(s[|s| - 1]))
  }

  lemma {:induction false} TrimStartSplits(s: string) returns (a: string)
    ensures s == a + TrimStart(s) && AllWs(a)
    ensures TrimStart(s) == "" || !IsWs(TrimStart(s)[0])
    decreases s
  {
    if s != "" && IsWs(s[0]) {
      var b := TrimStartSplits(s[1..]);
      a := [s[0]] + b;
      assert s == [s[0]] + s[1..];
    } else {
      a := "";
    }
  }

  lemma {:induction false} TrimEndSplits(s: string) returns (b: string)
    ensures s == TrimEnd(s) + b && AllWs(b)
    ensures TrimEnd(s) == "" || !IsWs(TrimEnd(s)[|TrimEnd(s)| - 1])
    decreases s
  {
    if s != "" && IsWs(s[|s| - 1]) {
      var c := TrimEndSplits(s[..|s| - 1]);
      b := c + [s[|s| - 1]];
      assert s == s[..|s| - 1] + [s[|s| - 1]];
    } else {
      b := "";
    }
  }

  lemma TrimSplits(s: string) returns (a: string, b: string)
    ensures s == a + Trim(s) + b && AllWs(a) && AllWs(b) && Trimmed(Trim(s))
  {
    a := TrimStartSplits(s);
    b := TrimEndSplits(TrimStart(s));
    if Trim(s) != "" {
      assert TrimStart(s)[0] == Trim(s)[0];
    }
  }

  lemma {:induction false} TrimStartDrops(a: string, m: string)
    requires AllWs(a) && (m == "" || !IsWs(m[0]))
    ensures TrimStart(a + m) == m
    decreases a
  {
    if a == "" {
      assert a + m == m;
    } else {
      assert (a + m)[1..] == a[1..] + m;
      TrimStartDrops(a[1..], m);
    }
  }

  lemma {:induction false} TrimEndDrops(m: string, b: string)
    requires AllWs(b) && (m == "" || !IsWs(m[|m| - 1]))
    ensures TrimEnd(m + b) == m
    decreases b
  {
    if b == "" {
      assert m + b == m;
    } else {
      assert (m + b)[..|m + b| - 1] == m + b[..|b| - 1];
      TrimEndDrops(m, b[..|b| - 1]);
    }
  }

  /** Trimming finds the middle of any text that is whitespace around a trimmed middle. */
  lemma TrimIs(a: string, m: string, b: string)
    requires AllWs(a) && AllWs(b) && Trimmed(m)
    ensures Trim(a + m + b) == m
  {
    if m == "" {
      assert a + m + b == (a + b) + "";
      TrimStartDrops(a + b, "");
    } else {
      assert a + m + b == a + (m + b);
      TrimStartDrops(a, m + b);
      TrimEndDrops(m, b);
    }
  }

  lemma TrimOfTrimmed(m: string)
    requires Trimmed(m)
    ensures Trim(m) == m
  {
    TrimIs("", m, "");
    assert "" + m + "" == m;
  }

  // --- finding and splitting ---

  predicate OccursAt(s: string, sep: string, i: nat) {
    i + |sep| <= |s| && s[i..i + |sep|] == sep
  }

  function Find(s: string, sep: string): Option<nat> {
    if |s| < |sep| then None
    else if s[..|sep|] == sep then Some(0)
    else if s == "" then None
    else
      match Find(s[1..], sep)
      case Some(i) => Some(i + 1)
      case None => None
  }

  lemma {:induction false} FindSpec(s: string, sep: string)
    ensures match Find(s, sep)
            case Some(i) => OccursAt(s, sep, i) && forall j | 0 <= j < i :: !OccursAt(s, sep, j)
            case None => forall j: nat :: !OccursAt(s, sep, j)
    decreases s
  {
    if |s| >= |sep| && s[..|sep|] != sep && s != "" {
      FindSpec(s[1..], sep);
      forall j: nat | j > 0 ensures OccursAt(s, sep, j) <==> OccursAt(s[1..], sep, j - 1) {
        OccursInTail(s, sep, j);
      }
      assert !OccursAt(s, sep, 0);
      hide OccursAt;
    }
  }

  lemma OccursInTail(s: string, sep: string, j: nat)
    requires s != "" && j > 0
    ensures OccursAt(s, sep, j) <==> OccursAt(s[1..], sep, j - 1)
  {
    if j + |sep| <= |s| {
      var a, b := s[j..j + |sep|], s[1..][j - 1..j - 1 + |sep|];
      assert |a| == |b| == |sep|;
      forall k | 0 <= k < |sep| ensures a[k] == b[k] {
        assert a[k] == s[j + k] && b[k] == s[1..][j - 1 + k];
      }
      assert a == b;
    }
  }

  lemma FindIs(s: string, sep: string, i: nat)
    requires OccursAt(s, sep, i) && forall j | 0 <= j < i :: !OccursAt(s, sep, j)
    ensures Find(s, sep) == Some(i)
  {
    FindSpec(s, sep);
  }

  function SplitOnce(s: string, sep: string): Option<(string, string)> {
    match Find(s, sep)
    case Some(i) =>
      FindSpec(s, sep);
      Some((s[..i], s[i + |sep|..]))
    case None => None
  }

  /** Split at the first whitespace character. */
  function FirstWs(s: string): nat
    ensures FirstWs(s) <= |s| && NoWs(s[..FirstWs(s)]) && (FirstWs(s) < |s| ==> IsWs(s[FirstWs(s)]))
  {
    if s == "" || IsWs(s[0]) then 0
    else
      assert s[..FirstWs(s[1..]) + 1] == [s[0]] + s[1..][..FirstWs(s[1..])];
      1 + FirstWs(s[1..])
  }

  lemma {:induction false} FirstWsIs(a: string, b: string)
    requires NoWs(a) && (b == "" || IsWs(b[0]))
    ensures FirstWs(a + b) == |a|
    decreases a
  {
    hide IsWs;
    if a == "" {
      assert a + b == b;
    } else {
      assert (a + b)[1..] == a[1..] + b;
      FirstWsIs(a[1..], b);
    }
  }

  /** Leading whitespace does not matter to trimming. */
  lemma TrimIgnoresLeading(a: string, x: string)
    requires AllWs(a)
    ensures Trim(a + x) == Trim(x)
  {
    var p, q := TrimSplits(x);
    assert a + x == (a + p) + Trim(x) + q;
    TrimIs(a + p, Trim(x), q);
  }

  lemma FindAfterPrefix(a: string, s: string, sep: string, i: nat)
    requires Find(a + s, sep) == Some(i) && i >= |a|
    ensures Find(s, sep) == Some(i - |a|)
  {
    FindSpec(a + s, sep);
    forall j | 0 <= j <= i - |a| ensures OccursAt(s, sep, j) <==> OccursAt(a + s, sep, |a| + j) {
      if j + |sep| <= |s| {
        assert (a + s)[|a| + j..|a| + j + |sep|] == s[j..j + |sep|];
      }
    }
    FindIs(s, sep, i - |a|);
  }

  /** The first place of a one-character separator. */
  lemma FindChar(a: string, c: char, b: string)
    requires c !in a
    ensures Find(a + [c] + b, [c]) == Some(|a|)
  {
    var s := a + [c] + b;
    assert s[|a|..|a| + 1] == [c];
    forall j | 0 <= j < |a| ensures !OccursAt(s, [c], j) {
      assert s[j..j + 1][0] == a[j];
    }
    FindIs(s, [c], |a|);
  }

  // --- lines ---

  function Lines(s: string): seq<string> {
    if s == "" then []
    else
      match Find(s, "\n")
      case None => [s]
      case Some(i) =>
        FindSpec(s, "\n");
        var line := s[..i];
        [if line != "" && line[|line| - 1] == '\r' then line[..|line| - 1] else line] + Lines(s[i + 1..])
  }

  function Join(lines: seq<string>): string {
    if lines == [] then ""
    else if |lines| == 1 then lines[0]
    else lines[0] + "\n" + Join(lines[1..])
  }

  /** A text that can stand on a line by itself and be read back unchanged. */
  predicate OneLine(s: string) {
    s != "" && '\n' !in s && '\r' !in s
  }

  lemma {:induction false} LinesOfJoin(lines: seq<string>)
    requires forall i | 0 <= i < |lines| :: OneLine(lines[i])
    ensures Lines(Join(lines)) == lines
  {
    if |lines| == 1 {
      FindSpec(lines[0], "\n");
      NoNewline(lines[0]);
    } else if |lines| > 1 {
      var s, l := Join(lines), lines[0];
      LinesOfJoin(lines[1..]);
      assert s[|l|..|l| + 1] == "\n";
      forall j | 0 <= j < |l| ensures !OccursAt(s, "\n", j) {
        assert s[j..j + 1][0] == l[j];
      }
      FindIs(s, "\n", |l|);
      assert s[..|l|] == l && s[|l| + 1..] == Join(lines[1..]);
      assert lines == [l] + lines[1..];
    }
  }

  lemma NoNewline(s: string)
    requires '\n' !in s
    ensures forall j: nat :: !OccursAt(s, "\n", j)
  {
    forall j: nat | j + 1 <= |s| ensures !OccursAt(s, "\n", j) {
      assert s[j..j + 1][0] == s[j];
    }
  }

  // --- ASCII case ---

  function UpperChar(c: char): char {
    if 'a' <= c <= 'z' then c - 'a' + 'A' else c
  }

  function LowerChar(c: char): char {
    if 'A' <= c <= 'Z' then c - 'A' + 'a' else c
  }

  function Upper(s: string): string {
    seq(|s|, i requires 0 <= i < |s| => UpperChar(s[i]))
  }

  function Lower(s: string): string {
    seq(|s|, i requires 0 <= i < |s| => LowerChar(s[i]))
  }

  /** Identity comparison ignores case and surrounding whitespace; case folding is ASCII here. */
  function Normalize(s: string): string {
    Lower(Trim(s))
  }
}
