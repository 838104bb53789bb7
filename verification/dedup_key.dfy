/** When dedup keys tell findings apart. A key joins the normalized family, the normalized target and the action
    with a separator that nothing keeps out of families and targets. */
module DedupKeys {
  import opened Basics
  import opened LoopModel
  import opened Text
  import opened EngineSpec

  const SEPARATOR := '\U{1F}'

  predicate Accepted(target: string) {
    TargetClass(target).Some?
  }

  /** Some scheme and its colon come first. */
  predicate StartsTarget(z: string) {
    || "grain:" <= z || "entity:" <= z || "query:" <= z || "template:" <= z || "doc:" <= z || "host:" <= z
  }

  predicate KnownScheme(scheme: string) {
    || scheme == "grain" || scheme == "entity" || scheme == "query" || scheme == "template" || scheme == "doc"
    || scheme == "host"
  }

  /** The second family is the first one, the separator and the beginning of a target. */
  predicate Overlaps(family: string, longer: string) {
    var x, y := Normalize(family), Normalize(longer);
    x + [SEPARATOR] <= y && StartsTarget(y[|x| + 1..])
  }

  // --- targets ---

  lemma SchemeIsPlain(scheme: string)
    requires KnownScheme(scheme)
    ensures scheme != "" && ':' !in scheme && SEPARATOR !in scheme
    ensures forall i | 0 <= i < |scheme| :: 'a' <= scheme[i] <= 'z'
  {
  }

  lemma SchemeSplits(scheme: string, rest: string)
    requires KnownScheme(scheme)
    ensures SplitOnce(scheme + ":" + rest, ":") == Some((scheme, rest))
  {
    SchemeIsPlain(scheme);
    hide KnownScheme, Find;
    var s := scheme + ":" + rest;
    assert s == scheme + [':'] + rest;
    FindChar(scheme, ':', rest);
    assert s[..|scheme|] == scheme && s[|scheme| + 1..] == rest;
  }

  lemma AcceptedShape(target: string) returns (scheme: string, rest: string)
    requires Accepted(target)
    ensures KnownScheme(scheme) && rest != "" && target == scheme + ":" + rest
  {
    scheme, rest := SplitOnce(target, ":").value.0, SplitOnce(target, ":").value.1;
    FindSpec(target, ":");
    assert target[|scheme|..|scheme| + 1] == ":";
    assert target == target[..|scheme|] + target[|scheme|..|scheme| + 1] + target[|scheme| + 1..];
  }

  lemma SchemeIsAccepted(scheme: string, rest: string)
    requires KnownScheme(scheme) && rest != ""
    ensures Accepted(scheme + ":" + rest)
  {
    SchemeSplits(scheme, rest);
    hide SplitOnce;
  }

  lemma StartShape(z: string) returns (scheme: string, rest: string)
    requires StartsTarget(z)
    ensures KnownScheme(scheme) && z == scheme + ":" + rest
  {
    scheme := if "grain:" <= z then "grain" else if "entity:" <= z then "entity" else if "query:" <= z then "query"
              else if "template:" <= z then "template" else if "doc:" <= z then "doc" else "host";
    rest := z[|scheme| + 1..];
  }

  lemma SchemeStarts(scheme: string, rest: string)
    requires KnownScheme(scheme)
    ensures StartsTarget(scheme + ":" + rest)
  {
    var z := scheme + ":" + rest;
    assert z[..|scheme| + 1] == scheme + ":";
  }

  lemma NoWsInFront(a: string, rest: string)
    requires AllWs(a) && a + rest != "" && !IsWs((a + rest)[0])
    ensures a == ""
  {
    hide IsWs;
  }

  lemma NoWsReaches(t: string, b: string, n: nat)
    requires AllWs(b) && 0 < n <= |t + b| && !IsWs((t + b)[n - 1])
    ensures |t| >= n
  {
    hide IsWs;
  }

  /** Trimming cannot reach past a character that is not whitespace. */
  lemma TrimKeepsFront(s: string, n: nat)
    requires 0 < n <= |s| && !IsWs(s[0]) && !IsWs(s[n - 1])
    ensures |Trim(s)| >= n && Trim(s)[..n] == s[..n]
  {
    var a, b := TrimSplits(s);
    hide Trim, IsWs, AllWs;
    assert s == a + (Trim(s) + b);
    NoWsInFront(a, Trim(s) + b);
    assert s == Trim(s) + b;
    NoWsReaches(Trim(s), b, n);
  }

  lemma LowerKeepsFront(s: string, n: nat)
    requires n <= |s| && forall i | 0 <= i < n :: !('A' <= s[i] <= 'Z')
    ensures Lower(s)[..n] == s[..n]
  {
  }

  /** Normalizing an accepted target keeps its scheme in front. */
  lemma NormalizedTarget(target: string) returns (scheme: string, rest: string)
    requires Accepted(target)
    ensures KnownScheme(scheme) && Normalize(target) == scheme + ":" + rest
  {
    var opening;
    scheme, opening := AcceptedShape(target);
    SchemeIsPlain(scheme);
    hide KnownScheme, Accepted;
    var n, front := |scheme| + 1, scheme + ":";
    assert front == target[..n] && target[0] == scheme[0] && target[n - 1] == ':';
    assert !IsWs(target[0]) && !IsWs(':');
    TrimKeepsFront(target, n);
    var t := Trim(target);
    hide Trim, IsWs;
    forall i | 0 <= i < n ensures !('A' <= t[i] <= 'Z') {
      assert t[i] == t[..n][i] == front[i];
    }
    LowerKeepsFront(t, n);
    rest := Lower(t)[n..];
    assert Lower(t) == Lower(t)[..n] + rest;
  }

  // --- cutting a key apart ---

  lemma SplitAtLast(a: string, b: string, c: string, d: string)
    requires a + [SEPARATOR] + b == c + [SEPARATOR] + d && SEPARATOR !in b && SEPARATOR !in d
    ensures a == c && b == d
  {
    var s := a + [SEPARATOR] + b;
    assert s[|a|] == SEPARATOR && s[|c|] == SEPARATOR;
    forall k | |a| < k < |s| ensures s[k] != SEPARATOR { assert s[k] == b[k - |a| - 1]; }
    forall k | |c| < k < |s| ensures s[k] != SEPARATOR { assert s[k] == d[k - |c| - 1]; }
    assert |a| == |c|;
    assert s[..|a|] == a && s[..|c|] == c && s[|a| + 1..] == b && s[|c| + 1..] == d;
  }

  lemma ActionHasNoSeparator(a: ActionKind)
    ensures SEPARATOR !in ActionName(a)
  {
    var name := ActionName(a);
    forall i | 0 <= i < |name| ensures name[i] != SEPARATOR {
    }
  }

  lemma ActionNamesDiffer(a: ActionKind, b: ActionKind)
    requires ActionName(a) == ActionName(b)
    ensures a == b
  {
    assert |ActionName(Consolidate)| == 11 && |ActionName(FlagContradiction)| == 18;
    assert |ActionName(ClusterFailure)| == 15 && |ActionName(MergeHeads)| == 11;
    assert |ActionName(Expire)| == 6 && |ActionName(Revert)| == 6 && |ActionName(Flag)| == 4;
    assert ActionName(Consolidate)[0] == 'c' && ActionName(MergeHeads)[0] == 'm';
    assert ActionName(Expire)[0] == 'e' && ActionName(Revert)[0] == 'r';
  }

  /** When the longer family's surplus swallows the front of the other target, the families overlap. */
  lemma SurplusStartsTarget(x: string, u: string, y: string, v: string, scheme: string, rest: string)
    requires x + [SEPARATOR] + u == y + [SEPARATOR] + v && |x| < |y|
    requires KnownScheme(scheme) && u == scheme + ":" + rest
    ensures x + [SEPARATOR] <= y && StartsTarget(y[|x| + 1..])
  {
    SchemeIsPlain(scheme);
    hide KnownScheme, StartsTarget;
    var s, z, n := x + [SEPARATOR] + u, y[|x| + 1..], |scheme| + 1;
    assert s[..|y|] == y && s[..|x| + 1] == x + [SEPARATOR];
    assert y[..|x| + 1] == s[..|x| + 1];
    assert y == x + [SEPARATOR] + z;
    assert s[|x| + 1..] == u && s[|x| + 1..] == z + [SEPARATOR] + v;
    assert u[|z|] == SEPARATOR;
    forall i | 0 <= i < n ensures u[i] != SEPARATOR { assert u[i] == (scheme + ":")[i]; }
    assert |z| >= n;
    assert z[..n] == u[..n] == scheme + ":";
    assert z == scheme + ":" + z[n..];
    SchemeStarts(scheme, z[n..]);
  }

  /** With families that do not overlap, accepted findings share a key exactly when family, target and action agree
      up to case and outer whitespace, whatever the targets contain. */
  lemma KeysTellApart(f: string, t: string, a: ActionKind, f': string, t': string, a': ActionKind)
    requires Accepted(t) && Accepted(t') && !Overlaps(f, f') && !Overlaps(f', f)
    ensures DedupKey(f, t, a) == DedupKey(f', t', a')
            <==> Normalize(f) == Normalize(f') && Normalize(t) == Normalize(t') && a == a'
  {
    hide Normalize, ActionName, StartsTarget, KnownScheme, Accepted, Overlaps;
    if DedupKey(f, t, a) == DedupKey(f', t', a') {
      var x, u, y, v := Normalize(f), Normalize(t), Normalize(f'), Normalize(t');
      assert DedupKey(f, t, a) == (x + [SEPARATOR] + u) + [SEPARATOR] + ActionName(a);
      assert DedupKey(f', t', a') == (y + [SEPARATOR] + v) + [SEPARATOR] + ActionName(a');
      ActionHasNoSeparator(a);
      ActionHasNoSeparator(a');
      SplitAtLast(x + [SEPARATOR] + u, ActionName(a), y + [SEPARATOR] + v, ActionName(a'));
      ActionNamesDiffer(a, a');
      FamiliesMeet(f, t, f', t');
    }
  }

  lemma FamiliesMeet(f: string, t: string, f': string, t': string)
    requires Accepted(t) && Accepted(t') && !Overlaps(f, f') && !Overlaps(f', f)
    requires Normalize(f) + [SEPARATOR] + Normalize(t) == Normalize(f') + [SEPARATOR] + Normalize(t')
    ensures Normalize(f) == Normalize(f') && Normalize(t) == Normalize(t')
  {
    hide Normalize, KnownScheme, StartsTarget, Accepted;
    var x, u, y, v := Normalize(f), Normalize(t), Normalize(f'), Normalize(t');
    if |x| < |y| {
      var scheme, rest := NormalizedTarget(t);
      SurplusStartsTarget(x, u, y, v, scheme, rest);
    } else if |y| < |x| {
      var scheme, rest := NormalizedTarget(t');
      SurplusStartsTarget(y, v, x, u, scheme, rest);
    } else {
      var s := x + [SEPARATOR] + u;
      assert s[..|x|] == x && s[..|y|] == y && s[|x| + 1..] == u && s[|y| + 1..] == v;
    }
  }

  // --- families that overlap ---

  lemma LowerText(s: string)
    requires forall i | 0 <= i < |s| :: !('A' <= s[i] <= 'Z')
    ensures Lower(s) == s
  {
    LowerKeepsFront(s, |s|);
    assert Lower(s)[..|s|] == Lower(s) && s[..|s|] == s;
  }

  lemma NormalizedIsLower(s: string, i: nat)
    requires i < |Normalize(s)|
    ensures !('A' <= Normalize(s)[i] <= 'Z')
  {
    hide Trim;
  }

  const OTHER_TARGET := "host:x"

  /** Overlapping families share keys for targets that both are accepted. */
  lemma OverlappingFamiliesCollide(f: string, f': string, action: ActionKind) returns (t: string, t': string)
    requires Overlaps(f, f')
    ensures Accepted(t) && Accepted(t') && DedupKey(f, t, action) == DedupKey(f', t', action)
    ensures Normalize(f) != Normalize(f')
  {
    hide Normalize, ActionName, KnownScheme, StartsTarget, Accepted;
    var x, y := Normalize(f), Normalize(f');
    var z := y[|x| + 1..];
    t, t' := z + [SEPARATOR] + OTHER_TARGET, OTHER_TARGET;
    var scheme, rest := StartShape(z);
    assert t == scheme + ":" + (rest + [SEPARATOR] + OTHER_TARGET);
    SchemeIsAccepted(scheme, rest + [SEPARATOR] + OTHER_TARGET);
    HostIsKnown();
    SchemeIsAccepted("host", "x");
    assert OTHER_TARGET == "host" + ":" + "x";
    forall i | 0 <= i < |z| ensures !('A' <= z[i] <= 'Z') {
      NormalizedIsLower(f', |x| + 1 + i);
      assert z[i] == y[|x| + 1 + i];
    }
    NormalTarget(z, scheme, rest);
    NormalOther();
    assert y == x + [SEPARATOR] + z;
    SameKey(x, z, OTHER_TARGET, ActionName(action));
  }

  lemma SameKey(x: string, z: string, v: string, action: string)
    ensures x + "\U{1F}" + (z + [SEPARATOR] + v) + "\U{1F}" + action
            == (x + [SEPARATOR] + z) + "\U{1F}" + v + "\U{1F}" + action
  {
    assert "\U{1F}" == [SEPARATOR];
    assert x + [SEPARATOR] + (z + [SEPARATOR] + v) == (x + [SEPARATOR] + z) + [SEPARATOR] + v;
  }

  lemma HostIsKnown()
    ensures KnownScheme("host")
  {
  }

  lemma NormalOther()
    ensures Normalize(OTHER_TARGET) == OTHER_TARGET
  {
    TrimOfTrimmed(OTHER_TARGET);
    LowerText(OTHER_TARGET);
  }

  lemma NormalTarget(z: string, scheme: string, rest: string)
    requires KnownScheme(scheme) && z == scheme + ":" + rest && forall i | 0 <= i < |z| :: !('A' <= z[i] <= 'Z')
    ensures Normalize(z + [SEPARATOR] + OTHER_TARGET) == z + [SEPARATOR] + OTHER_TARGET
  {
    SchemeIsPlain(scheme);
    hide KnownScheme, Trim;
    var s := z + [SEPARATOR] + OTHER_TARGET;
    assert s[0] == scheme[0] && s[|s| - 1] == 'x';
    assert !IsWs(s[0]) && !IsWs('x');
    hide IsWs;
    TrimOfTrimmed(s);
    forall i | 0 <= i < |s| ensures !('A' <= s[i] <= 'Z') {
      assert s[i] == if i < |z| then z[i] else if i == |z| then SEPARATOR else OTHER_TARGET[i - |z| - 1];
    }
    LowerText(s);
  }

  /** Keys of two families tell accepted findings apart. */
  ghost predicate Faithful(f: string, f': string) {
    forall t, a, t', a' | Accepted(t) && Accepted(t') && DedupKey(f, t, a) == DedupKey(f', t', a') ::
      Normalize(f) == Normalize(f') && Normalize(t) == Normalize(t') && a == a'
  }

  /** Keys are faithful for a pair of families exactly when neither is the other one, the separator and the beginning
      of a target. */
  lemma FaithfulIffNoOverlap(f: string, f': string)
    ensures Faithful(f, f') <==> !Overlaps(f, f') && !Overlaps(f', f)
  {
    hide Normalize, Overlaps, Accepted, DedupKey;
    if Overlaps(f, f') {
      var t, t' := OverlappingFamiliesCollide(f, f', Flag);
    } else if Overlaps(f', f) {
      var t', t := OverlappingFamiliesCollide(f', f, Flag);
    } else {
      forall t, a, t', a' | Accepted(t) && Accepted(t') && DedupKey(f, t, a) == DedupKey(f', t', a')
        ensures Normalize(f) == Normalize(f') && Normalize(t) == Normalize(t') && a == a'
      {
        KeysTellApart(f, t, a, f', t', a');
      }
    }
  }

  /** In particular when no family contains the separator. */
  lemma SeparatorFreeFamiliesAreFaithful(f: string, f': string)
    requires SEPARATOR !in Normalize(f) && SEPARATOR !in Normalize(f')
    ensures Faithful(f, f')
  {
    hide Normalize, StartsTarget, Faithful;
    var x, y := Normalize(f), Normalize(f');
    assert (x + [SEPARATOR])[|x|] == SEPARATOR && (y + [SEPARATOR])[|y|] == SEPARATOR;
    FaithfulIffNoOverlap(f, f');
  }

  // --- how such a family gets in ---

  /** The id of a command analyzer: what it reports, trimmed, with a version when it names none. */
  function ReportedId(reported: string): string
    requires Trim(reported) != ""
  {
    var r := Trim(reported);
    if '/' in r then r else r + "/1"
  }

  /** Whatever a command reports without a slash or whitespace around it becomes its family. */
  lemma ReportedFamily(reported: string)
    requires reported != "" && Trimmed(reported) && '/' !in reported
    ensures Trim(reported) != "" && FamilyOf(ReportedId(reported)) == reported
  {
    TrimOfTrimmed(reported);
    hide Trim, IsWs, Find;
    assert reported + "/1" == reported + ['/'] + "1";
    FindChar(reported, '/', "1");
    assert (reported + "/1")[..|reported|] == reported;
  }

  function CommandFinding(reported: string, target: string): Finding
    requires Trim(reported) != ""
  {
    Analyzed(Manifest(ReportedId(reported), TrustCommand, false), Draft(target, Flag, Low, Data(map[]), None, map[]))
  }

  const SHORT_FAMILY := "a"
  const LONG_FAMILY := "a\U{1F}host:b"

  lemma LongFamilyOverlaps()
    ensures Trimmed(SHORT_FAMILY) && Trimmed(LONG_FAMILY) && '/' !in SHORT_FAMILY && '/' !in LONG_FAMILY
    ensures Overlaps(SHORT_FAMILY, LONG_FAMILY)
  {
    TrimOfTrimmed(SHORT_FAMILY);
    TrimOfTrimmed(LONG_FAMILY);
    LowerText(SHORT_FAMILY);
    LowerText(LONG_FAMILY);
    assert LONG_FAMILY[2..] == "host:b" && SHORT_FAMILY + [SEPARATOR] == LONG_FAMILY[..2];
    assert '/' !in LONG_FAMILY;
    hide Trim, Lower, IsWs;
  }

  /** The failing input: one command reports `a`, another one `a`, the separator and `host:b`. Findings of theirs for
      different targets are both stamped, under one key. */
  lemma TwoCommandsShareAKey(now: int) returns (first: string, second: string)
    ensures Trim(SHORT_FAMILY) != "" && Trim(LONG_FAMILY) != ""
    ensures var g, h := Stamp(CommandFinding(SHORT_FAMILY, first), now),
            Stamp(CommandFinding(LONG_FAMILY, second), now);
            && g.Some? && h.Some? && g.value.dedupKey == h.value.dedupKey
            && FamilyOf(g.value.analyzer) == SHORT_FAMILY && FamilyOf(h.value.analyzer) == LONG_FAMILY
            && Normalize(first) != Normalize(second)
  {
    LongFamilyOverlaps();
    ReportedFamily(SHORT_FAMILY);
    ReportedFamily(LONG_FAMILY);
    hide Normalize, Overlaps, DedupKey, Trim, FamilyOf, ReportedId, IsWs, TargetClass;
    first, second := OverlappingFamiliesCollide(SHORT_FAMILY, LONG_FAMILY, Flag);
    OtherTargets(SHORT_FAMILY, LONG_FAMILY, first, second);
  }

  /** Keys of different families coincide only for different targets. */
  lemma OtherTargets(f: string, f': string, t: string, t': string)
    requires DedupKey(f, t, Flag) == DedupKey(f', t', Flag) && Normalize(f) != Normalize(f')
    ensures Normalize(t) != Normalize(t')
  {
    hide Normalize;
    var x, u, y, v := Normalize(f), Normalize(t), Normalize(f'), Normalize(t');
    assert DedupKey(f, t, Flag) == (x + [SEPARATOR] + u) + [SEPARATOR] + ActionName(Flag);
    assert DedupKey(f', t', Flag) == (y + [SEPARATOR] + v) + [SEPARATOR] + ActionName(Flag);
    ActionHasNoSeparator(Flag);
    SplitAtLast(x + [SEPARATOR] + u, ActionName(Flag), y + [SEPARATOR] + v, ActionName(Flag));
    DifferentFronts(x, u, y, v);
  }

  lemma DifferentFronts(x: string, u: string, y: string, v: string)
    requires x + [SEPARATOR] + u == y + [SEPARATOR] + v && x != y
    ensures u != v
  {
    var s := x + [SEPARATOR] + u;
    assert s[..|x|] == x && s[..|y|] == y;
    assert |s| == |x| + 1 + |u| == |y| + 1 + |v|;
  }
}
