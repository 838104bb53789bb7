/** Multi-source assembly: duplicate removal across sources, the cap on grains, budget allocation
    and the greedy trim. Weights and shares are exact real numbers, token counts unbounded naturals. */
module Assemble {
  import opened Basics

  datatype Grain = Grain(hash: string, fields: map<string, string>, textLen: nat)

  datatype Source = Source(name: string, grains: seq<Grain>)

  datatype PrioritySpec = PrioritySpec(name: string, weight: real)

  const MAX_GRAINS_POST_DEDUP := 2000
  const DEFAULT_BUDGET_TOKENS := 4000
  const USIZE_MAX := 0xFFFF_FFFF_FFFF_FFFF

  /** A quarter token per byte of the printed fields, at least one token. */
  function Tokens(g: Grain): nat {
    Max(g.textLen / 4, 1)
  }

  function TokenSum(gs: seq<Grain>): nat {
    if gs == [] then 0 else TokenSum(gs[..|gs| - 1]) + Tokens(gs[|gs| - 1])
  }

  function GrainCount(sources: seq<Source>): nat {
    if sources == [] then 0 else GrainCount(sources[..|sources| - 1]) + |sources[|sources| - 1].grains|
  }

  ghost predicate DistinctLabels(sources: seq<Source>) {
    forall i, j | 0 <= i < j < |sources| :: sources[i].name != sources[j].name
  }

  // --- priority ranks ---

  /** Stable insertion by descending weight. */
  function InsertSpec(s: PrioritySpec, sorted: seq<PrioritySpec>): seq<PrioritySpec> {
    if sorted == [] || sorted[|sorted| - 1].weight >= s.weight then sorted + [s]
    else InsertSpec(s, sorted[..|sorted| - 1]) + [sorted[|sorted| - 1]]
  }

  function SortSpecs(specs: seq<PrioritySpec>): seq<PrioritySpec> {
    if specs == [] then [] else InsertSpec(specs[|specs| - 1], SortSpecs(specs[..|specs| - 1]))
  }

  /** Each name's position; a name listed twice keeps its later position. */
  function Positions(labels: seq<string>): map<string, nat> {
    if labels == [] then map[] else Positions(labels[..|labels| - 1])[labels[|labels| - 1] := |labels| - 1]
  }

  function RankTable(sources: seq<Source>, priority: Option<seq<PrioritySpec>>): map<string, nat> {
    match priority
    case Some(specs) => Positions(seq(|SortSpecs(specs)|,
                                      i requires 0 <= i < |SortSpecs(specs)| => SortSpecs(specs)[i].name))
    case None => Positions(seq(|sources|, i requires 0 <= i < |sources| => sources[i].name))
  }

  function RankOf(table: map<string, nat>, name: string): nat {
    if name in table then table[name] else USIZE_MAX
  }

  // --- dedup by a field, across sources ---

  function FieldValue(g: Grain, field: string): string {
    if field == "_hash" then g.hash
    else if field in g.fields then g.fields[field]
    else ""
  }

  /** A grain on its way through the merge, with where it came from. */
  datatype Copy = Copy(rank: nat, src: nat, pos: nat, name: string, grain: Grain)

  /** Priority order: better rank, then earlier source, then earlier in its source. */
  predicate Earlier(a: Copy, b: Copy) {
    a.rank < b.rank || (a.rank == b.rank && (a.src < b.src || (a.src == b.src && a.pos < b.pos)))
  }

  function CopyAt(sources: seq<Source>, table: map<string, nat>, i: nat, j: nat): Copy
    requires i < |sources| && j < |sources[i].grains|
  {
    Copy(RankOf(table, sources[i].name), i, j, sources[i].name, sources[i].grains[j])
  }

  function CopiesOfSource(sources: seq<Source>, table: map<string, nat>, i: nat, n: nat): seq<Copy>
    requires i < |sources| && n <= |sources[i].grains|
  {
    seq(n, j requires 0 <= j < n => CopyAt(sources, table, i, j))
  }

  function AllCopies(sources: seq<Source>, table: map<string, nat>, n: nat): seq<Copy>
    requires n <= |sources|
  {
    if n == 0 then []
    else AllCopies(sources, table, n - 1) + CopiesOfSource(sources, table, n - 1, |sources[n - 1].grains|)
  }

  /** Stable insertion by rank: behind every copy of the same or a better rank. */
  function InsertCopy(c: Copy, sorted: seq<Copy>): seq<Copy> {
    if sorted == [] || sorted[|sorted| - 1].rank <= c.rank then sorted + [c]
    else InsertCopy(c, sorted[..|sorted| - 1]) + [sorted[|sorted| - 1]]
  }

  function SortByRank(cs: seq<Copy>): seq<Copy> {
    if cs == [] then [] else InsertCopy(cs[|cs| - 1], SortByRank(cs[..|cs| - 1]))
  }

  function Values(cs: seq<Copy>, field: string): set<string> {
    set c | c in cs :: FieldValue(c.grain, field)
  }

  /** One pass keeping the first copy of every field value. */
  function KeepFirst(cs: seq<Copy>, field: string): seq<Copy> {
    if cs == [] then []
    else
      var rest, c := cs[..|cs| - 1], cs[|cs| - 1];
      KeepFirst(rest, field) + if FieldValue(c.grain, field) in Values(rest, field) then [] else [c]
  }

  function Bucket(cs: seq<Copy>, name: string): seq<Grain> {
    if cs == [] then []
    else Bucket(cs[..|cs| - 1], name) + if cs[|cs| - 1].name == name then [cs[|cs| - 1].grain] else []
  }

  predicate NamedBefore(sources: seq<Source>, i: nat, name: string)
    requires i <= |sources|
  {
    exists k | 0 <= k < i :: sources[k].name == name
  }

  lemma NamedBeforeNext(sources: seq<Source>, i: nat)
    requires i < |sources|
    ensures forall l :: NamedBefore(sources, i + 1, l) <==> NamedBefore(sources, i, l) || l == sources[i].name
  {
    assert NamedBefore(sources, i + 1, sources[i].name);
  }

  /** What the source at `i` gets back: the kept grains of its name, unless an earlier source of
      the same name already took them. */
  function Rebuilt(sources: seq<Source>, kept: seq<Copy>, i: nat): Source
    requires i < |sources|
  {
    var name := sources[i].name;
    Source(name, if NamedBefore(sources, i, name) then [] else Bucket(kept, name))
  }

  function KeptCopies(sources: seq<Source>, field: string, priority: Option<seq<PrioritySpec>>): seq<Copy> {
    KeepFirst(SortByRank(AllCopies(sources, RankTable(sources, priority), |sources|)), field)
  }

  function DedupAcross(sources: seq<Source>, field: string, priority: Option<seq<PrioritySpec>>): seq<Source> {
    var kept := KeptCopies(sources, field, priority);
    seq(|sources|, i requires 0 <= i < |sources| => Rebuilt(sources, kept, i))
  }

  method CollectCopies(sources: seq<Source>, table: map<string, nat>) returns (copies: seq<Copy>)
    ensures copies == AllCopies(sources, table, |sources|)
  {
    copies := [];
    for i := 0 to |sources|
      invariant copies == AllCopies(sources, table, i)
    {
      for j := 0 to |sources[i].grains|
        invariant copies == AllCopies(sources, table, i) + CopiesOfSource(sources, table, i, j)
      {
        assert CopiesOfSource(sources, table, i, j + 1)
            == CopiesOfSource(sources, table, i, j) + [CopyAt(sources, table, i, j)];
        copies := copies + [CopyAt(sources, table, i, j)];
      }
    }
  }

  function Lookup(deduped: map<string, seq<Grain>>, name: string): seq<Grain> {
    if name in deduped then deduped[name] else []
  }

  lemma NextCopy(sorted: seq<Copy>, i: nat, field: string)
    requires i < |sorted|
    ensures KeepFirst(sorted[..i + 1], field) == KeepFirst(sorted[..i], field) +
            if FieldValue(sorted[i].grain, field) in Values(sorted[..i], field) then [] else [sorted[i]]
    ensures Values(sorted[..i + 1], field) == Values(sorted[..i], field) + {FieldValue(sorted[i].grain, field)}
  {
    assert sorted[..i + 1] == sorted[..i] + [sorted[i]];
    assert sorted[..i + 1][..i] == sorted[..i];
  }

  lemma BucketAppend(kept: seq<Copy>, c: Copy, name: string)
    ensures Bucket(kept + [c], name) == Bucket(kept, name) + if c.name == name then [c.grain] else []
  {
    assert (kept + [c])[..|kept|] == kept;
  }

  /** The groups of the kept copies, by the name of their source. */
  ghost predicate Grouped(deduped: map<string, seq<Grain>>, kept: seq<Copy>) {
    forall l :: Lookup(deduped, l) == Bucket(kept, l)
  }

  lemma NothingGrouped()
    ensures Grouped(map[], [])
  {
  }

  lemma OneMoreGrouped(deduped: map<string, seq<Grain>>, kept: seq<Copy>, c: Copy)
    requires Grouped(deduped, kept)
    ensures Grouped(deduped[c.name := Lookup(deduped, c.name) + [c.grain]], kept + [c])
  {
    var after := deduped[c.name := Lookup(deduped, c.name) + [c.grain]];
    forall l ensures Lookup(after, l) == Bucket(kept + [c], l) {
      assert Lookup(deduped, l) == Bucket(kept, l);
      BucketAppend(kept, c, l);
      assert Lookup(after, l) == Lookup(deduped, l) + if c.name == l then [c.grain] else [];
    }
  }

  /** Keep the first copy of each value, grouped by the name of its source. */
  method GroupFirstCopies(sorted: seq<Copy>, field: string) returns (deduped: map<string, seq<Grain>>)
    ensures Grouped(deduped, KeepFirst(sorted, field))
  {
    hide Grouped, Bucket, Lookup, FieldValue;
    var seen: set<string> := {};
    deduped := map[];
    ghost var kept: seq<Copy> := [];
    NothingGrouped();
    assert KeepFirst([], field) == [] && Values([], field) == {};
    assert sorted[..0] == [];
    hide KeepFirst, Values;
    for i := 0 to |sorted|
      invariant kept == KeepFirst(sorted[..i], field) && seen == Values(sorted[..i], field)
      invariant Grouped(deduped, kept)
    {
      var c := sorted[i];
      NextCopy(sorted, i, field);
      var value := FieldValue(c.grain, field);
      if value !in seen {
        OneMoreGrouped(deduped, kept, c);
        seen := seen + {value};
        deduped := deduped[c.name := Lookup(deduped, c.name) + [c.grain]];
        kept := kept + [c];
      } else {
        assert kept + [] == kept && seen + {value} == seen;
      }
    }
    assert sorted[..|sorted|] == sorted;
  }

  method DedupAcrossSources(sources: seq<Source>, field: string, priority: Option<seq<PrioritySpec>>)
    returns (out: seq<Source>)
    ensures out == DedupAcross(sources, field, priority)
  {
    hide KeepFirst, SortByRank, AllCopies, Bucket, RankTable;
    var copies := CollectCopies(sources, RankTable(sources, priority));
    var deduped := GroupFirstCopies(SortByRank(copies), field);
    ghost var kept := KeptCopies(sources, field, priority);
    out := [];
    for i := 0 to |sources|
      invariant |out| == i && forall k | 0 <= k < i :: out[k] == Rebuilt(sources, kept, k)
      invariant forall l :: Lookup(deduped, l) == if NamedBefore(sources, i, l) then [] else Bucket(kept, l)
    {
      var name := sources[i].name;
      NamedBeforeNext(sources, i);
      out := out + [Source(name, Lookup(deduped, name))];
      deduped := deduped - {name};
    }
  }

  // --- what dedup promises ---

  /** No copy of the same value comes earlier in priority order. */
  ghost predicate FirstCopy(sources: seq<Source>, table: map<string, nat>, field: string, i: nat, j: nat)
    requires i < |sources| && j < |sources[i].grains|
  {
    forall m: nat, n: nat | m < |sources| && n < |sources[m].grains| ::
      Earlier(CopyAt(sources, table, m, n), CopyAt(sources, table, i, j)) ==>
        FieldValue(sources[m].grains[n], field) != FieldValue(sources[i].grains[j], field)
  }

  /** The first copies among the first `n` grains of source `i`, in their order. */
  ghost function FirstCopies(sources: seq<Source>, table: map<string, nat>, field: string, i: nat, n: nat): seq<Copy>
    requires i < |sources| && n <= |sources[i].grains|
  {
    if n == 0 then []
    else FirstCopies(sources, table, field, i, n - 1)
         + if FirstCopy(sources, table, field, i, n - 1) then [CopyAt(sources, table, i, n - 1)] else []
  }

  function Grains(cs: seq<Copy>): seq<Grain> {
    seq(|cs|, k requires 0 <= k < |cs| => cs[k].grain)
  }

  ghost predicate Sorted(cs: seq<Copy>) {
    forall a, b | 0 <= a < b < |cs| :: Earlier(cs[a], cs[b])
  }

  /** `c` comes from a later place than `d`, whatever their ranks. */
  predicate Behind(d: Copy, c: Copy) {
    d.src < c.src || (d.src == c.src && d.pos < c.pos)
  }

  ghost predicate InPlaceOrder(cs: seq<Copy>) {
    forall a, b | 0 <= a < b < |cs| :: Behind(cs[a], cs[b])
  }

  lemma SortedAppend(cs: seq<Copy>, c: Copy)
    requires Sorted(cs) && forall d | d in cs :: Earlier(d, c)
    ensures Sorted(cs + [c])
    ensures forall d :: d in cs + [c] <==> d in cs || d == c
  {
    assert forall a | 0 <= a < |cs| :: cs[a] in cs;
  }

  lemma SortedSplit(cs: seq<Copy>) returns (rest: seq<Copy>, last: Copy)
    requires Sorted(cs) && cs != []
    ensures cs == rest + [last] && rest == cs[..|cs| - 1] && last == cs[|cs| - 1] && Sorted(rest)
    ensures forall d :: d in cs <==> d in rest || d == last
    ensures forall d | d in rest :: Earlier(d, last) && d != last
  {
    rest, last := cs[..|cs| - 1], cs[|cs| - 1];
    assert cs == rest + [last];
  }

  lemma {:induction false} InsertKeepsSorted(c: Copy, sorted: seq<Copy>)
    requires Sorted(sorted) && forall d | d in sorted :: Behind(d, c)
    ensures Sorted(InsertCopy(c, sorted))
    ensures forall d :: d in InsertCopy(c, sorted) <==> d == c || d in sorted
  {
    if sorted != [] && sorted[|sorted| - 1].rank > c.rank {
      var rest, last := sorted[..|sorted| - 1], sorted[|sorted| - 1];
      assert sorted == rest + [last];
      InsertKeepsSorted(c, rest);
      var r := InsertCopy(c, rest);
      forall a | 0 <= a < |r| ensures Earlier(r[a], last) {
        assert r[a] in r;
      }
    } else {
      forall a | 0 <= a < |sorted| ensures Earlier(sorted[a], c) {
        assert sorted[a] in sorted;
      }
    }
  }

  lemma {:induction false} SortByRankSorts(cs: seq<Copy>)
    requires InPlaceOrder(cs)
    ensures Sorted(SortByRank(cs))
    ensures forall d :: d in SortByRank(cs) <==> d in cs
  {
    if cs != [] {
      var rest, c := cs[..|cs| - 1], cs[|cs| - 1];
      assert cs == rest + [c];
      SortByRankSorts(rest);
      InsertKeepsSorted(c, SortByRank(rest));
    }
  }

  lemma {:induction false} AllCopiesAre(sources: seq<Source>, table: map<string, nat>, n: nat)
    requires n <= |sources|
    ensures forall c | c in AllCopies(sources, table, n) ::
              c.src < n && c.pos < |sources[c.src].grains| && c == CopyAt(sources, table, c.src, c.pos)
    ensures forall i: nat, j: nat | i < n && j < |sources[i].grains| ::
              CopyAt(sources, table, i, j) in AllCopies(sources, table, n)
  {
    if n > 0 {
      AllCopiesAre(sources, table, n - 1);
      CopiesOfSourceAre(sources, table, n - 1);
      hide CopyAt, CopiesOfSource;
    }
  }

  lemma CopiesOfSourceAre(sources: seq<Source>, table: map<string, nat>, i: nat)
    requires i < |sources|
    ensures var cs := CopiesOfSource(sources, table, i, |sources[i].grains|);
            && (forall c | c in cs ::
                  c.src == i && c.pos < |sources[i].grains| && c == CopyAt(sources, table, i, c.pos))
            && (forall j: nat | j < |sources[i].grains| :: CopyAt(sources, table, i, j) in cs)
  {
    var cs := CopiesOfSource(sources, table, i, |sources[i].grains|);
    forall j: nat | j < |cs| ensures CopyAt(sources, table, i, j) in cs {
      assert cs[j] == CopyAt(sources, table, i, j);
    }
  }

  lemma {:induction false} AllCopiesInPlaceOrder(sources: seq<Source>, table: map<string, nat>, n: nat)
    requires n <= |sources|
    ensures InPlaceOrder(AllCopies(sources, table, n))
  {
    if n > 0 {
      AllCopiesInPlaceOrder(sources, table, n - 1);
      AllCopiesAre(sources, table, n - 1);
      var rest := AllCopies(sources, table, n - 1);
      forall a | 0 <= a < |rest| ensures rest[a].src < n - 1 {
        assert rest[a] in rest;
      }
      JoinedPlaceOrder(rest, CopiesOfSource(sources, table, n - 1, |sources[n - 1].grains|), n - 1);
    }
  }

  lemma JoinedPlaceOrder(rest: seq<Copy>, last: seq<Copy>, i: nat)
    requires InPlaceOrder(rest) && forall a | 0 <= a < |rest| :: rest[a].src < i
    requires forall b | 0 <= b < |last| :: last[b].src == i && last[b].pos == b
    ensures InPlaceOrder(rest + last)
  {
  }

  lemma {:induction false} KeepFirstKeepsFirst(cs: seq<Copy>, field: string)
    requires Sorted(cs)
    ensures Sorted(KeepFirst(cs, field))
    ensures forall c :: c in KeepFirst(cs, field) <==>
              c in cs && forall d | d in cs && Earlier(d, c) :: FieldValue(d.grain, field) != FieldValue(c.grain, field)
  {
    hide FieldValue;
    if cs != [] {
      var rest, last := SortedSplit(cs);
      KeepFirstKeepsFirst(rest, field);
      var kept := KeepFirst(rest, field);
      SortedAppend(kept, last);
      hide Earlier, Sorted;
      EarlierIsAsymmetric();
      forall c ensures c in KeepFirst(cs, field) <==>
          c in cs && forall d | d in cs && Earlier(d, c) :: FieldValue(d.grain, field) != FieldValue(c.grain, field)
      {
        if c == last {
          assert FieldValue(last.grain, field) !in Values(rest, field) <==>
                 forall d | d in rest :: FieldValue(d.grain, field) != FieldValue(last.grain, field);
        }
      }
    }
  }

  lemma EarlierIsAsymmetric()
    ensures forall c, d | Earlier(c, d) :: !Earlier(d, c)
    ensures forall c :: !Earlier(c, c)
  {
  }

  lemma {:induction false} SortedDeterminedByMembers(xs: seq<Copy>, ys: seq<Copy>)
    requires Sorted(xs) && Sorted(ys) && forall c :: c in xs <==> c in ys
    ensures xs == ys
  {
    assert |ys| > 0 ==> ys[0] in ys;
    assert |xs| > 0 ==> xs[0] in xs;
    if xs != [] {
      var xr, x := SortedSplit(xs);
      var yr, y := SortedSplit(ys);
      assert x in ys && y in xs;
      EarlierIsAsymmetric();
      hide Earlier, Sorted;
      assert x == y;
      SortedDeterminedByMembers(xr, yr);
    }
  }

  ghost function OfLabel(cs: seq<Copy>, name: string): seq<Copy> {
    if cs == [] then []
    else OfLabel(cs[..|cs| - 1], name) + if cs[|cs| - 1].name == name then [cs[|cs| - 1]] else []
  }

  lemma {:induction false} OfLabelFilters(cs: seq<Copy>, name: string)
    requires Sorted(cs)
    ensures Sorted(OfLabel(cs, name))
    ensures forall c :: c in OfLabel(cs, name) <==> c in cs && c.name == name
  {
    if cs != [] {
      var rest, last := SortedSplit(cs);
      OfLabelFilters(rest, name);
      var kept := OfLabel(rest, name);
      hide Sorted, Earlier;
      SortedAppend(kept, last);
    }
  }

  lemma {:induction false} BucketIsOfLabel(cs: seq<Copy>, name: string)
    ensures Bucket(cs, name) == Grains(OfLabel(cs, name))
  {
    if cs != [] { BucketIsOfLabel(cs[..|cs| - 1], name); }
  }

  /** `c` is one of the first `n` copies of source `i` and the first copy of its value. */
  ghost predicate IsFirstCopy(sources: seq<Source>, table: map<string, nat>, field: string, i: nat, n: nat, c: Copy)
    requires i < |sources| && n <= |sources[i].grains|
  {
    c.src == i && c.pos < n && c == CopyAt(sources, table, i, c.pos) && FirstCopy(sources, table, field, i, c.pos)
  }

  lemma {:induction false} FirstCopiesAre(sources: seq<Source>, table: map<string, nat>, field: string, i: nat, n: nat)
    requires i < |sources| && n <= |sources[i].grains|
    ensures forall c :: c in FirstCopies(sources, table, field, i, n) <==> IsFirstCopy(sources, table, field, i, n, c)
  {
    hide FirstCopy;
    if n > 0 {
      FirstCopiesAre(sources, table, field, i, n - 1);
      var last := CopyAt(sources, table, i, n - 1);
      forall c ensures IsFirstCopy(sources, table, field, i, n, c) <==>
          IsFirstCopy(sources, table, field, i, n - 1, c) || (c == last && FirstCopy(sources, table, field, i, n - 1)) {
      }
      hide IsFirstCopy, CopyAt;
    }
  }

  lemma {:induction false} FirstCopiesSorted(sources: seq<Source>, table: map<string, nat>, field: string, i: nat,
                                             n: nat)
    requires i < |sources| && n <= |sources[i].grains|
    ensures Sorted(FirstCopies(sources, table, field, i, n))
  {
    if n > 0 {
      FirstCopiesSorted(sources, table, field, i, n - 1);
      FirstCopiesAre(sources, table, field, i, n - 1);
      var before, last := FirstCopies(sources, table, field, i, n - 1), CopyAt(sources, table, i, n - 1);
      hide FirstCopy, FirstCopies, Sorted;
      forall d | d in before ensures Earlier(d, last) {
        assert IsFirstCopy(sources, table, field, i, n - 1, d);
      }
      hide IsFirstCopy, Earlier;
      SortedAppend(before, last);
      FirstCopiesNext(sources, table, field, i, n);
    }
  }

  lemma FirstCopiesNext(sources: seq<Source>, table: map<string, nat>, field: string, i: nat, n: nat)
    requires i < |sources| && 0 < n <= |sources[i].grains|
    ensures var before := FirstCopies(sources, table, field, i, n - 1);
            var cs := FirstCopies(sources, table, field, i, n);
            cs == before || cs == before + [CopyAt(sources, table, i, n - 1)]
  {
  }

  /** The first copies of every source of a label among the first `n` sources, one source after the other. */
  ghost function LabelFirsts(sources: seq<Source>, table: map<string, nat>, field: string, name: string, n: nat)
    : seq<Copy>
    requires n <= |sources|
  {
    if n == 0 then []
    else LabelFirsts(sources, table, field, name, n - 1)
         + if sources[n - 1].name == name then FirstCopies(sources, table, field, n - 1, |sources[n - 1].grains|)
           else []
  }

  /** `c` is the first copy of its value and comes from one of the first `n` sources, of this label. */
  ghost predicate IsLabelFirst(sources: seq<Source>, table: map<string, nat>, field: string, name: string, n: nat,
                               c: Copy)
    requires n <= |sources|
  {
    c.src < n && sources[c.src].name == name
    && IsFirstCopy(sources, table, field, c.src, |sources[c.src].grains|, c)
  }

  lemma {:induction false} LabelFirstsAre(sources: seq<Source>, table: map<string, nat>, field: string, name: string,
                                          n: nat)
    requires n <= |sources|
    ensures forall c :: c in LabelFirsts(sources, table, field, name, n) <==>
              IsLabelFirst(sources, table, field, name, n, c)
  {
    hide FirstCopy, FirstCopies;
    if n > 0 {
      LabelFirstsAre(sources, table, field, name, n - 1);
      FirstCopiesAre(sources, table, field, n - 1, |sources[n - 1].grains|);
    }
  }

  lemma {:induction false} LabelFirstsSorted(sources: seq<Source>, table: map<string, nat>, field: string,
                                             name: string, n: nat)
    requires n <= |sources|
    ensures Sorted(LabelFirsts(sources, table, field, name, n))
  {
    hide FirstCopies, Sorted, Earlier;
    if n == 0 {
      assert Sorted([]) by { NothingIsSorted(); }
    } else {
      LabelFirstsSorted(sources, table, field, name, n - 1);
      var before := LabelFirsts(sources, table, field, name, n - 1);
      assert before + [] == before;
      if sources[n - 1].name == name {
        var more := FirstCopies(sources, table, field, n - 1, |sources[n - 1].grains|);
        FirstCopiesSorted(sources, table, field, n - 1, |sources[n - 1].grains|);
        EarlierSourceFirst(sources, table, field, name, n);
        SortedJoin(before, more);
      }
    }
  }

  lemma NothingIsSorted()
    ensures Sorted([])
  {
  }

  /** Copies of one label have one rank, so those of an earlier source come first. */
  lemma EarlierSourceFirst(sources: seq<Source>, table: map<string, nat>, field: string, name: string, n: nat)
    requires 0 < n <= |sources| && sources[n - 1].name == name
    ensures forall c, d | c in LabelFirsts(sources, table, field, name, n - 1)
                          && d in FirstCopies(sources, table, field, n - 1, |sources[n - 1].grains|) :: Earlier(c, d)
  {
    LabelFirstsAre(sources, table, field, name, n - 1);
    FirstCopiesAre(sources, table, field, n - 1, |sources[n - 1].grains|);
    hide FirstCopy, FirstCopies, LabelFirsts;
    forall c, d | c in LabelFirsts(sources, table, field, name, n - 1)
                  && d in FirstCopies(sources, table, field, n - 1, |sources[n - 1].grains|)
      ensures Earlier(c, d)
    {
      assert IsLabelFirst(sources, table, field, name, n - 1, c);
      assert IsFirstCopy(sources, table, field, n - 1, |sources[n - 1].grains|, d);
    }
  }

  lemma SortedJoin(a: seq<Copy>, b: seq<Copy>)
    requires Sorted(a) && Sorted(b) && forall c, d | c in a && d in b :: Earlier(c, d)
    ensures Sorted(a + b)
  {
    hide Earlier;
    forall i, j | 0 <= i < j < |a + b| ensures Earlier((a + b)[i], (a + b)[j]) {
      if i < |a| <= j {
        assert a[i] in a && b[j - |a|] in b;
      }
    }
  }

  /** What every source gets back, whatever the labels: the first source of a label gets exactly the first copies, in
      priority order, of all sources of that label, one source after the other and each in its order; the others get
      nothing. */
  lemma DedupKeepsFirstCopies(sources: seq<Source>, field: string, priority: Option<seq<PrioritySpec>>, i: nat)
    requires i < |sources|
    ensures |DedupAcross(sources, field, priority)| == |sources|
    ensures var name := sources[i].name;
            DedupAcross(sources, field, priority)[i] ==
            Source(name, if NamedBefore(sources, i, name) then []
                         else Grains(LabelFirsts(sources, RankTable(sources, priority), field, name, |sources|)))
  {
    hide RankTable, SortByRank, KeepFirst, AllCopies, LabelFirsts, Bucket, OfLabel, Grains;
    var table, name := RankTable(sources, priority), sources[i].name;
    var kept := KeptCopies(sources, field, priority);
    KeptAre(sources, table, field);
    BucketIsOfLabel(kept, name);
    OfLabelFilters(kept, name);
    LabelFirstsSorted(sources, table, field, name, |sources|);
    LabelFirstsAre(sources, table, field, name, |sources|);
    hide FirstCopy, Sorted, NamedBefore;
    SortedDeterminedByMembers(OfLabel(kept, name), LabelFirsts(sources, table, field, name, |sources|));
  }

  /** The kept copies: exactly the first copies of all sources, in priority order. */
  lemma KeptAre(sources: seq<Source>, table: map<string, nat>, field: string)
    ensures var kept := KeepFirst(SortByRank(AllCopies(sources, table, |sources|)), field);
            && Sorted(kept)
            && forall c :: c in kept <==>
                 c.src < |sources| && IsFirstCopy(sources, table, field, c.src, |sources[c.src].grains|, c)
  {
    hide SortByRank, KeepFirst, AllCopies;
    var all := AllCopies(sources, table, |sources|);
    AllCopiesAre(sources, table, |sources|);
    AllCopiesInPlaceOrder(sources, table, |sources|);
    SortByRankSorts(all);
    KeepFirstKeepsFirst(SortByRank(all), field);
    forall c | c in all
      ensures (forall d | d in all && Earlier(d, c) :: FieldValue(d.grain, field) != FieldValue(c.grain, field))
              <==> FirstCopy(sources, table, field, c.src, c.pos)
    {
    }
  }

  lemma {:induction false} OnlySourceOfLabel(sources: seq<Source>, table: map<string, nat>, field: string, i: nat,
                                             n: nat)
    requires DistinctLabels(sources) && i < |sources| && n <= |sources|
    ensures LabelFirsts(sources, table, field, sources[i].name, n)
            == if i < n then FirstCopies(sources, table, field, i, |sources[i].grains|) else []
  {
    hide FirstCopies;
    if n > 0 { OnlySourceOfLabel(sources, table, field, i, n - 1); }
  }

  /** So a source with its own label gets back exactly its first copies, in the order it had them. */
  lemma OwnLabelKeepsFirstCopies(sources: seq<Source>, field: string, priority: Option<seq<PrioritySpec>>, i: nat)
    requires DistinctLabels(sources) && i < |sources|
    ensures |DedupAcross(sources, field, priority)| == |sources|
    ensures DedupAcross(sources, field, priority)[i] ==
            Source(sources[i].name,
                   Grains(FirstCopies(sources, RankTable(sources, priority), field, i, |sources[i].grains|)))
  {
    DedupKeepsFirstCopies(sources, field, priority, i);
    hide RankTable, FirstCopies, LabelFirsts, Grains, DedupAcross;
    OnlySourceOfLabel(sources, RankTable(sources, priority), field, i, |sources|);
    assert !NamedBefore(sources, i, sources[i].name);
  }

  // --- dedup by content address, the default ---

  predicate PlaceBefore(m: nat, n: nat, i: nat, j: nat) {
    m < i || (m == i && n < j)
  }

  /** No grain of the same address sits in an earlier place. */
  ghost predicate FirstByHash(sources: seq<Source>, i: nat, j: nat)
    requires i < |sources| && j < |sources[i].grains|
  {
    forall m: nat, n: nat | m < |sources| && n < |sources[m].grains| && PlaceBefore(m, n, i, j) ::
      sources[m].grains[n].hash != sources[i].grains[j].hash
  }

  ghost function HashFirsts(sources: seq<Source>, i: nat, n: nat): seq<Grain>
    requires i < |sources| && n <= |sources[i].grains|
  {
    if n == 0 then []
    else HashFirsts(sources, i, n - 1) + if FirstByHash(sources, i, n - 1) then [sources[i].grains[n - 1]] else []
  }

  ghost predicate SeenBefore(sources: seq<Source>, seen: set<string>, i: nat, j: nat) {
    forall h :: h in seen <==> exists m: nat, n: nat ::
      m < |sources| && n < |sources[m].grains| && PlaceBefore(m, n, i, j) && sources[m].grains[n].hash == h
  }

  lemma SeenNext(sources: seq<Source>, seen: set<string>, i: nat, j: nat)
    requires i < |sources| && j < |sources[i].grains| && SeenBefore(sources, seen, i, j)
    ensures sources[i].grains[j].hash in seen <==> !FirstByHash(sources, i, j)
    ensures SeenBefore(sources, seen + {sources[i].grains[j].hash}, i, j + 1)
  {
    var h := sources[i].grains[j].hash;
    forall g ensures g in seen + {h} <==> exists m: nat, n: nat ::
        m < |sources| && n < |sources[m].grains| && PlaceBefore(m, n, i, j + 1) && sources[m].grains[n].hash == g
    {
      if g in seen {
        var m: nat, n: nat :| m < |sources| && n < |sources[m].grains| && PlaceBefore(m, n, i, j)
                              && sources[m].grains[n].hash == g;
        assert PlaceBefore(m, n, i, j + 1);
      } else if g == h {
        assert PlaceBefore(i, j, i, j + 1) && sources[i].grains[j].hash == g;
      } else {
        forall m: nat, n: nat | m < |sources| && n < |sources[m].grains| && PlaceBefore(m, n, i, j + 1)
          ensures sources[m].grains[n].hash != g
        {
          if !(m == i && n == j) { assert PlaceBefore(m, n, i, j); }
        }
      }
    }
  }

  lemma SeenNextSource(sources: seq<Source>, seen: set<string>, i: nat)
    requires i < |sources| && SeenBefore(sources, seen, i, |sources[i].grains|)
    ensures SeenBefore(sources, seen, i + 1, 0)
  {
    assert forall m: nat, n: nat | m < |sources| && n < |sources[m].grains| ::
      PlaceBefore(m, n, i, |sources[i].grains|) <==> PlaceBefore(m, n, i + 1, 0);
  }

  method DedupByHash(sources: seq<Source>) returns (out: seq<Source>)
    ensures |out| == |sources|
    ensures forall i | 0 <= i < |sources| ::
              out[i] == Source(sources[i].name, HashFirsts(sources, i, |sources[i].grains|))
  {
    hide FirstByHash, SeenBefore;
    var seen: set<string> := {};
    out := [];
    assert SeenBefore(sources, seen, 0, 0) by { NothingSeen(sources); }
    for i := 0 to |sources|
      invariant |out| == i && SeenBefore(sources, seen, i, 0)
      invariant forall k | 0 <= k < i :: out[k] == Source(sources[k].name, HashFirsts(sources, k, |sources[k].grains|))
    {
      var grains := sources[i].grains;
      var deduped: seq<Grain> := [];
      for j := 0 to |grains|
        invariant deduped == HashFirsts(sources, i, j) && SeenBefore(sources, seen, i, j)
      {
        SeenNext(sources, seen, i, j);
        if grains[j].hash !in seen {
          deduped := deduped + [grains[j]];
        }
        seen := seen + {grains[j].hash};
      }
      SeenNextSource(sources, seen, i);
      out := out + [Source(sources[i].name, deduped)];
    }
  }

  lemma NothingSeen(sources: seq<Source>)
    ensures SeenBefore(sources, {}, 0, 0)
  {
  }

  lemma {:induction false} PositionsOfDistinct(names: seq<string>, i: nat)
    requires forall a, b | 0 <= a < b < |names| :: names[a] != names[b]
    ensures i < |names| ==> names[i] in Positions(names) && Positions(names)[names[i]] == i
  {
    if i < |names| - 1 { PositionsOfDistinct(names[..|names| - 1], i); }
  }

  lemma RankIsPosition(sources: seq<Source>, i: nat)
    requires DistinctLabels(sources) && i < |sources|
    ensures RankOf(RankTable(sources, None), sources[i].name) == i
  {
    PositionsOfDistinct(seq(|sources|, k requires 0 <= k < |sources| => sources[k].name), i);
  }

  lemma {:induction false} HashFirstsAreFirstCopies(sources: seq<Source>, i: nat, n: nat)
    requires DistinctLabels(sources) && i < |sources| && n <= |sources[i].grains|
    ensures Grains(FirstCopies(sources, RankTable(sources, None), "_hash", i, n)) == HashFirsts(sources, i, n)
  {
    hide RankTable, FirstCopy, FirstByHash, Grains;
    var table := RankTable(sources, None);
    if n == 0 {
      NoGrains();
    } else {
      HashFirstsAreFirstCopies(sources, i, n - 1);
      FirstEitherWay(sources, i, n - 1);
      GrainsAppend(FirstCopies(sources, table, "_hash", i, n - 1), CopyAt(sources, table, i, n - 1));
      assert FirstCopies(sources, table, "_hash", i, n - 1) + [] == FirstCopies(sources, table, "_hash", i, n - 1);
    }
  }

  lemma NoGrains()
    ensures Grains([]) == []
  {
  }

  lemma GrainsAppend(cs: seq<Copy>, c: Copy)
    ensures Grains(cs + [c]) == Grains(cs) + [c.grain]
  {
  }

  /** With the sources' positions for ranks, priority order is place order. */
  lemma FirstEitherWay(sources: seq<Source>, i: nat, j: nat)
    requires DistinctLabels(sources) && i < |sources| && j < |sources[i].grains|
    ensures FirstCopy(sources, RankTable(sources, None), "_hash", i, j) <==> FirstByHash(sources, i, j)
  {
    hide RankTable;
    var table := RankTable(sources, None);
    forall m: nat, n: nat | m < |sources| && n < |sources[m].grains|
      ensures Earlier(CopyAt(sources, table, m, n), CopyAt(sources, table, i, j)) <==> PlaceBefore(m, n, i, j)
    {
      RankIsPosition(sources, m);
      RankIsPosition(sources, i);
    }
    hide Earlier, PlaceBefore, CopyAt;
  }

  /** Without priorities, dedup by the address field is the default dedup. */
  lemma DedupByHashFieldIsDedupByHash(sources: seq<Source>, i: nat)
    requires DistinctLabels(sources) && i < |sources|
    ensures DedupAcross(sources, "_hash", None)[i] ==
            Source(sources[i].name, HashFirsts(sources, i, |sources[i].grains|))
  {
    OwnLabelKeepsFirstCopies(sources, "_hash", None, i);
    hide DedupAcross, RankTable, FirstCopies, HashFirsts;
    HashFirstsAreFirstCopies(sources, i, |sources[i].grains|);
  }

  // --- the cap on grains ---

  function CeilDiv(a: nat, b: nat): nat
    requires b > 0
  {
    (a + b - 1) / b
  }

  /** A source's share of the cap, at least one grain, at most what it has. */
  function CapOf(len: nat, total: nat, maxTotal: nat): (cap: nat)
    requires total > 0
    ensures cap <= len && (len > 0 ==> cap > 0)
  {
    Min(Max(CeilDiv(len * maxTotal, total), 1), len)
  }

  function CapOmitted(sources: seq<Source>, total: nat, maxTotal: nat): map<string, seq<Grain>>
    requires total > 0
  {
    if sources == [] then map[]
    else
      var rest, s := CapOmitted(sources[..|sources| - 1], total, maxTotal), sources[|sources| - 1];
      var tail := s.grains[CapOf(|s.grains|, total, maxTotal)..];
      if tail == [] then rest else rest[s.name := tail]
  }

  function Capped(sources: seq<Source>, total: nat, maxTotal: nat): seq<Source>
    requires total > 0
  {
    seq(|sources|, i requires 0 <= i < |sources| =>
      sources[i].(grains := sources[i].grains[..CapOf(|sources[i].grains|, total, maxTotal)]))
  }

  method CapGrains(sources: seq<Source>, maxTotal: nat) returns (out: seq<Source>, omitted: map<string, seq<Grain>>)
    ensures var total := GrainCount(sources);
            if total <= maxTotal then out == sources && omitted == map[]
            else out == Capped(sources, total, maxTotal) && omitted == CapOmitted(sources, total, maxTotal)
  {
    var total := CountGrains(sources);
    omitted := map[];
    if total <= maxTotal {
      return sources, omitted;
    }
    out := [];
    for i := 0 to |sources|
      invariant |out| == i && forall k | 0 <= k < i :: out[k] == Capped(sources, total, maxTotal)[k]
      invariant omitted == CapOmitted(sources[..i], total, maxTotal)
    {
      var grains := sources[i].grains;
      var cap := CapOf(|grains|, total, maxTotal);
      var tail := grains[cap..];
      assert sources[..i + 1][..i] == sources[..i];
      if tail != [] {
        omitted := omitted[sources[i].name := tail];
      }
      out := out + [Source(sources[i].name, grains[..cap])];
    }
    assert sources[..|sources|] == sources;
  }

  method CountGrains(sources: seq<Source>) returns (total: nat)
    ensures total == GrainCount(sources)
  {
    total := 0;
    for i := 0 to |sources|
      invariant total == GrainCount(sources[..i])
    {
      assert sources[..i + 1][..i] == sources[..i];
      total := total + |sources[i].grains|;
    }
    assert sources[..|sources|] == sources;
  }

  function NonEmpty(sources: seq<Source>): nat {
    if sources == [] then 0
    else NonEmpty(sources[..|sources| - 1]) + if sources[|sources| - 1].grains == [] then 0 else 1
  }

  function CapSum(sources: seq<Source>, total: nat, maxTotal: nat): nat
    requires total > 0
  {
    if sources == [] then 0
    else CapSum(sources[..|sources| - 1], total, maxTotal)
         + CapOf(|sources[|sources| - 1].grains|, total, maxTotal)
  }

  lemma CeilDivBounds(a: nat, b: nat)
    requires b > 0
    ensures a <= CeilDiv(a, b) * b < a + b
  {
    var q, r := (a + b - 1) / b, (a + b - 1) % b;
    assert a + b - 1 == q * b + r;
  }

  lemma MulMonotone(a: nat, b: nat, t: nat)
    requires a <= b
    ensures a * t <= b * t
  {
  }

  lemma Distribute(a: int, b: int, t: int)
    ensures (a + b) * t == a * t + b * t
  {
  }

  /** One source's share is the exact proportion, rounded up by less than one grain. */
  lemma CapOfBounds(len: nat, total: nat, maxTotal: nat)
    requires 1 <= maxTotal < total && len <= total
    ensures var c := CapOf(len, total, maxTotal);
            && len * maxTotal <= c * total
            && (if len == 0 then c == 0 else 1 <= c <= len && c * total <= len * maxTotal + (total - 1))
  {
    hide CeilDiv;
    var share := len * maxTotal;
    var p := CeilDiv(share, total);
    CeilDivBounds(share, total);
    MulMonotone(maxTotal, total, len);
    if len == 0 {
      assert share == 0;
    } else {
      MulMonotone(1, maxTotal, len);
      assert share >= 1;
      assert p >= 1;
      var c := CapOf(len, total, maxTotal);
      assert c == Min(p, len);
      MulMonotone(c, p, total);
    }
  }

  lemma {:induction false} CapSumBounds(sources: seq<Source>, total: nat, maxTotal: nat)
    requires 1 <= maxTotal < total && GrainCount(sources) <= total
    ensures GrainCount(sources) * maxTotal <= CapSum(sources, total, maxTotal) * total
            <= GrainCount(sources) * maxTotal + NonEmpty(sources) * (total - 1)
  {
    if sources != [] {
      var rest, s := sources[..|sources| - 1], sources[|sources| - 1];
      CapSumBounds(rest, total, maxTotal);
      var len := |s.grains|;
      CapOfBounds(len, total, maxTotal);
      hide CapOf;
      Distribute(CapSum(rest, total, maxTotal), CapOf(len, total, maxTotal), total);
      Distribute(GrainCount(rest), len, maxTotal);
      Distribute(NonEmpty(rest), if len == 0 then 0 else 1, total - 1);
    }
  }

  lemma {:induction false} CappedCount(sources: seq<Source>, total: nat, maxTotal: nat)
    requires total > 0
    ensures GrainCount(Capped(sources, total, maxTotal)) == CapSum(sources, total, maxTotal)
  {
    if sources != [] {
      var rest := sources[..|sources| - 1];
      CappedCount(rest, total, maxTotal);
      var capped := Capped(sources, total, maxTotal);
      assert capped[..|capped| - 1] == Capped(rest, total, maxTotal);
    }
  }

  /** A cap of zero would still keep one grain of every non-empty source. */
  lemma {:induction false} ZeroCapSum(sources: seq<Source>, total: nat)
    requires total > 0
    ensures CapSum(sources, total, 0) == NonEmpty(sources)
  {
    if sources != [] { ZeroCapSum(sources[..|sources| - 1], total); }
  }

  /** Capping `k` non-empty sources at `maxTotal` retains at least the cap and fewer than `k` grains more,
      and no non-empty source is emptied. */
  lemma CapBound(sources: seq<Source>, maxTotal: nat)
    requires maxTotal < GrainCount(sources)
    ensures var capped, k := Capped(sources, GrainCount(sources), maxTotal), NonEmpty(sources);
            && (if maxTotal == 0 then GrainCount(capped) == k else maxTotal <= GrainCount(capped) <= maxTotal + k - 1)
            && forall i | 0 <= i < |sources| && sources[i].grains != [] :: capped[i].grains != []
  {
    var total, k := GrainCount(sources), NonEmpty(sources);
    CappedCount(sources, total, maxTotal);
    if maxTotal == 0 {
      ZeroCapSum(sources, total);
    } else {
      CapSumBounds(sources, total, maxTotal);
      NonEmptyPositive(sources);
      SumWithinCap(CapSum(sources, total, maxTotal), total, maxTotal, k);
    }
    forall i | 0 <= i < |sources| && sources[i].grains != []
      ensures Capped(sources, total, maxTotal)[i].grains != []
    {
      assert CapOf(|sources[i].grains|, total, maxTotal) >= 1;
    }
  }

  lemma SumWithinCap(sum: nat, total: nat, maxTotal: nat, k: nat)
    requires total > 0 && k > 0
    requires total * maxTotal <= sum * total <= total * maxTotal + k * (total - 1)
    ensures maxTotal <= sum <= maxTotal + k - 1
  {
    if sum < maxTotal {
      MulMonotone(sum + 1, maxTotal, total);
      Distribute(sum, 1, total);
    }
    if sum >= maxTotal + k {
      MulMonotone(maxTotal + k, sum, total);
      Distribute(maxTotal, k, total);
      Distribute(total - 1, 1, k);
    }
  }

  lemma {:induction false} NonEmptyPositive(sources: seq<Source>)
    ensures GrainCount(sources) > 0 ==> NonEmpty(sources) > 0
  {
    if sources != [] { NonEmptyPositive(sources[..|sources| - 1]); }
  }

  // --- the token budget of one source ---

  /** The longest prefix that fits the budget, but at least one grain when there is one. */
  function KeepLen(gs: seq<Grain>, budget: nat): nat {
    if |gs| <= 1 || TokenSum(gs) <= budget then |gs| else KeepLen(gs[..|gs| - 1], budget)
  }

  lemma {:induction false} KeepLenFits(gs: seq<Grain>, budget: nat)
    ensures var k := KeepLen(gs, budget);
            && k <= |gs| && (gs != [] ==> k >= 1) && (k > 1 ==> TokenSum(gs[..k]) <= budget)
            && forall n | k < n <= |gs| :: TokenSum(gs[..n]) > budget
  {
    assert gs[..|gs|] == gs;
    if |gs| > 1 && TokenSum(gs) > budget {
      var rest := gs[..|gs| - 1];
      KeepLenFits(rest, budget);
      forall n | KeepLen(rest, budget) < n <= |gs| ensures TokenSum(gs[..n]) > budget {
        if n < |gs| { assert gs[..n] == rest[..n]; }
      }
      assert rest[..KeepLen(rest, budget)] == gs[..KeepLen(rest, budget)];
    }
  }

  lemma {:induction false} TokenSumGrows(gs: seq<Grain>, m: nat, n: nat)
    requires m <= n <= |gs|
    ensures TokenSum(gs[..m]) + (n - m) <= TokenSum(gs[..n])
    decreases n
  {
    if m < n {
      TokenSumGrows(gs, m, n - 1);
      assert gs[..n][..n - 1] == gs[..n - 1];
    }
  }

  method BudgetPrefix(grains: seq<Grain>, budget: nat) returns (kept: nat, used: nat)
    ensures kept == KeepLen(grains, budget) && kept <= |grains| && used == TokenSum(grains[..kept])
  {
    kept, used := 0, 0;
    KeepLenFits(grains, budget);
    while kept < |grains|
      invariant kept <= |grains| && used == TokenSum(grains[..kept])
      invariant kept <= KeepLen(grains, budget)
    {
      var tokens := Tokens(grains[kept]);
      assert grains[..kept + 1][..kept] == grains[..kept];
      if used + tokens > budget && kept > 0 {
        if KeepLen(grains, budget) > kept {
          TokenSumGrows(grains, kept + 1, KeepLen(grains, budget));
        }
        break;
      }
      used := used + tokens;
      kept := kept + 1;
    }
  }

  // --- budget shares ---

  function RealSum(ws: seq<real>): real {
    if ws == [] then 0.0 else RealSum(ws[..|ws| - 1]) + ws[|ws| - 1]
  }

  function Power(base: real, n: nat): real {
    if n == 0 then 1.0 else base * Power(base, n - 1)
  }

  function Normalize(ws: seq<real>): seq<real>
    requires RealSum(ws) > 0.0
  {
    seq(|ws|, i requires 0 <= i < |ws| => ws[i] / RealSum(ws))
  }

  function Decay(n: nat): seq<real> {
    seq(n, i requires 0 <= i < n => Power(0.6, i))
  }

  lemma {:induction false} DecayPositive(n: nat)
    ensures n > 0 ==> RealSum(Decay(n)) > 0.0
  {
    if n > 0 {
      DecayPositive(n - 1);
      assert Decay(n)[..n - 1] == Decay(n - 1);
      PowerPositive(n - 1);
    }
  }

  lemma {:induction false} PowerPositive(n: nat)
    ensures Power(0.6, n) > 0.0
  {
    if n > 0 { PowerPositive(n - 1); }
  }

  function DefaultWeights(n: nat): seq<real> {
    match n
    case 0 => []
    case 1 => [1.0]
    case 2 => [0.65, 0.35]
    case 3 => [0.5, 0.3, 0.2]
    case 4 => [0.4, 0.28, 0.2, 0.12]
    case _ =>
      DecayPositive(n);
      Normalize(Decay(n))
  }

  /** The weight of the first clause entry with the name; sources the clause does not name weigh nothing. */
  function WeightOf(specs: seq<PrioritySpec>, name: string): real {
    if specs == [] then 0.0
    else if specs[0].name == name then specs[0].weight
    else WeightOf(specs[1..], name)
  }

  function Weights(names: seq<string>, priority: Option<seq<PrioritySpec>>): (ws: seq<real>)
    ensures |ws| == |names|
  {
    match priority
    case Some(specs) =>
      var ws := seq(|names|, i requires 0 <= i < |names| => WeightOf(specs, names[i]));
      if RealSum(ws) > 0.0 then Normalize(ws) else DefaultWeights(|names|)
    case None => DefaultWeights(|names|)
  }

  /** `round` followed by `as u32`: half away from zero, then clamped to the type's range. */
  function RoundToU32(x: real): nat {
    if x < 0.0 then 0 else Min((x + 0.5).Floor, 0xFFFF_FFFF)
  }

  function ShareOf(weight: real, budget: nat): nat {
    RoundToU32(weight * budget as real)
  }

  function Shares(names: seq<string>, budget: nat, weights: seq<real>): map<string, nat>
    requires |weights| == |names|
  {
    if names == [] then map[]
    else
      var n := |names| - 1;
      Shares(names[..n], budget, weights[..n])[names[n] := ShareOf(weights[n], budget)]
  }

  method AllocateBudget(names: seq<string>, budget: nat, priority: Option<seq<PrioritySpec>>)
    returns (allocations: map<string, nat>)
    ensures allocations == Shares(names, budget, Weights(names, priority))
  {
    hide Weights, ShareOf;
    var weights := Weights(names, priority);
    allocations := map[];
    for i := 0 to |names|
      invariant allocations == Shares(names[..i], budget, weights[..i])
    {
      assert names[..i + 1][..i] == names[..i] && weights[..i + 1][..i] == weights[..i];
      assert names[..i + 1][i] == names[i] && weights[..i + 1][i] == weights[i];
      allocations := allocations[names[i] := ShareOf(weights[i], budget)];
    }
    assert names[..|names|] == names && weights[..|weights|] == weights;
  }

  function ShareSum(names: seq<string>, shares: map<string, nat>): nat {
    if names == [] then 0
    else ShareSum(names[..|names| - 1], shares)
         + if names[|names| - 1] in shares then shares[names[|names| - 1]] else 0
  }

  /** Rounding moves each share by at most half a token. */
  lemma {:induction false} SharesNearWeights(names: seq<string>, budget: nat, weights: seq<real>)
    requires |weights| == |names| && forall a, b | 0 <= a < b < |names| :: names[a] != names[b]
    requires budget <= 0xFFFF_FFFF && forall k | 0 <= k < |weights| :: 0.0 <= weights[k] <= 1.0
    ensures var sum := ShareSum(names, Shares(names, budget, weights)) as real;
            -(|names| as real) <= 2.0 * (sum - ExactSum(weights, budget)) <= |names| as real
  {
    if names != [] {
      var n := |names| - 1;
      SharesNearWeights(names[..n], budget, weights[..n]);
      ShareError(weights[n], budget);
      hide ShareOf, Exact;
      var rest := Shares(names[..n], budget, weights[..n]);
      SharesOfOthers(names[..n], rest, names[n], ShareOf(weights[n], budget));
    }
  }

  function Exact(weight: real, budget: nat): real {
    weight * budget as real
  }

  function ExactSum(weights: seq<real>, budget: nat): real {
    if weights == [] then 0.0 else ExactSum(weights[..|weights| - 1], budget) + Exact(weights[|weights| - 1], budget)
  }

  lemma {:induction false} ExactSumScales(weights: seq<real>, budget: nat)
    ensures ExactSum(weights, budget) == RealSum(weights) * budget as real
  {
    if weights != [] { ExactSumScales(weights[..|weights| - 1], budget); }
  }

  lemma ShareError(w: real, budget: nat)
    requires 0.0 <= w <= 1.0 && budget <= 0xFFFF_FFFF
    ensures -1.0 <= 2.0 * (ShareOf(w, budget) as real - Exact(w, budget)) <= 1.0
  {
    var x := w * budget as real;
    assert 0.0 <= x;
    assert x <= budget as real;
    assert x + 0.5 < 0xFFFF_FFFF as real + 1.0;
  }

  lemma {:induction false} SharesOfOthers(names: seq<string>, shares: map<string, nat>, name: string, share: nat)
    requires name !in names
    ensures ShareSum(names, shares[name := share]) == ShareSum(names, shares)
  {
    if names != [] {
      assert names[|names| - 1] in names;
      SharesOfOthers(names[..|names| - 1], shares, name, share);
    }
  }

  lemma {:induction false} NormalizedPart(ws: seq<real>, n: nat, total: real)
    requires n <= |ws| && total > 0.0
    ensures RealSum(seq(n, i requires 0 <= i < n => ws[i] / total)) == RealSum(ws[..n]) / total
  {
    if n > 0 {
      NormalizedPart(ws, n - 1, total);
      var part := seq(n, i requires 0 <= i < n => ws[i] / total);
      assert part[..n - 1] == seq(n - 1, i requires 0 <= i < n - 1 => ws[i] / total);
      assert ws[..n][..n - 1] == ws[..n - 1];
    }
  }

  /** Non-negative weights that add up to one. */
  predicate Shared(ws: seq<real>) {
    RealSum(ws) == 1.0 && forall k | 0 <= k < |ws| :: 0.0 <= ws[k]
  }

  lemma NormalizedIsShared(ws: seq<real>)
    requires RealSum(ws) > 0.0 && forall k | 0 <= k < |ws| :: 0.0 <= ws[k]
    ensures Shared(Normalize(ws))
  {
    NormalizedPart(ws, |ws|, RealSum(ws));
    assert ws[..|ws|] == ws;
    SelfQuotient(RealSum(ws));
    forall k | 0 <= k < |ws| ensures 0.0 <= Normalize(ws)[k] { QuotientNonNegative(ws[k], RealSum(ws)); }
    hide RealSum;
  }

  lemma QuotientNonNegative(x: real, y: real)
    requires 0.0 <= x && 0.0 < y
    ensures 0.0 <= x / y
  {
  }

  lemma DefaultWeightsAreShared(n: nat)
    requires n > 0
    ensures |DefaultWeights(n)| == n && Shared(DefaultWeights(n))
  {
    if n <= 4 {
      Unrolled(DefaultWeights(n));
    } else {
      DecayPositive(n);
      forall i | 0 <= i < n ensures 0.0 <= Decay(n)[i] { PowerPositive(i); }
      NormalizedIsShared(Decay(n));
    }
  }

  /** No entry of the clause weighs less than nothing. */
  predicate NonNegative(priority: Option<seq<PrioritySpec>>) {
    priority.Some? ==> forall k | 0 <= k < |priority.value| :: 0.0 <= priority.value[k].weight
  }

  lemma {:induction false} WeightIsNonNegative(specs: seq<PrioritySpec>, name: string)
    requires forall k | 0 <= k < |specs| :: 0.0 <= specs[k].weight
    ensures 0.0 <= WeightOf(specs, name)
    decreases specs
  {
    if specs != [] { WeightIsNonNegative(specs[1..], name); }
  }

  lemma WeightsAreShared(names: seq<string>, priority: Option<seq<PrioritySpec>>)
    requires names != [] && NonNegative(priority)
    ensures Shared(Weights(names, priority))
  {
    DefaultWeightsAreShared(|names|);
    hide DefaultWeights, Shared, WeightOf;
    match priority
    case None =>
    case Some(specs) =>
      var ws := seq(|names|, i requires 0 <= i < |names| => WeightOf(specs, names[i]));
      forall k | 0 <= k < |ws| ensures 0.0 <= ws[k] { WeightIsNonNegative(specs, names[k]); }
      if RealSum(ws) > 0.0 { NormalizedIsShared(ws); }
  }

  lemma SelfQuotient(x: real)
    requires x > 0.0
    ensures x / x == 1.0
  {
  }

  lemma Unrolled(ws: seq<real>)
    requires 1 <= |ws| <= 4
    ensures RealSum(ws) == ws[0] + (if |ws| > 1 then ws[1] else 0.0) + (if |ws| > 2 then ws[2] else 0.0)
                           + (if |ws| > 3 then ws[3] else 0.0)
  {
    if |ws| == 1 {
      assert ws[..0] == [];
    } else {
      Unrolled(ws[..|ws| - 1]);
    }
  }

  /** With or without a priority clause, the shares of `n` sources add up to the budget, give or take half a token
      each. */
  lemma SharesNearBudget(names: seq<string>, budget: nat, priority: Option<seq<PrioritySpec>>)
    requires names != [] && budget <= 0xFFFF_FFFF && NonNegative(priority)
    requires forall a, b | 0 <= a < b < |names| :: names[a] != names[b]
    ensures var sum := ShareSum(names, Shares(names, budget, Weights(names, priority)));
            2 * sum <= 2 * budget + |names| && 2 * budget <= 2 * sum + |names|
  {
    var ws := Weights(names, priority);
    WeightsAreShared(names, priority);
    hide Weights;
    forall k | 0 <= k < |ws| ensures ws[k] <= 1.0 {
      WeightAtMostSum(ws, k);
    }
    SharesNearWeights(names, budget, ws);
    ExactSumScales(ws, budget);
  }

  lemma {:induction false} WeightAtMostSum(ws: seq<real>, k: nat)
    requires k < |ws| && forall k | 0 <= k < |ws| :: 0.0 <= ws[k]
    ensures ws[k] <= RealSum(ws)
  {
    SumNonNegative(ws[..|ws| - 1]);
    if k < |ws| - 1 { WeightAtMostSum(ws[..|ws| - 1], k); }
  }

  lemma {:induction false} SumNonNegative(ws: seq<real>)
    requires forall k | 0 <= k < |ws| :: 0.0 <= ws[k]
    ensures 0.0 <= RealSum(ws)
  {
    if ws != [] {
      SumNonNegative(ws[..|ws| - 1]);
    }
  }

  // --- trimming every source in turn ---

  /** The greedy trim of capped sources: what each source is offered, keeps and leaves. */
  datatype Plan = Plan(sources: seq<Source>, shares: map<string, nat>, budget: nat) {

    /** Budget left before source `n`; one oversized grain can exhaust it, never overdraw it. */
    function Remaining(n: nat): nat
      requires n <= |sources|
      decreases n, 1
    {
      if n == 0 then budget else Max(Remaining(n - 1) - UsedBy(n - 1), 0)
    }

    /** The share of a source, or an even part of what is left when it has none, within what is left. */
    function Offer(name: string, remaining: nat): nat {
      Min(if name in shares then shares[name] else remaining / Max(|sources|, 1), remaining)
    }

    function Effective(i: nat): nat
      requires i < |sources|
      decreases i, 2
    {
      Offer(sources[i].name, Remaining(i))
    }

    function Kept(i: nat): nat
      requires i < |sources|
      decreases i, 3
    {
      KeepLenFits(sources[i].grains, Effective(i));
      KeepLen(sources[i].grains, Effective(i))
    }

    function KeptGrains(i: nat): seq<Grain>
      requires i < |sources|
      decreases i, 4
    {
      KeepLenFits(sources[i].grains, Effective(i));
      sources[i].grains[..Kept(i)]
    }

    function UsedBy(i: nat): nat
      requires i < |sources|
      decreases i, 5
    {
      TokenSum(KeptGrains(i))
    }

    function Excess(i: nat): nat
      requires i < |sources|
    {
      Max(UsedBy(i) - Remaining(i), 0)
    }

    function TotalUsed(n: nat): nat
      requires n <= |sources|
    {
      if n == 0 then 0 else TotalUsed(n - 1) + UsedBy(n - 1)
    }

    function TotalExcess(n: nat): nat
      requires n <= |sources|
    {
      if n == 0 then 0 else TotalExcess(n - 1) + Excess(n - 1)
    }

    function AllKept(n: nat): seq<Grain>
      requires n <= |sources|
    {
      if n == 0 then [] else AllKept(n - 1) + KeptGrains(n - 1)
    }

    function Omitted(capOmitted: map<string, seq<Grain>>, i: nat): seq<Grain>
      requires i < |sources|
    {
      KeepLenFits(sources[i].grains, Effective(i));
      sources[i].grains[Kept(i)..]
      + if NamedBefore(sources, i, sources[i].name) then [] else Lookup(capOmitted, sources[i].name)
    }

    function Meta(capOmitted: map<string, seq<Grain>>, i: nat): SourceMeta
      requires i < |sources|
    {
      SourceMeta(sources[i].name, Effective(i), UsedBy(i), Kept(i), Omitted(capOmitted, i))
    }
  }

  datatype SourceMeta = SourceMeta(name: string, offered: nat, used: nat, grainCount: nat, omitted: seq<Grain>)

  ghost function Deduped(sources: seq<Source>, dedup: Option<Option<string>>,
                         priority: Option<seq<PrioritySpec>>): seq<Source> {
    match dedup
    case Some(field) => DedupAcross(sources, field.GetOr("_hash"), priority)
    case None =>
      seq(|sources|, i requires 0 <= i < |sources| =>
        Source(sources[i].name, HashFirsts(sources, i, |sources[i].grains|)))
  }

  ghost function CapTo(sources: seq<Source>, maxTotal: nat): (seq<Source>, map<string, seq<Grain>>) {
    var total := GrainCount(sources);
    if total <= maxTotal then (sources, map[])
    else (Capped(sources, total, maxTotal), CapOmitted(sources, total, maxTotal))
  }

  function Names(sources: seq<Source>): seq<string> {
    seq(|sources|, i requires 0 <= i < |sources| => sources[i].name)
  }

  ghost function PlanFor(sources: seq<Source>, dedup: Option<Option<string>>, priority: Option<seq<PrioritySpec>>,
                         budget: Option<nat>): Plan
  {
    var capped := CapTo(Deduped(sources, dedup, priority), MAX_GRAINS_POST_DEDUP).0;
    var tokens := budget.GetOr(DEFAULT_BUDGET_TOKENS);
    Plan(capped, Shares(Names(capped), tokens, Weights(Names(capped), priority)), tokens)
  }

  datatype Assembled = Assembled(grains: seq<Grain>, sources: seq<SourceMeta>, totalTokens: nat, budgetLimit: nat)

  /** Assembly of the results the sources returned, `dedup` being the optional clause and its optional field. */
  method Execute(sources: seq<Source>, dedup: Option<Option<string>>, priority: Option<seq<PrioritySpec>>,
                 budget: Option<nat>)
    returns (r: Assembled)
    ensures var plan := PlanFor(sources, dedup, priority, budget);
            var capOmitted := CapTo(Deduped(sources, dedup, priority), MAX_GRAINS_POST_DEDUP).1;
            && r.grains == plan.AllKept(|plan.sources|)
            && r.totalTokens == plan.TotalUsed(|plan.sources|)
            && r.budgetLimit == plan.budget == budget.GetOr(4000)
            && |r.sources| == |plan.sources|
            && forall i | 0 <= i < |plan.sources| :: r.sources[i] == plan.Meta(capOmitted, i)
  {
    var results;
    if dedup.Some? {
      results := DedupAcrossSources(sources, dedup.value.GetOr("_hash"), priority);
    } else {
      results := DedupByHash(sources);
    }
    assert results == Deduped(sources, dedup, priority);
    var capped, capOmitted := CapGrains(results, MAX_GRAINS_POST_DEDUP);
    var tokens := budget.GetOr(DEFAULT_BUDGET_TOKENS);
    var shares := AllocateBudget(Names(capped), tokens, priority);
    r := TrimSources(Plan(capped, shares, tokens), capOmitted);
  }

  /** One source of the plan, spelled out. */
  lemma PlanStep(plan: Plan, i: nat)
    requires i < |plan.sources|
    ensures var gs, e := plan.sources[i].grains, plan.Effective(i);
            && e == plan.Offer(plan.sources[i].name, plan.Remaining(i))
            && plan.Kept(i) == KeepLen(gs, e) <= |gs|
            && plan.KeptGrains(i) == gs[..plan.Kept(i)]
            && plan.UsedBy(i) == TokenSum(gs[..plan.Kept(i)])
    ensures plan.Remaining(i + 1) == Max(plan.Remaining(i) - plan.UsedBy(i), 0)
    ensures plan.AllKept(i + 1) == plan.AllKept(i) + plan.KeptGrains(i)
    ensures plan.TotalUsed(i + 1) == plan.TotalUsed(i) + plan.UsedBy(i)
  {
    hide KeepLen, TokenSum, Plan.Offer;
    KeepLenFits(plan.sources[i].grains, plan.Effective(i));
  }

  /** The capped tails not handed out yet: those of names no source before `i` carries. */
  ghost predicate StillOmitted(sources: seq<Source>, i: nat, all: map<string, seq<Grain>>,
                               left: map<string, seq<Grain>>)
    requires i <= |sources|
  {
    forall l :: Lookup(left, l) == if NamedBefore(sources, i, l) then [] else Lookup(all, l)
  }

  lemma OmittedOnce(plan: Plan, i: nat, all: map<string, seq<Grain>>, left: map<string, seq<Grain>>)
    requires i < |plan.sources| && StillOmitted(plan.sources, i, all, left)
    ensures StillOmitted(plan.sources, i + 1, all, left - {plan.sources[i].name})
    ensures plan.Kept(i) <= |plan.sources[i].grains|
    ensures plan.Omitted(all, i) == plan.sources[i].grains[plan.Kept(i)..] + Lookup(left, plan.sources[i].name)
  {
    NamedBeforeNext(plan.sources, i);
    KeepLenFits(plan.sources[i].grains, plan.Effective(i));
    var name := plan.sources[i].name;
    assert plan.Omitted(all, i) == plan.sources[i].grains[plan.Kept(i)..] + Lookup(left, name);
    hide NamedBefore, Plan.Omitted, Plan.Kept, Plan.Effective;
    forall l ensures Lookup(left - {name}, l) == if NamedBefore(plan.sources, i + 1, l) then [] else Lookup(all, l) {
      assert Lookup(left, l) == if NamedBefore(plan.sources, i, l) then [] else Lookup(all, l);
    }
  }

  lemma PlanStart(plan: Plan, capOmitted: map<string, seq<Grain>>)
    ensures plan.AllKept(0) == [] && plan.Remaining(0) == plan.budget && plan.TotalUsed(0) == 0
    ensures StillOmitted(plan.sources, 0, capOmitted, capOmitted)
  {
  }

  method TrimSources(plan: Plan, capOmitted0: map<string, seq<Grain>>) returns (r: Assembled)
    ensures r.grains == plan.AllKept(|plan.sources|)
    ensures r.totalTokens == plan.TotalUsed(|plan.sources|)
    ensures r.budgetLimit == plan.budget
    ensures |r.sources| == |plan.sources|
    ensures forall i | 0 <= i < |plan.sources| :: r.sources[i] == plan.Meta(capOmitted0, i)
  {
    var sources := plan.sources;
    var capOmitted := capOmitted0;
    PlanStart(plan, capOmitted0);
    hide Min, Max, Lookup, KeepLen, TokenSum, NamedBefore, StillOmitted, Plan.Effective, Plan.Remaining, Plan.AllKept,
         Plan.TotalUsed, Plan.Kept, Plan.KeptGrains, Plan.UsedBy, Plan.Omitted, Plan.Offer;
    var grains: seq<Grain>, meta: seq<SourceMeta> := [], [];
    var remaining, total := plan.budget, 0;
    for i := 0 to |sources|
      invariant grains == plan.AllKept(i) && remaining == plan.Remaining(i) && total == plan.TotalUsed(i)
      invariant |meta| == i && forall k | 0 <= k < i :: meta[k] == plan.Meta(capOmitted0, k)
      invariant StillOmitted(sources, i, capOmitted0, capOmitted)
    {
      var name := sources[i].name;
      var offered := plan.Offer(name, remaining);
      var keep, used := BudgetPrefix(sources[i].grains, offered);
      PlanStep(plan, i);
      OmittedOnce(plan, i, capOmitted0, capOmitted);
      var omitted := sources[i].grains[keep..] + Lookup(capOmitted, name);
      meta := meta + [SourceMeta(name, offered, used, keep, omitted)];
      grains := grains + sources[i].grains[..keep];
      remaining := Max(remaining - used, 0);
      total := total + used;
      capOmitted := capOmitted - {name};
    }
    r := Assembled(grains, meta, total, plan.budget);
  }

  // --- what assembly promises ---

  /** Tokens used and the budget left over make up the budget and the excesses, exactly. */
  lemma {:induction false} BudgetConservation(plan: Plan, n: nat)
    requires n <= |plan.sources|
    ensures plan.TotalUsed(n) + plan.Remaining(n) == plan.budget + plan.TotalExcess(n)
  {
    if n > 0 { BudgetConservation(plan, n - 1); }
  }

  /** Only a source that kept exactly one grain, larger than everything it was offered, goes over. */
  lemma ExcessIsOneGrain(plan: Plan, i: nat)
    requires i < |plan.sources| && plan.Excess(i) > 0
    ensures plan.Kept(i) == 1 && Tokens(plan.sources[i].grains[0]) > plan.Effective(i)
  {
    var gs := plan.sources[i].grains;
    KeepLenFits(gs, plan.Effective(i));
    PlanStep(plan, i);
    assert gs[..0] == [];
    if plan.Kept(i) == 1 {
      assert gs[..1][..0] == [];
    }
  }

  /** A source goes over exactly when its first grain alone is larger than what is left, and then it keeps no other. */
  lemma ExceedsIff(plan: Plan, i: nat)
    requires i < |plan.sources|
    ensures plan.Excess(i) > 0
            <==> plan.sources[i].grains != [] && Tokens(plan.sources[i].grains[0]) > plan.Remaining(i)
    ensures plan.Excess(i) > 0 ==> plan.Kept(i) == 1
  {
    var gs := plan.sources[i].grains;
    KeepLenFits(gs, plan.Effective(i));
    PlanStep(plan, i);
    if plan.Excess(i) > 0 { ExcessIsOneGrain(plan, i); }
    if gs != [] { FirstGrainCounts(gs, plan.Kept(i)); }
    OneGrainSum(gs);
  }

  lemma OneGrainSum(gs: seq<Grain>)
    ensures gs != [] ==> TokenSum(gs[..1]) == Tokens(gs[0])
  {
    if gs != [] { assert gs[..1][..0] == []; }
  }

  lemma {:induction false} FirstGrainCounts(gs: seq<Grain>, n: nat)
    requires 0 < n <= |gs|
    ensures TokenSum(gs[..n]) >= Tokens(gs[0])
  {
    if n == 1 {
      OneGrainSum(gs);
    } else {
      FirstGrainCounts(gs, n - 1);
      assert gs[..n][..n - 1] == gs[..n - 1];
    }
  }

  /** Once a source has gone over, nothing is left. */
  lemma {:induction false} NothingIsLeft(plan: Plan, n: nat)
    requires n <= |plan.sources|
    ensures plan.TotalExcess(n) > 0 ==> plan.Remaining(n) == 0
  {
    if n > 0 { NothingIsLeft(plan, n - 1); }
  }

  /** A total stays within the budget exactly when every first grain fits what is left for its source. */
  lemma {:induction false} WithinBudgetIff(plan: Plan, n: nat)
    requires n <= |plan.sources|
    ensures plan.TotalUsed(n) <= plan.budget
            <==> forall i | 0 <= i < n && plan.sources[i].grains != [] ::
                   Tokens(plan.sources[i].grains[0]) <= plan.Remaining(i)
  {
    BudgetConservation(plan, n);
    NothingIsLeft(plan, n);
    NoExcessIff(plan, n);
    hide Plan.TotalUsed, Plan.TotalExcess, Plan.Remaining;
  }

  lemma {:induction false} NoExcessIff(plan: Plan, n: nat)
    requires n <= |plan.sources|
    ensures plan.TotalExcess(n) == 0
            <==> forall i | 0 <= i < n && plan.sources[i].grains != [] ::
                   Tokens(plan.sources[i].grains[0]) <= plan.Remaining(i)
  {
    if n > 0 {
      NoExcessIff(plan, n - 1);
      ExceedsIff(plan, n - 1);
      hide Plan.Remaining, Plan.Excess, Tokens;
    }
  }

  /** An assembly of one grain a token larger than the budget, whatever the budget is. */
  function Oversized(budget: Option<nat>): seq<Source> {
    [Source("a", [Grain("h", map[], 4 * (budget.GetOr(DEFAULT_BUDGET_TOKENS) + 1))])]
  }

  /** Such an assembly uses more than its budget. */
  lemma OversizedGrainExceeds(budget: Option<nat>)
    ensures var plan := PlanFor(Oversized(budget), None, None, budget);
            |plan.sources| == 1 && plan.TotalUsed(1) == plan.budget + 1
  {
    var plan := PlanFor(Oversized(budget), None, None, budget);
    OversizedIsPlanned(budget);
    var g := plan.sources[0].grains[0];
    assert Tokens(g) == plan.budget + 1;
    ExceedsIff(plan, 0);
    ExcessIsOneGrain(plan, 0);
    PlanStep(plan, 0);
    OneGrainSum(plan.sources[0].grains);
    assert plan.TotalUsed(0) == 0;
  }

  lemma OversizedIsPlanned(budget: Option<nat>)
    ensures PlanFor(Oversized(budget), None, None, budget).sources == Oversized(budget)
  {
    var sources := Oversized(budget);
    assert HashFirsts(sources, 0, 0) == [];
    assert FirstByHash(sources, 0, 0);
    assert HashFirsts(sources, 0, 1) == sources[0].grains;
    assert Deduped(sources, None, None) == sources;
    assert GrainCount(sources) == 1 by { assert sources[..0] == []; }
    hide Weights, Shares, HashFirsts, Deduped, Oversized, GrainCount;
  }

  // --- what the report says ---

  /** A source with a share is offered that share, or what is left when that is less. */
  lemma OfferedShare(plan: Plan, i: nat)
    requires i < |plan.sources| && plan.sources[i].name in plan.shares
    ensures plan.Effective(i) <= plan.Remaining(i) && plan.Effective(i) <= plan.shares[plan.sources[i].name]
    ensures plan.Effective(i) == plan.Remaining(i) || plan.Effective(i) == plan.shares[plan.sources[i].name]
  {
  }

  /** Every label of an assembly has a share. */
  lemma {:induction false} AllHaveShares(names: seq<string>, budget: nat, weights: seq<real>)
    requires |weights| == |names|
    ensures Shares(names, budget, weights).Keys == set n | n in names
  {
    hide ShareOf;
    if names != [] {
      var k := |names| - 1;
      AllHaveShares(names[..k], budget, weights[..k]);
      assert names == names[..k] + [names[k]];
    }
  }

  function UsedSum(meta: seq<SourceMeta>): nat {
    if meta == [] then 0 else UsedSum(meta[..|meta| - 1]) + meta[|meta| - 1].used
  }

  function CountSum(meta: seq<SourceMeta>): nat {
    if meta == [] then 0 else CountSum(meta[..|meta| - 1]) + meta[|meta| - 1].grainCount
  }

  /** The report adds up: the sources' tokens make the total, their counts the number of grains, and a source uses more
      than it was offered only by keeping a single grain. */
  lemma {:induction false} ReportAddsUp(plan: Plan, capOmitted: map<string, seq<Grain>>, meta: seq<SourceMeta>)
    requires |meta| <= |plan.sources| && forall i | 0 <= i < |meta| :: meta[i] == plan.Meta(capOmitted, i)
    ensures UsedSum(meta) == plan.TotalUsed(|meta|) && CountSum(meta) == |plan.AllKept(|meta|)|
    ensures forall i | 0 <= i < |meta| ::
              meta[i].name == plan.sources[i].name && (meta[i].used > meta[i].offered ==> meta[i].grainCount == 1)
  {
    hide Plan.TotalUsed, Plan.AllKept, Plan.Kept, Plan.KeptGrains, Plan.UsedBy, Plan.Effective, Plan.Omitted, Plan.Meta,
         Plan.Remaining, KeepLen, TokenSum, Plan.Offer, NamedBefore, Lookup;
    if meta != [] {
      var n := |meta| - 1;
      TotalsStep(plan, n);
      ReportAddsUp(plan, capOmitted, meta[..n]);
      UsedWithinOffer(plan, n);
      MetaIs(plan, capOmitted, n);
    } else {
      NoTotals(plan);
    }
  }

  lemma NoTotals(plan: Plan)
    ensures plan.TotalUsed(0) == 0 && plan.AllKept(0) == []
  {
  }

  lemma TotalsStep(plan: Plan, n: nat)
    requires n < |plan.sources|
    ensures plan.TotalUsed(n + 1) == plan.TotalUsed(n) + plan.UsedBy(n)
    ensures |plan.AllKept(n + 1)| == |plan.AllKept(n)| + plan.Kept(n)
  {
    PlanStep(plan, n);
    hide Plan.Kept, Plan.KeptGrains, Plan.UsedBy, Plan.Effective, Plan.Remaining, Plan.AllKept, Plan.TotalUsed;
  }

  lemma MetaIs(plan: Plan, capOmitted: map<string, seq<Grain>>, i: nat)
    requires i < |plan.sources|
    ensures var m := plan.Meta(capOmitted, i);
            && m.name == plan.sources[i].name && m.offered == plan.Effective(i) && m.used == plan.UsedBy(i)
            && m.grainCount == plan.Kept(i)
  {
    hide Plan.Effective, Plan.UsedBy, Plan.Kept, Plan.Omitted;
  }

  lemma UsedWithinOffer(plan: Plan, i: nat)
    requires i < |plan.sources|
    ensures plan.UsedBy(i) > plan.Effective(i) ==> plan.Kept(i) == 1
  {
    var gs := plan.sources[i].grains;
    KeepLenFits(gs, plan.Effective(i));
    PlanStep(plan, i);
    assert gs[..0] == [];
  }
}
