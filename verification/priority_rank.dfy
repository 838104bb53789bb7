/** What a priority clause means for field dedup: copies are preferred by the weight their source's label has in the
    clause, and only then by place. */
module PriorityRank {
  import opened Basics
  import opened Assemble

  // --- the order a clause puts its entries in ---

  /** Entry `i` comes before entry `j`: it weighs more, or the same and is listed first. */
  predicate Outranks(specs: seq<PrioritySpec>, i: nat, j: nat)
    requires i < |specs| && j < |specs|
  {
    specs[i].weight > specs[j].weight || (specs[i].weight == specs[j].weight && i < j)
  }

  /** `order` lists entries of `specs`, each behind the ones that outrank it, and spells out `sorted`. */
  ghost predicate InOrder(specs: seq<PrioritySpec>, sorted: seq<PrioritySpec>, order: seq<nat>) {
    && |order| == |sorted|
    && (forall a | 0 <= a < |order| :: order[a] < |specs| && sorted[a] == specs[order[a]])
    && (forall a, b | 0 <= a < b < |order| :: Outranks(specs, order[a], order[b]))
  }

  lemma {:induction false} InsertedInOrder(specs: seq<PrioritySpec>, n: nat, sorted: seq<PrioritySpec>, order: seq<nat>)
    returns (all: seq<nat>)
    requires n < |specs| && InOrder(specs, sorted, order) && forall a | 0 <= a < |order| :: order[a] < n
    ensures InOrder(specs, InsertSpec(specs[n], sorted), all)
    ensures forall i: nat :: i in all <==> i in order || i == n
  {
    if sorted == [] || sorted[|sorted| - 1].weight >= specs[n].weight {
      all := order + [n];
      forall a | 0 <= a < |order| ensures Outranks(specs, order[a], n) {
        assert a < |order| - 1 ==> Outranks(specs, order[a], order[|order| - 1]);
      }
      hide Outranks, InsertSpec;
      Appended(specs, sorted, order, n);
      assert InsertSpec(specs[n], sorted) == sorted + [specs[n]] by { AtTheEnd(specs[n], sorted); }
    } else {
      var k := |sorted| - 1;
      var before := InsertedInOrder(specs, n, sorted[..k], order[..k]);
      all := before + [order[k]];
      forall a | 0 <= a < |before| ensures Outranks(specs, before[a], order[k]) {
        assert before[a] in before;
        if before[a] != n {
          var c :| 0 <= c < k && order[..k][c] == before[a];
          assert Outranks(specs, order[c], order[k]);
        }
      }
      assert order == order[..k] + [order[k]];
      hide Outranks;
      Appended(specs, InsertSpec(specs[n], sorted[..k]), before, order[k]);
    }
  }

  lemma AtTheEnd(s: PrioritySpec, sorted: seq<PrioritySpec>)
    requires sorted == [] || sorted[|sorted| - 1].weight >= s.weight
    ensures InsertSpec(s, sorted) == sorted + [s]
  {
  }

  lemma Appended(specs: seq<PrioritySpec>, sorted: seq<PrioritySpec>, order: seq<nat>, i: nat)
    requires InOrder(specs, sorted, order) && i < |specs|
    requires forall a | 0 <= a < |order| :: Outranks(specs, order[a], i)
    ensures InOrder(specs, sorted + [specs[i]], order + [i])
  {
    hide Outranks;
  }

  lemma {:induction false} SortedInOrder(specs: seq<PrioritySpec>, n: nat) returns (order: seq<nat>)
    requires n <= |specs|
    ensures InOrder(specs, SortSpecs(specs[..n]), order)
    ensures forall i: nat :: i in order <==> i < n
  {
    if n == 0 {
      order := [];
    } else {
      var before := SortedInOrder(specs, n - 1);
      assert specs[..n][..n - 1] == specs[..n - 1];
      forall a | 0 <= a < |before| ensures before[a] < n - 1 {
        assert before[a] in before;
      }
      order := InsertedInOrder(specs, n - 1, SortSpecs(specs[..n - 1]), before);
    }
  }

  // --- ranks ---

  lemma {:induction false} PositionOfLast(labels: seq<string>, a: nat)
    requires a < |labels| && forall b | a < b < |labels| :: labels[b] != labels[a]
    ensures labels[a] in Positions(labels) && Positions(labels)[labels[a]] == a
  {
    if a < |labels| - 1 {
      PositionOfLast(labels[..|labels| - 1], a);
    }
  }

  lemma {:induction false} OnlyLabelsHavePositions(labels: seq<string>)
    ensures Positions(labels).Keys == set l | l in labels
    ensures forall l | l in labels :: Positions(labels)[l] < |labels|
  {
    if labels != [] {
      OnlyLabelsHavePositions(labels[..|labels| - 1]);
      assert labels == labels[..|labels| - 1] + [labels[|labels| - 1]];
    }
  }

  /** Of the entries with this name every other one outranks it: a repeated name counts by its lowest entry. */
  predicate Lowest(specs: seq<PrioritySpec>, i: nat)
    requires i < |specs|
  {
    forall j | 0 <= j < |specs| && j != i && specs[j].name == specs[i].name :: Outranks(specs, j, i)
  }

  function LabelsOf(sorted: seq<PrioritySpec>): seq<string> {
    seq(|sorted|, i requires 0 <= i < |sorted| => sorted[i].name)
  }

  /** The rank of a name is where its lowest entry stands in the order. */
  lemma RankOfLowest(specs: seq<PrioritySpec>, sorted: seq<PrioritySpec>, order: seq<nat>, a: nat)
    requires InOrder(specs, sorted, order) && (forall i: nat :: i in order <==> i < |specs|)
    requires a < |order| && Lowest(specs, order[a])
    ensures var name := specs[order[a]].name;
            name in Positions(LabelsOf(sorted)) && Positions(LabelsOf(sorted))[name] == a
  {
    var labels := LabelsOf(sorted);
    forall b | a < b < |labels| ensures labels[b] != labels[a] {
      assert Outranks(specs, order[a], order[b]);
    }
    PositionOfLast(labels, a);
  }

  lemma PlaceOf(specs: seq<PrioritySpec>, order: seq<nat>, i: nat) returns (a: nat)
    requires i < |specs| && (forall j: nat :: j in order <==> j < |specs|)
    ensures a < |order| && order[a] == i
  {
    assert i in order;
    a :| 0 <= a < |order| && order[a] == i;
  }

  lemma {:induction false} LowestOf(specs: seq<PrioritySpec>, name: string, n: nat) returns (i: nat)
    requires n <= |specs| && exists j | 0 <= j < n :: specs[j].name == name
    ensures i < n && specs[i].name == name
    ensures forall j | 0 <= j < n && j != i && specs[j].name == name :: Outranks(specs, j, i)
  {
    var last := n - 1;
    if exists j | 0 <= j < last :: specs[j].name == name {
      var k := LowestOf(specs, name, last);
      i := if specs[last].name == name && Outranks(specs, k, last) then last else k;
    } else {
      i := last;
    }
  }

  /** The clause prefers one label to another: it names only the first one, or it names both and the lowest entry of
      the first one outranks the lowest entry of the other. */
  predicate Prefers(specs: seq<PrioritySpec>, x: string, y: string) {
    exists i | 0 <= i < |specs| :: specs[i].name == x && Lowest(specs, i) && Beats(specs, i, y)
  }

  predicate Beats(specs: seq<PrioritySpec>, i: nat, y: string)
    requires i < |specs|
  {
    || (forall j | 0 <= j < |specs| :: specs[j].name != y)
    || (exists j | 0 <= j < |specs| :: specs[j].name == y && Lowest(specs, j) && Outranks(specs, i, j))
  }

  lemma RankFollowsWeights(sources: seq<Source>, specs: seq<PrioritySpec>, x: string, y: string)
    requires |specs| <= USIZE_MAX
    ensures var table := RankTable(sources, Some(specs)); RankOf(table, x) < RankOf(table, y) <==> Prefers(specs, x, y)
  {
    var sorted := SortSpecs(specs);
    assert specs[..|specs|] == specs;
    var order := SortedInOrder(specs, |specs|);
    var labels := LabelsOf(sorted);
    TableIs(sources, specs);
    OnlyLabelsHavePositions(labels);
    NamedIsSorted(specs, sorted, order, x);
    NamedIsSorted(specs, sorted, order, y);
    SameLength(specs, order);
    hide SortSpecs, Positions, Outranks, Lowest, InOrder, LabelsOf;
    if x in labels {
      var i := LowestOf(specs, x, |specs|);
      assert Lowest(specs, i) by { LowestIs(specs, i); }
      var a := PlaceOf(specs, order, i);
      RankOfLowest(specs, sorted, order, a);
      OneLowest(specs, i);
      if y in labels {
        var j := LowestOf(specs, y, |specs|);
        assert Lowest(specs, j) by { LowestIs(specs, j); }
        var b := PlaceOf(specs, order, j);
        RankOfLowest(specs, sorted, order, b);
        OneLowest(specs, j);
        OrderIsRank(specs, sorted, order, a, b);
      }
    }
  }

  lemma TableIs(sources: seq<Source>, specs: seq<PrioritySpec>)
    ensures RankTable(sources, Some(specs)) == Positions(LabelsOf(SortSpecs(specs)))
  {
    var sorted := SortSpecs(specs);
    assert LabelsOf(sorted)
           == seq(|SortSpecs(specs)|, i requires 0 <= i < |SortSpecs(specs)| => SortSpecs(specs)[i].name);
  }

  lemma LowestIs(specs: seq<PrioritySpec>, i: nat)
    requires i < |specs|
    requires forall j | 0 <= j < |specs| && j != i && specs[j].name == specs[i].name :: Outranks(specs, j, i)
    ensures Lowest(specs, i)
  {
  }

  lemma OneLowest(specs: seq<PrioritySpec>, i: nat)
    requires i < |specs| && Lowest(specs, i)
    ensures forall k | 0 <= k < |specs| && specs[k].name == specs[i].name && Lowest(specs, k) :: k == i
  {
    forall k | 0 <= k < |specs| && specs[k].name == specs[i].name && Lowest(specs, k) ensures k == i {
      OneWay(specs, k, i);
    }
  }

  lemma OneWay(specs: seq<PrioritySpec>, i: nat, j: nat)
    requires i < |specs| && j < |specs|
    ensures !(Outranks(specs, i, j) && Outranks(specs, j, i))
  {
  }

  lemma OrderIsRank(specs: seq<PrioritySpec>, sorted: seq<PrioritySpec>, order: seq<nat>, a: nat, b: nat)
    requires InOrder(specs, sorted, order) && a < |order| && b < |order|
    ensures order[a] < |specs| && order[b] < |specs| && (a < b <==> Outranks(specs, order[a], order[b]))
  {
    if a > b { assert Outranks(specs, order[b], order[a]); }
  }

  lemma NamedIsSorted(specs: seq<PrioritySpec>, sorted: seq<PrioritySpec>, order: seq<nat>, name: string)
    requires InOrder(specs, sorted, order) && (forall i: nat :: i in order <==> i < |specs|)
    ensures name in LabelsOf(sorted) <==> exists i | 0 <= i < |specs| :: specs[i].name == name
  {
    hide Outranks;
    var labels := LabelsOf(sorted);
    if i :| 0 <= i < |specs| && specs[i].name == name {
      var a := PlaceOf(specs, order, i);
      assert labels[a] == name;
    }
    if name in labels {
      var a :| 0 <= a < |labels| && labels[a] == name;
      assert specs[order[a]].name == name;
    }
  }

  /** The order has as many places as the clause has entries. */
  lemma SameLength(specs: seq<PrioritySpec>, order: seq<nat>)
    requires InOrder(specs, SortSpecs(specs), order)
    ensures |order| == |specs|
  {
    SortKeepsLength(specs);
  }

  lemma {:induction false} SortKeepsLength(specs: seq<PrioritySpec>)
    ensures |SortSpecs(specs)| == |specs|
  {
    if specs != [] {
      SortKeepsLength(specs[..|specs| - 1]);
      InsertAddsOne(specs[|specs| - 1], SortSpecs(specs[..|specs| - 1]));
    }
  }

  lemma {:induction false} InsertAddsOne(s: PrioritySpec, sorted: seq<PrioritySpec>)
    ensures |InsertSpec(s, sorted)| == |sorted| + 1
  {
    if sorted != [] { InsertAddsOne(s, sorted[..|sorted| - 1]); }
  }

  // --- first copies by weight ---

  /** One label is preferred to another: by the clause, or without one when the last source of the first label comes
      before the last source of the other. */
  predicate Preferred(sources: seq<Source>, priority: Option<seq<PrioritySpec>>, x: string, y: string) {
    match priority
    case Some(specs) => Prefers(specs, x, y)
    case None =>
      exists j | 0 <= j < |sources| ::
        sources[j].name == y && (exists i | 0 <= i < j :: sources[i].name == x)
        && forall k | j <= k < |sources| :: sources[k].name != x
  }

  /** The copy at (m, n) goes before the one at (i, j): its label is preferred, or neither label is and it sits in an
      earlier place. */
  predicate GoesBefore(sources: seq<Source>, priority: Option<seq<PrioritySpec>>, m: nat, n: nat, i: nat, j: nat)
    requires m < |sources| && i < |sources|
  {
    var x, y := sources[m].name, sources[i].name;
    Preferred(sources, priority, x, y)
    || (!Preferred(sources, priority, y, x) && (m < i || (m == i && n < j)))
  }

  /** Two grains have the same text in the field, an address for `_hash` and nothing for a field that is missing. */
  predicate SameText(g: Grain, h: Grain, field: string) {
    if field == "_hash" then g.hash == h.hash
    else (if field in g.fields then g.fields[field] else "") == (if field in h.fields then h.fields[field] else "")
  }

  /** No copy with the same text goes before this one. */
  ghost predicate FirstOfText(sources: seq<Source>, priority: Option<seq<PrioritySpec>>, field: string, i: nat, j: nat)
    requires i < |sources| && j < |sources[i].grains|
  {
    forall m: nat, n: nat | m < |sources| && n < |sources[m].grains| && GoesBefore(sources, priority, m, n, i, j) ::
      !SameText(sources[m].grains[n], sources[i].grains[j], field)
  }

  lemma {:induction false} LastWithName(sources: seq<Source>, i: nat, n: nat) returns (k: nat)
    requires i < n <= |sources|
    ensures i <= k < n && sources[k].name == sources[i].name
    ensures forall b | k < b < n :: sources[b].name != sources[i].name
  {
    if sources[n - 1].name == sources[i].name {
      k := n - 1;
    } else {
      k := LastWithName(sources, i, n - 1);
    }
  }

  lemma RankWithoutClause(sources: seq<Source>, i: nat, j: nat)
    requires i < |sources| && j < |sources|
    ensures var table := RankTable(sources, None);
            RankOf(table, sources[i].name) < RankOf(table, sources[j].name)
            <==> Preferred(sources, None, sources[i].name, sources[j].name)
  {
    var labels := Assemble.Names(sources);
    assert RankTable(sources, None) == Positions(labels);
    var a := LastWithName(sources, i, |sources|);
    var b := LastWithName(sources, j, |sources|);
    PositionOfLast(labels, a);
    PositionOfLast(labels, b);
    hide Positions;
  }

  lemma RankIsPreference(sources: seq<Source>, priority: Option<seq<PrioritySpec>>, i: nat, j: nat)
    requires i < |sources| && j < |sources| && (priority.Some? ==> |priority.value| <= USIZE_MAX)
    ensures var table := RankTable(sources, priority);
            RankOf(table, sources[i].name) < RankOf(table, sources[j].name)
            <==> Preferred(sources, priority, sources[i].name, sources[j].name)
  {
    match priority
    case Some(specs) => RankFollowsWeights(sources, specs, sources[i].name, sources[j].name);
    case None => RankWithoutClause(sources, i, j);
  }

  lemma FirstCopyIs(sources: seq<Source>, priority: Option<seq<PrioritySpec>>, field: string, i: nat, j: nat)
    requires i < |sources| && j < |sources[i].grains| && (priority.Some? ==> |priority.value| <= USIZE_MAX)
    ensures FirstCopy(sources, RankTable(sources, priority), field, i, j)
            <==> FirstOfText(sources, priority, field, i, j)
  {
    var table := RankTable(sources, priority);
    hide RankTable, Preferred;
    forall m: nat, n: nat | m < |sources| && n < |sources[m].grains|
      ensures Earlier(CopyAt(sources, table, m, n), CopyAt(sources, table, i, j))
              <==> GoesBefore(sources, priority, m, n, i, j)
      ensures FieldValue(sources[m].grains[n], field) == FieldValue(sources[i].grains[j], field)
              <==> SameText(sources[m].grains[n], sources[i].grains[j], field)
    {
      RankIsPreference(sources, priority, m, i);
      RankIsPreference(sources, priority, i, m);
    }
    hide Earlier, CopyAt, GoesBefore, FieldValue, SameText;
  }

  /** The grains of source `i` with no earlier copy of their text, among its first `n`. */
  ghost function Firsts(sources: seq<Source>, priority: Option<seq<PrioritySpec>>, field: string, i: nat, n: nat)
    : seq<Grain>
    requires i < |sources| && n <= |sources[i].grains|
  {
    if n == 0 then []
    else Firsts(sources, priority, field, i, n - 1)
         + if FirstOfText(sources, priority, field, i, n - 1) then [sources[i].grains[n - 1]] else []
  }

  /** Those of every source of a label among the first `n` sources, one source after the other. */
  ghost function FirstsOfLabel(sources: seq<Source>, priority: Option<seq<PrioritySpec>>, field: string, name: string,
                               n: nat): seq<Grain>
    requires n <= |sources|
  {
    if n == 0 then []
    else FirstsOfLabel(sources, priority, field, name, n - 1)
         + if sources[n - 1].name == name then Firsts(sources, priority, field, n - 1, |sources[n - 1].grains|) else []
  }

  lemma {:induction false} FirstCopiesAreFirsts(sources: seq<Source>, priority: Option<seq<PrioritySpec>>,
                                                field: string, i: nat, n: nat)
    requires i < |sources| && n <= |sources[i].grains| && (priority.Some? ==> |priority.value| <= USIZE_MAX)
    ensures Grains(FirstCopies(sources, RankTable(sources, priority), field, i, n))
            == Firsts(sources, priority, field, i, n)
  {
    hide RankTable, FirstCopy, FirstOfText, Grains;
    var table := RankTable(sources, priority);
    if n == 0 {
      NoGrains();
    } else {
      FirstCopiesAreFirsts(sources, priority, field, i, n - 1);
      FirstCopyIs(sources, priority, field, i, n - 1);
      var before := FirstCopies(sources, table, field, i, n - 1);
      GrainsAppend(before, CopyAt(sources, table, i, n - 1));
      assert before + [] == before;
    }
  }

  lemma {:induction false} LabelFirstsAreFirsts(sources: seq<Source>, priority: Option<seq<PrioritySpec>>,
                                                field: string, name: string, n: nat)
    requires n <= |sources| && (priority.Some? ==> |priority.value| <= USIZE_MAX)
    ensures Grains(LabelFirsts(sources, RankTable(sources, priority), field, name, n))
            == FirstsOfLabel(sources, priority, field, name, n)
  {
    hide RankTable, FirstCopies, Firsts, Grains;
    var table := RankTable(sources, priority);
    if n == 0 {
      NoGrains();
    } else {
      LabelFirstsAreFirsts(sources, priority, field, name, n - 1);
      var before := LabelFirsts(sources, table, field, name, n - 1);
      assert before + [] == before;
      if sources[n - 1].name == name {
        var more := FirstCopies(sources, table, field, n - 1, |sources[n - 1].grains|);
        FirstCopiesAreFirsts(sources, priority, field, n - 1, |sources[n - 1].grains|);
        GrainsJoin(before, more);
      }
    }
  }

  lemma GrainsJoin(a: seq<Copy>, b: seq<Copy>)
    ensures Grains(a + b) == Grains(a) + Grains(b)
  {
  }

  /** What field dedup hands back, on weights: the first source of a label gets, of all sources of the label and in
      their order, exactly the grains with no copy of the same text under a preferred label, or in an earlier place
      under one that is not preferred either way. */
  lemma DedupByWeight(sources: seq<Source>, field: string, priority: Option<seq<PrioritySpec>>, i: nat)
    requires i < |sources| && (priority.Some? ==> |priority.value| <= USIZE_MAX)
    ensures |DedupAcross(sources, field, priority)| == |sources|
    ensures var name := sources[i].name;
            DedupAcross(sources, field, priority)[i]
            == Source(name, if exists k | 0 <= k < i :: sources[k].name == name then []
                            else FirstsOfLabel(sources, priority, field, name, |sources|))
  {
    DedupKeepsFirstCopies(sources, field, priority, i);
    LabelFirstsAreFirsts(sources, priority, field, sources[i].name, |sources|);
    hide DedupAcross, RankTable, LabelFirsts, FirstsOfLabel, Grains;
  }

  // --- shares ---

  /** In a clause that weighs anything, the label of a larger weight gets at least as large a share. */
  lemma LargerWeightLargerShare(names: seq<string>, budget: nat, specs: seq<PrioritySpec>, i: nat, j: nat)
    requires i < |names| && j < |names| && forall a, b | 0 <= a < b < |names| :: names[a] != names[b]
    requires RealSum(seq(|names|, k requires 0 <= k < |names| => WeightOf(specs, names[k]))) > 0.0
    requires WeightOf(specs, names[i]) <= WeightOf(specs, names[j])
    ensures var shares := Shares(names, budget, Weights(names, Some(specs)));
            names[i] in shares && names[j] in shares && shares[names[i]] <= shares[names[j]]
  {
    var ws := Weights(names, Some(specs));
    var raw := seq(|names|, k requires 0 <= k < |names| => WeightOf(specs, names[k]));
    var total := RealSum(raw);
    hide WeightOf, RealSum;
    assert ws[i] == raw[i] / total && ws[j] == raw[j] / total;
    QuotientOrder(raw[i], raw[j], total);
    ShareAt(names, budget, ws, i);
    ShareAt(names, budget, ws, j);
    ShareGrows(ws[i], ws[j], budget);
  }

  lemma QuotientOrder(x: real, y: real, z: real)
    requires x <= y && z > 0.0
    ensures x / z <= y / z
  {
  }

  lemma {:induction false} ShareAt(names: seq<string>, budget: nat, ws: seq<real>, i: nat)
    requires |ws| == |names| && i < |names| && forall a, b | 0 <= a < b < |names| :: names[a] != names[b]
    ensures var shares := Shares(names, budget, ws); names[i] in shares && shares[names[i]] == ShareOf(ws[i], budget)
  {
    hide ShareOf;
    if i < |names| - 1 { ShareAt(names[..|names| - 1], budget, ws[..|names| - 1], i); }
  }

  lemma ShareGrows(x: real, y: real, budget: nat)
    requires x <= y
    ensures ShareOf(x, budget) <= ShareOf(y, budget)
  {
    ProductOrder(x, y, budget as real);
  }

  lemma ProductOrder(x: real, y: real, b: real)
    requires x <= y && b >= 0.0
    ensures x * b <= y * b
  {
  }

  /** A label weighs what the first entry with its name says, and nothing when there is none. */
  lemma {:induction false} WeightIsFirst(specs: seq<PrioritySpec>, name: string)
    ensures (forall i | 0 <= i < |specs| :: specs[i].name != name) ==> WeightOf(specs, name) == 0.0
    ensures forall i | 0 <= i < |specs| && specs[i].name == name && (forall j | 0 <= j < i :: specs[j].name != name) ::
              WeightOf(specs, name) == specs[i].weight
    decreases specs
  {
    if specs != [] {
      var rest := specs[1..];
      WeightIsFirst(rest, name);
      assert forall i | 0 < i < |specs| :: specs[i] == rest[i - 1];
      forall i | 0 <= i < |specs| && specs[i].name == name && (forall j | 0 <= j < i :: specs[j].name != name)
        ensures WeightOf(specs, name) == specs[i].weight
      {
        if i > 0 {
          assert rest[i - 1].name == name && forall j | 0 <= j < i - 1 :: rest[j].name != name by {
            assert forall j | 0 <= j < i - 1 :: rest[j] == specs[j + 1];
          }
        }
      }
    }
  }

  /** Under a clause of non-negative weights that weighs anything, every share is within half a token of the label's
      part of the budget. */
  lemma ShareIsProportional(names: seq<string>, budget: nat, specs: seq<PrioritySpec>, i: nat)
    requires i < |names| && forall a, b | 0 <= a < b < |names| :: names[a] != names[b]
    requires budget <= 0xFFFF_FFFF && NonNegative(Some(specs))
    requires RealSum(seq(|names|, k requires 0 <= k < |names| => WeightOf(specs, names[k]))) > 0.0
    ensures var total := RealSum(seq(|names|, k requires 0 <= k < |names| => WeightOf(specs, names[k])));
            var shares := Shares(names, budget, Weights(names, Some(specs)));
            && names[i] in shares
            && -1.0 <= 2.0 * (shares[names[i]] as real - WeightOf(specs, names[i]) / total * budget as real) <= 1.0
  {
    hide WeightOf, RealSum, ShareOf, Shares, Weights, NonNegative, Normalize;
    var ws := Weights(names, Some(specs));
    WeightIsQuotient(names, specs, i);
    WeightsAreShared(names, Some(specs));
    WeightAtMostSum(ws, i);
    ShareAt(names, budget, ws, i);
    hide Shared;
    ShareError(ws[i], budget);
  }

  lemma WeightIsQuotient(names: seq<string>, specs: seq<PrioritySpec>, i: nat)
    requires i < |names|
    requires RealSum(seq(|names|, k requires 0 <= k < |names| => WeightOf(specs, names[k]))) > 0.0
    ensures Weights(names, Some(specs))[i]
            == WeightOf(specs, names[i])
               / RealSum(seq(|names|, k requires 0 <= k < |names| => WeightOf(specs, names[k])))
  {
    hide WeightOf, RealSum;
  }

  /** Without a clause earlier sources weigh more; from five sources on each weighs three fifths of the one before. */
  lemma DefaultWeightsFall(n: nat, i: nat)
    requires i + 1 < n
    ensures var ws := DefaultWeights(n);
            |ws| == n && ws[i] > ws[i + 1] > 0.0 && (n >= 5 ==> ws[i + 1] == 0.6 * ws[i])
  {
    if n >= 5 {
      DecayPositive(n);
      PowerPositive(i);
      PowerPositive(i + 1);
      assert Decay(n)[i + 1] == 0.6 * Decay(n)[i];
      ScaledQuotient(Decay(n)[i], RealSum(Decay(n)));
    }
  }

  lemma ScaledQuotient(x: real, total: real)
    requires x > 0.0 && total > 0.0
    ensures 0.6 * x / total == 0.6 * (x / total) && x / total > 0.0 && x / total > 0.6 * (x / total)
  {
  }

  /** How a thousand tokens are split among up to four sources. */
  lemma ThousandTokens()
    ensures Shares(["a"], 1000, Weights(["a"], None)) == map["a" := 1000]
    ensures Shares(["a", "b"], 1000, Weights(["a", "b"], None)) == map["a" := 650, "b" := 350]
    ensures Shares(["a", "b", "c"], 1000, Weights(["a", "b", "c"], None)) == map["a" := 500, "b" := 300, "c" := 200]
    ensures Shares(["a", "b", "c", "d"], 1000, Weights(["a", "b", "c", "d"], None))
            == map["a" := 400, "b" := 280, "c" := 200, "d" := 120]
  {
    var two, three, four := ["a", "b"], ["a", "b", "c"], ["a", "b", "c", "d"];
    assert four[..3] == three && three[..2] == two && two[..1] == ["a"] && ["a"][..0] == [];
    assert [0.65, 0.35][..1] == [0.65] && [0.5, 0.3, 0.2][..2][..1] == [0.5];
    assert [0.4, 0.28, 0.2, 0.12][..3][..2][..1] == [0.4];
  }
}
