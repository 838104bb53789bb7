/** What becomes of the grains of sources that share a label: which are lost between dedup and the report, exactly. */
module AssembleLabels {
  import opened Basics
  import opened Assemble

  // --- the tails the cap cuts off ---

  /** The cap cuts grains off a source of this length. */
  predicate HasTail(s: Source, total: nat, maxTotal: nat)
    requires total > 0
  {
    CapOf(|s.grains|, total, maxTotal) < |s.grains|
  }

  function TailOf(s: Source, total: nat, maxTotal: nat): seq<Grain>
    requires total > 0
  {
    s.grains[CapOf(|s.grains|, total, maxTotal)..]
  }

  /** The tail kept under a label is that of some later source of the label, or of the source itself. */
  lemma {:induction false} OmittedFrom(sources: seq<Source>, total: nat, maxTotal: nat, k: nat) returns (j: nat)
    requires total > 0 && k < |sources| && HasTail(sources[k], total, maxTotal)
    ensures k <= j < |sources| && sources[j].name == sources[k].name && HasTail(sources[j], total, maxTotal)
    ensures Lookup(CapOmitted(sources, total, maxTotal), sources[k].name) == TailOf(sources[j], total, maxTotal)
  {
    hide CapOf;
    var last := sources[|sources| - 1];
    if last.name == sources[k].name && HasTail(last, total, maxTotal) {
      j := |sources| - 1;
    } else {
      j := OmittedFrom(sources[..|sources| - 1], total, maxTotal, k);
    }
  }

  lemma {:induction false} NoneOmitted(sources: seq<Source>, total: nat, maxTotal: nat, name: string)
    requires total > 0
    requires forall k | 0 <= k < |sources| && sources[k].name == name :: !HasTail(sources[k], total, maxTotal)
    ensures Lookup(CapOmitted(sources, total, maxTotal), name) == []
  {
    hide CapOf;
    if sources != [] {
      NoneOmitted(sources[..|sources| - 1], total, maxTotal, name);
    }
  }

  // --- which sources lose grains ---

  /** Nothing of source `i` is cut off and dropped: a source behind another one of its label has no tail, and the first
      of its label has no later one with a tail. */
  predicate TailReported(sources: seq<Source>, total: nat, maxTotal: nat, i: nat)
    requires total > 0 && i < |sources|
  {
    if NamedBefore(sources, i, sources[i].name) then !HasTail(sources[i], total, maxTotal)
    else forall j | i < j < |sources| && sources[j].name == sources[i].name :: !HasTail(sources[j], total, maxTotal)
  }

  /** No grain sits in two sources. */
  ghost predicate Disjoint(sources: seq<Source>) {
    forall i, j, g | 0 <= i < |sources| && 0 <= j < |sources| && g in sources[i].grains && g in sources[j].grains ::
      i == j
  }

  /** What is reported for source `i` beyond the grains it was trimmed by. */
  function Reported(sources: seq<Source>, capOmitted: map<string, seq<Grain>>, i: nat): seq<Grain>
    requires i < |sources|
  {
    if NamedBefore(sources, i, sources[i].name) then [] else Lookup(capOmitted, sources[i].name)
  }

  /** The reported tail is the source's own tail exactly when nothing is dropped. */
  lemma TailReportedIff(sources: seq<Source>, total: nat, maxTotal: nat, i: nat)
    requires total > 0 && i < |sources| && Disjoint(sources)
    ensures Reported(sources, CapOmitted(sources, total, maxTotal), i) == TailOf(sources[i], total, maxTotal)
            <==> TailReported(sources, total, maxTotal, i)
  {
    hide CapOf, CapOmitted;
    var name := sources[i].name;
    if !NamedBefore(sources, i, name) {
      if k :| i < k < |sources| && sources[k].name == name && HasTail(sources[k], total, maxTotal) {
        var j := OmittedFrom(sources, total, maxTotal, k);
        var g := TailOf(sources[j], total, maxTotal)[0];
        assert g in sources[j].grains && g !in sources[i].grains;
      } else if HasTail(sources[i], total, maxTotal) {
        var j := OmittedFrom(sources, total, maxTotal, i);
      } else {
        NoneOmitted(sources, total, maxTotal, name);
      }
    }
  }

  /** Kept and omitted grains make up the capped grains and what is reported of the tails. */
  lemma KeptThenOmitted(plan: Plan, capOmitted: map<string, seq<Grain>>, i: nat)
    requires i < |plan.sources|
    ensures plan.KeptGrains(i) + plan.Omitted(capOmitted, i) == plan.sources[i].grains
            + Reported(plan.sources, capOmitted, i)
  {
    var gs, tail := plan.sources[i].grains, Reported(plan.sources, capOmitted, i);
    PlanStep(plan, i);
    var k := plan.Kept(i);
    assert plan.Omitted(capOmitted, i) == gs[k..] + tail;
    assert plan.KeptGrains(i) == gs[..k];
    hide *;
    SplitThenTail(gs, k, tail);
  }

  lemma SplitThenTail(gs: seq<Grain>, k: nat, tail: seq<Grain>)
    requires k <= |gs|
    ensures gs[..k] + (gs[k..] + tail) == gs + tail
  {
    assert gs[..k] + gs[k..] == gs;
  }

  lemma SameFrontSameTail(gs: seq<Grain>, k: nat, tail: seq<Grain>)
    requires k <= |gs|
    ensures gs[..k] + tail == gs <==> tail == gs[k..]
  {
    assert gs == gs[..k] + gs[k..];
    assert (gs[..k] + tail)[k..] == tail;
  }

  /** Nothing the cap takes from a source goes missing: no cap is needed, or its tail is reported. */
  ghost predicate NothingDropped(deduped: seq<Source>, maxTotal: nat, i: nat)
    requires i < |deduped|
  {
    GrainCount(deduped) > maxTotal ==> TailReported(deduped, GrainCount(deduped), maxTotal, i)
  }

  /** For any source and any cap, the kept grains followed by the omitted ones are the deduped grains exactly when
      nothing of the source is dropped. */
  lemma NothingLostIff(deduped: seq<Source>, shares: map<string, nat>, budget: nat, maxTotal: nat, i: nat)
    requires i < |deduped| && Disjoint(deduped)
    ensures var (capped, capOmitted) := CapTo(deduped, maxTotal);
            var plan := Plan(capped, shares, budget);
            plan.KeptGrains(i) + plan.Omitted(capOmitted, i) == deduped[i].grains <==>
              NothingDropped(deduped, maxTotal, i)
  {
    hide Plan.KeptGrains, Plan.Omitted, CapOmitted, GrainCount, CapOf, TailReported;
    var (capped, capOmitted) := CapTo(deduped, maxTotal);
    KeptThenOmitted(Plan(capped, shares, budget), capOmitted, i);
    if GrainCount(deduped) > maxTotal {
      var total := GrainCount(deduped);
      TailReportedIff(deduped, total, maxTotal, i);
      SameNames(deduped, total, maxTotal, i);
      SameFrontSameTail(deduped[i].grains, CapOf(|deduped[i].grains|, total, maxTotal),
                        Reported(deduped, capOmitted, i));
    } else {
      hide NamedBefore;
      assert Reported(deduped, map[], i) == [];
    }
  }

  lemma SameNames(sources: seq<Source>, total: nat, maxTotal: nat, i: nat)
    requires total > 0 && i < |sources|
    ensures forall m :: Reported(Capped(sources, total, maxTotal), m, i) == Reported(sources, m, i)
  {
    var capped, name := Capped(sources, total, maxTotal), sources[i].name;
    hide CapOf;
    assert NamedBefore(capped, i, name) <==> NamedBefore(sources, i, name) by {
      if k :| 0 <= k < i && sources[k].name == name { assert capped[k].name == name; }
    }
    hide NamedBefore;
  }

  // --- what dedup hands to the cap ---

  lemma {:induction false} HashFirstsAreFirst(sources: seq<Source>, i: nat, n: nat, g: Grain) returns (k: nat)
    requires i < |sources| && n <= |sources[i].grains| && g in HashFirsts(sources, i, n)
    ensures k < n && sources[i].grains[k] == g && FirstByHash(sources, i, k)
  {
    hide FirstByHash;
    if FirstByHash(sources, i, n - 1) && g == sources[i].grains[n - 1] {
      k := n - 1;
    } else {
      k := HashFirstsAreFirst(sources, i, n - 1, g);
    }
  }

  lemma {:induction false} HashFirstsAreDisjoint(sources: seq<Source>, i: nat, j: nat, g: Grain)
    requires i < |sources| && j < |sources|
    requires g in HashFirsts(sources, i, |sources[i].grains|) && g in HashFirsts(sources, j, |sources[j].grains|)
    ensures i == j
  {
    var k := HashFirstsAreFirst(sources, i, |sources[i].grains|, g);
    var l := HashFirstsAreFirst(sources, j, |sources[j].grains|, g);
    hide HashFirsts;
    assert !PlaceBefore(i, k, j, l) && !PlaceBefore(j, l, i, k);
  }

  lemma {:induction false} BucketMember(cs: seq<Copy>, name: string, g: Grain) returns (k: nat)
    requires g in Bucket(cs, name)
    ensures k < |cs| && cs[k].name == name && cs[k].grain == g
  {
    var last := |cs| - 1;
    if cs[last].name == name && cs[last].grain == g {
      k := last;
    } else {
      k := BucketMember(cs[..last], name, g);
    }
  }

  lemma {:induction false} KeptValuesDiffer(cs: seq<Copy>, field: string)
    ensures var kept := KeepFirst(cs, field);
            && (forall a, b | 0 <= a < b < |kept| ::
                  FieldValue(kept[a].grain, field) != FieldValue(kept[b].grain, field))
            && (forall a | 0 <= a < |kept| :: FieldValue(kept[a].grain, field) in Values(cs, field))
  {
    if cs != [] {
      var n := |cs| - 1;
      KeptValuesDiffer(cs[..n], field);
      NextCopy(cs, n, field);
      assert cs[..n + 1] == cs;
      hide KeepFirst, Values, FieldValue;
    }
  }

  lemma RebuiltMember(sources: seq<Source>, kept: seq<Copy>, i: nat, g: Grain) returns (k: nat)
    requires i < |sources| && g in Rebuilt(sources, kept, i).grains
    ensures !NamedBefore(sources, i, sources[i].name)
    ensures k < |kept| && kept[k].name == sources[i].name && kept[k].grain == g
  {
    k := BucketMember(kept, sources[i].name, g);
  }

  lemma RebuiltAreDisjoint(sources: seq<Source>, field: string, priority: Option<seq<PrioritySpec>>, i: nat, j: nat,
                           g: Grain)
    requires i < |sources| && j < |sources|
    requires g in DedupAcross(sources, field, priority)[i].grains
             && g in DedupAcross(sources, field, priority)[j].grains
    ensures i == j
  {
    var kept := KeptCopies(sources, field, priority);
    var sorted := SortByRank(AllCopies(sources, RankTable(sources, priority), |sources|));
    assert kept == KeepFirst(sorted, field);
    KeptValuesDiffer(sorted, field);
    hide KeepFirst, SortByRank, AllCopies, RankTable, KeptCopies, FieldValue, Values, Bucket, Rebuilt;
    var k := RebuiltMember(sources, kept, i, g);
    var l := RebuiltMember(sources, kept, j, g);
    assert k == l;
  }

  lemma DedupedAreDisjoint(sources: seq<Source>, dedup: Option<Option<string>>, priority: Option<seq<PrioritySpec>>)
    ensures |Deduped(sources, dedup, priority)| == |sources| && Disjoint(Deduped(sources, dedup, priority))
  {
    hide HashFirsts, DedupAcross;
    if dedup.Some? { RebuiltLength(sources, dedup, priority); }
    var deduped := Deduped(sources, dedup, priority);
    forall i, j, g | 0 <= i < |deduped| && 0 <= j < |deduped| && g in deduped[i].grains && g in deduped[j].grains
      ensures i == j
    {
      match dedup
      case Some(field) => RebuiltAreDisjoint(sources, field.GetOr("_hash"), priority, i, j, g);
      case None => HashFirstsAreDisjoint(sources, i, j, g);
    }
  }

  lemma RebuiltLength(sources: seq<Source>, dedup: Option<Option<string>>, priority: Option<seq<PrioritySpec>>)
    requires dedup.Some?
    ensures |Deduped(sources, dedup, priority)| == |sources|
  {
    hide KeepFirst, SortByRank, AllCopies, RankTable, Bucket;
  }

  /** In an assembly, a source's kept grains followed by its omitted ones are its deduped grains exactly when nothing of
      it is dropped, whatever labels the sources carry. */
  lemma AssemblyLosesNothingIff(sources: seq<Source>, dedup: Option<Option<string>>,
                                priority: Option<seq<PrioritySpec>>, budget: Option<nat>, i: nat)
    requires i < |sources|
    ensures var deduped, plan := Deduped(sources, dedup, priority), PlanFor(sources, dedup, priority, budget);
            && |deduped| == |plan.sources| == |sources|
            && (plan.KeptGrains(i) + plan.Omitted(CapTo(deduped, MAX_GRAINS_POST_DEDUP).1, i) == deduped[i].grains
                <==> NothingDropped(deduped, MAX_GRAINS_POST_DEDUP, i))
  {
    DedupedAreDisjoint(sources, dedup, priority);
    hide Deduped, NothingDropped, Plan.KeptGrains, Plan.Omitted, GrainCount, CapOf, CapOmitted, Shares, Weights;
    var deduped, plan := Deduped(sources, dedup, priority), PlanFor(sources, dedup, priority, budget);
    NothingLostIff(deduped, plan.shares, plan.budget, MAX_GRAINS_POST_DEDUP, i);
  }

  /** With labels of their own nothing is dropped. */
  lemma OwnLabelDropsNothing(deduped: seq<Source>, maxTotal: nat, i: nat)
    requires DistinctLabels(deduped) && i < |deduped|
    ensures NothingDropped(deduped, maxTotal, i)
  {
    hide GrainCount, CapOf;
  }

  /** Dedup by a field drops nothing either: it hands every label's grains to the first source of the label. */
  lemma FieldDedupDropsNothing(sources: seq<Source>, field: string, priority: Option<seq<PrioritySpec>>, maxTotal: nat,
                               i: nat)
    requires i < |sources|
    ensures |DedupAcross(sources, field, priority)| == |sources|
    ensures NothingDropped(DedupAcross(sources, field, priority), maxTotal, i)
  {
    var deduped, kept := DedupAcross(sources, field, priority), KeptCopies(sources, field, priority);
    hide KeptCopies, Bucket, GrainCount, CapOf;
    assert forall j | 0 <= j < |sources| ::
             deduped[j] == Rebuilt(sources, kept, j) && deduped[j].name == sources[j].name;
    var name := sources[i].name;
    assert NamedBefore(deduped, i, name) <==> NamedBefore(sources, i, name);
    forall j | i < j < |sources| && sources[j].name == name ensures deduped[j].grains == [] {
      assert NamedBefore(sources, j, name);
    }
  }

  /** So an assembly that dedups by a field, or whose labels differ, reports every grain it does not keep. */
  lemma AssemblyLosesNothing(sources: seq<Source>, dedup: Option<Option<string>>, priority: Option<seq<PrioritySpec>>,
                             budget: Option<nat>, i: nat)
    requires i < |sources| && (dedup.Some? || DistinctLabels(sources))
    ensures var deduped, plan := Deduped(sources, dedup, priority), PlanFor(sources, dedup, priority, budget);
            && |deduped| == |plan.sources| == |sources|
            && plan.KeptGrains(i) + plan.Omitted(CapTo(deduped, MAX_GRAINS_POST_DEDUP).1, i) == deduped[i].grains
  {
    var deduped := Deduped(sources, dedup, priority);
    hide DedupAcross, HashFirsts, NothingDropped, CapTo, PlanFor, Plan.KeptGrains, Plan.Omitted;
    match dedup {
      case Some(field) => FieldDedupDropsNothing(sources, field.GetOr("_hash"), priority, MAX_GRAINS_POST_DEDUP, i);
      case None =>
        assert DistinctLabels(deduped);
        OwnLabelDropsNothing(deduped, MAX_GRAINS_POST_DEDUP, i);
    }
    AssemblyLosesNothingIff(sources, dedup, priority, budget, i);
  }

  // --- the failing input ---

  const ROWS := 1000

  function Numbered(start: nat, n: nat): seq<Grain> {
    seq(n, k requires 0 <= k < n => Grain(Digits(start + k), map[], 0))
  }

  /** Three sources as long as a query may ask for, two of them with one label. */
  function SharedLabel(): seq<Source> {
    [Source("a", Numbered(0, ROWS)), Source("a", Numbered(ROWS, ROWS)), Source("b", Numbered(2 * ROWS, ROWS))]
  }

  lemma NumberedDiffer(i: nat, k: nat, j: nat, l: nat)
    requires i < 3 && j < 3 && k < ROWS && l < ROWS
    requires |SharedLabel()[i].grains| == ROWS && |SharedLabel()[j].grains| == ROWS
    requires SharedLabel()[i].grains[k].hash == SharedLabel()[j].grains[l].hash
    ensures i == j && k == l
  {
    hide SharedLabel, Digits, Numeral;
    HashAt(i, k);
    HashAt(j, l);
    NumeralOfDigits(i * ROWS + k);
    NumeralOfDigits(j * ROWS + l);
    SameRow(i, k, j, l);
  }

  lemma SameRow(i: nat, k: nat, j: nat, l: nat)
    requires k < ROWS && l < ROWS && i * ROWS + k == j * ROWS + l
    ensures i == j && k == l
  {
  }

  lemma HashAt(i: nat, k: nat)
    requires i < 3 && k < ROWS
    ensures |SharedLabel()| == 3 && |SharedLabel()[i].grains| == ROWS
    ensures SharedLabel()[i].grains[k].hash == Digits(i * ROWS + k)
  {
  }

  lemma {:induction false} AllAreFirst(i: nat, n: nat)
    requires i < 3 && n <= ROWS
    ensures |SharedLabel()[i].grains| == ROWS && HashFirsts(SharedLabel(), i, n) == SharedLabel()[i].grains[..n]
  {
    if n > 0 {
      AllAreFirst(i, n - 1);
      var sources := SharedLabel();
      assert |sources[0].grains| == |sources[1].grains| == |sources[2].grains| == ROWS;
      assert sources[i].grains[..n] == sources[i].grains[..n - 1] + [sources[i].grains[n - 1]];
      forall m: nat, k: nat | m < 3 && k < |sources[m].grains| && PlaceBefore(m, k, i, n - 1)
        ensures sources[m].grains[k].hash != sources[i].grains[n - 1].hash
      {
        if sources[m].grains[k].hash == sources[i].grains[n - 1].hash { NumberedDiffer(m, k, i, n - 1); }
      }
      hide SharedLabel;
      assert FirstByHash(sources, i, n - 1);
    }
  }

  lemma SharedLabelIsDeduped()
    ensures Deduped(SharedLabel(), None, None) == SharedLabel()
  {
    forall i: nat | i < 3 ensures Deduped(SharedLabel(), None, None)[i] == SharedLabel()[i] {
      AllAreFirst(i, ROWS);
      assert SharedLabel()[i].grains[..ROWS] == SharedLabel()[i].grains;
      hide HashFirsts;
    }
    assert |SharedLabel()| == 3;
  }

  lemma SharedLabelCount()
    ensures GrainCount(SharedLabel()) == 3 * ROWS
  {
    var sources := SharedLabel();
    assert sources[..2][..1] == [sources[0]] && [sources[0]][..0] == [];
    assert GrainCount([sources[0]]) == ROWS && GrainCount(sources[..2]) == 2 * ROWS;
  }

  lemma SharedLabelDrops()
    ensures |SharedLabel()| == 3
    ensures !NothingDropped(SharedLabel(), MAX_GRAINS_POST_DEDUP, 0)
    ensures !NothingDropped(SharedLabel(), MAX_GRAINS_POST_DEDUP, 1)
  {
    SharedLabelCount();
    var sources, total := SharedLabel(), 3 * ROWS;
    assert CapOf(ROWS, total, MAX_GRAINS_POST_DEDUP) == 667;
    hide GrainCount, CapOf;
    assert HasTail(sources[0], total, MAX_GRAINS_POST_DEDUP) && HasTail(sources[1], total, MAX_GRAINS_POST_DEDUP);
    assert sources[0].name == sources[1].name && !NamedBefore(sources, 0, "a");
    assert NamedBefore(sources, 1, "a");
    hide HasTail, NamedBefore;
  }

  /** Both sources of the shared label lose grains, under any budget: the first one's tail is overwritten, the second
      one's is reported for the first. */
  lemma SharedLabelLosesTails(budget: Option<nat>)
    ensures var deduped, plan := Deduped(SharedLabel(), None, None), PlanFor(SharedLabel(), None, None, budget);
            && |deduped| == |plan.sources| == 3
            && forall i: nat | i < 2 ::
                 plan.KeptGrains(i) + plan.Omitted(CapTo(deduped, MAX_GRAINS_POST_DEDUP).1, i) != deduped[i].grains
  {
    hide SharedLabel, Deduped, PlanFor, NothingDropped, CapTo, Plan.KeptGrains, Plan.Omitted;
    SharedLabelIsDeduped();
    SharedLabelDrops();
    AssemblyLosesNothingIff(SharedLabel(), None, None, budget, 0);
    AssemblyLosesNothingIff(SharedLabel(), None, None, budget, 1);
  }
}
