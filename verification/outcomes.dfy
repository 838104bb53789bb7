/** Applied recommendations are re-measured at every checkpoint of their schedule. */
module Outcomes {
  import opened Basics
  import opened LoopModel
  import opened GrainStore
  import opened EngineSpec
  import opened Invariants
  import opened Steps
  import opened Reachable
  import opened Runs
  import opened Guarantees

  // --- the schedule ---

  predicate Ascending(xs: seq<int>) {
    forall i, j | 0 <= i < j < |xs| :: xs[i] <= xs[j]
  }

  lemma {:induction false} InsertSortedHolds(x: int, xs: seq<int>)
    ensures multiset(InsertSorted(x, xs)) == multiset(xs) + multiset{x}
  {
    if !(xs == [] || xs[|xs| - 1] <= x) {
      assert xs == xs[..|xs| - 1] + [xs[|xs| - 1]];
      InsertSortedHolds(x, xs[..|xs| - 1]);
    }
  }

  lemma InsertSortedBounded(x: int, xs: seq<int>, bound: int)
    requires x <= bound && forall i | 0 <= i < |xs| :: xs[i] <= bound
    ensures forall i | 0 <= i < |InsertSorted(x, xs)| :: InsertSorted(x, xs)[i] <= bound
  {
  }

  lemma {:induction false} InsertSortedSorts(x: int, xs: seq<int>)
    requires Ascending(xs)
    ensures Ascending(InsertSorted(x, xs))
  {
    if !(xs == [] || xs[|xs| - 1] <= x) {
      InsertSortedSorts(x, xs[..|xs| - 1]);
      InsertSortedBounded(x, xs[..|xs| - 1], xs[|xs| - 1]);
    }
  }

  lemma {:induction false} SortIntsAscends(xs: seq<int>)
    ensures Ascending(SortInts(xs))
  {
    if xs != [] {
      SortIntsAscends(xs[..|xs| - 1]);
      InsertSortedSorts(xs[|xs| - 1], SortInts(xs[..|xs| - 1]));
    }
  }

  lemma {:induction false} SortIntsHolds(xs: seq<int>)
    ensures multiset(SortInts(xs)) == multiset(xs)
  {
    if xs != [] {
      var rest, last := xs[..|xs| - 1], xs[|xs| - 1];
      assert SortInts(xs) == InsertSorted(last, SortInts(rest));
      hide SortInts;
      SortIntsHolds(rest);
      InsertSortedHolds(last, SortInts(rest));
      hide InsertSorted;
      assert xs == rest + [last];
    }
  }

  /** The checkpoints of a metric are its horizons in ascending order, or its one review delay. */
  lemma ScheduleIsSorted(m: Metric)
    ensures Ascending(Horizons(m))
    ensures multiset(Horizons(m)) == if m.horizonsMs == [] then multiset{m.reviewAfter} else multiset(m.horizonsMs)
  {
    var hs := if m.horizonsMs == [] then [m.reviewAfter] else m.horizonsMs;
    SortIntsAscends(hs);
    SortIntsHolds(hs);
  }

  // --- what every reachable world says about outcomes ---

  /** Outcomes and measured checkpoints run in lockstep, none was taken early, each judges against the stored
      baseline, and each was taken exactly as often as the schedule lists it. */
  lemma OutcomesFollowTheSchedule(w: World, acts: seq<Act>, h: Hash, i: nat)
    requires Initial(w) && i < |MeasuredOf(StateOf(After(w, acts)), h)|
    ensures var p := StateOf(After(w, acts));
            var ms, os := MeasuredOf(p, h), OutcomesOf(p, h);
            && |os| == |ms| && os[i].horizon == ms[i]
            && h in p.applied && p.applied[h].metric.Some?
            && var a, m := p.applied[h], p.applied[h].metric.value;
               && ms[i] in Horizons(m) && os[i].measuredAt >= a.appliedAt + ms[i]
               && os[i].baseline == m.baseline
               && os[i].regressed == (os[i].current > m.baseline + 1.0 / 4503599627370496.0)
               && multiset(ms)[ms[i]] == multiset(Horizons(m))[ms[i]]
  {
    hide After, Initial, Horizons, Good, MeasuredOf, OutcomesOf;
    ReachableIsGood(w, acts);
    GoodSchedule(After(w, acts), h);
  }

  lemma GoodSchedule(w: World, h: Hash)
    requires Good(w)
    ensures ScheduleOk(StateOf(w), h)
  {
  }

  /** A due checkpoint is among those measured, or is measured now against the present store. */
  lemma DueIsMeasured(e: Engine, s: Store, p: Persisted, h: Hash, horizon: int, now: int, current: real)
    requires h in p.applied && h in p.status && p.status[h].Applied? && p.applied[h].metric.Some?
    requires e.measure(s, p.applied[h].metric.value, p.applied[h].appliedAt) == Some(current)
    requires horizon in Horizons(p.applied[h].metric.value) && now >= p.applied[h].appliedAt + horizon
    requires horizon !in MeasuredOf(p, h)
    ensures horizon in MeasuredNow(e, s, p, h, now)
    ensures OutcomeAt(h, p.applied[h].metric.value, current, horizon, now) in OutcomesNow(e, s, p, h, now)
  {
    hide Horizons, OutcomeAt;
    var a := p.applied[h];
    DueIsDue(Horizons(a.metric.value), now - a.appliedAt, MeasuredOf(p, h));
    var more := MeasuredNow(e, s, p, h, now);
    hide Due, MeasuredOf;
    var i :| 0 <= i < |more| && more[i] == horizon;
    assert OutcomesNow(e, s, p, h, now)[i] == OutcomeAt(h, a.metric.value, current, horizon, now);
  }

  /** After an executed run no checkpoint is overdue: everything due, of every recommendation then applied whose
      metric can be re-measured, has been measured; what was missing was measured by this run. */
  lemma NothingStaysOverdue(e: Engine, w: World, input: RunInput, h: Hash, horizon: int, current: real)
    requires RunStep(e, w, input).1.Ok? && RunStep(e, w, input).1.value.Ran?
    requires var p := StateOf(w);
             && h in p.applied && h in p.status && p.status[h].Applied? && p.applied[h].metric.Some?
             && e.measure(w.store, p.applied[h].metric.value, p.applied[h].appliedAt) == Some(current)
             && horizon in Horizons(p.applied[h].metric.value) && input.now >= p.applied[h].appliedAt + horizon
    ensures var q := StateOf(RunStep(e, w, input).0);
            && horizon in MeasuredOf(q, h)
            && (horizon !in MeasuredOf(StateOf(w), h) ==>
                  OutcomeAt(h, StateOf(w).applied[h].metric.value, current, horizon, input.now) in OutcomesOf(q, h))
  {
    hide Horizons, StoreAll, Survivors, Candidates, RunStep, Due, MeasureOutcomes, MeasuredNow, OutcomesNow, OutcomeAt;
    ExecutedRun(e, w, input);
    var p := StateOf(w);
    MeasuredAfter(e, w.store, p, input.now, h);
    if horizon !in MeasuredOf(p, h) { DueIsMeasured(e, w.store, p, h, horizon, input.now, current); }
    var q := MeasureOutcomes(e, w.store, p, input.now);
    StoreAllKeepsRest(e, w.store, q, Survivors(e, w.store, q, Candidates(input.findings, input.now), input.now),
                      input.opts.trigger, input.now);
  }

  /** The recommendation is applied at present and its metric can be re-measured, to this value. */
  predicate Remeasures(e: Engine, s: Store, p: Persisted, h: Hash, current: real) {
    && h in p.applied && h in p.status && p.status[h].Applied? && p.applied[h].metric.Some?
    && e.measure(s, p.applied[h].metric.value, p.applied[h].appliedAt) == Some(current)
  }

  /** An executed run measures nothing else: what it adds to the measurements of a recommendation is of one applied at
      present whose metric can be re-measured, taken now, for checkpoints that are due and not measured yet. */
  lemma OnlyTheDueIsMeasured(e: Engine, w: World, input: RunInput, h: Hash) returns (current: real)
    requires RunStep(e, w, input).1.Ok? && RunStep(e, w, input).1.value.Ran?
    ensures var p, q := StateOf(w), StateOf(RunStep(e, w, input).0);
            var n := |OutcomesOf(p, h)|;
            && OutcomesOf(p, h) <= OutcomesOf(q, h) && MeasuredOf(p, h) <= MeasuredOf(q, h)
            && |MeasuredOf(q, h)| - |MeasuredOf(p, h)| == |OutcomesOf(q, h)| - n
            && forall i | n <= i < |OutcomesOf(q, h)| ::
                 && Remeasures(e, w.store, p, h, current)
                 && var o := OutcomesOf(q, h)[i];
                    && o.current == current && o.measuredAt == input.now
                    && o.horizon in Horizons(p.applied[h].metric.value) && o.horizon !in MeasuredOf(p, h)
                    && input.now >= p.applied[h].appliedAt + o.horizon
  {
    hide Horizons, StoreAll, Survivors, Candidates, RunStep, Due, MeasureOutcomes, MeasuredNow, OutcomesNow, Remeasures;
    ExecutedRun(e, w, input);
    var p := StateOf(w);
    MeasuredAfter(e, w.store, p, input.now, h);
    current := NewAreDue(e, w.store, p, h, input.now);
    var q := MeasureOutcomes(e, w.store, p, input.now);
    StoreAllKeepsRest(e, w.store, q, Survivors(e, w.store, q, Candidates(input.findings, input.now), input.now),
                      input.opts.trigger, input.now);
    var n, os, more := |OutcomesOf(p, h)|, OutcomesOf(q, h), OutcomesNow(e, w.store, p, h, input.now);
    assert OutcomesOf(StateOf(RunStep(e, w, input).0), h) == os;
    assert forall i | n <= i < |os| :: os[i] == more[i - n];
  }

  lemma NewAreDue(e: Engine, s: Store, p: Persisted, h: Hash, now: int) returns (current: real)
    ensures var os := OutcomesNow(e, s, p, h, now);
            && |os| == |MeasuredNow(e, s, p, h, now)|
            && forall i | 0 <= i < |os| ::
                 && Remeasures(e, s, p, h, current)
                 && os[i].current == current && os[i].measuredAt == now
                 && os[i].horizon in Horizons(p.applied[h].metric.value) && os[i].horizon !in MeasuredOf(p, h)
                 && now >= p.applied[h].appliedAt + os[i].horizon
  {
    hide Horizons, Due, MeasuredOf;
    var more := MeasuredNow(e, s, p, h, now);
    if more == [] {
      current := 0.0;
    } else {
      var a := p.applied[h];
      current := e.measure(s, a.metric.value, a.appliedAt).value;
      assert Remeasures(e, s, p, h, current);
      hide Remeasures;
      DueIsDue(Horizons(a.metric.value), now - a.appliedAt, MeasuredOf(p, h));
      var os := OutcomesNow(e, s, p, h, now);
      assert os == OutcomesAt(h, a.metric.value, current, more, now);
      forall i | 0 <= i < |os|
        ensures os[i].current == current && os[i].measuredAt == now
        ensures os[i].horizon in Horizons(a.metric.value) && os[i].horizon !in MeasuredOf(p, h)
        ensures now >= a.appliedAt + os[i].horizon
      {
        assert os[i] == OutcomeAt(h, a.metric.value, current, more[i], now) && more[i] in more;
      }
    }
  }

  /** In every reachable world the checkpoints measured of a recommendation are pairwise different if and only if its
      schedule lists none of them twice. */
  lemma MeasuredOnceIffListedOnce(w: World, acts: seq<Act>, h: Hash)
    requires Initial(w) && MeasuredOf(StateOf(After(w, acts)), h) != []
    ensures var p := StateOf(After(w, acts));
            && h in p.applied && p.applied[h].metric.Some?
            && var ms, horizons := MeasuredOf(p, h), Horizons(p.applied[h].metric.value);
               Distinct(ms) <==> forall x | x in ms :: multiset(horizons)[x] == 1
  {
    hide After, Initial, Horizons, Good, MeasuredOf, OutcomesOf;
    ReachableIsGood(w, acts);
    GoodSchedule(After(w, acts), h);
    var p := StateOf(After(w, acts));
    hide OutcomeOk;
    OnceIffDistinct(MeasuredOf(p, h), Horizons(p.applied[h].metric.value));
  }

  lemma OnceIffDistinct(ms: seq<int>, horizons: seq<int>)
    requires AsListed(ms, horizons)
    ensures Distinct(ms) <==> forall x | x in ms :: multiset(horizons)[x] == 1
  {
    forall x | x in ms ensures Distinct(ms) ==> multiset(ms)[x] == 1 { DistinctCount(ms, x); }
    if forall x | x in ms :: multiset(horizons)[x] == 1 { CountedOnce(ms); }
  }

  lemma {:induction false} DistinctCount(ms: seq<int>, x: int)
    ensures Distinct(ms) ==> multiset(ms)[x] == if x in ms then 1 else 0
  {
    if ms != [] {
      var rest, last := ms[..|ms| - 1], ms[|ms| - 1];
      assert ms == rest + [last];
      DistinctCount(rest, x);
      assert Distinct(ms) ==> Distinct(rest) && last !in rest;
    }
  }

  lemma CountedOnce(ms: seq<int>)
    requires forall x | x in ms :: multiset(ms)[x] == 1
    ensures Distinct(ms)
  {
    forall i, j | 0 <= i < j < |ms| ensures ms[i] != ms[j] {
      var x := ms[j];
      assert x in ms && multiset(ms)[x] == 1;
      CountSplits(ms, j, x);
      assert ms[..j][i] == ms[i];
      InByCount(ms[..j], ms[i]);
    }
  }

  lemma CountSplits(ms: seq<int>, j: nat, x: int)
    requires j < |ms| && ms[j] == x
    ensures multiset(ms)[x] >= multiset(ms[..j])[x] + 1
  {
    assert ms == ms[..j] + ([x] + ms[j + 1..]);
    assert multiset(ms) == multiset(ms[..j]) + multiset([x] + ms[j + 1..]);
  }

  /** A run measures a repeated horizon once per repetition: when a whole schedule falls due at once, the run measures
      exactly that schedule. */
  lemma RepeatsAreMeasuredTwice(e: Engine, s: Store, p: Persisted, h: Hash, now: int)
    requires h in p.applied && h in p.status && p.status[h].Applied? && p.applied[h].metric.Some?
    requires e.measure(s, p.applied[h].metric.value, p.applied[h].appliedAt).Some? && MeasuredOf(p, h) == []
    requires forall x | x in Horizons(p.applied[h].metric.value) :: now - p.applied[h].appliedAt >= x
    ensures MeasuredOf(MeasureOutcomes(e, s, p, now), h) == Horizons(p.applied[h].metric.value)
  {
    MeasuredAfter(e, s, p, now, h);
    hide Horizons, MeasureOutcomes;
    var hs := Horizons(p.applied[h].metric.value);
    forall i | 0 <= i < |hs| ensures now - p.applied[h].appliedAt >= hs[i] { assert hs[i] in hs; }
    AllDue(hs, now - p.applied[h].appliedAt);
  }

  lemma {:induction false} AllDue(horizons: seq<int>, elapsed: int)
    requires forall i | 0 <= i < |horizons| :: elapsed >= horizons[i]
    ensures Due(horizons, elapsed, []) == horizons
  {
    if horizons != [] {
      assert horizons == horizons[..|horizons| - 1] + [horizons[|horizons| - 1]];
      AllDue(horizons[..|horizons| - 1], elapsed);
    }
  }
}
