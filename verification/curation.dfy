/** What the host policy lets through by itself: exactly which recommendations a run applies, and what it reports. */
module Curation {
  import opened Basics
  import opened LoopModel
  import opened Text
  import opened CalText
  import opened GrainStore
  import opened EngineSpec
  import opened Invariants
  import opened Steps
  import opened Reachable
  import opened Runs
  import opened Guarantees
  import opened AutoApplying
  import opened Screening

  // --- the check on a batch ---

  /** A written SUPERSEDE passes the check exactly when its target is stored, has no expiry, and already says everything
      the replacement says. */
  lemma WrittenPassesIff(js: Codec, s: Store, target: string, grainType: string, f: Fields)
    requires js.Lawful() && Token(target) && Token(grainType)
    ensures StructuralCuration(js, s, WriteSupersede(js, target, grainType, f))
            <==> f.entries != map[] && target in s.grains && s.grains[target].validTo.None?
                 && forall k | k in f.entries :: SaysTheSame(k, f.entries[k], s.grains[target])
  {
    hide Codec.Lawful, WriteSupersede, Lines, Trim, ParseOwnSupersede, SaysTheSame, SameFieldValue, Token;
    var cal := WriteSupersede(js, target, grainType, f);
    WrittenSupersedeIsALine(js, target, grainType, f);
    WriterRoundTrip(js, target, grainType, f);
    OneLineAlone(cal);
    assert StructuralCuration(js, s, cal) <==> ValueIdentical(js, s, cal) by {
      assert Lines(cal)[0] == cal;
    }
    if target in s.grains {
      forall k | k in f.entries
        ensures SameFieldValue(k, f.entries[k], s.grains[target]) <==> SaysTheSame(k, f.entries[k], s.grains[target])
      {
        SameFieldValueIs(k, f.entries[k], s.grains[target]);
      }
    }
  }

  /** Every line of the batch is blank, or the engine's own SUPERSEDE of a stored grain without expiry that already says
      everything its replacement says. */
  predicate OnlyRestates(js: Codec, s: Store, cal: string) {
    forall i | 0 <= i < |Lines(cal)| && Trim(Lines(cal)[i]) != "" :: LineRestates(js, s, Trim(Lines(cal)[i]))
  }

  predicate LineRestates(js: Codec, s: Store, line: string) {
    var own := ParseOwnSupersede(js, line);
    own.Some? && Restates(s, own.value)
  }

  predicate Restates(s: Store, r: Replacement) {
    && r.fields.entries != map[] && r.target in s.grains && s.grains[r.target].validTo.None?
    && forall k | k in r.fields.entries :: SaysTheSame(k, r.fields.entries[k], s.grains[r.target])
  }

  lemma CheckIs(js: Codec, s: Store, cal: string)
    ensures StructuralCuration(js, s, cal) <==> OnlyRestates(js, s, cal)
  {
    hide Lines, Trim;
    forall line ensures ValueIdentical(js, s, line) <==> LineRestates(js, s, line) {
      LineIs(js, s, line);
    }
    hide ValueIdentical, LineRestates;
  }

  lemma LineIs(js: Codec, s: Store, line: string)
    ensures ValueIdentical(js, s, line) <==> LineRestates(js, s, line)
  {
    hide ParseOwnSupersede, SameFieldValue, SaysTheSame;
    var own := ParseOwnSupersede(js, line);
    if own.Some? && own.value.target in s.grains {
      var f, t := own.value.fields, s.grains[own.value.target];
      forall k | k in f.entries ensures SameFieldValue(k, f.entries[k], t) <==> SaysTheSame(k, f.entries[k], t) {
        SameFieldValueIs(k, f.entries[k], t);
      }
    }
  }

  // --- the grant ---

  /** The first manifest with the id of its analyzer declares its curation structural. */
  predicate Declared(manifests: seq<Manifest>, id: string) {
    exists i | 0 <= i < |manifests| :: FirstManifest(manifests, id, i) && manifests[i].structural
  }

  predicate FirstManifest(manifests: seq<Manifest>, id: string, i: nat)
    requires i < |manifests|
  {
    manifests[i].id == id && forall j | 0 <= j < i :: manifests[j].id != id
  }

  /** Some grant of the family covers this kind of target up to at least this severity. */
  predicate Covered(grants: seq<Grant>, rec: Recommendation, kind: string) {
    exists g | g in grants ::
      SameFamily(g.analyzer, rec.analyzer) && kind in g.targets && !Weaker(g.maxSeverity, rec.severity)
  }

  /** The host lets this recommendation be applied without review as far as the policy goes: built in, destroying
      nothing, declared structural, and aimed at memory or at queries under a grant. */
  predicate HostAllows(e: Engine, rec: Recommendation) {
    && rec.origin == Builtin && !rec.destructive && Declared(e.manifests, rec.analyzer) && e.policy.autoApplyEnabled
    && (((Aims(rec.targetRef, "grain:") || Aims(rec.targetRef, "entity:"))
         && Covered(e.policy.grants, rec, "memory"))
        || ((Aims(rec.targetRef, "query:") || Aims(rec.targetRef, "template:"))
            && Covered(e.policy.grants, rec, "query")))
  }

  lemma {:induction false} DeclaredIs(manifests: seq<Manifest>, id: string)
    ensures DeclaredStructural(manifests, id) <==> Declared(manifests, id)
    decreases manifests
  {
    if manifests != [] {
      var rest := manifests[1..];
      DeclaredIs(rest, id);
      if manifests[0].id == id {
        assert FirstManifest(manifests, id, 0);
        forall i | 0 <= i < |manifests| && FirstManifest(manifests, id, i) ensures i == 0 {
        }
      } else {
        forall i | 0 <= i < |rest| ensures FirstManifest(rest, id, i) <==> FirstManifest(manifests, id, i + 1) {
          assert forall j | 0 < j < |manifests| :: manifests[j] == rest[j - 1];
          assert FirstManifest(manifests, id, i + 1) ==> forall j | 0 <= j < i :: manifests[j + 1] == rest[j];
        }
        if Declared(rest, id) {
          var i :| 0 <= i < |rest| && FirstManifest(rest, id, i) && rest[i].structural;
          assert FirstManifest(manifests, id, i + 1) && manifests[i + 1].structural;
        }
        if Declared(manifests, id) {
          var i :| 0 <= i < |manifests| && FirstManifest(manifests, id, i) && manifests[i].structural;
          assert FirstManifest(rest, id, i - 1) && rest[i - 1].structural;
        }
      }
    }
  }

  lemma RanksAgree(a: Severity, b: Severity)
    ensures SeverityRank(a) <= SeverityRank(b) <==> !Weaker(b, a)
  {
  }

  lemma CoveredIs(policy: Policy, rec: Recommendation, kind: string)
    ensures GrantsAutoApply(policy, FamilyOf(rec.analyzer), kind, rec.severity)
            <==> policy.autoApplyEnabled && (kind == "memory" || kind == "query")
                 && Covered(policy.grants, rec, kind)
  {
    forall g | g in policy.grants
      ensures SeverityRank(rec.severity) <= SeverityRank(g.maxSeverity) <==> !Weaker(g.maxSeverity, rec.severity)
    {
      RanksAgree(rec.severity, g.maxSeverity);
    }
    hide SeverityRank, Weaker, FamilyOf;
  }

  lemma GrantIs(e: Engine, s: Store, rec: Recommendation)
    ensures CanAutoApply(e, s, rec)
            <==> HostAllows(e, rec) && rec.proposal.Cal? && OnlyRestates(e.js, s, rec.proposal.cal)
  {
    DeclaredIs(e.manifests, rec.analyzer);
    TargetClassIs(rec.targetRef);
    CoveredIs(e.policy, rec, "memory");
    CoveredIs(e.policy, rec, "query");
    CoveredIs(e.policy, rec, "prompt");
    CoveredIs(e.policy, rec, "host");
    if rec.proposal.Cal? { CheckIs(e.js, s, rec.proposal.cal); }
    hide Declared, DeclaredStructural, TargetClass, Covered, GrantsAutoApply, StructuralCuration, OnlyRestates,
         FamilyOf, Aims;
  }

  // --- what a run applies and reports ---

  /** The recommendation is stored and indexed under `h`, applied exactly when the host lets it. */
  ghost predicate IndexedAs(e: Engine, s: Store, x: Progress, h: Hash, rec: Recommendation) {
    && h !in s.grains && IsRec(x.store, h) && RecAt(x.store, h) == rec && h in x.state.status
    && x.state.status[h] == if CanAutoApply(e, s, rec) then Applied else Pending
  }

  /** How many of these recommendations are applied. */
  function AppliedAmong(hs: seq<Hash>, status: map<Hash, Status>): nat {
    if hs == [] then 0
    else
      var last := hs[|hs| - 1];
      AppliedAmong(hs[..|hs| - 1], status) + if last in status && status[last] == Applied then 1 else 0
  }

  /** How storing survivors indexes them: each under an address of its own. */
  ghost predicate Indexes(e: Engine, s: Store, p: Persisted, recs: seq<Recommendation>, x: Progress, hs: seq<Hash>) {
    && EachIndexed(e, s, x, recs, hs) && OnlyIndexed(p, x.state, hs)
    && x.autoApplied == AppliedAmong(hs, x.state.status)
  }

  ghost predicate EachIndexed(e: Engine, s: Store, x: Progress, recs: seq<Recommendation>, hs: seq<Hash>) {
    && |hs| == |recs| && (forall i, j | 0 <= i < j < |hs| :: hs[i] != hs[j])
    && (forall i | 0 <= i < |hs| :: IndexedAs(e, s, x, hs[i], recs[i]))
  }

  predicate OnlyIndexed(p: Persisted, q: Persisted, hs: seq<Hash>) {
    && q.status.Keys == p.status.Keys + Members(hs)
    && (forall h | h in p.status :: q.status[h] == p.status[h])
  }

  lemma {:induction false} AppliedStays(hs: seq<Hash>, a: map<Hash, Status>, b: map<Hash, Status>)
    requires forall h | h in hs :: h in a && h in b && a[h] == b[h]
    ensures AppliedAmong(hs, a) == AppliedAmong(hs, b)
  {
    if hs != [] { AppliedStays(hs[..|hs| - 1], a, b); }
  }

  lemma StoreOneIndexes(e: Engine, x: Progress, rec: Recommendation, trigger: Option<string>, now: int)
    requires x.failed.None? && StoreOne(e, x, rec, trigger, now).failed.None?
    ensures var y, h, s1 := StoreOne(e, x, rec, trigger, now), Mint(x.store.nextId),
                            Propose(x.store, x.state, rec, trigger, now).0;
            && y.state.status == x.state.status[h := if CanAutoApply(e, s1, rec) then Applied else Pending]
            && y.autoApplied == x.autoApplied + if CanAutoApply(e, s1, rec) then 1 else 0
  {
    hide CanAutoApply, ExecAll, ParseBatch, Put, Mint, AuditSpec, RecSpec, AppliedBy;
  }

  ghost predicate AllKnown(js: Codec, s: Store, recs: seq<Recommendation>) {
    forall i | 0 <= i < |recs| && recs[i].proposal.Cal? :: TargetsKnown(js, s, recs[i].proposal.cal)
  }

  lemma {:induction false} StoringIndexes(e: Engine, s: Store, p: Persisted, recs: seq<Recommendation>,
                                          trigger: Option<string>, now: int) returns (hs: seq<Hash>)
    requires e.js.Lawful() && Wf(s) && p.status.Keys <= s.grains.Keys && AllKnown(e.js, s, recs)
    requires StoreAll(e, s, p, recs, trigger, now).failed.None?
    ensures Indexes(e, s, p, recs, StoreAll(e, s, p, recs, trigger, now), hs)
  {
    hide Codec.Lawful, Wf, Extends, StoreOne, Mint, IsRec, RecAt, CanAutoApply, Harmless, TargetsKnown, Propose;
    if recs == [] {
      hs := [];
    } else {
      var n := |recs| - 1;
      var rest, rec := recs[..n], recs[n];
      var x, y := StoreAll(e, s, p, rest, trigger, now), StoreAll(e, s, p, recs, trigger, now);
      assert x.failed.None? by { if x.failed.Some? { AutoApplying.FailedStays(e, x, rec, trigger, now); } }
      assert AllKnown(e.js, s, rest);
      var before := StoringIndexes(e, s, p, rest, trigger, now);
      StoringIsHarmless(e, s, p, rest, trigger, now);
      StoreOneExtends(e, x, rec, trigger, now);
      StoreOneIndexes(e, x, rec, trigger, now);
      ProposeIsHarmless(x.store, x.state, rec, trigger, now);
      var s1 := Propose(x.store, x.state, rec, trigger, now).0;
      HarmlessTransitive(s, x.store, s1);
      SameGrantLater(e, s, s1, rec);
      KeysGrow(s, x.store);
      hs := before + [Mint(x.store.nextId)];
      OneMoreIndexed(e, s, p, recs, x, y, before, Mint(x.store.nextId));
    }
  }

  lemma KeysGrow(a: Store, b: Store)
    requires Harmless(a, b)
    ensures a.grains.Keys <= b.grains.Keys
  {
    hide OnlyRepeats, Minted, SameReading;
  }

  lemma SameGrantLater(e: Engine, s: Store, s': Store, rec: Recommendation)
    requires Harmless(s, s') && (rec.proposal.Cal? ==> TargetsKnown(e.js, s, rec.proposal.cal))
    ensures CanAutoApply(e, s, rec) <==> CanAutoApply(e, s', rec)
  {
    hide SameReadings, OnlyRepeats, TargetsKnown, CanAutoApply;
    SameGrant(e, s, s', rec);
  }

  lemma OneMoreIndexed(e: Engine, s: Store, p: Persisted, recs: seq<Recommendation>, x: Progress, y: Progress,
                       before: seq<Hash>, h: Hash)
    requires recs != [] && p.status.Keys <= s.grains.Keys <= x.store.grains.Keys
    requires Indexes(e, s, p, recs[..|recs| - 1], x, before)
    requires Extends(x.store, y.store) && h !in x.store.grains
    requires IsRec(y.store, h) && RecAt(y.store, h) == recs[|recs| - 1]
    requires var granted := CanAutoApply(e, s, recs[|recs| - 1]);
             && y.state.status == x.state.status[h := if granted then Applied else Pending]
             && y.autoApplied == x.autoApplied + if granted then 1 else 0
    ensures Indexes(e, s, p, recs, y, before + [h])
  {
    hide CanAutoApply, Extends, IsRec, RecAt, IndexedAs, OnlyIndexed;
    var n := |recs| - 1;
    var status := if CanAutoApply(e, s, recs[n]) then Applied else Pending;
    NewIndexed(e, s, y, h, recs[n]);
    forall i | 0 <= i < n
      ensures before[i] != h && before[i] in x.state.status && IndexedAs(e, s, y, before[i], recs[i]) {
      assert IndexedAs(e, s, x, before[i], recs[..n][i]);
      IndexedStays(e, s, x, y, h, status, before[i], recs[i]);
    }
    EachExtended(e, s, y, recs, before, h);
    OneMoreKey(p, x.state, y.state, before, h, status);
    AppliedGrows(before, h, x.state.status, status);
    hide EachIndexed, AppliedAmong;
  }

  lemma NewIndexed(e: Engine, s: Store, y: Progress, h: Hash, rec: Recommendation)
    requires h !in s.grains && IsRec(y.store, h) && RecAt(y.store, h) == rec && h in y.state.status
    requires y.state.status[h] == if CanAutoApply(e, s, rec) then Applied else Pending
    ensures IndexedAs(e, s, y, h, rec)
  {
  }

  lemma OneMoreKey(p: Persisted, q: Persisted, r: Persisted, before: seq<Hash>, h: Hash, status: Status)
    requires OnlyIndexed(p, q, before) && r.status == q.status[h := status] && h !in p.status
    ensures OnlyIndexed(p, r, before + [h])
  {
    assert Members(before + [h]) == Members(before) + {h};
  }

  lemma EachExtended(e: Engine, s: Store, y: Progress, recs: seq<Recommendation>, before: seq<Hash>, h: Hash)
    requires |recs| == |before| + 1 && IndexedAs(e, s, y, h, recs[|before|])
    requires forall i | 0 <= i < |before| :: before[i] != h && IndexedAs(e, s, y, before[i], recs[i])
    requires forall i, j | 0 <= i < j < |before| :: before[i] != before[j]
    ensures EachIndexed(e, s, y, recs, before + [h])
  {
    hide IndexedAs;
  }

  lemma IndexedStays(e: Engine, s: Store, x: Progress, y: Progress, h: Hash, status: Status, k: Hash,
                     rec: Recommendation)
    requires IndexedAs(e, s, x, k, rec) && Extends(x.store, y.store) && h !in x.store.grains
    requires y.state.status == x.state.status[h := status]
    ensures k != h && k in x.state.status && IndexedAs(e, s, y, k, rec)
  {
    hide CanAutoApply, Extends;
    RecIsInStore(x.store, k);
    RecExtends(x.store, y.store, k);
  }

  lemma AppliedGrows(before: seq<Hash>, h: Hash, statuses: map<Hash, Status>, status: Status)
    requires forall i | 0 <= i < |before| :: before[i] != h && before[i] in statuses
    ensures AppliedAmong(before + [h], statuses[h := status])
            == AppliedAmong(before, statuses) + if status == Applied then 1 else 0
  {
    AppliedStays(before, statuses, statuses[h := status]);
    assert (before + [h])[..|before|] == before;
  }

  lemma RecIsInStore(s: Store, h: Hash)
    requires IsRec(s, h)
    ensures h in s.grains
  {
  }

  /** What a run does with its survivors when none of their batches names an address before it is minted: each is
      indexed under an address of its own, applied if the host allows it and its batch only restates what is stored,
      pending otherwise; nothing else is indexed, and the report counts them. */
  lemma RunIndexes(e: Engine, w: World, input: RunInput) returns (hs: seq<Hash>)
    requires e.js.Lawful() && Good(w) && AllKnown(e.js, w.store, RunSurvivors(e, w, input))
    requires RunStep(e, w, input).1.Ok? && RunStep(e, w, input).1.value.Ran?
    ensures var p, (w', r), recs := StateOf(w), RunStep(e, w, input), RunSurvivors(e, w, input);
            var q := StateOf(w');
            && |hs| == |recs| && (forall i, j | 0 <= i < j < |hs| :: hs[i] != hs[j])
            && (forall i | 0 <= i < |hs| ::
                  && hs[i] !in w.store.grains && IsRec(w'.store, hs[i]) && RecAt(w'.store, hs[i]) == recs[i]
                  && hs[i] in q.status
                  && q.status[hs[i]] == if HostAllows(e, recs[i]) && recs[i].proposal.Cal?
                                           && OnlyRestates(e.js, w.store, recs[i].proposal.cal)
                                        then Applied else Pending)
            && q.status.Keys == p.status.Keys + Members(hs)
            && (forall h | h in p.status :: q.status[h] == p.status[h])
            && r.value == Ran(|Candidates(input.findings, input.now)|,
                              |Candidates(input.findings, input.now)| - |hs|, |hs|, AppliedAmong(hs, q.status))
  {
    hide Codec.Lawful, Inv, Wf, StoreAll, MeasureOutcomes, Survivors, Candidates, Gate, IsRec, RecAt, AllKnown,
         CanAutoApply, HostAllows, OnlyRestates;
    var p, recs := MeasureOutcomes(e, w.store, StateOf(w), input.now), RunSurvivors(e, w, input);
    InvIsWf(w);
    MeasuringKeepsRest(e, w.store, StateOf(w), input.now);
    forall h | h in p.status ensures h in w.store.grains { IndexedIsStored(w, h); }
    hs := StoringIndexes(e, w.store, p, recs, input.opts.trigger, input.now);
    var x := StoreAll(e, w.store, p, recs, input.opts.trigger, input.now);
    forall i | 0 <= i < |hs| ensures IndexedAs(e, w.store, x, hs[i], recs[i]) {
      GrantIs(e, w.store, recs[i]);
    }
    forall i | 0 <= i < |recs|
      ensures CanAutoApply(e, w.store, recs[i])
              <==> HostAllows(e, recs[i]) && recs[i].proposal.Cal?
                   && OnlyRestates(e.js, w.store, recs[i].proposal.cal)
    {
      GrantIs(e, w.store, recs[i]);
    }
  }
}
