/** A run that fails: one analyzer finding whose replacement, value for value its target, spells its type `fact{`. */
module FailingRun {
  import opened Basics
  import opened LoopModel
  import opened Text
  import opened CalText
  import opened GrainStore
  import opened EngineSpec
  import opened Invariants
  import opened AutoApplying
  import opened DedupKeys

  const FIELDS := Fields(map["object" := Str("tea")], None, None)

  const TARGET := GrainRecord("g", "fact", "", 0, None, None, FIELDS)

  const SWEEP := Manifest("sweep/1", TrustBuiltin, true)

  /** The host lets the sweep apply its curation of memory. */
  function Granting(js: Codec): Engine {
    Engine(js, Policy(true, [Grant("sweep/1", ["memory"], High)], []), [SWEEP], (s, m, t) => None)
  }

  function OneGrain(): World {
    World(Store(map["g" := TARGET], 0, 0), None)
  }

  function BracedCal(js: Codec): string {
    WriteSupersede(js, "g", "fact{", FIELDS)
  }

  function BracedFinding(js: Codec): Finding {
    Analyzed(SWEEP, Draft("grain:g", Consolidate, Low, Cal(BracedCal(js)), None, map[]))
  }

  function OneFinding(js: Codec): RunInput {
    RunInput(RunOptions(None, None, None, None), [BracedFinding(js)], 0, 0, 0)
  }

  lemma OneGrainIsInitial()
    ensures Initial(OneGrain())
  {
    forall n: nat ensures Mint(n) != "g" {
      assert |Mint(n)| >= 4;
    }
  }

  lemma TargetsMemory()
    ensures TargetClass("grain:g") == Some("memory")
  {
    SchemeSplits("grain", "g");
    assert "grain" + ":" + "g" == "grain:g";
  }

  lemma NotDestructive(js: Codec)
    requires js.Lawful()
    ensures !ContainsDestructive(BracedCal(js))
  {
    var stmts := [Supersede("g", "fact{", FIELDS)];
    assert Token("g") && Token("fact{");
    hide Codec.Lawful, ContainsDestructive, ParseBatch, WriteSupersede;
    WrittenBatch(js, stmts);
    assert WriteStmts(js, stmts) == [BracedCal(js)];
    assert Join([BracedCal(js)]) == BracedCal(js);
  }

  lemma OneCandidate(js: Codec, rec: Recommendation)
    requires js.Lawful() && rec == StampAnalyzed(SWEEP, BracedFinding(js).draft, 0)
    ensures Candidates([BracedFinding(js)], 0) == [rec]
    ensures rec.origin.Builtin? && !rec.destructive && rec.analyzer == "sweep/1" && rec.severity == Low
    ensures rec.targetRef == "grain:g" && rec.proposal == Cal(BracedCal(js))
  {
    NotDestructive(js);
    TargetsMemory();
    hide Codec.Lawful, ContainsDestructive, TargetClass, BracedCal, FamilyOf, DedupKey;
    assert Candidates([], 0) == [];
    assert [BracedFinding(js)][..0] == [];
  }

  lemma OneSurvivor(js: Codec, rec: Recommendation)
    requires js.Lawful() && rec == StampAnalyzed(SWEEP, BracedFinding(js).draft, 0)
    ensures MeasureOutcomes(Granting(js), OneGrain().store, EMPTY_STATE, 0) == EMPTY_STATE
    ensures RunSurvivors(Granting(js), OneGrain(), OneFinding(js)) == [rec]
  {
    OneCandidate(js, rec);
    var e, w, p := Granting(js), OneGrain(), EMPTY_STATE;
    assert MeasureOutcomes(e, w.store, p, 0) == p;
    hide Codec.Lawful, StampAnalyzed, BracedFinding, Candidates, MeasureOutcomes, FamilyOf;
    assert ExistingKeys(w.store, p) == {};
    assert !BelowFloor(e.policy, p, rec);
    assert [rec][..0] == [];
    assert Sift(e.policy, p, {}, [rec], 0).kept == [rec];
  }

  lemma GrantCoversSweep(js: Codec)
    ensures GrantsAutoApply(Granting(js).policy, FamilyOf(SWEEP.id), "memory", Low)
  {
    var grant := Granting(js).policy.grants[0];
    hide FamilyOf;
    assert grant in Granting(js).policy.grants && grant.analyzer == SWEEP.id;
    assert grant.targets[0] == "memory";
  }

  lemma BatchPassesAndStops(js: Codec, s: Store)
    requires js.Lawful() && "g" in s.grains && s.grains["g"] == TARGET
    ensures StructuralCuration(js, s, BracedCal(js)) && ExecAll(s, ParseBatch(js, BracedCal(js))).failed.Some?
  {
    hide Codec.Lawful, StructuralCuration, ExecAll, ParseBatch, WriteSupersede;
    assert Token("g");
    forall k | k in FIELDS.entries ensures SaysTheSame(k, FIELDS.entries[k], s.grains["g"]) {
    }
    assert "object" in FIELDS.entries;
    BracedTypePassesTheCheck(js, s, "g", FIELDS);
  }

  /** Once the recommendation is stored, the policy grants it and its batch passes the check. */
  lemma IsGranted(js: Codec, rec: Recommendation, s: Store)
    requires js.Lawful() && rec == StampAnalyzed(SWEEP, BracedFinding(js).draft, 0)
    requires "g" in s.grains && s.grains["g"] == TARGET
    ensures CanAutoApply(Granting(js), s, rec)
    ensures ExecAll(s, ParseBatch(js, BracedCal(js))).failed.Some?
  {
    OneCandidate(js, rec);
    TargetsMemory();
    GrantCoversSweep(js);
    BatchPassesAndStops(js, s);
    hide Codec.Lawful, StampAnalyzed, BracedFinding, Candidates, StructuralCuration, TargetClass, ExecAll, ParseBatch,
         FamilyOf, BracedCal, GrantsAutoApply;
  }

  lemma TargetSurvivesProposal(rec: Recommendation, now: int)
    ensures var s := Propose(OneGrain().store, EMPTY_STATE, rec, None, now).0;
            "g" in s.grains && s.grains["g"] == TARGET
  {
    hide ZeroPad, Digits, RecSpec, AuditSpec;
    forall n: nat ensures Mint(n) != "g" {
      assert |Mint(n)| >= 4;
    }
  }

  /** Under any codec that meets the laws, this run of a fresh loop fails. */
  lemma ARunFails(js: Codec)
    requires js.Lawful()
    ensures Initial(OneGrain()) && RunStep(Granting(js), OneGrain(), OneFinding(js)).1.Err?
  {
    var rec := StampAnalyzed(SWEEP, BracedFinding(js).draft, 0);
    var e, w, input := Granting(js), OneGrain(), OneFinding(js);
    OneGrainIsInitial();
    OneCandidate(js, rec);
    OneSurvivor(js, rec);
    TargetSurvivesProposal(rec, 0);
    var (s, p) := Propose(w.store, EMPTY_STATE, rec, None, 0);
    IsGranted(js, rec, s);
    var x := Progress(w.store, EMPTY_STATE, 0, None);
    assert [rec][..0] == [];
    hide Codec.Lawful, StampAnalyzed, BracedFinding, Candidates, MeasureOutcomes, Propose, CanAutoApply, ExecAll,
         ParseBatch, BracedCal, Survivors;
    assert StoreAll(e, w.store, EMPTY_STATE, [], None, 0) == x;
    assert StoreOne(e, x, rec, None, 0).failed.Some?;
    assert StoreAll(e, w.store, EMPTY_STATE, [rec], None, 0) == StoreOne(e, x, rec, None, 0);
  }
}
