/** What the lifecycle promises about every history of engine operations and host writes. */
module Guarantees {
  import opened Basics
  import opened LoopModel
  import opened Text
  import opened CalText
  import opened GrainStore
  import opened EngineSpec
  import opened Invariants
  import opened Steps
  import opened Reachable
  import opened Runs

  lemma GoodRec(w: World, h: Hash)
    requires Good(w) && h in StateOf(w).status
    ensures RecOk(w.store, StateOf(w), h)
  {
  }

  // --- the audit trail ---

  predicate ByPolicy(a: AuditRecord) {
    a.actor == "policy:auto" && a.observer.PolicyObserver?
  }

  /** Following the links from the head of any recommendation reads one finite trail, from its proposal to
      its present status, each record continuing the one before by a step the table allows. */
  lemma AuditTrailIsSound(w: World, acts: seq<Act>, h: Hash) returns (t: seq<AuditRecord>)
    requires Initial(w) && h in StateOf(After(w, acts)).status
    ensures var v, p := After(w, acts), StateOf(After(w, acts));
            && h in p.auditHeads
            && (forall u :: Linked(v.store, p.auditHeads[h], u) <==> u == t)
            && |t| > 0 && t[0].from.None? && t[0].to.Pending?
            && (forall i | 0 < i < |t| ::
                  t[i].from == Some(t[i - 1].to) && CanTransition(t[i - 1].to, t[i].to, ByPolicy(t[i])))
            && (forall i | 0 <= i < |t| :: t[i].recHash == h && Reasoned(t[i]))
            && (forall i | 0 <= i < |t| && t[i].to.Applied? :: h in p.applied && p.applied[h].appliedAt == t[i].at)
            && t[|t| - 1].to == p.status[h]
  {
    hide After, Good;
    ReachableIsGood(w, acts);
    var v, p := After(w, acts), StateOf(After(w, acts));
    GoodRec(v, h);
    t :| Trail(v.store, p, h, t);
    hide AppliedOk, RestedOk, IsRec, Linked;
    forall u | Linked(v.store, p.auditHeads[h], u) ensures u == t {
      TrailIsUnique(v.store, p.auditHeads[h], t, u);
    }
  }

  /** Nothing that was written down about a recommendation is ever changed: its author, who triggered it,
      its applied record and its trail, which only grows at the end. */
  lemma HistoryIsAppendOnly(w: World, acts: seq<Act>, more: seq<Act>, h: Hash, t: seq<AuditRecord>)
    requires Initial(w) && Trail(After(w, acts).store, StateOf(After(w, acts)), h, t)
    ensures var p, v, q := StateOf(After(w, acts)), After(w, acts + more), StateOf(After(w, acts + more));
            && (exists n :: Trail(v.store, q, h, t + n))
            && q.creators[h] == p.creators[h] && CoCreator(q, h) == CoCreator(p, h)
            && (h in p.applied ==> h in q.applied && q.applied[h] == p.applied[h])
  {
    hide After, Extends, Trail;
    InitialIsGood(w);
    LaterFollows(w, acts, more);
    var u, v := After(w, acts), After(w, acts + more);
    assert Kept(u.store, StateOf(u), v.store, StateOf(v), h) by { TrailIsIndexed(u.store, StateOf(u), h, t); }
    assert h in StateOf(u).creators && h in StateOf(v).creators;
  }

  lemma TrailIsIndexed(s: Store, p: Persisted, h: Hash, t: seq<AuditRecord>)
    requires Trail(s, p, h, t)
    ensures h in p.status
  {
  }

  /** Whatever is applied, or was, got there by the host policy on a built-in, non-destructive finding, or
      through an approval by somebody who neither authored it nor triggered the run that did. */
  lemma SeparationOfDuties(w: World, acts: seq<Act>, h: Hash, t: seq<AuditRecord>) returns (i: nat)
    requires Initial(w) && Trail(After(w, acts).store, StateOf(After(w, acts)), h, t)
    requires StateOf(After(w, acts)).status[h].Applied? || StateOf(After(w, acts)).status[h].RolledBack?
    ensures var v, p := After(w, acts), StateOf(After(w, acts));
            && IsRec(v.store, h) && h in p.creators && 0 < i < |t| && t[i].to.Applied?
            && (DirectByPolicy(t[i], RecAt(v.store, h))
                || (t[i - 1].to.Approved? && t[i - 1].actor != p.creators[h]
                    && Some(t[i - 1].actor) != CoCreator(p, h)))
  {
    hide After, Linked, IsRec, CoCreator;
    var p := StateOf(After(w, acts));
    i := |t| - 1;
    if p.status[h].RolledBack? {
      assert i > 0 && LegalMove(t[i - 1].to, t[i], RecAt(After(w, acts).store, h));
      i := i - 1;
    }
    assert i > 0 && LegalMove(t[i - 1].to, t[i], RecAt(After(w, acts).store, h));
  }

  /** Every recommendation a run indexes was one of its survivors, names its engine as author, names whoever triggered
      the run unless it is built in, and is pending unless a grant of the host covered it. */
  lemma NewEntriesAreAccountable(e: Engine, w: World, input: RunInput, h: Hash)
    requires Good(w) && h in StateOf(RunStep(e, w, input).0).status && h !in StateOf(w).status
    ensures var w' := RunStep(e, w, input).0;
            && IsRec(w'.store, h) && RecAt(w'.store, h) in RunSurvivors(e, w, input)
            && EntryOk(e, input.opts.trigger, StateOf(w'), h, RecAt(w'.store, h))
  {
    hide Inv, Continues, Wf, Extends, MeasureOutcomes, Survivors, StoreAll, Gate, HeldOnlyBy, Candidates, IsRec, RecAt,
         Granted;
    var p := MeasureOutcomes(e, w.store, StateOf(w), input.now);
    MeasureKeeps(e, w.store, StateOf(w), input.now);
    MeasuringKeepsRest(e, w.store, StateOf(w), input.now);
    var candidates := Candidates(input.findings, input.now);
    CandidatesAreNew(input.findings, input.now);
    SurvivorsReady(e, w.store, p, candidates, input.now);
    StoreAllKeeps(e, w.store, p, Survivors(e, w.store, p, candidates, input.now), input.opts.trigger, input.now);
    EntriesAreOk(e, w.store, p, Survivors(e, w.store, p, candidates, input.now), input.opts.trigger, input.now);
  }

  /** With the host policy closed nothing is applied without a review. */
  lemma ClosedPolicyAppliesNothing(e: Engine, w: World, input: RunInput, h: Hash)
    requires Good(w) && h in StateOf(RunStep(e, w, input).0).status && h !in StateOf(w).status
    requires !e.policy.autoApplyEnabled
    ensures StateOf(RunStep(e, w, input).0).status[h].Pending?
  {
    hide Inv, RunStep;
    NewEntriesAreAccountable(e, w, input, h);
  }

  // --- one open recommendation per key ---

  lemma AtMostOneOpen(w: World, acts: seq<Act>, g: Hash, h: Hash)
    requires Initial(w)
    requires var v, p := After(w, acts), StateOf(After(w, acts));
             && g in p.status && h in p.status && IsOpen(p.status[g]) && IsOpen(p.status[h])
             && LoadRec(v.store, g).Ok? && LoadRec(v.store, h).Ok?
             && LoadRec(v.store, g).value.dedupKey == LoadRec(v.store, h).value.dedupKey
    ensures g == h
  {
    hide After;
    ReachableIsGood(w, acts);
    var v := After(w, acts);
    KnownRec(v.store, StateOf(v), g);
    KnownRec(v.store, StateOf(v), h);
    hide RecOk, Wf, ScheduleOk, SameKeys, IsRec;
    var key := RecAt(v.store, g).dedupKey;
    assert Holds(v.store, StateOf(v), g, key) && Holds(v.store, StateOf(v), h, key);
  }

  /** A key somebody holds open is never proposed again, in this run or any other. */
  lemma HeldKeyIsNotProposed(e: Engine, w: World, input: RunInput, h: Hash, key: string)
    requires Holds(w.store, StateOf(w), h, key)
    ensures forall c | c in RunSurvivors(e, w, input) :: c.dedupKey != key
  {
    var p := MeasureOutcomes(e, w.store, StateOf(w), input.now);
    assert p.status == StateOf(w).status;
    hide MeasureOutcomes, Sift, ExistingKeys, Cooling, BelowFloor;
    HeldKeysExist(w.store, p, h, key);
    SiftKeeps(e.policy, p, ExistingKeys(w.store, p), Candidates(input.findings, input.now), input.now);
  }

  /** Which candidates of a run are not stored: below the floor, held, or cooling. */
  predicate Suppressed(policy: Policy, s: Store, p: Persisted, c: Recommendation, now: int) {
    BelowFloor(policy, p, c) || c.dedupKey in ExistingKeys(s, p) || Cooling(p, c.dedupKey, now)
  }

  lemma AllSuppressed(e: Engine, s: Store, p: Persisted, cs: seq<Recommendation>, now: int)
    requires forall c | c in cs :: Suppressed(e.policy, s, p, c, now)
    ensures Survivors(e, s, p, cs, now) == []
  {
    hide BelowFloor, Cooling, ExistingKeys, Sift;
    SiftKeeps(e.policy, p, ExistingKeys(s, p), cs, now);
    EmptyOrMember(Survivors(e, s, p, cs, now));
  }

  lemma EmptyOrMember<T>(xs: seq<T>)
    ensures xs == [] || exists x :: x in xs
  {
    if xs != [] { assert xs[0] in xs; }
  }

  /** An executed run, spelled out. */
  lemma ExecutedRun(e: Engine, w: World, input: RunInput)
    requires RunStep(e, w, input).1.Ok? && RunStep(e, w, input).1.value.Ran?
    ensures var p := MeasureOutcomes(e, w.store, StateOf(w), input.now);
            var candidates := Candidates(input.findings, input.now);
            var survivors := Survivors(e, w.store, p, candidates, input.now);
            var x := StoreAll(e, w.store, p, survivors, input.opts.trigger, input.now);
            && x.failed.None?
            && RunStep(e, w, input).0
               == World(x.store, Some(x.state.(lastRun := Some(input.now), watermark := Some(input.now))))
            && RunStep(e, w, input).1.value == Ran(|candidates|, |candidates| - |survivors|, |survivors|, x.autoApplied)
  {
    hide MeasureOutcomes, Survivors, StoreAll, Candidates, Gate;
  }

  /** After an executed run the same candidates are all suppressed: each is below the floor, cooling as
      before, held as before, or stored by the run. */
  lemma CandidateIsSuppressed(e: Engine, s: Store, p: Persisted, s': Store, q: Persisted, cs: seq<Recommendation>,
                              now: int, c: Recommendation)
    requires Wf(s) && Extends(s, s') && Stored(s, p, s', q, Survivors(e, s, p, cs, now))
    requires q.cooldowns == p.cooldowns && q.floors == p.floors && c in cs
    ensures Suppressed(e.policy, s', q, c, now)
  {
    var existing, key := ExistingKeys(s, p), c.dedupKey;
    SiftSees(e.policy, p, existing, cs, now);
    assert BelowFloor(e.policy, q, c) <==> BelowFloor(e.policy, p, c) by { SameFloors(e.policy, p, q, c); }
    hide BelowFloor, Sift, Extends;
    if !BelowFloor(e.policy, p, c) && !Cooling(p, key, now) {
      if key in existing {
        var h :| h in s.grains && Occupies(p, s.grains[h])
          && StrField(s.grains[h].fields.entries, "dedup_key").value == key;
        StillOccupied(s, p, s', q, h, Survivors(e, s, p, cs, now));
      } else {
        var kept := Survivors(e, s, p, cs, now);
        var d :| d in kept && d.dedupKey == key;
        var h :| Holds(s', q, h, key);
        HeldKeysExist(s', q, h, key);
      }
    }
  }

  lemma SameFloors(policy: Policy, p: Persisted, q: Persisted, c: Recommendation)
    requires q.floors == p.floors
    ensures BelowFloor(policy, q, c) == BelowFloor(policy, p, c)
  {
  }

  lemma StillOccupied(s: Store, p: Persisted, s': Store, q: Persisted, h: Hash, recs: seq<Recommendation>)
    requires Wf(s) && Extends(s, s') && Stored(s, p, s', q, recs) && h in s.grains && Occupies(p, s.grains[h])
    ensures StrField(s.grains[h].fields.entries, "dedup_key").value in ExistingKeys(s', q)
  {
    SameDedupKey(s.grains[h], s'.grains[h]);
    assert Occupies(q, s'.grains[h]);
  }

  /** Everything but the lifecycle entries of recommendations is the same. */
  predicate RestEquals(p: Persisted, q: Persisted) {
    && q.floors == p.floors && q.strikes == p.strikes && q.cooldowns == p.cooldowns
    && q.measured == p.measured && q.outcomes == p.outcomes
  }

  lemma RecordKeepsRest(s: Store, p: Persisted, a: AuditRecord)
    ensures RestEquals(p, Record(s, p, a).1) && Record(s, p, a).1.applied == p.applied
  {
  }

  lemma ProposeKeepsRest(s: Store, p: Persisted, rec: Recommendation, trigger: Option<string>, now: int)
    ensures RestEquals(p, Propose(s, p, rec, trigger, now).1)
  {
    hide Put, Mint, RecSpec, AuditSpec;
  }

  lemma AutoApplyKeepsRest(e: Engine, x: Progress, h: Hash, rec: Recommendation, now: int)
    ensures RestEquals(x.state, AutoApply(e, x, h, rec, now).state)
  {
    hide ExecAll, ParseBatch, Record, AutoRecord, AppliedBy;
    var run := if rec.proposal.Cal? then ExecAll(x.store, ParseBatch(e.js, rec.proposal.cal))
      else Exec(x.store, [], None);
    RecordKeepsRest(run.store, x.state, AutoRecord(h, HeadOf(x.state, h), now));
  }

  lemma StoringKeepsRest(e: Engine, x: Progress, rec: Recommendation, trigger: Option<string>, now: int)
    ensures RestEquals(x.state, StoreOne(e, x, rec, trigger, now).state)
  {
    hide CanAutoApply, AutoApply, Propose, Mint;
    if x.failed.None? {
      ProposeKeepsRest(x.store, x.state, rec, trigger, now);
      var (s, p) := Propose(x.store, x.state, rec, trigger, now);
      AutoApplyKeepsRest(e, x.(store := s, state := p), Mint(x.store.nextId), rec, now);
    }
  }

  lemma {:induction false} StoreAllKeepsRest(e: Engine, s: Store, p: Persisted, recs: seq<Recommendation>,
                                             trigger: Option<string>, now: int)
    ensures RestEquals(p, StoreAll(e, s, p, recs, trigger, now).state)
  {
    hide StoreOne;
    if recs != [] {
      StoreAllKeepsRest(e, s, p, recs[..|recs| - 1], trigger, now);
      StoringKeepsRest(e, StoreAll(e, s, p, recs[..|recs| - 1], trigger, now), recs[|recs| - 1], trigger, now);
    }
  }

  /** Running again on the same findings at the same time stores nothing. */
  lemma RunIsIdempotent(e: Engine, w: World, input: RunInput)
    requires Good(w) && RunStep(e, w, input).1.Ok? && RunStep(e, w, input).1.value.Ran?
    ensures RunSurvivors(e, RunStep(e, w, input).0, input) == []
  {
    hide Inv, StoreAll, Survivors, Candidates, MeasureOutcomes, RunStep, Continues, Ready, HeldOnlyBy, Stored,
         Suppressed, Extends, Wf;
    ExecutedRun(e, w, input);
    var p := MeasureOutcomes(e, w.store, StateOf(w), input.now);
    var cs := Candidates(input.findings, input.now);
    var survivors := Survivors(e, w.store, p, cs, input.now);
    var x := StoreAll(e, w.store, p, survivors, input.opts.trigger, input.now);
    MeasureKeeps(e, w.store, StateOf(w), input.now);
    CandidatesAreNew(input.findings, input.now);
    SurvivorsReady(e, w.store, p, cs, input.now);
    StoreAllKeeps(e, w.store, p, survivors, input.opts.trigger, input.now);
    StoreAllKeepsRest(e, w.store, p, survivors, input.opts.trigger, input.now);
    var w' := RunStep(e, w, input).0;
    var q := MeasureOutcomes(e, w'.store, StateOf(w'), input.now);
    assert q.status == x.state.status && q.cooldowns == x.state.cooldowns && q.floors == x.state.floors by {
      MeasuringKeepsRest(e, w'.store, StateOf(w'), input.now);
    }
    assert Stored(w.store, p, w'.store, q, survivors) by {
      StoredByStatus(w.store, p, w'.store, x.state, q, survivors);
    }
    InvIsWf(w);
    forall c | c in cs ensures Suppressed(e.policy, w'.store, q, c, input.now) {
      CandidateIsSuppressed(e, w.store, p, w'.store, q, cs, input.now, c);
    }
    AllSuppressed(e, w'.store, q, cs, input.now);
  }

  lemma MeasuringKeepsRest(e: Engine, s: Store, p: Persisted, now: int)
    ensures var q := MeasureOutcomes(e, s, p, now);
            q.status == p.status && q.cooldowns == p.cooldowns && q.floors == p.floors && q.strikes == p.strikes
  {
  }

  lemma StoredByStatus(s: Store, p: Persisted, s': Store, q: Persisted, r: Persisted, recs: seq<Recommendation>)
    requires Stored(s, p, s', q, recs) && r.status == q.status
    ensures Stored(s, p, s', r, recs)
  {
    forall c | c in recs ensures exists h :: Holds(s', r, h, c.dedupKey) {
      var h :| Holds(s', q, h, c.dedupKey);
      assert Holds(s', r, h, c.dedupKey);
    }
  }

  // --- rolled back for good ---

  /** What a rolled-back recommendation created stays dead in every later world, whatever happens. */
  lemma RolledBackStaysDead(w: World, acts: seq<Act>, more: seq<Act>, h: Hash, c: Hash)
    requires Initial(w)
    requires var p := StateOf(After(w, acts));
             h in p.status && p.status[h].RolledBack? && h in p.applied && c in p.applied[h].created
    ensures var v := After(w, acts + more);
            && c in v.store.grains && !Live(v.store.grains[c])
            && h in StateOf(v).applied && StateOf(v).applied[h] == StateOf(After(w, acts)).applied[h]
  {
    hide After;
    InitialIsGood(w);
    ReachableIsGood(w, acts);
    LaterFollows(w, acts, more);
    var u, v := After(w, acts), After(w, acts + more);
    KnownRec(u.store, StateOf(u), h);
    assert c in u.store.grains && !Live(u.store.grains[c]);
    hide Inv, TrailGrows, SameContent, IsRec;
    assert Kept(u.store, StateOf(u), v.store, StateOf(v), h);
  }

  // --- preflight ---

  /** For an approved recommendation the preflight foretells the apply: what it refuses, apply refuses with the same
      error and writes nothing; what it lets through fails only if the batch or the reverted rollback fails. */
  lemma PreflightForetellsApply(e: Engine, w: World, h: Hash, allowDestructive: bool, req: Request)
    requires h in StateOf(w).status && StateOf(w).status[h].Approved? && ValidateBecause(req.because).Ok?
    ensures var (w', r) := ApplyStep(e, w, h, allowDestructive, req);
            match PreflightError(w.store, h, req.scopes, allowDestructive)
            case Some(error) => w' == w && r == Err(error)
            case None =>
              && LoadRec(w.store, h).Ok?
              && match LoadRec(w.store, h).value.proposal
                 case Cal(cal) => r.Err? <==> ExecAll(w.store, ParseBatch(e.js, cal)).failed.Some?
                 case Edit(_, _, _) => false
                 case Data(data) =>
                   && StrField(data, "revert_of").Some?
                   && (r.Err? <==> RollbackStep(w, StrField(data, "revert_of").value,
                                                req.(because := ValidateBecause(req.because).value)).1.Some?)
  {
    hide RollbackStep, ExecAll, ParseBatch, Record, ValidateBecause, LoadRec, AppliedBy, HeadOf;
  }
}
