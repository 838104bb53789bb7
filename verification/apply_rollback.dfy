/** Applying a proposal that only adds, and taking it back. */
module ApplyRollback {
  import opened Basics
  import opened LoopModel
  import opened CalText
  import opened GrainStore
  import opened EngineSpec
  import opened Invariants
  import opened Steps
  import opened Reachable
  import opened Runs
  import opened Rejections
  import opened Authority

  /** A drafted batch of ADDs is stamped non-destructive and rollbackable. */
  lemma AddOnlyIsRollbackable(js: Codec, m: Manifest, d: Draft, now: int)
    requires d.proposal.Cal? && OnlyAdds(ParseBatch(js, d.proposal.cal))
    ensures !StampAnalyzed(m, d, now).destructive && StampAnalyzed(m, d, now).rollbackable
  {
    AddOnlyIsNotDestructive(js, d.proposal.cal);
    hide ContainsDestructive, DedupKey;
  }

  predicate AddsOnly(js: Codec, rec: Recommendation) {
    rec.proposal.Cal? && OnlyAdds(ParseBatch(js, rec.proposal.cal))
  }

  /** What the index says about a recommendation after a step. */
  predicate Indexed(w: World, h: Hash, status: Status, head: Hash, applied: AppliedRecord) {
    var p := StateOf(w);
    && h in p.status && p.status[h] == status
    && HeadOf(p, h) == Some(head)
    && h in p.applied && p.applied[h] == applied
  }

  /** What an allowed apply of an ADD-only batch leaves. */
  lemma ApplyAddsOnlyAdds(e: Engine, w: World, h: Hash, allowDestructive: bool, req: Request, rec: Recommendation)
    returns (x: Exec, w': World, r: AppliedRecord)
    requires Good(w) && ApplyError(w.store, StateOf(w), h, allowDestructive, req).None?
    requires LoadRec(w.store, h) == Ok(rec) && AddsOnly(e.js, rec)
    ensures ApplyStep(e, w, h, allowDestructive, req) == (w', Ok(r))
    ensures r.created == x.created && r.rollbackable == rec.rollbackable
    ensures Indexed(w', h, Applied, Mint(x.store.nextId), r)
    ensures w'.store.nextId == x.store.nextId + 1
    ensures LiveSet(w'.store) == LiveSet(w.store) + Members(x.created) + {Mint(x.store.nextId)}
    ensures Fresh(w.store, x) && Wf(x.store) && Extends(w.store, x.store)
  {
    hide Inv, ParseBatch, ExecAll, ApplyError, Wf, Extends, Fresh, LiveSet, Mint, AuditSpec, ValidateBecause, LoadRec;
    var stmts, p := ParseBatch(e.js, rec.proposal.cal), StateOf(w);
    InvIsWf(w);
    ApplyAllowed(w.store, p, h, allowDestructive, req);
    ExecKeeps(w.store, stmts);
    AddsOnlyAdd(w.store, stmts);
    x := ExecAll(w.store, stmts);
    var because := ValidateBecause(req.because).value;
    var a := AuditRecord(h, Some(p.status[h]), Applied, req.actor, req.observer, because, HeadOf(p, h), req.now);
    PutKeeps(x.store, AuditSpec(a));
    r := AppliedBy(rec, x.created, req.now);
    var (s, q) := Record(x.store, p, a);
    w' := World(s, Some(q.(applied := q.applied[h := r])));
    hide LiveSet, Members, OnlyAdds;
  }

  /** What an allowed rollback leaves. */
  lemma RollbackOnlyRetracts(w: World, h: Hash, req: Request, applied: AppliedRecord) returns (w': World)
    requires Good(w) && RollbackError(StateOf(w), h, req).None?
    requires h in StateOf(w).applied && StateOf(w).applied[h] == applied
    ensures RollbackStep(w, h, req) == (w', None)
    ensures LiveSet(w'.store) == LiveSet(w.store) - Members(applied.created) + {Mint(w.store.nextId)}
    ensures Indexed(w', h, RolledBack, Mint(w.store.nextId), applied)
    ensures Mint(w.store.nextId) !in w.store.grains
  {
    hide Inv, RollbackError, Wf, Extends, LiveSet, Mint, AuditSpec, ValidateBecause, RetractAll, Live;
    var p, reason := StateOf(w), "rollback of " + h;
    InvIsWf(w);
    RollbackAllowed(p, h, req);
    RetractionKeeps(w, h, reason);
    RetractAllKeeps(w.store, applied.created, reason);
    var s := RetractAll(w.store, applied.created, reason).0;
    var a := StepRecord(p, h, RolledBack, req);
    PutKeeps(s, AuditSpec(a));
    var (s', q) := Record(s, p, a);
    w' := World(s', Some(q));
  }

  lemma UndoIsAllowed(w: World, h: Hash, undo: Request, head: Hash, applied: AppliedRecord)
    requires Indexed(w, h, Applied, head, applied) && applied.rollbackable
    requires (AdminScope in undo.scopes || ApplyScope in undo.scopes) && GivesReason(undo.because)
    ensures RollbackError(StateOf(w), h, undo).None?
  {
    ReasonIs(undo.because);
    hide ValidateBecause, GivesReason;
  }

  /** Applying and rolling back a batch of ADDs leaves live exactly what was live before, and the two audit
      grains of the steps. */
  lemma ApplyThenRollback(e: Engine, w: World, h: Hash, allowDestructive: bool, req: Request, undo: Request,
                          rec: Recommendation)
    returns (first: Hash, second: Hash)
    requires Good(w) && ApplyError(w.store, StateOf(w), h, allowDestructive, req).None?
    requires LoadRec(w.store, h) == Ok(rec) && AddsOnly(e.js, rec) && rec.rollbackable
    requires (AdminScope in undo.scopes || ApplyScope in undo.scopes) && GivesReason(undo.because)
    ensures var (w1, applied) := ApplyStep(e, w, h, allowDestructive, req);
            var (w2, error) := RollbackStep(w1, h, undo);
            && applied.Ok? && error.None?
            && LiveSet(w2.store) == LiveSet(w.store) + {first, second}
            && HeadOf(StateOf(w1), h) == Some(first) && HeadOf(StateOf(w2), h) == Some(second)
    ensures first != second && first !in w.store.grains && second !in w.store.grains
  {
    hide Inv, Continues, ParseBatch, ExecAll, ApplyError, RollbackError, Wf, Extends, Fresh, LiveSet, Mint, ApplyStep,
         RollbackStep, ValidateBecause, LoadRec, Members;
    var x, w1, r := ApplyAddsOnlyAdds(e, w, h, allowDestructive, req, rec);
    ApplyKeeps(e, w, h, allowDestructive, req);
    UndoIsAllowed(w1, h, undo, Mint(x.store.nextId), r);
    var w2 := RollbackOnlyRetracts(w1, h, undo, r);
    NewAddresses(w.store, x, w1.store);
    first, second := Mint(x.store.nextId), Mint(w1.store.nextId);
  }

  /** Somebody with the review scope and a reason who neither authored nor triggered it. */
  predicate MayApprove(w: World, h: Hash, req: Request) {
    var p := StateOf(w);
    && h in p.status && p.status[h].Pending?
    && (AdminScope in req.scopes || ReviewScope in req.scopes) && GivesReason(req.because)
    && (h in p.creators ==> p.creators[h] != req.actor) && CoCreator(p, h) != Some(req.actor)
  }

  /** An approval goes through exactly when the approver may give it, and adds one live audit grain. */
  lemma ApprovalsGoThrough(w: World, h: Hash, req: Request)
    requires Good(w)
    ensures ReviewStep(w, h, true, req).1.None? <==> MayApprove(w, h, req)
    ensures MayApprove(w, h, req) ==>
              var w' := ReviewStep(w, h, true, req).0;
              && StateOf(w').status == StateOf(w).status[h := Approved] && Good(w')
              && LiveSet(w'.store) == LiveSet(w.store) + {Mint(w.store.nextId)}
              && Mint(w.store.nextId) !in w.store.grains
              && Mint(w.store.nextId) in w'.store.grains && Extends(w.store, w'.store)
  {
    ReasonIs(req.because);
    hide Inv, Continues, ValidateBecause, GivesReason, Wf, Extends, LiveSet, Mint, AuditSpec;
    var p := StateOf(w);
    assert ReviewError(p, h, Approved, req).None? <==> MayApprove(w, h, req);
    if MayApprove(w, h, req) {
      InvIsWf(w);
      ReviewKeeps(w, h, true, req);
      hide Good, Follows, CoCreator;
      PutKeeps(w.store, AuditSpec(StepRecord(p, h, Approved, req)));
    }
  }

  /** A pending recommendation to add grains can be taken through its whole life: approved by somebody independent,
      applied and rolled back, after which exactly the three audit grains of the steps have come alive. */
  lemma WholeLife(e: Engine, w: World, h: Hash, review: Request, req: Request, undo: Request, rec: Recommendation)
    returns (w': World, audits: set<Hash>)
    requires Good(w) && MayApprove(w, h, review)
    requires LoadRec(w.store, h) == Ok(rec) && AddsOnly(e.js, rec) && rec.rollbackable && !rec.destructive
    requires (AdminScope in req.scopes || ApplyScope in req.scopes) && GivesReason(req.because)
    requires (AdminScope in undo.scopes || ApplyScope in undo.scopes) && GivesReason(undo.because)
    ensures w' == RollbackStep(ApplyStep(e, ReviewStep(w, h, true, review).0, h, false, req).0, h, undo).0
    ensures h in StateOf(w').status && StateOf(w').status[h].RolledBack?
    ensures LiveSet(w'.store) == LiveSet(w.store) + audits && |audits| == 3 && audits !! w.store.grains.Keys
  {
    hide Inv, Continues, ParseBatch, ExecAll, Wf, Extends, LiveSet, Mint, ApplyStep, ReviewStep, RollbackStep,
         ValidateBecause, GivesReason, IsRec, RecAt, AddsOnly, MayApprove, Follows;
    ReasonIs(req.because);
    ApprovalsGoThrough(w, h, review);
    var w1 := ReviewStep(w, h, true, review).0;
    assert h in StateOf(w).status by { MayIsIndexed(w, h, review); }
    ReviewKeeps(w, h, true, review);
    SameRecAfter(w, w1, h);
    KnownRec(w.store, StateOf(w), h);
    KnownRec(w1.store, StateOf(w1), h);
    hide LoadRec, Good;
    assert ApplyError(w1.store, StateOf(w1), h, false, req).None?;
    var first, second := ApplyThenRollback(e, w1, h, false, req, undo, rec);
    var w2 := ApplyStep(e, w1, h, false, req).0;
    w' := RollbackStep(w2, h, undo).0;
    ApplyKeeps(e, w1, h, false, req);
    RollbackKeeps(w2, h, undo);
    audits := {Mint(w.store.nextId), first, second};
    StillThere(w.store, w1.store);
  }

  // --- what every indexed recommendation is stamped with ---

  /** The flags of a recommendation are those its batch asks for. */
  predicate Stamped(rec: Recommendation) {
    && (rec.destructive <==> rec.proposal.Cal? && ContainsDestructive(rec.proposal.cal))
    && (rec.rollbackable <==> rec.proposal.Cal? && !rec.destructive)
  }

  lemma {:induction false} CandidatesAreStamped(findings: seq<Finding>, now: int)
    ensures forall c | c in Candidates(findings, now) :: Stamped(c)
  {
    hide Stamp, Stamped;
    if findings != [] {
      CandidatesAreStamped(findings[..|findings| - 1], now);
      StampIsStamped(findings[|findings| - 1], now);
    }
  }

  lemma StampIsStamped(f: Finding, now: int)
    ensures Stamp(f, now).Some? ==> Stamped(Stamp(f, now).value)
  {
    hide ContainsDestructive, DedupKey, TargetClass;
  }

  /** In every reachable world the index only holds recommendations with the flags of their own batch. */
  lemma IndexedAreStamped(w: World, acts: seq<Act>, h: Hash)
    requires Initial(w) && h in StateOf(After(w, acts)).status
    ensures IsRec(After(w, acts).store, h) && Stamped(RecAt(After(w, acts).store, h))
  {
    hide Initial, IsRec, RecAt, Stamped, MeasureOutcomes, Sift, ExistingKeys, Cooling, BelowFloor;
    var i := CreatedByARun(w, acts, h);
    var e, v, input := acts[i].engine, After(w, acts[..i]), acts[i].op.input;
    hide After;
    CandidatesAreStamped(input.findings, input.now);
    var p := MeasureOutcomes(e, v.store, StateOf(v), input.now);
    SiftKeeps(e.policy, p, ExistingKeys(v.store, p), Candidates(input.findings, input.now), input.now);
  }

  /** So in every reachable world any pending ADD-only recommendation can be taken through its whole life. */
  lemma ReachableWholeLife(w0: World, acts: seq<Act>, e: Engine, h: Hash, review: Request, req: Request, undo: Request,
                           rec: Recommendation)
    returns (w': World, audits: set<Hash>)
    requires Initial(w0) && MayApprove(After(w0, acts), h, review)
    requires LoadRec(After(w0, acts).store, h) == Ok(rec) && AddsOnly(e.js, rec)
    requires (AdminScope in req.scopes || ApplyScope in req.scopes) && GivesReason(req.because)
    requires (AdminScope in undo.scopes || ApplyScope in undo.scopes) && GivesReason(undo.because)
    ensures var w := After(w0, acts);
            && w' == RollbackStep(ApplyStep(e, ReviewStep(w, h, true, review).0, h, false, req).0, h, undo).0
            && h in StateOf(w').status && StateOf(w').status[h].RolledBack?
            && LiveSet(w'.store) == LiveSet(w.store) + audits && |audits| == 3 && audits !! w.store.grains.Keys
  {
    hide After, Initial, Good, MayApprove, GivesReason, LiveSet, RollbackStep, ApplyStep, ReviewStep, ParseBatch,
         ContainsDestructive;
    var w := After(w0, acts);
    MayIsIndexed(w, h, review);
    IndexedAreStamped(w0, acts, h);
    ReachableIsGood(w0, acts);
    AddOnlyIsNotDestructive(e.js, rec.proposal.cal);
    w', audits := WholeLife(e, w, h, review, req, undo, rec);
  }

  lemma MayIsIndexed(w: World, h: Hash, req: Request)
    requires MayApprove(w, h, req)
    ensures h in StateOf(w).status
  {
  }

  /** The addresses of the batch and of the two audit grains are new and pairwise different. */
  lemma NewAddresses(s: Store, x: Exec, after: Store)
    requires Wf(x.store) && Extends(s, x.store) && Fresh(s, x) && after.nextId == x.store.nextId + 1
    ensures var first, second := Mint(x.store.nextId), Mint(after.nextId);
            && first !in s.grains && second !in s.grains && first != second
            && first !in Members(x.created) && second !in Members(x.created)
            && LiveSet(s) !! Members(x.created)
  {
    if Mint(x.store.nextId) == Mint(after.nextId) { MintIsInjective(x.store.nextId, after.nextId); }
    hide Mint, SameContent;
  }
}
