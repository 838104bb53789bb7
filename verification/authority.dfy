/** Who may take which lifecycle step, and from where: the exact conditions of reviews, applies, rollbacks and
    preflights, spelled out on scopes, reasons and statuses. */
module Authority {
  import opened Basics
  import opened LoopModel
  import opened Text
  import opened CalText
  import opened GrainStore
  import opened EngineSpec
  import opened Invariants
  import opened Steps
  import opened Reachable

  /** Some text besides whitespace, at most five hundred characters of it. */
  predicate GivesReason(because: string) {
    0 < |Trim(because)| <= 500
  }

  lemma ReasonIs(because: string)
    ensures ValidateBecause(because).Ok? <==> GivesReason(because)
    ensures GivesReason(because) ==> ValidateBecause(because) == Ok(Trim(because))
  {
    hide Trim;
  }

  // --- reviews ---

  /** A review by this actor would be one of their own work. */
  predicate OwnWork(p: Persisted, h: Hash, actor: string) {
    (h in p.creators && p.creators[h] == actor) || (h in p.coCreators && p.coCreators[h] == actor)
  }

  /** A review goes through exactly with the review or admin scope, a reason and a pending recommendation; only an
      approval also asks for somebody else's work. */
  lemma ReviewGoesThroughIff(w: World, h: Hash, approve: bool, req: Request)
    ensures var p := StateOf(w);
            ReviewStep(w, h, approve, req).1.None?
            <==> (AdminScope in req.scopes || ReviewScope in req.scopes) && GivesReason(req.because)
                 && h in p.status && p.status[h] == Pending && (approve ==> !OwnWork(p, h, req.actor))
  {
    hide Trim, Record, Penalize, StepRecord;
  }

  /** The refusals of a review, in the order they are given; a refused review changes nothing. */
  lemma ReviewRefusals(w: World, h: Hash, approve: bool, req: Request)
    ensures var p, (w', error) := StateOf(w), ReviewStep(w, h, approve, req);
            && (error.Some? ==> w' == w)
            && (error == Some(ScopeDenied) <==> AdminScope !in req.scopes && ReviewScope !in req.scopes)
            && (AdminScope in req.scopes || ReviewScope in req.scopes ==>
                  && (error == Some(InvalidProposal) <==> !GivesReason(req.because))
                  && (GivesReason(req.because) ==>
                        && (error == Some(NotFound(h)) <==> h !in p.status)
                        && (h in p.status ==>
                              && (error == Some(LifecycleViolation) <==> p.status[h] != Pending)
                              && (p.status[h] == Pending ==>
                                    (error == Some(SelfApproval) <==> approve && OwnWork(p, h, req.actor))))))
  {
    hide Trim, Record, Penalize, StepRecord;
  }

  /** What a review that goes through leaves: the new status, one audit grain that says who decided and why, and
      everything else of the store as it was. */
  lemma ReviewLeaves(w: World, h: Hash, approve: bool, req: Request)
    requires ReviewStep(w, h, approve, req).1.None?
    ensures var p, w' := StateOf(w), ReviewStep(w, h, approve, req).0;
            var q, head := StateOf(w'), Mint(w.store.nextId);
            && q.status == p.status[h := if approve then Approved else Rejected]
            && q.auditHeads == p.auditHeads[h := head] && q.applied == p.applied
            && w'.store.grains.Keys == w.store.grains.Keys + {head}
            && (forall g | g in w.store.grains && g != head :: w'.store.grains[g] == w.store.grains[g])
            && w'.store.grains[head].fields.audit
               == Some(AuditRecord(h, Some(Pending), if approve then Approved else Rejected, req.actor, req.observer,
                                   Trim(req.because), HeadOf(p, h), req.now))
            && (approve ==> q.cooldowns == p.cooldowns && q.strikes == p.strikes)
  {
    ReviewGoesThroughIff(w, h, approve, req);
    hide Trim, Backoff, Mint, AuditEntries;
  }

  // --- rollbacks ---

  /** In a good world a rollback goes through exactly with the apply or admin scope, a reason and an applied
      recommendation that can be rolled back; a refused one changes nothing. */
  lemma RollbackGoesThroughIff(w: World, h: Hash, req: Request)
    requires Good(w)
    ensures var p, (w', error) := StateOf(w), RollbackStep(w, h, req);
            && (error.None? <==>
                  (AdminScope in req.scopes || ApplyScope in req.scopes) && GivesReason(req.because)
                  && h in p.status && p.status[h] == Applied && h in p.applied && p.applied[h].rollbackable)
            && (error.Some? ==> w' == w)
            && (error == Some(ScopeDenied) <==> AdminScope !in req.scopes && ApplyScope !in req.scopes)
  {
    var p, reason := StateOf(w), "rollback of " + h;
    RollbackCheckedIff(p, h, req);
    hide Trim, Inv, StepRecord, Record, RetractAll, RollbackError, IsRec, RecAt, LoadRec, GivesReason, ValidateBecause;
    if h in p.status {
      KnownRec(w.store, p, h);
      AppliedWhenApplied(w.store, p, h);
    }
    if h in p.applied && h in p.status {
      CreatedStored(w.store, p, h);
      InvIsWf(w);
      RetractAllKeeps(w.store, p.applied[h].created, reason);
    }
  }

  lemma RollbackCheckedIff(p: Persisted, h: Hash, req: Request)
    ensures var error := RollbackError(p, h, req);
            && (error.None? <==>
                  (AdminScope in req.scopes || ApplyScope in req.scopes) && GivesReason(req.because)
                  && h in p.status && p.status[h] == Applied && h in p.applied && p.applied[h].rollbackable)
            && (error == Some(ScopeDenied) <==> AdminScope !in req.scopes && ApplyScope !in req.scopes)
            && (AdminScope in req.scopes || ApplyScope in req.scopes ==>
                  && (error == Some(InvalidProposal) <==> !GivesReason(req.because))
                  && (GivesReason(req.because) && h !in p.status ==> error == Some(NotFound(h)))
                  && (GivesReason(req.because) && h in p.status && p.status[h] != Applied ==>
                        error == Some(LifecycleViolation)))
  {
    hide Trim;
  }

  lemma AppliedWhenApplied(s: Store, p: Persisted, h: Hash)
    requires h in p.status && IsRec(s, h) && AppliedOk(s, p, h)
    ensures p.status[h].Applied? ==> h in p.applied
  {
    hide IsRec, RecAt, Live;
  }

  /** What a rollback that goes through leaves: the new status, the grains of the applied record dead, one live audit
      grain that names who asked, and the liveness of every other grain as it was. */
  lemma RollbackLeaves(w: World, h: Hash, req: Request)
    requires Good(w) && RollbackStep(w, h, req).1.None?
    ensures var p, w', head := StateOf(w), RollbackStep(w, h, req).0, Mint(w.store.nextId);
            var q := StateOf(w');
            && h in p.applied && q == p.(status := p.status[h := RolledBack], auditHeads := p.auditHeads[h := head])
            && LiveSet(w'.store) == LiveSet(w.store) - Members(p.applied[h].created) + {head}
            && w'.store.grains.Keys == w.store.grains.Keys + {head}
            && w'.store.grains[head].fields.audit
               == Some(AuditRecord(h, Some(Applied), RolledBack, req.actor, req.observer, Trim(req.because),
                                   HeadOf(p, h), req.now))
  {
    RollbackGoesThroughIff(w, h, req);
    var p, reason := StateOf(w), "rollback of " + h;
    ReasonIs(req.because);
    InvIsWf(w);
    RetractAllKeeps(w.store, p.applied[h].created, reason);
    var s := RetractAll(w.store, p.applied[h].created, reason).0;
    var a := StepRecord(p, h, RolledBack, req);
    PutKeeps(s, AuditSpec(a));
    AuditSpecHolds(s, a);
    hide Inv, Wf, Extends, LiveSet, RetractAll, ValidateBecause, Trim, Mint, Put, AuditSpec, GivesReason, RollbackError;
    assert RollbackStep(w, h, req).0.store == Put(s, AuditSpec(a)) by { RolledBackStore(w, h, req); }
  }

  lemma RolledBackStore(w: World, h: Hash, req: Request)
    requires RollbackStep(w, h, req).1.None?
    ensures var p := StateOf(w);
            && h in p.status && h in p.applied && ValidateBecause(req.because).Ok?
            && RollbackStep(w, h, req).0.store
               == Put(RetractAll(w.store, p.applied[h].created, "rollback of " + h).0,
                      AuditSpec(StepRecord(p, h, RolledBack, req)))
            && StateOf(RollbackStep(w, h, req).0)
               == Record(RetractAll(w.store, p.applied[h].created, "rollback of " + h).0, p,
                         StepRecord(p, h, RolledBack, req)).1
  {
    hide RetractAll, ValidateBecause, Put, AuditSpec, Mint;
  }

  lemma AuditSpecHolds(s: Store, a: AuditRecord)
    ensures var after, head := Put(s, AuditSpec(a)), Mint(s.nextId);
            head in after.grains && after.grains[head].fields.audit == Some(a)
            && after.grains.Keys == s.grains.Keys + {head}
  {
    hide Mint;
  }

  // --- applies ---

  /** The proposal itself can be carried out: its batch runs through, or the recommendation it reverts rolls back. */
  predicate CarriedOut(e: Engine, w: World, proposal: Proposal, req: Request) {
    match proposal
    case Cal(cal) => ExecAll(w.store, ParseBatch(e.js, cal)).failed.None?
    case Edit(_, _, _) => false
    case Data(data) =>
      "revert_of" in data && data["revert_of"].Str?
      && RollbackStep(w, data["revert_of"].s, req.(because := Trim(req.because))).1.None?
  }

  /** Nothing but the proposal itself is in the way of an apply. */
  predicate MayApply(w: World, h: Hash, allowDestructive: bool, req: Request) {
    var p := StateOf(w);
    && (AdminScope in req.scopes || ApplyScope in req.scopes) && GivesReason(req.because)
    && h in p.status && p.status[h] == Approved
    && h in w.store.grains && w.store.grains[h].fields.rec.Some?
    && (w.store.grains[h].fields.rec.value.destructive ==> AdminScope in req.scopes && allowDestructive)
  }

  /** An apply goes through exactly with the apply or admin scope, a reason, an approved recommendation, for a
      destructive one the admin scope and the caller's leave, and a proposal that can be carried out. */
  lemma ApplyGoesThroughIff(e: Engine, w: World, h: Hash, allowDestructive: bool, req: Request)
    ensures ApplyStep(e, w, h, allowDestructive, req).1.Ok?
            <==> MayApply(w, h, allowDestructive, req)
                 && CarriedOut(e, w, w.store.grains[h].fields.rec.value.proposal, req)
  {
    hide Trim, ExecAll, ParseBatch, RollbackStep, Conclude, AppliedBy;
  }

  /** The refusals of an apply, in the order they are given; a refused apply changes nothing. */
  lemma ApplyRefusals(e: Engine, w: World, h: Hash, allowDestructive: bool, req: Request)
    requires !MayApply(w, h, allowDestructive, req)
    ensures var p, (w', r) := StateOf(w), ApplyStep(e, w, h, allowDestructive, req);
            && w' == w && r.Err?
            && (r.error == ScopeDenied <==> AdminScope !in req.scopes && ApplyScope !in req.scopes)
            && (AdminScope in req.scopes || ApplyScope in req.scopes ==>
                  && (r.error == InvalidProposal <==> !GivesReason(req.because))
                  && (GivesReason(req.because) && h !in p.status ==> r.error == NotFound(h))
                  && (GivesReason(req.because) && h in p.status ==>
                        && (r.error == LifecycleViolation <==> p.status[h] != Approved)
                        && (p.status[h] == Approved && h in w.store.grains && w.store.grains[h].fields.rec.Some? ==>
                              r.error == DestructiveGated)))
  {
    hide Trim, Carry, Conclude, AppliedBy;
  }

  /** An apply that reverts an earlier recommendation leaves that one rolled back and itself applied. */
  lemma RevertRollsBack(e: Engine, w: World, h: Hash, allowDestructive: bool, req: Request, earlier: Hash)
    requires LoadRec(w.store, h).Ok? && LoadRec(w.store, h).value.proposal.Data? && h != earlier
    requires StrField(LoadRec(w.store, h).value.proposal.data, "revert_of") == Some(earlier)
    requires ApplyStep(e, w, h, allowDestructive, req).1.Ok?
    ensures var p, q := StateOf(w), StateOf(ApplyStep(e, w, h, allowDestructive, req).0);
            && earlier in p.status && p.status[earlier] == Applied
            && q.status == p.status[earlier := RolledBack][h := Applied]
            && h in q.applied && q.applied[h].created == []
  {
    hide Trim, RetractAll, Mint, Put, AuditSpec;
  }

  /** What an apply of a batch that goes through records: the new status, the applied record with what the batch
      created, and an audit grain that names who asked. */
  lemma BatchApplyLeaves(e: Engine, w: World, h: Hash, allowDestructive: bool, req: Request, rec: Recommendation)
    requires ApplyStep(e, w, h, allowDestructive, req).1.Ok?
    requires LoadRec(w.store, h) == Ok(rec) && rec.proposal.Cal?
    ensures var p, (w', r) := StateOf(w), ApplyStep(e, w, h, allowDestructive, req);
            var x := ExecAll(w.store, ParseBatch(e.js, rec.proposal.cal));
            var q, head := StateOf(w'), Mint(x.store.nextId);
            && r.value == AppliedRecord(req.now, rec.targetRef, rec.rollbackable, x.created, rec.metric)
            && q == p.(status := p.status[h := Applied], auditHeads := p.auditHeads[h := head],
                       applied := p.applied[h := r.value])
            && w'.store.grains.Keys == x.store.grains.Keys + {head}
            && (forall g | g in x.store.grains && g != head :: w'.store.grains[g] == x.store.grains[g])
            && w'.store.grains[head].fields.audit
               == Some(AuditRecord(h, Some(Approved), Applied, req.actor, req.observer, Trim(req.because),
                                   HeadOf(p, h), req.now))
  {
    ApplyGoesThroughIff(e, w, h, allowDestructive, req);
    ReasonIs(req.because);
    hide Trim, ValidateBecause, GivesReason, ExecAll, ParseBatch, RollbackStep, Mint, AuditEntries;
  }

  // --- preflights ---

  /** The preflight refuses exactly what an apply would refuse whatever the lifecycle says. */
  lemma PreflightPassesIff(s: Store, h: Hash, scopes: set<Scope>, allowDestructive: bool)
    ensures var error := PreflightError(s, h, scopes, allowDestructive);
            && (error == Some(ScopeDenied) <==> AdminScope !in scopes && ApplyScope !in scopes)
            && (error.None? <==>
                  && (AdminScope in scopes || ApplyScope in scopes)
                  && h in s.grains && s.grains[h].fields.rec.Some?
                  && var rec := s.grains[h].fields.rec.value;
                     && (rec.destructive ==> AdminScope in scopes && allowDestructive)
                     && (rec.proposal.Cal?
                         || (rec.proposal.Data?
                             && "revert_of" in rec.proposal.data && rec.proposal.data["revert_of"].Str?)))
            && (error == Some(DestructiveGated) <==>
                  && (AdminScope in scopes || ApplyScope in scopes)
                  && h in s.grains && s.grains[h].fields.rec.Some? && s.grains[h].fields.rec.value.destructive
                  && !(AdminScope in scopes && allowDestructive))
  {
  }
}
