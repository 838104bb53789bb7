/** Every operation, successful or not, keeps the invariant and the past. */
module Reachable {
  import opened Basics
  import opened LoopModel
  import opened CalText
  import opened GrainStore
  import opened EngineSpec
  import opened Invariants
  import opened Steps

  ghost predicate Good(w: World) {
    Inv(w.store, StateOf(w))
  }

  ghost predicate Follows(w: World, w': World) {
    Continues(w.store, StateOf(w), w'.store, StateOf(w'))
  }

  lemma InvIsWf(w: World)
    requires Good(w)
    ensures Wf(w.store)
  {
  }

  /** Only the store moved. */
  lemma StoreMoves(w: World, s: Store)
    requires Good(w) && Wf(s) && Extends(w.store, s)
    ensures Good(w.(store := s)) && Follows(w, w.(store := s))
  {
    InvExtends(w.store, s, StateOf(w));
  }

  lemma KnownRec(s: Store, p: Persisted, h: Hash)
    requires Inv(s, p) && h in p.status
    ensures IsRec(s, h) && AppliedOk(s, p, h) && h in p.auditHeads && h in p.creators
    ensures LoadRec(s, h) == Ok(RecAt(s, h))
  {
    hide Wf, OneOpenPerKey, ScheduleOk;
    assert RecOk(s, p, h);
  }

  // --- review ---

  lemma PenaltyRestsOneKey(s: Store, p: Persisted, h: Hash, now: int)
    requires IsRec(s, h)
    ensures var q := Penalize(s, p, h, now);
            var key := RecAt(s, h).dedupKey;
            && q == p.(strikes := q.strikes, cooldowns := p.cooldowns[key := now + Backoff(StrikesOf(p, key))])
            && q.strikes == p.strikes[key := Min(StrikesOf(p, key) + 1, U32_MAX)]
  {
  }

  /** A step that may be recorded: legal, independent, reasoned and naming the head before it. */
  ghost predicate Recordable(s: Store, p: Persisted, a: AuditRecord) {
    var h := a.recHash;
    && h in p.status && h in p.auditHeads && h in p.creators && IsRec(s, h)
    && a.previous == Some(p.auditHeads[h])
    && LegalMove(p.status[h], a, RecAt(s, h)) && Independent(a, p.creators[h], CoCreator(p, h)) && Reasoned(a)
  }

  lemma RecordMoves(s: Store, p: Persisted, a: AuditRecord)
    requires Recordable(s, p, a) && !a.to.Applied?
    ensures var (s', q) := Record(s, p, a);
            && Moves(s, p, q, a) && s' == Put(s, AuditSpec(a))
            && q == p.(status := p.status[a.recHash := a.to], auditHeads := q.auditHeads)
  {
    hide IsRec, RecAt, LegalMove, Independent, Reasoned, CoCreator, Put, AuditSpec, Mint;
  }

  lemma RecordApplies(s: Store, p: Persisted, a: AuditRecord, r: AppliedRecord)
    requires Recordable(s, p, a) && a.recHash !in p.applied && r.appliedAt == a.at
    ensures var (s', q0) := Record(s, p, a);
            var q := q0.(applied := q0.applied[a.recHash := r]);
            && Moves(s, p, q, a) && s' == Put(s, AuditSpec(a))
            && q == p.(status := p.status[a.recHash := a.to], auditHeads := q.auditHeads,
                       applied := p.applied[a.recHash := r])
  {
    hide IsRec, RecAt, LegalMove, Independent, Reasoned, CoCreator, Put, AuditSpec, Mint;
    assert p.applied[a.recHash := r] - {a.recHash} == p.applied - {a.recHash};
  }

  lemma MovesAndRests(s: Store, p: Persisted, q: Persisted, a: AuditRecord, strikes: map<string, nat>, until: int)
    requires Moves(s, p, q, a) && a.to.Rejected? && q.cooldowns == p.cooldowns
    ensures Moves(s, p, q.(strikes := strikes, cooldowns := q.cooldowns[RecAt(s, a.recHash).dedupKey := until]), a)
  {
    hide IsRec, RecAt, LegalMove, Independent, CoCreator, Mint;
  }

  lemma StepRecordIs(s: Store, p: Persisted, h: Hash, to: Status, req: Request)
    requires h in p.status && h in p.auditHeads && ValidateBecause(req.because).Ok?
    ensures var a := StepRecord(p, h, to, req);
            && a.recHash == h && a.to == to && a.from == Some(p.status[h]) && a.previous == Some(p.auditHeads[h])
            && a.actor == req.actor && Reasoned(a)
  {
  }

  lemma ReviewAllowed(p: Persisted, h: Hash, to: Status, req: Request)
    requires ReviewError(p, h, to, req).None? && (to.Approved? || to.Rejected?)
    ensures h in p.status && p.status[h].Pending? && ValidateBecause(req.because).Ok?
    ensures h in p.creators && h in p.auditHeads
            ==> Independent(StepRecord(p, h, to, req), p.creators[h], CoCreator(p, h))
  {
    hide ValidateBecause;
  }

  /** A pending or approved recommendation has no applied record, before and after a decision. */
  lemma StillNotApplied(s: Store, p: Persisted, q: Persisted, h: Hash)
    requires h in p.status && IsRec(s, h) && AppliedOk(s, p, h) && p.status[h].Pending?
    requires h in q.status && (q.status[h].Approved? || q.status[h].Rejected?) && q.applied == p.applied
    ensures AppliedOk(s, q, h)
  {
  }

  lemma ReviewMoves(s: Store, p: Persisted, h: Hash, approve: bool, req: Request)
    requires Inv(s, p)
    requires ReviewError(p, h, if approve then Approved else Rejected, req).None?
    ensures var a := StepRecord(p, h, if approve then Approved else Rejected, req);
            var (s', q0) := Record(s, p, a);
            var q := if approve then q0 else Penalize(s', q0, h, req.now);
            Moves(s, p, q, a) && AppliedOk(s, q, h) && s' == Put(s, AuditSpec(a))
  {
    var to := if approve then Approved else Rejected;
    hide Wf, OneOpenPerKey, ScheduleOk, RecOk, IsRec, RecAt, Mint, AuditSpec, Put, Backoff, Moves, Penalize,
         ReviewError, AppliedOk, ValidateBecause, StepRecord, Independent, Reasoned, CoCreator;
    ReviewAllowed(p, h, to, req);
    KnownRec(s, p, h);
    StepRecordIs(s, p, h, to, req);
    var a := StepRecord(p, h, to, req);
    RecordMoves(s, p, a);
    var (s', q0) := Record(s, p, a);
    hide Record;
    RecExtendsByPut(s, AuditSpec(a), h);
    if approve {
      StillNotApplied(s, p, q0, h);
    } else {
      PenaltyRestsOneKey(s', q0, h, req.now);
      var q := Penalize(s', q0, h, req.now);
      MovesAndRests(s, p, q0, a, q.strikes, req.now + Backoff(StrikesOf(q0, RecAt(s, h).dedupKey)));
      StillNotApplied(s, p, q, h);
    }
  }

  lemma RecExtendsByPut(s: Store, spec: GrainSpec, h: Hash)
    requires Wf(s) && IsRec(s, h)
    ensures IsRec(Put(s, spec), h) && RecAt(Put(s, spec), h) == RecAt(s, h)
  {
    PutKeeps(s, spec);
    RecExtends(s, Put(s, spec), h);
  }

  lemma ReviewKeeps(w: World, h: Hash, approve: bool, req: Request)
    requires Good(w)
    ensures var w' := ReviewStep(w, h, approve, req).0; Good(w') && Follows(w, w')
  {
    var p, to := StateOf(w), if approve then Approved else Rejected;
    hide Inv, Continues, Moves, AppliedOk, Penalize, Record, ReviewError, StepRecord, IsRec, ValidateBecause;
    if ReviewError(p, h, to, req).Some? {
      SameWorld(w);
    } else {
      assert h in p.status && ValidateBecause(req.because).Ok? by { ReviewErrorFree(p, h, to, req); }
      ReviewMoves(w.store, p, h, approve, req);
      var a := StepRecord(p, h, to, req);
      var (s', q0) := Record(w.store, p, a);
      var q := if approve then q0 else Penalize(s', q0, h, req.now);
      assert a.recHash == h by { RecordOfStep(p, h, to, req); }
      StepKeeps(w.store, p, q, a);
    }
  }

  lemma ReviewErrorFree(p: Persisted, h: Hash, to: Status, req: Request)
    requires ReviewError(p, h, to, req).None?
    ensures h in p.status && ValidateBecause(req.because).Ok?
  {
  }

  lemma RecordOfStep(p: Persisted, h: Hash, to: Status, req: Request)
    requires h in p.status && ValidateBecause(req.because).Ok?
    ensures StepRecord(p, h, to, req).recHash == h
  {
  }

  lemma SameWorld(w: World)
    requires Good(w)
    ensures Follows(w, w)
  {
    ExtendsReflexive(w.store);
    StoreMoves(w, w.store);
    assert w.(store := w.store) == w;
  }

  // --- rollback ---

  lemma {:induction false} RetractAllKeeps(s: Store, hs: seq<Hash>, reason: string)
    requires Wf(s)
    ensures var (s', failed) := RetractAll(s, hs, reason);
            && Wf(s') && Extends(s, s') && s'.grains.Keys == s.grains.Keys && s'.nextId == s.nextId
            && (failed.None? <==> forall h | h in hs :: h in s.grains)
            && (failed.None? ==> LiveSet(s') == LiveSet(s) - Members(hs))
  {
    if hs == [] {
      ExtendsReflexive(s);
    } else {
      var rest, last := hs[..|hs| - 1], hs[|hs| - 1];
      assert hs == rest + [last];
      RetractAllKeeps(s, rest, reason);
      var (before, failed) := RetractAll(s, rest, reason);
      hide Wf, Extends, LiveSet;
      if failed.None? {
        RetractKeeps(before, last, reason);
        ExtendsTransitive(s, before, RetractOp(before, last, reason).0);
        hide RetractOp;
      }
    }
  }

  lemma NotLive(s: Store, hs: seq<Hash>, live: set<Hash>)
    requires LiveSet(s) == live - Members(hs) && forall h | h in hs :: h in s.grains
    ensures forall h | h in hs :: !Live(s.grains[h])
  {
    forall h | h in hs ensures !Live(s.grains[h]) {
      assert h in Members(hs) && h !in LiveSet(s);
    }
  }

  lemma NowRolledBack(s: Store, p: Persisted, q: Persisted, h: Hash)
    requires h in p.status && IsRec(s, h) && AppliedOk(s, p, h) && h in p.applied
    requires h in q.status && q.status[h].RolledBack? && q.applied == p.applied
    requires forall c | c in p.applied[h].created :: c in s.grains && !Live(s.grains[c])
    ensures AppliedOk(s, q, h)
  {
  }

  lemma RollbackMoves(s: Store, p: Persisted, h: Hash, req: Request)
    requires Inv(s, p) && RollbackError(p, h, req).None?
    requires forall c | c in p.applied[h].created :: c in s.grains && !Live(s.grains[c])
    ensures var a := StepRecord(p, h, RolledBack, req);
            var (s', q) := Record(s, p, a);
            Moves(s, p, q, a) && AppliedOk(s, q, h) && s' == Put(s, AuditSpec(a)) && a.recHash == h
            && q.status == p.status[h := RolledBack]
  {
    hide Wf, OneOpenPerKey, ScheduleOk, RecOk, IsRec, RecAt, Mint, AuditSpec, Put, Moves, RollbackError, AppliedOk,
         ValidateBecause, StepRecord, CoCreator;
    RollbackAllowed(p, h, req);
    KnownRec(s, p, h);
    StepRecordIs(s, p, h, RolledBack, req);
    RecordMoves(s, p, StepRecord(p, h, RolledBack, req));
    NowRolledBack(s, p, Record(s, p, StepRecord(p, h, RolledBack, req)).1, h);
  }

  lemma RollbackKeeps(w: World, h: Hash, req: Request)
    requires Good(w)
    ensures var (w', error) := RollbackStep(w, h, req);
            && Good(w') && Follows(w, w')
            && (error.None? ==> h in StateOf(w).status && StateOf(w).status[h].Applied?
                                && StateOf(w').status == StateOf(w).status[h := RolledBack])
  {
    var p := StateOf(w);
    hide Inv, Continues, Moves, AppliedOk, RollbackError, StepRecord, IsRec, ValidateBecause, Extends, Wf, AuditSpec,
         Record, RetractAll, LiveSet;
    if RollbackError(p, h, req).Some? {
      SameWorld(w);
    } else {
      RollbackAllowed(p, h, req);
      var created, reason := p.applied[h].created, "rollback of " + h;
      RetractionKeeps(w, h, reason);
      var s := RetractAll(w.store, created, reason).0;
      RollbackMoves(s, p, h, req);
      var a := StepRecord(p, h, RolledBack, req);
      var (s', q) := Record(s, p, a);
      StepKeeps(s, p, q, a);
      ContinuesTransitive(w.store, p, s, p, s', q);
    }
  }

  /** Retracting what a recommendation created always succeeds, and leaves none of it live. */
  lemma RetractionKeeps(w: World, h: Hash, reason: string)
    requires Good(w) && h in StateOf(w).status && h in StateOf(w).applied
    ensures var created := StateOf(w).applied[h].created;
            var (s, failed) := RetractAll(w.store, created, reason);
            && failed.None? && Good(w.(store := s)) && Follows(w, w.(store := s))
            && forall c | c in created :: c in s.grains && !Live(s.grains[c])
  {
    var created := StateOf(w).applied[h].created;
    KnownRec(w.store, StateOf(w), h);
    CreatedStored(w.store, StateOf(w), h);
    InvIsWf(w);
    hide Inv, Continues, Extends, Wf;
    RetractAllKeeps(w.store, created, reason);
    var s := RetractAll(w.store, created, reason).0;
    StoreMoves(w, s);
    NotLive(s, created, LiveSet(w.store));
  }

  lemma RollbackAllowed(p: Persisted, h: Hash, req: Request)
    requires RollbackError(p, h, req).None?
    ensures h in p.status && h in p.applied && p.status[h].Applied? && ValidateBecause(req.because).Ok?
  {
  }

  lemma CreatedStored(s: Store, p: Persisted, h: Hash)
    requires h in p.status && IsRec(s, h) && AppliedOk(s, p, h) && h in p.applied
    ensures forall c | c in p.applied[h].created :: c in s.grains
  {
  }

  // --- apply ---

  lemma ApplyAllowed(s: Store, p: Persisted, h: Hash, allowDestructive: bool, req: Request)
    requires ApplyError(s, p, h, allowDestructive, req).None?
    ensures h in p.status && p.status[h].Approved? && ValidateBecause(req.because).Ok? && LoadRec(s, h).Ok?
    ensures var because := ValidateBecause(req.because).value; because != "" && |because| <= MAX_BECAUSE
  {
  }

  /** Carrying out a proposal, whatever becomes of it, keeps the world good and leaves an approved
      recommendation approved. */
  lemma CarryKeeps(e: Engine, w: World, proposal: Proposal, req: Request, h: Hash)
    requires Good(w) && h in StateOf(w).status && StateOf(w).status[h].Approved?
    ensures var (w', carried) := Carry(e, w, proposal, req);
            && Good(w') && Follows(w, w') && h in StateOf(w').status && StateOf(w').status[h].Approved?
            && (carried.Ok? ==> forall c | c in carried.value :: c in w'.store.grains)
  {
    hide Inv, Continues, RollbackStep, ExecAll, ParseBatch, Wf, Extends;
    InvIsWf(w);
    match proposal
    case Cal(cal) =>
      ExecKeeps(w.store, ParseBatch(e.js, cal));
      StoreMoves(w, ExecAll(w.store, ParseBatch(e.js, cal)).store);
      assert World(ExecAll(w.store, ParseBatch(e.js, cal)).store, w.state)
             == w.(store := ExecAll(w.store, ParseBatch(e.js, cal)).store);
    case Edit(_, _, _) => SameWorld(w);
    case Data(data) =>
      SameWorld(w);
      if StrField(data, "revert_of").Some? {
        var earlier := StrField(data, "revert_of").value;
        RollbackKeeps(w, earlier, req);
        RollbackFailureKeepsState(w, earlier, req);
        var (w', error) := RollbackStep(w, earlier, req);
        assert Carry(e, w, proposal, req).0 == w';
        if error.None? { assert earlier != h; }
      }
  }

  lemma RollbackFailureKeepsState(w: World, h: Hash, req: Request)
    ensures var (w', error) := RollbackStep(w, h, req); error.Some? ==> w'.state == w.state
  {
    hide RollbackError, RetractAll, Record, StepRecord;
  }

  lemma NowApplied(s: Store, p: Persisted, q: Persisted, h: Hash, created: seq<Hash>, now: int)
    requires h in q.status && q.status[h].Applied? && IsRec(s, h)
    requires q.applied == p.applied[h := AppliedBy(RecAt(s, h), created, now)]
    requires forall c | c in created :: c in s.grains
    ensures AppliedOk(s, q, h)
  {
  }

  /** Recording that a not yet applied recommendation is applied. */
  lemma AppliedKeeps(s: Store, p: Persisted, a: AuditRecord, created: seq<Hash>, now: int)
    requires Inv(s, p) && a.recHash in p.status && a.to.Applied? && a.previous == HeadOf(p, a.recHash)
    requires Reasoned(a) && a.at == now
    requires (p.status[a.recHash].Approved? && a.from == Some(Approved))
             || (p.status[a.recHash].Pending? && IsRec(s, a.recHash) && DirectByPolicy(a, RecAt(s, a.recHash)))
    requires forall c | c in created :: c in s.grains
    ensures IsRec(s, a.recHash)
    ensures var (s', q) := Record(s, p, a);
            var q' := q.(applied := q.applied[a.recHash := AppliedBy(RecAt(s, a.recHash), created, now)]);
            Inv(s', q') && Continues(s, p, s', q') && q'.cooldowns == p.cooldowns
              && q'.status == p.status[a.recHash := Applied]
  {
    var h := a.recHash;
    hide Inv, Continues, IsRec, RecAt, Moves, AppliedOk, CoCreator, Put, AuditSpec, AppliedBy, LegalMove, Independent,
         Reasoned, DirectByPolicy, Record;
    KnownRec(s, p, h);
    MayBeApplied(s, p, a);
    var r := AppliedBy(RecAt(s, h), created, now);
    assert r.appliedAt == now by { AppliedAtNow(RecAt(s, h), created, now); }
    RecordApplies(s, p, a, r);
    var (s', q0) := Record(s, p, a);
    var q := q0.(applied := q0.applied[h := r]);
    NowApplied(s, p, q, h, created, now);
    StepKeeps(s, p, q, a);
  }

  lemma AppliedAtNow(rec: Recommendation, created: seq<Hash>, now: int)
    ensures AppliedBy(rec, created, now).appliedAt == now
  {
  }

  lemma MayBeApplied(s: Store, p: Persisted, a: AuditRecord)
    requires a.recHash in p.status && IsRec(s, a.recHash) && AppliedOk(s, p, a.recHash) && a.to.Applied?
    requires (p.status[a.recHash].Approved? && a.from == Some(Approved))
             || (p.status[a.recHash].Pending? && DirectByPolicy(a, RecAt(s, a.recHash)))
    ensures a.recHash !in p.applied
    ensures LegalMove(p.status[a.recHash], a, RecAt(s, a.recHash))
    ensures forall creator, co :: Independent(a, creator, co)
  {
  }

  lemma ApplyKeeps(e: Engine, w: World, h: Hash, allowDestructive: bool, req: Request)
    requires Good(w)
    ensures var w' := ApplyStep(e, w, h, allowDestructive, req).0; Good(w') && Follows(w, w')
  {
    var p := StateOf(w);
    hide Inv, Continues, ApplyError, Carry, Record, ValidateBecause, IsRec, RecAt, AppliedBy;
    if ApplyError(w.store, p, h, allowDestructive, req).Some? {
      SameWorld(w);
    } else {
      ApplyAllowed(w.store, p, h, allowDestructive, req);
      KnownRec(w.store, p, h);
      var rec, because := LoadRec(w.store, h).value, ValidateBecause(req.because).value;
      var inner := req.(because := because);
      CarryKeeps(e, w, rec.proposal, inner, h);
      var (after, carried) := Carry(e, w, rec.proposal, inner);
      if carried.Ok? {
        SameRecAfter(w, after, h);
        var a := AuditRecord(h, Some(Approved), Applied, req.actor, req.observer, because, HeadOf(StateOf(after), h),
                             req.now);
        AppliedKeeps(after.store, StateOf(after), a, carried.value, req.now);
        var (s, q1) := Record(after.store, StateOf(after), a);
        ContinuesTransitive(w.store, p, after.store, StateOf(after), s,
                            q1.(applied := q1.applied[h := AppliedBy(rec, carried.value, req.now)]));
      }
    }
  }

  lemma SameRecAfter(w: World, w': World, h: Hash)
    requires Good(w) && Good(w') && Follows(w, w') && h in StateOf(w).status
    ensures h in StateOf(w').status && IsRec(w.store, h) && IsRec(w'.store, h)
            && RecAt(w'.store, h) == RecAt(w.store, h)
  {
    KnownRec(w.store, StateOf(w), h);
    hide Inv;
    assert Kept(w.store, StateOf(w), w'.store, StateOf(w'), h);
    RecExtends(w.store, w'.store, h);
  }
}
