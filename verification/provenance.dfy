/** Every grain the loop adds is accounted for: it is a recommendation, an audit record of one, or listed in an applied
    record, so that a rollback takes back all of what an apply added. */
module Provenance {
  import opened Basics
  import opened LoopModel
  import opened Text
  import opened CalText
  import opened GrainStore
  import opened EngineSpec
  import opened Invariants
  import opened Steps
  import opened Reachable
  import opened Runs
  import opened Guarantees
  import opened Authority
  import opened AutoApplying

  // --- batches ---

  /** A batch that runs through reports every grain it adds. */
  lemma {:induction false} CreatedIsComplete(s: Store, stmts: seq<Stmt>)
    requires Wf(s)
    ensures var x := ExecAll(s, stmts);
            x.failed.None? ==> x.store.grains.Keys == s.grains.Keys + Members(x.created)
  {
    if stmts != [] {
      hide ExecStmt, Wf;
      var rest, last := stmts[..|stmts| - 1], stmts[|stmts| - 1];
      CreatedIsComplete(s, rest);
      var x := ExecAll(s, rest);
      StatementReports(x, last);
    }
  }

  lemma StatementReports(x: Exec, stmt: Stmt)
    ensures var y := ExecStmt(x, stmt);
            y.failed.None? ==> y.store.grains.Keys + Members(x.created) == x.store.grains.Keys + Members(y.created)
  {
    var s := x.store;
    hide Mint, RecordFor, RetractionMarks;
    match stmt
    case Forget(h) =>
    case Retract(h) =>
    case Add(grainType, f) =>
      assert Members(x.created + [Mint(s.nextId)]) == Members(x.created) + {Mint(s.nextId)};
    case Supersede(target, grainType, f) =>
      assert Members(x.created + [Mint(s.nextId)]) == Members(x.created) + {Mint(s.nextId)};
    case Read =>
    case Unsupported =>
  }

  // --- audit grains ---

  function PreviousOf(s: Store, g: Hash): Option<Hash> {
    if g in s.grains && s.grains[g].fields.audit.Some? then s.grains[g].fields.audit.value.previous else None
  }

  /** The latest audit grain of `h`, or the one before it. */
  predicate IsAuditOf(s: Store, p: Persisted, h: Hash, g: Hash) {
    h in p.auditHeads && (g == p.auditHeads[h] || PreviousOf(s, p.auditHeads[h]) == Some(g))
  }

  /** Recording a step stores one grain, the new head, which names the head before it. */
  lemma RecordAdds(s: Store, p: Persisted, a: AuditRecord)
    requires Wf(s)
    ensures var (t, q), head := Record(s, p, a), Mint(s.nextId);
            && Wf(t) && Extends(s, t)
            && t.grains.Keys == s.grains.Keys + {head} && PreviousOf(t, head) == a.previous
            && q == p.(status := p.status[a.recHash := a.to], auditHeads := p.auditHeads[a.recHash := head])
  {
    PutKeeps(s, AuditSpec(a));
    AuditSpecHolds(s, a);
    hide Mint, Put, AuditSpec, Wf, Extends, LiveSet;
  }

  // --- runs ---

  /** `g` came with the recommendation `h`: it is the recommendation itself, one of its two latest audit records, or
      what its batch created. */
  predicate CameWith(s: Store, p: Persisted, h: Hash, g: Hash) {
    g == h || IsAuditOf(s, p, h, g) || (h in p.applied && g in p.applied[h].created)
  }

  ghost predicate Accounted(a: Store, p: Persisted, b: Store, q: Persisted) {
    forall g | g in b.grains && g !in a.grains :: exists h :: NewWith(p, b, q, h, g)
  }

  predicate NewWith(p: Persisted, b: Store, q: Persisted, h: Hash, g: Hash) {
    h in q.status && h !in p.status && CameWith(b, q, h, g)
  }

  /** `y` follows `x` by an act on `h` alone. */
  predicate OnlyAbout(p: Persisted, q: Persisted, h: Hash) {
    && q.status.Keys == p.status.Keys + {h} && h in q.auditHeads
    && q.applied - {h} == p.applied - {h} && q.auditHeads - {h} == p.auditHeads - {h}
  }

  lemma AboutOne(p: Persisted, q: Persisted, h: Hash, status: Status, head: Hash, applied: AppliedRecord)
    requires q.status == p.status[h := status] && q.auditHeads == p.auditHeads[h := head]
    requires q.applied == p.applied || q.applied == p.applied[h := applied]
    ensures OnlyAbout(p, q, h)
  {
  }

  lemma ProposeAdds(s: Store, p: Persisted, rec: Recommendation, trigger: Option<string>, now: int)
    requires Wf(s)
    ensures var (t, q), h := Propose(s, p, rec, trigger, now), Mint(s.nextId);
            Wf(t) && OnlyAbout(p, q, h) && t.grains.Keys == s.grains.Keys + {h, q.auditHeads[h]}
  {
    var s1 := Put(s, RecSpec(rec));
    PutKeeps(s, RecSpec(rec));
    hide RecordFor, Wf, Extends, LiveSet, Mint, OnlyAbout, RecSpec;
    var a := PendingRecord(rec, Mint(s.nextId), now);
    RecordAdds(s1, p, a);
    hide Record, PreviousOf;
    AboutOne(p, Propose(s, p, rec, trigger, now).1, Mint(s.nextId), Pending, Mint(s1.nextId), AppliedBy(rec, [], now));
  }

  lemma CreatedIsListed(rec: Recommendation, created: seq<Hash>, now: int)
    ensures AppliedBy(rec, created, now).created == created
  {
  }

  lemma AutoApplyAdds(e: Engine, x: Progress, h: Hash, rec: Recommendation, now: int)
    requires Wf(x.store) && h in x.state.status && rec.proposal.Cal? && AutoApply(e, x, h, rec, now).failed.None?
    ensures var y := AutoApply(e, x, h, rec, now);
            && OnlyAbout(x.state, y.state, h) && h in y.state.applied
            && y.store.grains.Keys
               == x.store.grains.Keys + Members(y.state.applied[h].created) + {y.state.auditHeads[h]}
            && PreviousOf(y.store, y.state.auditHeads[h]) == HeadOf(x.state, h)
  {
    var stmts := ParseBatch(e.js, rec.proposal.cal);
    CreatedIsComplete(x.store, stmts);
    ExecKeeps(x.store, stmts);
    hide ExecAll, ParseBatch, Wf, Extends, Record, PreviousOf, HeadOf, LiveSet, Mint, OnlyAbout, AppliedBy;
    var run := ExecAll(x.store, stmts);
    RecordAdds(run.store, x.state, AutoRecord(h, HeadOf(x.state, h), now));
    AboutOne(x.state, AutoApply(e, x, h, rec, now).state, h, Applied, Mint(run.store.nextId),
             AppliedBy(rec, run.created, now));
    assert AppliedBy(rec, run.created, now).created == run.created by { CreatedIsListed(rec, run.created, now); }
  }

  /** One survivor stored, and applied when the policy grants it: every grain added came with it. */
  lemma StoreOneAccounts(e: Engine, x: Progress, rec: Recommendation, trigger: Option<string>, now: int)
    requires Wf(x.store) && x.failed.None? && StoreOne(e, x, rec, trigger, now).failed.None?
    ensures var y, h := StoreOne(e, x, rec, trigger, now), Mint(x.store.nextId);
            && OnlyAbout(x.state, y.state, h)
            && forall g | g in y.store.grains && g !in x.store.grains :: CameWith(y.store, y.state, h, g)
  {
    hide CanAutoApply, Wf, Propose, Mint, AutoApply, PreviousOf;
    ProposeAdds(x.store, x.state, rec, trigger, now);
    var (s, p) := Propose(x.store, x.state, rec, trigger, now);
    if CanAutoApply(e, s, rec) {
      assert rec.proposal.Cal? by { GrantedIsCal(e, s, rec); }
      AutoApplyAdds(e, x.(store := s, state := p), Mint(x.store.nextId), rec, now);
    }
  }

  lemma GrantedIsCal(e: Engine, s: Store, rec: Recommendation)
    requires CanAutoApply(e, s, rec)
    ensures rec.proposal.Cal?
  {
    hide StructuralCuration, DeclaredStructural, TargetClass, FamilyOf;
  }

  lemma {:induction false} StoringAccounts(e: Engine, s: Store, p: Persisted, recs: seq<Recommendation>,
                                           trigger: Option<string>, now: int)
    requires Wf(s) && p.status.Keys <= s.grains.Keys
    ensures var x := StoreAll(e, s, p, recs, trigger, now);
            && Wf(x.store) && Extends(s, x.store)
            && (x.failed.None? ==>
                  Accounted(s, p, x.store, x.state) && p.status.Keys <= x.state.status.Keys <= x.store.grains.Keys)
  {
    hide Wf, Extends, StoreOne, Mint, IsRec, RecAt, CameWith;
    if recs == [] {
      ExtendsReflexive(s);
    } else {
      var rest, rec := recs[..|recs| - 1], recs[|recs| - 1];
      StoringAccounts(e, s, p, rest, trigger, now);
      var x := StoreAll(e, s, p, rest, trigger, now);
      var y, h := StoreOne(e, x, rec, trigger, now), Mint(x.store.nextId);
      StoreOneExtends(e, x, rec, trigger, now);
      ExtendsTransitive(s, x.store, y.store);
      if x.failed.None? && y.failed.None? {
        StoreOneAccounts(e, x, rec, trigger, now);
        StillThere(s, x.store);
        StillThere(x.store, y.store);
        assert h in y.store.grains by { RecIsStored(y.store, h); }
        forall g | g in y.store.grains && g !in s.grains ensures exists k :: NewWith(p, y.store, y.state, k, g) {
          if g in x.store.grains {
            var k :| NewWith(p, x.store, x.state, k, g);
            CameWithStays(x, y, h, k, g);
            assert NewWith(p, y.store, y.state, k, g);
          } else {
            assert NewWith(p, y.store, y.state, h, g);
          }
        }
      } else if x.failed.Some? {
        AutoApplying.FailedStays(e, x, rec, trigger, now);
      }
    }
  }

  lemma RecIsStored(s: Store, h: Hash)
    requires IsRec(s, h)
    ensures h in s.grains
  {
  }

  lemma CameWithStays(x: Progress, y: Progress, h: Hash, k: Hash, g: Hash)
    requires Extends(x.store, y.store) && OnlyAbout(x.state, y.state, h) && k != h
    requires CameWith(x.store, x.state, k, g)
    ensures CameWith(y.store, y.state, k, g)
  {
    if k in x.state.auditHeads {
      PreviousStays(x.store, y.store, x.state.auditHeads[k]);
      assert k in x.state.auditHeads - {h};
    }
    hide Extends, PreviousOf;
    if k in x.state.applied { assert k in x.state.applied - {h}; }
    assert k in y.state.applied - {h} <==> k in y.state.applied;
    assert k in y.state.auditHeads - {h} <==> k in y.state.auditHeads;
  }

  lemma PreviousStays(a: Store, b: Store, g: Hash)
    requires Extends(a, b)
    ensures PreviousOf(a, g).Some? ==> PreviousOf(b, g) == PreviousOf(a, g)
  {
  }

  /** Every grain a run adds came with a recommendation it indexes. */
  lemma RunAccounts(e: Engine, w: World, input: RunInput)
    requires Good(w) && RunStep(e, w, input).1.Ok?
    ensures var w' := RunStep(e, w, input).0; Accounted(w.store, StateOf(w), w'.store, StateOf(w'))
  {
    hide Inv, StoreAll, MeasureOutcomes, Survivors, Candidates, Gate, Wf, Extends, CameWith;
    InvIsWf(w);
    var p := MeasureOutcomes(e, w.store, StateOf(w), input.now);
    MeasuringKeepsApplied(e, w.store, StateOf(w), input.now);
    MeasuringKeepsRest(e, w.store, StateOf(w), input.now);
    forall h | h in p.status ensures h in w.store.grains { IndexedIsStored(w, h); }
    StoringAccounts(e, w.store, p, RunSurvivors(e, w, input), input.opts.trigger, input.now);
    var x := StoreAll(e, w.store, p, RunSurvivors(e, w, input), input.opts.trigger, input.now);
    var w' := RunStep(e, w, input).0;
    hide Accounted, RunSurvivors;
    if Gate(input.opts, StateOf(w), input.newGrains, input.newErrors, input.now).Some? {
      assert Accounted(w.store, StateOf(w), w.store, StateOf(w)) by { NothingToAccount(w); }
    } else {
      AccountedByIndex(w.store, p, StateOf(w), x.store, x.state, StateOf(w'));
    }
  }

  lemma NothingToAccount(w: World)
    ensures Accounted(w.store, StateOf(w), w.store, StateOf(w))
  {
  }

  lemma AccountedByIndex(a: Store, p: Persisted, p': Persisted, b: Store, q: Persisted, q': Persisted)
    requires Accounted(a, p, b, q) && p'.status == p.status && q'.status == q.status && q'.applied == q.applied
             && q'.auditHeads == q.auditHeads
    ensures Accounted(a, p', b, q')
  {
    hide PreviousOf;
    forall g | g in b.grains && g !in a.grains ensures exists h :: NewWith(p', b, q', h, g) {
      var h :| NewWith(p, b, q, h, g);
      assert NewWith(p', b, q', h, g);
    }
  }

  lemma MeasuringKeepsApplied(e: Engine, s: Store, p: Persisted, now: int)
    ensures MeasureOutcomes(e, s, p, now).applied == p.applied
  {
  }

  // --- applies ---

  predicate IsHeadOf(p: Persisted, h: Hash, g: Hash) {
    h in p.auditHeads && p.auditHeads[h] == g
  }

  /** Every grain a reviewed apply adds is an audit record of its recommendation, one of the recommendation it reverts,
      or listed in its applied record. */
  lemma ApplyAccounts(e: Engine, w: World, h: Hash, allowDestructive: bool, req: Request)
    requires Good(w) && ApplyStep(e, w, h, allowDestructive, req).1.Ok?
    ensures var (w', r) := ApplyStep(e, w, h, allowDestructive, req);
            && h in StateOf(w').applied && StateOf(w').applied[h] == r.value
            && forall g | g in w'.store.grains && g !in w.store.grains ::
                 g in r.value.created || exists k :: k in StateOf(w).status && IsHeadOf(StateOf(w'), k, g)
  {
    InvIsWf(w);
    hide Inv, Wf, ValidateBecause, Carry, ApplyStep, Conclude, LoadRec, AppliedBy;
    var rec, because, u, created := ApplyIs(e, w, h, allowDestructive, req);
    CarryAccounts(e, w, rec.proposal, req.(because := because));
    ConcludeAccounts(u, h, StateOf(w).status[h], rec, created, because, req);
    hide IsHeadOf;
    var w' := ApplyStep(e, w, h, allowDestructive, req).0;
    forall g | g in w'.store.grains && g !in w.store.grains
      ensures g in created || exists k :: k in StateOf(w).status && IsHeadOf(StateOf(w'), k, g)
    {
      if g !in u.store.grains {
        assert IsHeadOf(StateOf(w'), h, g);
      } else if g !in created {
        var k :| k in StateOf(w).status && StateOf(w).status[k].Applied? && IsHeadOf(StateOf(u), k, g);
        OtherHeadsStay(StateOf(u), StateOf(w'), h, k, g);
      }
    }
  }

  lemma OtherHeadsStay(p: Persisted, q: Persisted, h: Hash, k: Hash, g: Hash)
    requires q.auditHeads - {h} == p.auditHeads - {h} && k != h && IsHeadOf(p, k, g)
    ensures IsHeadOf(q, k, g)
  {
    assert k in p.auditHeads - {h};
  }

  lemma ApplyIs(e: Engine, w: World, h: Hash, allowDestructive: bool, req: Request)
    returns (rec: Recommendation, because: string, u: World, created: seq<Hash>)
    requires ApplyStep(e, w, h, allowDestructive, req).1.Ok?
    ensures h in StateOf(w).status && StateOf(w).status[h].Approved?
    ensures Carry(e, w, rec.proposal, req.(because := because)) == (u, Ok(created))
    ensures ApplyStep(e, w, h, allowDestructive, req)
            == (Conclude(u, h, StateOf(w).status[h], rec, created, because, req), Ok(AppliedBy(rec, created, req.now)))
    ensures AppliedBy(rec, created, req.now).created == created
  {
    rec, because := LoadRec(w.store, h).value, ValidateBecause(req.because).value;
    hide ValidateBecause, LoadRec, Carry, Conclude;
    u, created := Carry(e, w, rec.proposal, req.(because := because)).0,
    Carry(e, w, rec.proposal, req.(because := because)).1.value;
  }

  /** Recording an apply adds one audit record. */
  lemma ConcludeAccounts(u: World, h: Hash, from: Status, rec: Recommendation, created: seq<Hash>, because: string,
                         req: Request)
    requires Wf(u.store)
    ensures var w' := Conclude(u, h, from, rec, created, because, req);
            && h in StateOf(w').applied && StateOf(w').applied[h] == AppliedBy(rec, created, req.now)
            && StateOf(w').auditHeads - {h} == StateOf(u).auditHeads - {h} && h in StateOf(w').auditHeads
            && w'.store.grains.Keys == u.store.grains.Keys + {StateOf(w').auditHeads[h]}
  {
    hide Wf, Record, Extends, AppliedBy, PreviousOf, HeadOf, Mint;
    var a := AuditRecord(h, Some(from), Applied, req.actor, req.observer, because, HeadOf(StateOf(u), h), req.now);
    RecordAdds(u.store, StateOf(u), a);
  }

  lemma CarryAccounts(e: Engine, w: World, proposal: Proposal, req: Request)
    requires Wf(w.store) && Carry(e, w, proposal, req).1.Ok?
    ensures var (u, r) := Carry(e, w, proposal, req);
            && Wf(u.store)
            && forall g | g in u.store.grains && g !in w.store.grains ::
                 g in r.value
                 || exists k :: k in StateOf(w).status && StateOf(w).status[k].Applied? && IsHeadOf(StateOf(u), k, g)
  {
    hide Wf, RollbackStep, ExecAll, ParseBatch;
    match proposal
    case Cal(cal) =>
      CreatedIsComplete(w.store, ParseBatch(e.js, cal));
      ExecKeeps(w.store, ParseBatch(e.js, cal));
    case Edit(_, _, _) =>
    case Data(data) =>
      RollbackAccounts(w, StrField(data, "revert_of").value, req);
  }

  /** A rollback adds its audit record and nothing else. */
  lemma RollbackAccounts(w: World, h: Hash, req: Request)
    requires Wf(w.store) && RollbackStep(w, h, req).1.None?
    ensures var u := RollbackStep(w, h, req).0;
            && Wf(u.store) && h in StateOf(w).status && StateOf(w).status[h].Applied?
            && forall g | g in u.store.grains && g !in w.store.grains :: IsHeadOf(StateOf(u), h, g)
  {
    var p := StateOf(w);
    hide Wf, RetractAll, ValidateBecause, Record, Extends, PreviousOf, HeadOf, Mint, LiveSet;
    var because := ValidateBecause(req.because).value;
    RetractAllKeeps(w.store, p.applied[h].created, "rollback of " + h);
    var s := RetractAll(w.store, p.applied[h].created, "rollback of " + h).0;
    RecordAdds(s, p, StepRecord(p, h, RolledBack, req));
  }

  // --- what a rollback takes back ---

  /** After a reviewed apply, once its recommendation is rolled back, at whatever later moment, every grain the apply
      added is dead, audit records aside. */
  lemma RollbackTakesAllBack(w: World, acts: seq<Act>, e: Engine, h: Hash, allowDestructive: bool, req: Request,
                             more: seq<Act>, g: Hash)
    requires Initial(w) && ApplyStep(e, After(w, acts), h, allowDestructive, req).1.Ok?
    requires var u, v := After(w, acts), ApplyStep(e, After(w, acts), h, allowDestructive, req).0;
             && g in v.store.grains && g !in u.store.grains
             && h in StateOf(After(v, more)).status && StateOf(After(v, more)).status[h].RolledBack?
    ensures var v := ApplyStep(e, After(w, acts), h, allowDestructive, req).0;
            (exists k :: k in StateOf(After(w, acts)).status && IsHeadOf(StateOf(v), k, g))
            || (g in After(v, more).store.grains && !Live(After(v, more).store.grains[g]))
  {
    var u, v := After(w, acts), ApplyStep(e, After(w, acts), h, allowDestructive, req).0;
    ReachableIsGood(w, acts);
    ApplyAccounts(e, u, h, allowDestructive, req);
    ApplyKeeps(e, u, h, allowDestructive, req);
    hide After, Initial, ApplyStep;
    if g in StateOf(v).applied[h].created { CreatedIsDeadAfter(v, more, h, g); }
  }

  lemma CreatedIsDeadAfter(v: World, more: seq<Act>, h: Hash, c: Hash)
    requires Good(v) && h in StateOf(v).status && h in StateOf(v).applied && c in StateOf(v).applied[h].created
    requires h in StateOf(After(v, more)).status && StateOf(After(v, more)).status[h].RolledBack?
    ensures c in After(v, more).store.grains && !Live(After(v, more).store.grains[c])
  {
    hide After, Extends, Inv, Kept, IsRec, RecAt, Live;
    FollowedFrom(v, more);
    var z := After(v, more);
    assert Kept(v.store, StateOf(v), z.store, StateOf(z), h);
    KeptApplied(v.store, StateOf(v), z.store, StateOf(z), h);
    KnownRec(z.store, StateOf(z), h);
  }

  lemma FollowedFrom(v: World, more: seq<Act>)
    requires Good(v)
    ensures Good(After(v, more)) && Follows(v, After(v, more))
  {
    hide Inv, Follows;
    assert [] + more == more && After(v, []) == v;
    GoodStaysGood(v, more);
    LaterFollows(v, [], more);
  }

  lemma KeptApplied(s: Store, p: Persisted, s': Store, p': Persisted, h: Hash)
    requires Kept(s, p, s', p', h) && h in p.applied
    ensures h in p'.applied && p'.applied[h] == p.applied[h]
  {
    hide TrailGrows;
  }

  /** The same after a run: every grain it added is a recommendation it indexed, an audit record of one, or dead in any
      later world in which the recommendation it came with is rolled back. */
  lemma RunIsTakenBack(w: World, acts: seq<Act>, e: Engine, input: RunInput, more: seq<Act>, g: Hash) returns (h: Hash)
    requires Initial(w) && RunStep(e, After(w, acts), input).1.Ok?
    requires var u, v := After(w, acts), RunStep(e, After(w, acts), input).0;
             g in v.store.grains && g !in u.store.grains
    ensures var u, v := After(w, acts), RunStep(e, After(w, acts), input).0;
            && h in StateOf(v).status && h !in StateOf(u).status
            && (g == h || IsAuditOf(v.store, StateOf(v), h, g)
                || (h in StateOf(After(v, more)).status && StateOf(After(v, more)).status[h].RolledBack? ==>
                      g in After(v, more).store.grains && !Live(After(v, more).store.grains[g])))
  {
    var u, v := After(w, acts), RunStep(e, After(w, acts), input).0;
    ReachableIsGood(w, acts);
    RunAccounts(e, u, input);
    RunKeeps(e, u, input);
    hide After, Initial, RunStep, IsAuditOf, Good;
    h :| NewWith(StateOf(u), v.store, StateOf(v), h, g);
    if g != h && !IsAuditOf(v.store, StateOf(v), h, g)
       && h in StateOf(After(v, more)).status && StateOf(After(v, more)).status[h].RolledBack? {
      CreatedIsDeadAfter(v, more, h, g);
    }
  }
}
