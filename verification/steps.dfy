/** The four ways an operation changes a world, each shown to keep the invariant: proposing, moving along the
    lifecycle, measuring, and the store alone (`Invariants.InvExtends`). */
module Steps {
  import opened Basics
  import opened LoopModel
  import opened GrainStore
  import opened EngineSpec
  import opened Invariants

  // --- one lifecycle step ---

  /** `q` is `p` after the audited step `a`, which may also add the applied record of its recommendation
      and, on a rejection, rest its key. */
  ghost predicate Moves(s: Store, p: Persisted, q: Persisted, a: AuditRecord) {
    var h := a.recHash;
    && h in p.status && h in p.auditHeads && h in p.creators && IsRec(s, h)
    && a.previous == Some(p.auditHeads[h])
    && LegalMove(p.status[h], a, RecAt(s, h)) && Independent(a, p.creators[h], CoCreator(p, h)) && Reasoned(a)
    && q.status == p.status[h := a.to] && q.auditHeads == p.auditHeads[h := Mint(s.nextId)]
    && q.creators == p.creators && q.coCreators == p.coCreators
    && q.measured == p.measured && q.outcomes == p.outcomes
    && q.applied - {h} == p.applied - {h} && (h in p.applied ==> h in q.applied && q.applied[h] == p.applied[h])
    && q.applied.Keys <= p.applied.Keys + {h}
    && (a.to.Applied? ==> h in q.applied && q.applied[h].appliedAt == a.at)
    && RestsOnly(p, q, RecAt(s, h).dedupKey) && (q.cooldowns == p.cooldowns || a.to.Rejected?)
  }

  /** At most the cooldown of `key` is different. */
  predicate RestsOnly(p: Persisted, q: Persisted, key: string) {
    forall k | k in q.cooldowns && k != key :: k in p.cooldowns && q.cooldowns[k] == p.cooldowns[k]
  }

  lemma LinkedContinues(s: Store, a: AuditRecord, t: seq<AuditRecord>)
    requires Wf(s) && a.previous.Some? && Linked(s, a.previous.value, t)
    ensures Linked(Put(s, AuditSpec(a)), Mint(s.nextId), t + [a])
  {
    var s', u := Put(s, AuditSpec(a)), t + [a];
    PutKeeps(s, AuditSpec(a));
    LinkedExtends(s, s', a.previous.value, t);
    assert s'.grains[Mint(s.nextId)].fields.audit == Some(a);
    assert u[..|u| - 1] == t;
    hide Wf, Extends, Mint, Put;
  }

  lemma TimedContinues(p: Persisted, q: Persisted, h: Hash, a: AuditRecord, t: seq<AuditRecord>)
    requires TimedOk(p, h, t) && (h in p.applied ==> h in q.applied && q.applied[h] == p.applied[h])
    requires a.to.Applied? ==> h in q.applied && q.applied[h].appliedAt == a.at
    ensures TimedOk(q, h, t + [a])
  {
  }

  /** A trail continued by the record of a legal step. */
  lemma TrailContinues(s: Store, p: Persisted, q: Persisted, a: AuditRecord, t: seq<AuditRecord>)
    requires Wf(s) && Moves(s, p, q, a) && Trail(s, p, a.recHash, t)
    ensures Trail(Put(s, AuditSpec(a)), q, a.recHash, t + [a])
  {
    var s', h, u := Put(s, AuditSpec(a)), a.recHash, t + [a];
    assert CoCreator(q, h) == CoCreator(p, h);
    hide Wf, Extends, IsRec, RecAt, Mint, CoCreator, Linked, LegalTrail, TimedOk, LegalMove, Independent, Reasoned,
         RestsOnly;
    PutKeeps(s, AuditSpec(a));
    RecExtends(s, s', h);
    LinkedContinues(s, a, t);
    hide Put;
    LegalTrailContinues(t, a, RecAt(s, h), p.creators[h], CoCreator(p, h));
    TimedContinues(p, q, h, a, t);
  }

  lemma LegalTrailContinues(t: seq<AuditRecord>, a: AuditRecord, rec: Recommendation, creator: string,
                            co: Option<string>)
    requires LegalTrail(t, a.recHash, rec, creator, co) && t != []
    requires LegalMove(t[|t| - 1].to, a, rec) && Independent(a, creator, co) && Reasoned(a)
    ensures LegalTrail(t + [a], a.recHash, rec, creator, co)
  {
  }

  lemma AppliedExtends(s: Store, s': Store, q: Persisted, h: Hash)
    requires h in q.status && IsRec(s, h) && IsRec(s', h) && RecAt(s', h) == RecAt(s, h) && AppliedOk(s, q, h)
             && Extends(s, s')
    ensures AppliedOk(s', q, h)
  {
    hide SameContent, IsRec, RecAt;
  }

  /** The mover is closed, or its key's cooldown is as it was. */
  lemma MoverRested(s: Store, p: Persisted, q: Persisted, a: AuditRecord)
    requires Moves(s, p, q, a) && RestedOk(s, p, a.recHash)
    ensures RestedOk(s, q, a.recHash)
  {
    hide IsRec, RecAt, Mint, Reasoned, Independent;
  }

  lemma MoverKept(s: Store, p: Persisted, q: Persisted, a: AuditRecord)
    requires Wf(s) && Moves(s, p, q, a) && RecOk(s, p, a.recHash) && AppliedOk(s, q, a.recHash)
    ensures RecOk(Put(s, AuditSpec(a)), q, a.recHash)
    ensures Kept(s, p, Put(s, AuditSpec(a)), q, a.recHash)
  {
    var s', h := Put(s, AuditSpec(a)), a.recHash;
    hide Trail, Wf, Extends, IsRec, RecAt, Put, AppliedOk, RestsOnly, LegalMove, Independent, Reasoned, Mint;
    PutKeeps(s, AuditSpec(a));
    RecExtends(s, s', h);
    MoverRested(s, p, q, a);
    assert RestedOk(s', q, h);
    AppliedExtends(s, s', q, h);
    hide RestedOk;
    assert CoCreator(q, h) == CoCreator(p, h);
    forall t | Trail(s, p, h, t) ensures Trail(s', q, h, t + [a]) {
      TrailContinues(s, p, q, a, t);
    }
    hide Moves, CoCreator;
  }

  lemma OthersKept(s: Store, p: Persisted, q: Persisted, a: AuditRecord, g: Hash)
    requires Wf(s) && Moves(s, p, q, a) && g != a.recHash && RecOk(s, p, g) && SameKeys(p) && OneOpenPerKey(s, p)
    ensures RecOk(Put(s, AuditSpec(a)), q, g) && Kept(s, p, Put(s, AuditSpec(a)), q, g)
  {
    var s', h := Put(s, AuditSpec(a)), a.recHash;
    PutKeeps(s, AuditSpec(a));
    hide Wf, Extends, Put, Mint, Trail;
    OkIsRec(s, p, g);
    assert SameLook(p, q, g) by {
      assert g in p.applied <==> g in p.applied - {h};
      assert g in q.applied <==> g in q.applied - {h};
      assert g in p.applied ==> (p.applied - {h})[g] == p.applied[g];
      assert g in q.applied ==> (q.applied - {h})[g] == q.applied[g];
    }
    var key := RecAt(s, g).dedupKey;
    assert Holds(s, p, g, key) && Holds(s, p, h, key) ==> g == h;
    Untouched(s, s', p, q, g);
  }

  /** A lifecycle step opens nothing that was closed. */
  lemma NothingOpens(s: Store, p: Persisted, q: Persisted, a: AuditRecord, h: Hash, key: string)
    requires Wf(s) && Moves(s, p, q, a) && Holds(Put(s, AuditSpec(a)), q, h, key)
    requires h in p.status ==> IsRec(s, h)
    ensures Holds(s, p, h, key)
  {
    PutKeeps(s, AuditSpec(a));
    RecExtends(s, Put(s, AuditSpec(a)), h);
  }

  lemma StepKeeps(s: Store, p: Persisted, q: Persisted, a: AuditRecord)
    requires Inv(s, p) && Moves(s, p, q, a) && AppliedOk(s, q, a.recHash)
    ensures Inv(Put(s, AuditSpec(a)), q) && Continues(s, p, Put(s, AuditSpec(a)), q)
  {
    var s', h := Put(s, AuditSpec(a)), a.recHash;
    hide IsRec, Wf, SameKeys, Extends, Put, Mint, RecOk, Kept, Moves, ScheduleOk, AppliedOk, OneOpenPerKey;
    PutKeeps(s, AuditSpec(a));
    StepSameKeys(s, p, q, a);
    StepStatus(s, p, q, a);
    forall g ensures ScheduleOk(q, g) { ScheduleMoves(s, p, q, a, g); }
    forall g | g in p.status ensures RecOk(s', q, g) && Kept(s, p, s', q, g) {
      if g == h { MoverKept(s, p, q, a); } else { OthersKept(s, p, q, a, g); }
    }
    OpenStaysUnique(s, p, q, a);
  }

  lemma StepSameKeys(s: Store, p: Persisted, q: Persisted, a: AuditRecord)
    requires SameKeys(p) && Moves(s, p, q, a)
    ensures SameKeys(q)
  {
  }

  lemma OpenStaysUnique(s: Store, p: Persisted, q: Persisted, a: AuditRecord)
    requires Inv(s, p) && Moves(s, p, q, a)
    ensures OneOpenPerKey(Put(s, AuditSpec(a)), q)
  {
    hide Put, Mint, RecOk, ScheduleOk;
    StepStatus(s, p, q, a);
    var s' := Put(s, AuditSpec(a));
    forall g, key | Holds(s', q, g, key) ensures Holds(s, p, g, key) {
      OkIsRec(s, p, g);
      NothingOpens(s, p, q, a, g, key);
    }
    hide Holds;
  }

  lemma StepStatus(s: Store, p: Persisted, q: Persisted, a: AuditRecord)
    requires Moves(s, p, q, a)
    ensures a.recHash in p.status && q.status == p.status[a.recHash := a.to]
  {
  }

  lemma ScheduleMoves(s: Store, p: Persisted, q: Persisted, a: AuditRecord, g: Hash)
    requires Moves(s, p, q, a) && ScheduleOk(p, g)
    ensures ScheduleOk(q, g)
  {
    assert g in p.applied ==> g in q.applied && q.applied[g] == p.applied[g] by {
      if g != a.recHash && g in p.applied {
        assert g in p.applied - {a.recHash};
        assert (q.applied - {a.recHash})[g] == (p.applied - {a.recHash})[g];
      }
    }
    hide Moves, OutcomeOk, AsListed;
    assert MeasuredOf(q, g) == MeasuredOf(p, g) && OutcomesOf(q, g) == OutcomesOf(p, g) by { SameMeasures(s, p, q, a); }
  }

  lemma SameMeasures(s: Store, p: Persisted, q: Persisted, a: AuditRecord)
    requires Moves(s, p, q, a)
    ensures q.measured == p.measured && q.outcomes == p.outcomes
  {
  }

  // --- proposing ---

  ghost predicate KeyFree(s: Store, p: Persisted, key: string) {
    forall h :: !Holds(s, p, h, key)
  }

  lemma NewAddressIsNew(s: Store, p: Persisted)
    requires Inv(s, p)
    ensures Mint(s.nextId) !in s.grains && Mint(s.nextId) !in p.status && Mint(s.nextId) !in p.applied
  {
    hide Mint;
    if Mint(s.nextId) in p.status { OkIsRec(s, p, Mint(s.nextId)); }
  }

  /** The stored grain decodes to the recommendation that was stored. */
  lemma StoredRecommendation(s: Store, rec: Recommendation)
    requires Wf(s)
    ensures var h, s' := Mint(s.nextId), Put(s, RecSpec(rec)); IsRec(s', h) && RecAt(s', h) == rec
  {
    hide Mint;
    SpecsKeepTheirNamespace(rec, PendingRecord(rec, "", 0));
  }

  /** `q` is `p` with `h` indexed as a pending recommendation of `rec` and nothing else changed. */
  ghost predicate Adds(p: Persisted, q: Persisted, h: Hash, head: Hash, rec: Recommendation) {
    && q.status == p.status[h := Pending] && q.auditHeads == p.auditHeads[h := head]
    && q.creators == p.creators[h := "engine:" + rec.analyzer]
    && p.coCreators.Keys <= q.coCreators.Keys <= p.coCreators.Keys + {h}
    && (forall g | g in p.coCreators && g != h :: q.coCreators[g] == p.coCreators[g])
    && q.applied == p.applied && q.cooldowns == p.cooldowns
    && q.measured == p.measured && q.outcomes == p.outcomes
  }

  lemma ProposeIndexes(s: Store, p: Persisted, rec: Recommendation, trigger: Option<string>, now: int)
    ensures var (s', q) := Propose(s, p, rec, trigger, now);
            var h := Mint(s.nextId);
            && Adds(p, q, h, Mint(s.nextId + 1), rec)
            && s' == Put(Put(s, RecSpec(rec)), AuditSpec(PendingRecord(rec, h, now)))
  {
    hide Mint, RecSpec, AuditSpec, RecordFor;
  }

  lemma ProposeStores(s: Store, p: Persisted, rec: Recommendation, trigger: Option<string>, now: int)
    requires Wf(s)
    ensures var (s', q) := Propose(s, p, rec, trigger, now);
            var h := Mint(s.nextId);
            && Wf(s') && Extends(s, s') && IsRec(s', h) && RecAt(s', h) == rec
            && Adds(p, q, h, Mint(s.nextId + 1), rec)
            && Linked(s', Mint(s.nextId + 1), [PendingRecord(rec, h, now)])
  {
    var h, s1 := Mint(s.nextId), Put(s, RecSpec(rec));
    var a := PendingRecord(rec, h, now);
    ProposeIndexes(s, p, rec, trigger, now);
    hide Propose, Adds, Wf, Mint, RecSpec;
    PutKeeps(s, RecSpec(rec));
    StoredRecommendation(s, rec);
    PutKeeps(s1, AuditSpec(a));
    assert Put(s1, AuditSpec(a)).grains[Mint(s1.nextId)].fields.audit == Some(a) && s1.nextId == s.nextId + 1;
    hide Extends, IsRec, RecAt, AuditSpec, Put;
    RecExtends(s1, Put(s1, AuditSpec(a)), h);
    ExtendsTransitive(s, s1, Put(s1, AuditSpec(a)));
  }

  lemma AddedOk(s': Store, p: Persisted, q: Persisted, h: Hash, head: Hash, rec: Recommendation, now: int)
    requires Adds(p, q, h, head, rec) && IsRec(s', h) && RecAt(s', h) == rec && h !in p.applied
    requires Linked(s', head, [PendingRecord(rec, h, now)])
    requires rec.createdAt == now && !Cooling(p, rec.dedupKey, now)
    ensures RecOk(s', q, h)
  {
    hide Linked, IsRec, RecAt;
    assert Trail(s', q, h, [PendingRecord(rec, h, now)]);
    hide Trail;
  }

  lemma OthersAsBefore(s: Store, s': Store, p: Persisted, q: Persisted, h: Hash, head: Hash, rec: Recommendation,
                       g: Hash)
    requires SameKeys(p) && RecOk(s, p, g) && Extends(s, s') && Adds(p, q, h, head, rec) && h !in p.status
    ensures RecOk(s', q, g) && Kept(s, p, s', q, g)
  {
    OkIsRec(s, p, g);
    assert SameLook(p, q, g);
    hide Adds, SameKeys, Extends, IsRec, RecAt;
    assert q.cooldowns == p.cooldowns by { SameCooldowns(p, q, h, head, rec); }
    Untouched(s, s', p, q, g);
  }

  lemma SameCooldowns(p: Persisted, q: Persisted, h: Hash, head: Hash, rec: Recommendation)
    requires Adds(p, q, h, head, rec)
    ensures q.cooldowns == p.cooldowns && q.status == p.status[h := Pending]
    ensures q.measured == p.measured && q.outcomes == p.outcomes && q.applied == p.applied
  {
  }

  lemma AddsSameKeys(p: Persisted, q: Persisted, h: Hash, head: Hash, rec: Recommendation)
    requires SameKeys(p) && Adds(p, q, h, head, rec)
    ensures SameKeys(q)
  {
  }

  lemma OnlyOneMoreHolds(s: Store, s': Store, p: Persisted, q: Persisted, h: Hash, head: Hash, rec: Recommendation)
    requires Extends(s, s') && IsRec(s', h) && RecAt(s', h) == rec && Adds(p, q, h, head, rec)
    requires forall g | g in p.status :: RecOk(s, p, g)
    ensures forall g, key | Holds(s', q, g, key) :: Holds(s, p, g, key) || (g == h && key == rec.dedupKey)
  {
    SameCooldowns(p, q, h, head, rec);
    hide Adds, Extends;
    forall g, key | Holds(s', q, g, key) && g != h ensures Holds(s, p, g, key) {
      OkIsRec(s, p, g);
      RecExtends(s, s', g);
    }
  }

  /** A recommendation for a free, rested key can be stored. */
  lemma ProposeKeeps(s: Store, p: Persisted, rec: Recommendation, trigger: Option<string>, now: int)
    requires Inv(s, p) && rec.createdAt == now && !Cooling(p, rec.dedupKey, now) && KeyFree(s, p, rec.dedupKey)
    ensures var (s', q) := Propose(s, p, rec, trigger, now);
            var h := Mint(s.nextId);
            && Inv(s', q) && Continues(s, p, s', q)
            && IsRec(s', h) && RecAt(s', h) == rec && h !in p.status && Adds(p, q, h, Mint(s.nextId + 1), rec)
            && (forall g, key | Holds(s', q, g, key) :: Holds(s, p, g, key) || (g == h && key == rec.dedupKey))
  {
    hide Wf, SameKeys, Extends, Mint, RecOk, Kept, ScheduleOk, Propose, Put, Cooling, Linked, Adds, IsRec, RecAt,
         PendingRecord, Holds;
    var (s', q) := Propose(s, p, rec, trigger, now);
    var h, head := Mint(s.nextId), Mint(s.nextId + 1);
    NewAddressIsNew(s, p);
    ProposeStores(s, p, rec, trigger, now);
    SameCooldowns(p, q, h, head, rec);
    AddsSameKeys(p, q, h, head, rec);
    AddedOk(s', p, q, h, head, rec, now);
    forall g | g in p.status ensures RecOk(s', q, g) && Kept(s, p, s', q, g) {
      OthersAsBefore(s, s', p, q, h, head, rec, g);
    }
    OnlyOneMoreHolds(s, s', p, q, h, head, rec);
    forall g ensures ScheduleOk(q, g) { SameSchedule(p, q, g); }
  }

  lemma SameSchedule(p: Persisted, q: Persisted, g: Hash)
    requires ScheduleOk(p, g) && q.measured == p.measured && q.outcomes == p.outcomes && q.applied == p.applied
    ensures ScheduleOk(q, g)
  {
    hide OutcomeOk, AsListed;
  }

  // --- measuring ---

  lemma {:induction false} DueIsDue(horizons: seq<int>, elapsed: int, done: seq<int>)
    ensures forall x :: x in Due(horizons, elapsed, done) <==> x in horizons && elapsed >= x && x !in done
    ensures AsListed(Due(horizons, elapsed, done), horizons)
  {
    forall x ensures x in Due(horizons, elapsed, done) <==> x in horizons && elapsed >= x && x !in done {
      DueCount(horizons, elapsed, done, x);
      InByCount(Due(horizons, elapsed, done), x);
      InByCount(horizons, x);
    }
    forall x | x in Due(horizons, elapsed, done)
      ensures multiset(Due(horizons, elapsed, done))[x] == multiset(horizons)[x]
    {
      DueCount(horizons, elapsed, done, x);
    }
  }

  lemma InByCount(xs: seq<int>, x: int)
    ensures x in xs <==> multiset(xs)[x] > 0
  {
    assert x in multiset(xs) <==> x in xs;
  }

  lemma {:induction false} DueCount(horizons: seq<int>, elapsed: int, done: seq<int>, x: int)
    ensures multiset(Due(horizons, elapsed, done))[x] == if elapsed >= x && x !in done then multiset(horizons)[x] else 0
  {
    if horizons != [] {
      var rest, last := horizons[..|horizons| - 1], horizons[|horizons| - 1];
      assert horizons == rest + [last];
      DueCount(rest, elapsed, done, x);
    }
  }

  lemma AsListedJoin(ms: seq<int>, more: seq<int>, horizons: seq<int>)
    requires AsListed(ms, horizons) && AsListed(more, horizons) && forall x | x in more :: x !in ms
    ensures AsListed(ms + more, horizons)
  {
    forall x | x in ms + more ensures multiset(ms + more)[x] == multiset(horizons)[x] {
      assert multiset(ms + more) == multiset(ms) + multiset(more);
      InByCount(ms, x);
      InByCount(more, x);
    }
  }

  /** What a run adds to the record of one recommendation. */
  lemma MeasuredAfter(e: Engine, s: Store, p: Persisted, now: int, h: Hash)
    ensures var q := MeasureOutcomes(e, s, p, now);
            && q.applied == p.applied
            && MeasuredOf(q, h) == MeasuredOf(p, h) + MeasuredNow(e, s, p, h, now)
            && OutcomesOf(q, h) == OutcomesOf(p, h) + OutcomesNow(e, s, p, h, now)
  {
    hide Due, OutcomesAt, Horizons;
    assert h !in p.applied ==> MeasuredNow(e, s, p, h, now) == [];
  }

  lemma NewOutcomesOk(e: Engine, s: Store, p: Persisted, now: int, h: Hash)
    requires MeasuredNow(e, s, p, h, now) != []
    ensures var more, os := MeasuredNow(e, s, p, h, now), OutcomesNow(e, s, p, h, now);
            var a := p.applied[h];
            && |os| == |more|
            && (forall i | 0 <= i < |more| :: os[i].horizon == more[i] && OutcomeOk(os[i], h, a, a.metric.value))
            && (forall x | x in more :: x !in MeasuredOf(p, h))
            && AsListed(more, Horizons(a.metric.value))
  {
    hide Due, AsListed, Horizons, MeasuredOf;
    var a, more := p.applied[h], MeasuredNow(e, s, p, h, now);
    var horizons, done := Horizons(a.metric.value), MeasuredOf(p, h);
    assert more == Due(horizons, now - a.appliedAt, done);
    DueIsDue(horizons, now - a.appliedAt, done);
    forall i | 0 <= i < |more| ensures more[i] in horizons && now - a.appliedAt >= more[i] {
      IsDue(horizons, now - a.appliedAt, done, more[i]);
    }
  }

  lemma IsDue(horizons: seq<int>, elapsed: int, done: seq<int>, x: int)
    ensures x in Due(horizons, elapsed, done) <==> x in horizons && elapsed >= x && x !in done
  {
    DueIsDue(horizons, elapsed, done);
  }

  lemma NothingToMeasure(e: Engine, s: Store, p: Persisted, now: int, h: Hash)
    ensures MeasuredNow(e, s, p, h, now) == [] ==> OutcomesNow(e, s, p, h, now) == []
    ensures MeasuredNow(e, s, p, h, now) != [] ==> h in p.applied && p.applied[h].metric.Some?
  {
    hide Due, Horizons;
  }

  lemma ScheduleAfter(e: Engine, s: Store, p: Persisted, now: int, h: Hash)
    requires ScheduleOk(p, h)
    ensures ScheduleOk(MeasureOutcomes(e, s, p, now), h)
  {
    hide MeasureOutcomes, MeasuredNow, OutcomesNow, MeasuredOf, OutcomesOf, AsListed, Horizons, OutcomeOk;
    var ms, more := MeasuredOf(p, h), MeasuredNow(e, s, p, h, now);
    NothingToMeasure(e, s, p, now, h);
    MeasuredAfter(e, s, p, now, h);
    if more == [] {
      assert ms + more == ms && OutcomesOf(p, h) + OutcomesNow(e, s, p, h, now) == OutcomesOf(p, h);
    } else {
      NewOutcomesOk(e, s, p, now, h);
      var horizons := Horizons(p.applied[h].metric.value);
      NoneMeasured(horizons);
      AsListedJoin(ms, more, horizons);
    }
  }

  lemma NoneMeasured(horizons: seq<int>)
    ensures AsListed([], horizons)
  {
  }

  /** Measuring changes nothing but the measurements. */
  lemma MeasureKeeps(e: Engine, s: Store, p: Persisted, now: int)
    requires Inv(s, p)
    ensures var q := MeasureOutcomes(e, s, p, now); Inv(s, q) && Continues(s, p, s, q)
  {
    var q := MeasureOutcomes(e, s, p, now);
    assert LifecycleEquals(p, q);
    hide MeasureOutcomes, ScheduleOk, Wf, RecOk, SameKeys, OneOpenPerKey, LifecycleEquals;
    forall h ensures ScheduleOk(q, h) {
      assert ScheduleOk(p, h);
      ScheduleAfter(e, s, p, now, h);
    }
    SameLifecycle(s, p, q);
  }

  /** Only the measurements, the run times and the floors differ. */
  predicate LifecycleEquals(p: Persisted, q: Persisted) {
    && q.status == p.status && q.auditHeads == p.auditHeads && q.creators == p.creators && q.coCreators == p.coCreators
    && q.cooldowns == p.cooldowns && q.applied == p.applied
  }

  lemma SameLifecycle(s: Store, p: Persisted, q: Persisted)
    requires Inv(s, p) && LifecycleEquals(p, q) && forall h: Hash :: ScheduleOk(q, h)
    ensures Inv(s, q) && Continues(s, p, s, q)
  {
    ExtendsReflexive(s);
    hide Wf, RecOk, ScheduleOk, Kept, Extends;
    forall h | h in p.status ensures RecOk(s, q, h) && Kept(s, p, s, q, h) {
      OkIsRec(s, p, h);
      Untouched(s, s, p, q, h);
    }
    forall h, key ensures Holds(s, q, h, key) <==> Holds(s, p, h, key) {
    }
    hide Holds;
  }
}
