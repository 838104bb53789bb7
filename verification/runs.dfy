/** Runs propose only free, rested keys; with that, every reachable world is good. */
module Runs {
  import opened Basics
  import opened LoopModel
  import opened CalText
  import opened GrainStore
  import opened EngineSpec
  import opened Invariants
  import opened Steps
  import opened Reachable

  // --- survivors ---

  lemma {:induction false} CandidatesAreNew(findings: seq<Finding>, now: int)
    ensures forall c | c in Candidates(findings, now) :: c.createdAt == now
  {
    hide Stamp;
    if findings != [] {
      CandidatesAreNew(findings[..|findings| - 1], now);
      StampIsNew(findings[|findings| - 1], now);
    }
  }

  lemma StampIsNew(f: Finding, now: int)
    ensures Stamp(f, now).Some? ==> Stamp(f, now).value.createdAt == now
  {
    hide ContainsDestructive, DedupKey, TargetClass;
  }

  ghost predicate DistinctKeys(recs: seq<Recommendation>) {
    forall i, j | 0 <= i < j < |recs| :: recs[i].dedupKey != recs[j].dedupKey
  }

  /** What survives was a candidate, above its floor, with a key nobody holds, rested, and each key once. */
  lemma {:induction false} SiftKeeps(policy: Policy, p: Persisted, existing: set<string>, cs: seq<Recommendation>,
                                     now: int)
    ensures var x := Sift(policy, p, existing, cs, now);
            && DistinctKeys(x.kept)
            && (forall c | c in x.kept :: c in cs && c.dedupKey in x.seen && c.dedupKey !in existing
                                          && !Cooling(p, c.dedupKey, now) && !BelowFloor(policy, p, c))
  {
    hide BelowFloor, Cooling;
    if cs != [] {
      var rest := cs[..|cs| - 1];
      SiftKeeps(policy, p, existing, rest, now);
      assert cs == rest + [cs[|cs| - 1]];
      var kept := Sift(policy, p, existing, rest, now).kept;
      assert forall i | 0 <= i < |kept| :: kept[i] in kept;
    }
  }

  /** A key is seen exactly when some candidate carries it above its floor, and a free, rested key survives. */
  lemma {:induction false} SiftSees(policy: Policy, p: Persisted, existing: set<string>, cs: seq<Recommendation>,
                                    now: int)
    ensures var x := Sift(policy, p, existing, cs, now);
            && (forall c | c in cs && !BelowFloor(policy, p, c) :: c.dedupKey in x.seen)
            && (forall k | k in x.seen && k !in existing && !Cooling(p, k, now) ::
                  exists c | c in x.kept :: c.dedupKey == k)
  {
    hide BelowFloor, Cooling;
    if cs != [] {
      var rest, last := cs[..|cs| - 1], cs[|cs| - 1];
      SiftSees(policy, p, existing, rest, now);
      assert cs == rest + [last];
      var x, y := Sift(policy, p, existing, cs, now), Sift(policy, p, existing, rest, now);
      forall k | k in x.seen && k !in existing && !Cooling(p, k, now)
        ensures exists c | c in x.kept :: c.dedupKey == k {
        if k in y.seen {
          var c :| c in y.kept && c.dedupKey == k;
          assert c in x.kept;
        } else {
          assert last in x.kept;
        }
      }
    }
  }

  /** Whoever holds a key in the index shows up among the existing keys. */
  lemma HeldKeysExist(s: Store, p: Persisted, h: Hash, key: string)
    requires Holds(s, p, h, key)
    ensures key in ExistingKeys(s, p)
  {
  }

  ghost predicate Ready(s: Store, p: Persisted, recs: seq<Recommendation>, now: int) {
    && DistinctKeys(recs)
    && forall c | c in recs :: c.createdAt == now && !Cooling(p, c.dedupKey, now) && KeyFree(s, p, c.dedupKey)
  }

  lemma SurvivorsReady(e: Engine, s: Store, p: Persisted, cs: seq<Recommendation>, now: int)
    requires forall c | c in cs :: c.createdAt == now
    ensures Ready(s, p, Survivors(e, s, p, cs, now), now)
  {
    hide Cooling, ExistingKeys, Sift, Holds;
    var existing := ExistingKeys(s, p);
    SiftKeeps(e.policy, p, existing, cs, now);
    forall h, key | Holds(s, p, h, key) ensures key in existing {
      HeldKeysExist(s, p, h, key);
    }
  }

  // --- storing survivors ---

  /** The policy's own step succeeds or stops the run; if it succeeds the world stays good. */
  lemma AutoApplyKeeps(e: Engine, x: Progress, h: Hash, rec: Recommendation, now: int)
    requires Inv(x.store, x.state) && x.failed.None? && h in x.state.status && x.state.status[h].Pending?
    requires IsRec(x.store, h) && RecAt(x.store, h) == rec && rec.origin.Builtin? && !rec.destructive
             && rec.proposal.Cal?
    ensures var y := AutoApply(e, x, h, rec, now);
            && Wf(y.store) && Extends(x.store, y.store)
            && (y.failed.None? ==>
                  && Inv(y.store, y.state) && Continues(x.store, x.state, y.store, y.state)
                  && y.state.cooldowns == x.state.cooldowns && y.state.status == x.state.status[h := Applied])
  {
    hide Inv, Continues, IsRec, RecAt, Wf, Extends, ParseBatch, ExecAll, Fresh, Record, AppliedBy, HeadOf, AutoRecord,
         DirectByPolicy, Reasoned;
    InvIsWf(World(x.store, Some(x.state)));
    var stmts := ParseBatch(e.js, rec.proposal.cal);
    var a := AutoRecord(h, HeadOf(x.state, h), now);
    AutoRecordIs(h, HeadOf(x.state, h), now, rec);
    ExecKeeps(x.store, stmts);
    var run := ExecAll(x.store, stmts);
    if run.failed.None? {
      InvExtends(x.store, run.store, x.state);
      SameRecExtended(x.store, run.store, h);
      CreatedAreStored(x.store, run);
      AppliedKeeps(run.store, x.state, a, run.created, now);
      var (s, p) := Record(run.store, x.state, a);
      var q := p.(applied := p.applied[h := AppliedBy(rec, run.created, now)]);
      ContinuesTransitive(x.store, x.state, run.store, x.state, s, q);
      FollowsExtends(x.store, x.state, s, q);
      InvIsWf(World(s, Some(q)));
    }
  }

  lemma AutoRecordIs(h: Hash, previous: Option<Hash>, now: int, rec: Recommendation)
    requires rec.origin.Builtin? && !rec.destructive
    ensures var a := AutoRecord(h, previous, now);
            && a.recHash == h && a.to.Applied? && a.previous == previous && a.at == now
            && DirectByPolicy(a, rec) && Reasoned(a)
  {
  }

  lemma SameRecExtended(a: Store, b: Store, h: Hash)
    requires IsRec(a, h) && Extends(a, b)
    ensures IsRec(b, h) && RecAt(b, h) == RecAt(a, h)
  {
    RecExtends(a, b, h);
  }

  lemma CreatedAreStored(s: Store, x: Exec)
    requires Fresh(s, x)
    ensures forall c | c in x.created :: c in x.store.grains
  {
  }

  lemma FollowsExtends(s: Store, p: Persisted, s': Store, p': Persisted)
    requires Continues(s, p, s', p')
    ensures Extends(s, s')
  {
  }

  /** Where storing has got to: the invariant holds until something fails, and no key is held by anyone
      who did not hold it before, other than the keys of `recs`. */
  ghost predicate Storing(s: Store, p: Persisted, x: Progress, recs: seq<Recommendation>) {
    && Wf(x.store) && Extends(s, x.store)
    && (x.failed.None? ==>
          && Inv(x.store, x.state) && Continues(s, p, x.store, x.state)
          && x.state.cooldowns == p.cooldowns
          && HeldOnlyBy(s, p, x.store, x.state, recs)
          && Stored(s, p, x.store, x.state, recs))
  }

  /** The host lets recommendations like this one be applied without review. */
  predicate Granted(e: Engine, rec: Recommendation) {
    && rec.origin.Builtin? && !rec.destructive && rec.proposal.Cal?
    && DeclaredStructural(e.manifests, rec.analyzer)
    && (TargetClass(rec.targetRef) == Some("memory") || TargetClass(rec.targetRef) == Some("query"))
    && GrantsAutoApply(e.policy, FamilyOf(rec.analyzer), TargetClass(rec.targetRef).value, rec.severity)
  }

  /** A new entry names its engine as author and, unless it is built in, whoever triggered the run; it is pending,
      or applied by a grant of the host. */
  predicate EntryOk(e: Engine, trigger: Option<string>, p: Persisted, h: Hash, rec: Recommendation) {
    && h in p.status && h in p.creators
    && p.creators[h] == "engine:" + rec.analyzer
    && CoCreator(p, h) == (if rec.origin.Builtin? then None else trigger)
    && (p.status[h].Pending? || (p.status[h].Applied? && Granted(e, rec)))
  }

  /** The entries of a run are all as they should be. */
  ghost predicate EntriesOk(e: Engine, trigger: Option<string>, p: Persisted, s': Store, p': Persisted) {
    forall h | h in p'.status && h !in p.status :: IsRec(s', h) && EntryOk(e, trigger, p', h, RecAt(s', h))
  }

  lemma {:induction false} EntriesAreOk(e: Engine, s: Store, p: Persisted, recs: seq<Recommendation>,
                                        trigger: Option<string>, now: int)
    requires Inv(s, p) && Ready(s, p, recs, now)
    ensures var x := StoreAll(e, s, p, recs, trigger, now);
            x.failed.None? ==> EntriesOk(e, trigger, p, x.store, x.state)
  {
    hide Inv, Continues, Wf, Extends, StoreOne, Cooling, Holds, IsRec, RecAt, EntryOk, HeldOnlyBy, Stored;
    if recs != [] {
      var rest, last := recs[..|recs| - 1], recs[|recs| - 1];
      assert recs == rest + [last];
      assert Ready(s, p, rest, now);
      EntriesAreOk(e, s, p, rest, trigger, now);
      StoreAllKeeps(e, s, p, rest, trigger, now);
      var x := StoreAll(e, s, p, rest, trigger, now);
      if x.failed.None? {
        LastIsReady(s, p, x, rest, last, now);
        NewEntryIsOk(e, x, last, trigger, now);
        var y := StoreOne(e, x, last, trigger, now);
        if y.failed.None? { EntriesJoin(e, trigger, p, x, y); }
      } else {
        FailedStays(e, x, last, trigger, now);
      }
    }
  }

  /** Entries already there keep their authors and their status while one more is stored. */
  ghost predicate EntriesKept(x: Progress, y: Progress) {
    && Extends(x.store, y.store)
    && forall h | h in x.state.status ::
         h in y.state.status && y.state.status[h] == x.state.status[h]
         && (h in x.state.creators ==> h in y.state.creators && y.state.creators[h] == x.state.creators[h])
         && CoCreator(y.state, h) == CoCreator(x.state, h)
  }

  lemma EntriesJoin(e: Engine, trigger: Option<string>, p: Persisted, x: Progress, y: Progress)
    requires EntriesOk(e, trigger, p, x.store, x.state) && EntriesOk(e, trigger, x.state, y.store, y.state)
             && EntriesKept(x, y)
    ensures EntriesOk(e, trigger, p, y.store, y.state)
  {
    hide IsRec, RecAt, Granted, CoCreator, Extends;
    forall h | h in y.state.status && h !in p.status
      ensures IsRec(y.store, h) && EntryOk(e, trigger, y.state, h, RecAt(y.store, h)) {
      if h in x.state.status {
        assert IsRec(x.store, h) && EntryOk(e, trigger, x.state, h, RecAt(x.store, h));
        SameRecExtended(x.store, y.store, h);
      }
    }
  }

  lemma GrantedWhenApplicable(e: Engine, s: Store, rec: Recommendation)
    requires CanAutoApply(e, s, rec)
    ensures Granted(e, rec)
  {
    hide StructuralCuration, DeclaredStructural, TargetClass, FamilyOf;
  }

  lemma ProposedEntry(s: Store, p: Persisted, rec: Recommendation, trigger: Option<string>, now: int)
    requires Mint(s.nextId) !in p.coCreators
    ensures var (s', q) := Propose(s, p, rec, trigger, now);
            var h := Mint(s.nextId);
            && q.status == p.status[h := Pending] && q.creators == p.creators[h := "engine:" + rec.analyzer]
            && CoCreator(q, h) == (if rec.origin.Builtin? then None else trigger)
            && forall g | g != h :: CoCreator(q, g) == CoCreator(p, g)
  {
    hide Mint, Put, AuditSpec, RecSpec;
  }

  lemma RecordedEntry(s: Store, p: Persisted, a: AuditRecord)
    ensures var q := Record(s, p, a).1;
            q.status == p.status[a.recHash := a.to] && q.creators == p.creators && q.coCreators == p.coCreators
  {
  }

  lemma AutoAppliedEntry(e: Engine, x: Progress, h: Hash, rec: Recommendation, now: int)
    ensures var y := AutoApply(e, x, h, rec, now);
            && y.state.creators == x.state.creators && y.state.coCreators == x.state.coCreators
            && (y.failed.None? ==> y.state.status == x.state.status[h := Applied])
  {
    hide ExecAll, ParseBatch, Record, AppliedBy, HeadOf;
    var run := if rec.proposal.Cal? then ExecAll(x.store, ParseBatch(e.js, rec.proposal.cal))
      else Exec(x.store, [], None);
    RecordedEntry(run.store, x.state, AutoRecord(h, HeadOf(x.state, h), now));
  }

  /** One new entry, indexed as it should be. */
  lemma OneEntry(e: Engine, trigger: Option<string>, x: Progress, y: Progress, h: Hash, rec: Recommendation)
    requires Extends(x.store, y.store) && h !in x.state.status && IsRec(y.store, h) && RecAt(y.store, h) == rec
    requires y.state.status == x.state.status[h := Pending]
             || (y.state.status == x.state.status[h := Applied] && Granted(e, rec))
    requires y.state.creators == x.state.creators[h := "engine:" + rec.analyzer]
    requires CoCreator(y.state, h) == (if rec.origin.Builtin? then None else trigger)
    requires forall g | g != h :: CoCreator(y.state, g) == CoCreator(x.state, g)
    ensures EntriesOk(e, trigger, x.state, y.store, y.state) && EntriesKept(x, y)
  {
    hide IsRec, RecAt, Granted, CoCreator, Extends;
  }

  lemma NewEntryIsOk(e: Engine, x: Progress, rec: Recommendation, trigger: Option<string>, now: int)
    requires Inv(x.store, x.state) && x.failed.None?
    requires rec.createdAt == now && !Cooling(x.state, rec.dedupKey, now) && KeyFree(x.store, x.state, rec.dedupKey)
    ensures var y := StoreOne(e, x, rec, trigger, now);
            y.failed.None? ==> EntriesOk(e, trigger, x.state, y.store, y.state) && EntriesKept(x, y)
  {
    hide Inv, Continues, IsRec, RecAt, Wf, Extends, AutoApply, CanAutoApply, Propose, Adds, Linked, Mint, Granted,
         CoCreator, EntriesOk, EntriesKept, PendingRecord, SameKeys, Cooling, KeyFree, Holds;
    var h := Mint(x.store.nextId);
    NewAddressIsNew(x.store, x.state);
    InvIsWf(World(x.store, Some(x.state)));
    assert h !in x.state.coCreators by { CoCreatorsIndexed(x.store, x.state, h); }
    ProposedEntry(x.store, x.state, rec, trigger, now);
    ProposeStores(x.store, x.state, rec, trigger, now);
    var (s, p) := Propose(x.store, x.state, rec, trigger, now);
    var proposed := x.(store := s, state := p);
    if CanAutoApply(e, s, rec) {
      GrantedWhenApplicable(e, s, rec);
      AutoApplicable(e, s, rec);
      AutoAppliedEntry(e, proposed, h, rec, now);
      ProposeKeeps(x.store, x.state, rec, trigger, now);
      AutoApplyKeeps(e, proposed, h, rec, now);
      var y := AutoApply(e, proposed, h, rec, now);
      if y.failed.None? {
        forall g ensures CoCreator(y.state, g) == CoCreator(p, g) { SameCoCreators(p, y.state, g); }
        SameRecExtended(s, y.store, h);
        ExtendsTransitive(x.store, s, y.store);
        OneEntry(e, trigger, x, y, h, rec);
      }
    } else {
      OneEntry(e, trigger, x, proposed, h, rec);
    }
  }

  lemma CoCreatorsIndexed(s: Store, p: Persisted, h: Hash)
    requires Inv(s, p) && h !in p.status
    ensures h !in p.coCreators
  {
  }

  lemma SameCoCreators(p: Persisted, q: Persisted, h: Hash)
    ensures q.coCreators == p.coCreators ==> CoCreator(q, h) == CoCreator(p, h)
  {
  }

  /** Old statuses are untouched, new entries sit at new addresses and are among `recs`, and each of
      `recs` now holds its key. */
  ghost predicate Stored(s: Store, p: Persisted, s': Store, p': Persisted, recs: seq<Recommendation>) {
    && (forall h | h in p.status :: h in p'.status && p'.status[h] == p.status[h])
    && (forall h | h in p'.status && h !in p.status :: h !in s.grains && IsRec(s', h) && RecAt(s', h) in recs)
    && (forall c | c in recs :: exists h :: Holds(s', p', h, c.dedupKey))
  }

  lemma StoredOne(s: Store, p: Persisted, s': Store, p': Persisted, h: Hash, rec: Recommendation)
    requires h !in p.status && h !in s.grains && IsRec(s', h) && RecAt(s', h) == rec
    requires p'.status == p.status[h := Pending] || p'.status == p.status[h := Applied]
    ensures Stored(s, p, s', p', [rec])
  {
    assert Holds(s', p', h, rec.dedupKey);
    assert [rec][0] == rec;
    hide IsRec, RecAt, Holds;
  }

  lemma StoredJoins(s: Store, p: Persisted, x: Progress, y: Progress, rest: seq<Recommendation>, last: Recommendation)
    requires Extends(s, x.store) && Extends(x.store, y.store)
    requires Stored(s, p, x.store, x.state, rest) && Stored(x.store, x.state, y.store, y.state, [last])
    ensures Stored(s, p, y.store, y.state, rest + [last])
  {
    var recs := rest + [last];
    assert forall c :: c in recs <==> c in rest || c == last;
    forall h | h in y.state.status && h !in p.status
      ensures h !in s.grains && IsRec(y.store, h) && RecAt(y.store, h) in recs
    {
      if h in x.state.status { RecExtends(x.store, y.store, h); }
    }
    forall c | c in recs ensures exists h :: Holds(y.store, y.state, h, c.dedupKey) {
      if c != last {
        var h :| Holds(x.store, x.state, h, c.dedupKey);
        RecExtends(x.store, y.store, h);
        assert Holds(y.store, y.state, h, c.dedupKey);
      }
    }
  }

  ghost predicate HeldOnlyBy(s: Store, p: Persisted, s': Store, p': Persisted, recs: seq<Recommendation>) {
    forall h, key | Holds(s', p', h, key) :: Holds(s, p, h, key) || exists c | c in recs :: c.dedupKey == key
  }

  /** Applying a pending recommendation gives nobody a new key. */
  lemma ApplyHoldsNothingNew(s: Store, p: Persisted, s': Store, p': Persisted, h: Hash)
    requires Extends(s, s') && h in p.status && p.status[h].Pending? && p'.status == p.status[h := Applied]
    requires forall g | g in p.status :: IsRec(s, g)
    ensures forall g, key | Holds(s', p', g, key) :: Holds(s, p, g, key)
  {
    forall g, key | Holds(s', p', g, key) ensures Holds(s, p, g, key) {
      RecExtends(s, s', g);
    }
  }

  lemma AllAreRecs(s: Store, p: Persisted)
    requires Inv(s, p)
    ensures forall g | g in p.status :: IsRec(s, g)
  {
    hide IsRec;
    forall g | g in p.status ensures IsRec(s, g) { OkIsRec(s, p, g); }
  }

  lemma AutoApplicable(e: Engine, s: Store, rec: Recommendation)
    requires CanAutoApply(e, s, rec)
    ensures rec.origin.Builtin? && !rec.destructive && rec.proposal.Cal?
  {
  }

  lemma StoreOneKeeps(e: Engine, x: Progress, rec: Recommendation, trigger: Option<string>, now: int)
    requires Inv(x.store, x.state) && x.failed.None?
    requires rec.createdAt == now && !Cooling(x.state, rec.dedupKey, now) && KeyFree(x.store, x.state, rec.dedupKey)
    ensures Storing(x.store, x.state, StoreOne(e, x, rec, trigger, now), [rec])
  {
    hide Inv, Continues, IsRec, RecAt, Wf, Extends, AutoApply, CanAutoApply, Propose, Adds, Holds, Stored;
    NewAddressIsNew(x.store, x.state);
    ProposeKeeps(x.store, x.state, rec, trigger, now);
    var h := Mint(x.store.nextId);
    hide Mint;
    var (s, p) := Propose(x.store, x.state, rec, trigger, now);
    SameCooldowns(x.state, p, h, Mint(x.store.nextId + 1), rec);
    FollowsExtends(x.store, x.state, s, p);
    InvIsWf(World(s, Some(p)));
    assert [rec][0] == rec;
    StoredOne(x.store, x.state, s, p, h, rec);
    if CanAutoApply(e, s, rec) {
      AutoApplicable(e, s, rec);
      var proposed := x.(store := s, state := p);
      AutoApplyKeeps(e, proposed, h, rec, now);
      var y := AutoApply(e, proposed, h, rec, now);
      ExtendsTransitive(x.store, s, y.store);
      if y.failed.None? {
        ContinuesTransitive(x.store, x.state, s, p, y.store, y.state);
        AllAreRecs(s, p);
        SameRecExtended(s, y.store, h);
        assert y.state.status == x.state.status[h := Applied];
        StoredOne(x.store, x.state, y.store, y.state, h, rec);
        ApplyHoldsNothingNew(s, p, y.store, y.state, h);
      }
    }
  }

  lemma {:induction false} StoreAllKeeps(e: Engine, s: Store, p: Persisted, recs: seq<Recommendation>,
                                         trigger: Option<string>, now: int)
    requires Inv(s, p) && Ready(s, p, recs, now)
    ensures Storing(s, p, StoreAll(e, s, p, recs, trigger, now), recs)
  {
    hide Inv, Continues, Wf, Extends, StoreOne, Cooling, Holds, IsRec, RecAt;
    if recs == [] {
      InvIsWf(World(s, Some(p)));
      ExtendsReflexive(s);
      SameWorld(World(s, Some(p)));
    } else {
      var rest, last := recs[..|recs| - 1], recs[|recs| - 1];
      assert recs == rest + [last];
      assert Ready(s, p, rest, now);
      StoreAllKeeps(e, s, p, rest, trigger, now);
      var x := StoreAll(e, s, p, rest, trigger, now);
      if x.failed.None? {
        LastIsReady(s, p, x, rest, last, now);
        StoreOneKeeps(e, x, last, trigger, now);
        StoringJoins(s, p, x, StoreOne(e, x, last, trigger, now), rest, last);
      } else {
        assert StoreOne(e, x, last, trigger, now) == x by { FailedStays(e, x, last, trigger, now); }
      }
    }
  }

  lemma FailedStays(e: Engine, x: Progress, rec: Recommendation, trigger: Option<string>, now: int)
    requires x.failed.Some?
    ensures StoreOne(e, x, rec, trigger, now) == x
  {
  }

  lemma LastIsReady(s: Store, p: Persisted, x: Progress, rest: seq<Recommendation>, last: Recommendation, now: int)
    requires Ready(s, p, rest + [last], now) && Storing(s, p, x, rest) && x.failed.None?
    ensures last.createdAt == now && !Cooling(x.state, last.dedupKey, now) && KeyFree(x.store, x.state, last.dedupKey)
  {
    hide Inv, Continues, Wf, Extends, Holds;
    var recs := rest + [last];
    assert last in recs && recs[|rest|] == last;
    assert KeyFree(s, p, last.dedupKey);
    forall c | c in rest ensures c.dedupKey != last.dedupKey {
      var i :| 0 <= i < |rest| && rest[i] == c;
      assert recs[i] == c;
    }
  }

  lemma StoringJoins(s: Store, p: Persisted, x: Progress, y: Progress, rest: seq<Recommendation>, last: Recommendation)
    requires Storing(s, p, x, rest) && x.failed.None? && Storing(x.store, x.state, y, [last])
    ensures Storing(s, p, y, rest + [last])
  {
    hide Inv, Continues, Wf, Extends, Holds, Stored;
    ExtendsTransitive(s, x.store, y.store);
    if y.failed.None? {
      StoredJoins(s, p, x, y, rest, last);
      ContinuesTransitive(s, p, x.store, x.state, y.store, y.state);
      forall h, key | Holds(y.store, y.state, h, key)
        ensures Holds(s, p, h, key) || exists c | c in rest + [last] :: c.dedupKey == key
      {
        if !Holds(s, p, h, key) {
          if Holds(x.store, x.state, h, key) {
            var c :| c in rest && c.dedupKey == key;
            assert c in rest + [last];
          } else {
            assert last in rest + [last];
          }
        }
      }
    }
  }

  // --- a whole run ---

  lemma RunKeeps(e: Engine, w: World, input: RunInput)
    requires Good(w)
    ensures var w' := RunStep(e, w, input).0; Good(w') && Follows(w, w')
  {
    hide Inv, Continues, Wf, Extends, MeasureOutcomes, Survivors, StoreAll, Gate, Ready, HeldOnlyBy, Stored, Candidates;
    SameWorld(w);
    if Gate(input.opts, StateOf(w), input.newGrains, input.newErrors, input.now).None? {
      var p := MeasureOutcomes(e, w.store, StateOf(w), input.now);
      MeasureKeeps(e, w.store, StateOf(w), input.now);
      var candidates := Candidates(input.findings, input.now);
      CandidatesAreNew(input.findings, input.now);
      SurvivorsReady(e, w.store, p, candidates, input.now);
      var survivors := Survivors(e, w.store, p, candidates, input.now);
      StoreAllKeeps(e, w.store, p, survivors, input.opts.trigger, input.now);
      var x := StoreAll(e, w.store, p, survivors, input.opts.trigger, input.now);
      if x.failed.Some? {
        StoreMoves(w, x.store);
        assert World(x.store, w.state) == w.(store := x.store);
      } else {
        var q := x.state.(lastRun := Some(input.now), watermark := Some(input.now));
        ContinuesTransitive(w.store, StateOf(w), w.store, p, x.store, x.state);
        TimesDoNotMatter(x.store, x.state, q);
        ContinuesTransitive(w.store, StateOf(w), x.store, x.state, x.store, q);
      }
    }
  }

  /** Run times and floors play no part in the invariant. */
  lemma TimesDoNotMatter(s: Store, p: Persisted, q: Persisted)
    requires Inv(s, p) && LifecycleEquals(p, q) && q.measured == p.measured && q.outcomes == p.outcomes
    ensures Inv(s, q) && Continues(s, p, s, q)
  {
    hide Wf, RecOk, OneOpenPerKey, SameKeys;
    forall h ensures ScheduleOk(q, h) {
      assert ScheduleOk(p, h);
      SameSchedule(p, q, h);
    }
    hide ScheduleOk, LifecycleEquals;
    SameLifecycle(s, p, q);
  }

  /** Whatever happens to a good world, it stays good and keeps its past. */
  lemma StepIsGood(e: Engine, w: World, op: Op)
    requires Good(w)
    ensures Good(Step(e, w, op)) && Follows(w, Step(e, w, op))
  {
    hide Inv, Continues, Wf, Extends, RunStep, ReviewStep, ApplyStep, RollbackStep, Put, SupersedeOp, RetractOp,
         ExecAll, ParseBatch;
    InvIsWf(w);
    match op
    case Run(input) => RunKeeps(e, w, input);
    case Review(h, approve, req) => ReviewKeeps(w, h, approve, req);
    case Apply(h, allowDestructive, req) => ApplyKeeps(e, w, h, allowDestructive, req);
    case Rollback(h, req) => RollbackKeeps(w, h, req);
    case Configure(analyzer, floor) =>
      TimesDoNotMatter(w.store, StateOf(w), StateOf(ConfigureStep(w, analyzer, floor)));
    case HostPut(spec) =>
      PutKeeps(w.store, spec);
      StoreMoves(w, Put(w.store, spec));
    case HostSupersede(target, spec) =>
      SupersedeKeeps(w.store, target, spec);
      StoreMoves(w, SupersedeOp(w.store, target, spec).0);
    case HostRetract(h, reason) =>
      RetractKeeps(w.store, h, reason);
      StoreMoves(w, RetractOp(w.store, h, reason).0);
    case HostCal(cal) =>
      ExecKeeps(w.store, ParseBatch(e.js, cal));
      StoreMoves(w, ExecAll(w.store, ParseBatch(e.js, cal)).store);
  }

  /** A good world stays good, whatever happens to it and whichever engine does it. */
  lemma {:induction false} GoodStaysGood(w: World, acts: seq<Act>)
    requires Good(w)
    ensures Good(After(w, acts))
  {
    hide Good, Step;
    if acts != [] {
      GoodStaysGood(w, acts[..|acts| - 1]);
      StepIsGood(acts[|acts| - 1].engine, After(w, acts[..|acts| - 1]), acts[|acts| - 1].op);
    }
  }

  lemma InitialIsGood(w: World)
    requires Initial(w)
    ensures Good(w)
  {
    EmptyInv(w.store);
  }

  /** Every world reachable from a fresh memory file is good. */
  lemma ReachableIsGood(w: World, acts: seq<Act>)
    requires Initial(w)
    ensures Good(After(w, acts))
  {
    hide Good, After;
    InitialIsGood(w);
    GoodStaysGood(w, acts);
  }

  /** Later worlds continue earlier ones. */
  lemma {:induction false} LaterFollows(w: World, acts: seq<Act>, more: seq<Act>)
    requires Good(w)
    ensures Follows(After(w, acts), After(w, acts + more))
    decreases more
  {
    hide Inv, Step, Continues;
    if more == [] {
      assert acts + more == acts;
      GoodStaysGood(w, acts);
      SameWorld(After(w, acts));
    } else {
      var all, part := acts + more, acts + more[..|more| - 1];
      assert all[..|all| - 1] == part;
      LaterFollows(w, acts, more[..|more| - 1]);
      GoodStaysGood(w, part);
      var u, x, y := After(w, acts), After(w, part), After(w, all);
      StepIsGood(all[|all| - 1].engine, x, all[|all| - 1].op);
      ContinuesTransitive(u.store, StateOf(u), x.store, StateOf(x), y.store, StateOf(y));
    }
  }
}
