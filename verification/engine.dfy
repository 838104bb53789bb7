/** The engine at work on a substrate, each operation proved to do what its specification function says. */
module LoopEngine {
  import opened Basics
  import opened LoopModel
  import opened CalText
  import opened GrainStore
  import opened EngineSpec
  import opened Substrate
  import opened Steps
  import opened Reachable
  import opened Runs

  // --- lifecycle steps ---

  /** Append the audit grain of a step and advance the index. */
  method RecordStep(sub: ReferenceSubstrate, p: Persisted, a: AuditRecord) returns (q: Persisted)
    requires sub.Valid()
    modifies sub
    ensures sub.Valid() && sub.state == old(sub.state)
    ensures (sub.View(), q) == Record(old(sub.View()), p, a)
  {
    hide AuditSpec, Mint, Put;
    var hash := sub.PutGrain(AuditSpec(a));
    q := p.(auditHeads := p.auditHeads[a.recHash := hash], status := p.status[a.recHash := a.to]);
  }

  method LoadRecommendation(sub: ReferenceSubstrate, h: Hash) returns (r: Result<Recommendation, Error>)
    requires sub.Valid()
    ensures r == LoadRec(sub.View(), h)
  {
    if h !in sub.byHash { return Err(NotFound(h)); }
    var g := sub.grains[sub.byHash[h]];
    match g.fields.rec {
      case Some(rec) => r := Ok(rec);
      case None => r := Err(InvalidRecommendation);
    }
  }

  /** Count a rejection against the key of `h` and let the key rest. */
  method RestKey(sub: ReferenceSubstrate, p: Persisted, h: Hash, now: int) returns (q: Persisted)
    requires sub.Valid()
    ensures q == Penalize(sub.View(), p, h, now)
  {
    hide Backoff, LoadRec, ReferenceSubstrate.Valid, ReferenceSubstrate.View;
    q := p;
    var rec := LoadRecommendation(sub, h);
    if rec.Ok? {
      var key := rec.value.dedupKey;
      var strikes := StrikesOf(p, key);
      q := p.(strikes := p.strikes[key := Min(strikes + 1, U32_MAX)],
              cooldowns := p.cooldowns[key := now + Backoff(strikes)]);
    }
  }

  method Review(sub: ReferenceSubstrate, h: Hash, approve: bool, req: Request) returns (r: Option<Error>)
    requires sub.Valid()
    modifies sub
    ensures sub.Valid()
    ensures sub.Seen() == ReviewStep(old(sub.Seen()), h, approve, req).0
    ensures r == ReviewStep(old(sub.Seen()), h, approve, req).1
    ensures Good(old(sub.Seen())) ==> Good(sub.Seen())
  {
    hide ValidateBecause, Record, Penalize, HeadOf, Good, Follows, ReferenceSubstrate.Valid, ReferenceSubstrate.View;
    if Good(sub.Seen()) { ReviewKeeps(sub.Seen(), h, approve, req); }
    if !Has(req.scopes, ReviewScope) { return Some(ScopeDenied); }
    var because := ValidateBecause(req.because);
    if because.Err? { return Some(because.error); }
    var p := sub.LoadState();
    if h !in p.status { return Some(NotFound(h)); }
    var to := if approve then Approved else Rejected;
    if !CanTransition(p.status[h], to, false) { return Some(LifecycleViolation); }
    if approve {
      if h in p.creators && p.creators[h] == req.actor { return Some(SelfApproval); }
      if h in p.coCreators && p.coCreators[h] == req.actor { return Some(SelfApproval); }
    }
    var a := AuditRecord(h, Some(p.status[h]), to, req.actor, req.observer, because.value, HeadOf(p, h), req.now);
    p := RecordStep(sub, p, a);
    if !approve { p := RestKey(sub, p, h, req.now); }
    sub.StoreState(p);
    r := None;
  }

  method Rollback(sub: ReferenceSubstrate, h: Hash, req: Request) returns (r: Option<Error>)
    requires sub.Valid()
    modifies sub
    ensures sub.Valid()
    ensures sub.Seen() == RollbackStep(old(sub.Seen()), h, req).0
    ensures r == RollbackStep(old(sub.Seen()), h, req).1
    ensures Good(old(sub.Seen())) ==> Good(sub.Seen())
  {
    hide ValidateBecause, Record, RetractAll, HeadOf, Good, Follows, ReferenceSubstrate.Valid, ReferenceSubstrate.View;
    if Good(sub.Seen()) { RollbackKeeps(sub.Seen(), h, req); }
    if !Has(req.scopes, ApplyScope) { return Some(ScopeDenied); }
    var because := ValidateBecause(req.because);
    if because.Err? { return Some(because.error); }
    var p := sub.LoadState();
    if h !in p.status { return Some(NotFound(h)); }
    if !CanTransition(p.status[h], RolledBack, false) { return Some(LifecycleViolation); }
    if h !in p.applied { return Some(NotFound(h)); }
    if !p.applied[h].rollbackable { return Some(LifecycleViolation); }
    var failed := RetractCreated(sub, p.applied[h].created, "rollback of " + h);
    if failed.Some? { return failed; }
    var a := AuditRecord(h, Some(p.status[h]), RolledBack, req.actor, req.observer, because.value, HeadOf(p, h),
                         req.now);
    p := RecordStep(sub, p, a);
    sub.StoreState(p);
    r := None;
  }

  /** Retract grains in order until one is missing. */
  method RetractCreated(sub: ReferenceSubstrate, created: seq<Hash>, reason: string) returns (failed: Option<Error>)
    requires sub.Valid()
    modifies sub
    ensures sub.Valid() && sub.state == old(sub.state)
    ensures (sub.View(), failed) == RetractAll(old(sub.View()), created, reason)
  {
    hide RetractOp, ReferenceSubstrate.Valid, ReferenceSubstrate.View;
    ghost var start := sub.View();
    for i := 0 to |created|
      invariant sub.Valid() && sub.state == old(sub.state)
      invariant RetractAll(start, created[..i], reason) == (sub.View(), None)
    {
      assert created[..i + 1][..i] == created[..i];
      failed := sub.Retract(created[i], reason);
      if failed.Some? {
        RetractionStops(start, created, reason, i + 1);
        return;
      }
    }
    assert created[..|created|] == created;
    failed := None;
  }

  lemma {:induction false} RetractionStops(s: Store, hs: seq<Hash>, reason: string, n: nat)
    requires n <= |hs| && RetractAll(s, hs[..n], reason).1.Some?
    ensures RetractAll(s, hs, reason) == RetractAll(s, hs[..n], reason)
    decreases |hs|
  {
    hide RetractOp;
    if n == |hs| {
      assert hs[..n] == hs;
    } else {
      assert hs[..|hs| - 1][..n] == hs[..n];
      RetractionStops(s, hs[..|hs| - 1], reason, n);
    }
  }

  /** Carry out a proposal: run its batch, or roll back the recommendation it reverts. */
  method CarryOut(e: Engine, sub: ReferenceSubstrate, proposal: Proposal, req: Request)
    returns (r: Result<seq<Hash>, Error>)
    requires sub.Valid()
    modifies sub
    ensures sub.Valid()
    ensures sub.Seen() == Carry(e, old(sub.Seen()), proposal, req).0
    ensures r == Carry(e, old(sub.Seen()), proposal, req).1
  {
    hide RollbackStep, ExecAll, ParseBatch;
    match proposal {
      case Cal(cal) =>
        var created, failed := sub.ExecuteCal(e.js, cal);
        r := if failed.Some? then Err(failed.value) else Ok(created);
      case Edit(_, _, _) =>
        r := Err(InvalidProposal);
      case Data(data) =>
        var earlier := StrField(data, "revert_of");
        if earlier.None? { return Err(InvalidProposal); }
        var failed := Rollback(sub, earlier.value, req);
        r := if failed.Some? then Err(failed.value) else Ok([]);
    }
  }

  method Apply(e: Engine, sub: ReferenceSubstrate, h: Hash, allowDestructive: bool, req: Request)
    returns (r: Result<AppliedRecord, Error>)
    requires sub.Valid()
    modifies sub
    ensures sub.Valid()
    ensures sub.Seen() == ApplyStep(e, old(sub.Seen()), h, allowDestructive, req).0
    ensures r == ApplyStep(e, old(sub.Seen()), h, allowDestructive, req).1
    ensures Good(old(sub.Seen())) ==> Good(sub.Seen())
  {
    hide ValidateBecause, Conclude, Carry, LoadRec, AppliedBy, Good, Follows, ReferenceSubstrate.Valid,
         ReferenceSubstrate.View;
    if Good(sub.Seen()) { ApplyKeeps(e, sub.Seen(), h, allowDestructive, req); }
    if !Has(req.scopes, ApplyScope) { return Err(ScopeDenied); }
    var because := ValidateBecause(req.because);
    if because.Err? { return Err(because.error); }
    var p := sub.LoadState();
    if h !in p.status { return Err(NotFound(h)); }
    var status := p.status[h];
    if !CanTransition(status, Applied, false) { return Err(LifecycleViolation); }
    var loaded := LoadRecommendation(sub, h);
    if loaded.Err? { return Err(loaded.error); }
    var rec := loaded.value;
    if rec.destructive && (!Has(req.scopes, AdminScope) || !allowDestructive) { return Err(DestructiveGated); }
    var carried := CarryOut(e, sub, rec.proposal, req.(because := because.value));
    if carried.Err? { return Err(carried.error); }
    r := Ok(AppliedBy(rec, carried.value, req.now));
    FinishApply(sub, h, status, rec, carried.value, because.value, req);
  }

  /** The state is loaded again because a nested rollback has stored a newer one. */
  method FinishApply(sub: ReferenceSubstrate, h: Hash, from: Status, rec: Recommendation, created: seq<Hash>,
                     because: string, req: Request)
    requires sub.Valid()
    modifies sub
    ensures sub.Valid() && sub.Seen() == Conclude(old(sub.Seen()), h, from, rec, created, because, req)
  {
    hide Record, HeadOf, AppliedBy, ReferenceSubstrate.Valid, ReferenceSubstrate.View;
    var p := sub.LoadState();
    p := RecordStep(sub, p,
                    AuditRecord(h, Some(from), Applied, req.actor, req.observer, because, HeadOf(p, h), req.now));
    sub.StoreState(p.(applied := p.applied[h := AppliedBy(rec, created, req.now)]));
  }

  /** Ask what an apply would refuse, without writing anything. */
  method PreflightApply(sub: ReferenceSubstrate, h: Hash, scopes: set<Scope>, allowDestructive: bool)
    returns (r: Option<Error>)
    requires sub.Valid()
    ensures r == PreflightError(sub.View(), h, scopes, allowDestructive)
  {
    if !Has(scopes, ApplyScope) { return Some(ScopeDenied); }
    var rec := LoadRecommendation(sub, h);
    if rec.Err? { return Some(rec.error); }
    if rec.value.destructive && (!Has(scopes, AdminScope) || !allowDestructive) { return Some(DestructiveGated); }
    if !Executable(rec.value.proposal) { return Some(InvalidProposal); }
    r := None;
  }

  // --- a run ---

  method StampFindings(findings: seq<Finding>, now: int) returns (candidates: seq<Recommendation>)
    ensures candidates == Candidates(findings, now)
  {
    hide Stamp;
    candidates := [];
    for i := 0 to |findings|
      invariant candidates == Candidates(findings[..i], now)
    {
      assert findings[..i + 1][..i] == findings[..i];
      var stamped := Stamp(findings[i], now);
      if stamped.Some? { candidates := candidates + [stamped.value]; }
    }
    assert findings[..|findings|] == findings;
  }

  /** Dedup keys held by open recommendations of the store, whatever their grains' liveness. */
  method CollectExistingKeys(sub: ReferenceSubstrate, p: Persisted) returns (keys: set<string>)
    requires sub.Valid()
    ensures keys == ExistingKeys(sub.View(), p)
  {
    hide Mint;
    keys := {};
    for i := 0 to |sub.grains|
      invariant keys == set j | 0 <= j < i && Occupies(p, sub.grains[j]) ::
                  StrField(sub.grains[j].fields.entries, "dedup_key").value
    {
      var g := sub.grains[i];
      if IsLoopRec(g) && IsOpen(StatusOf(p, g.hash)) {
        var key := StrField(g.fields.entries, "dedup_key");
        if key.Some? { keys := keys + {key.value}; }
      }
    }
    KeysByPosition(sub, p, keys);
  }

  lemma KeysByPosition(sub: ReferenceSubstrate, p: Persisted, keys: set<string>)
    requires sub.Valid()
    requires keys == set j | 0 <= j < |sub.grains| && Occupies(p, sub.grains[j]) ::
               StrField(sub.grains[j].fields.entries, "dedup_key").value
    ensures keys == ExistingKeys(sub.View(), p)
  {
    hide Mint, StrField;
    var s := sub.View();
    forall key | key in keys ensures key in ExistingKeys(s, p) {
      var j :| 0 <= j < |sub.grains| && Occupies(p, sub.grains[j])
        && StrField(sub.grains[j].fields.entries, "dedup_key").value == key;
      assert s.grains[sub.grains[j].hash] == sub.grains[j];
    }
    forall key | key in ExistingKeys(s, p) ensures key in keys {
      var h :| h in s.grains && Occupies(p, s.grains[h])
        && StrField(s.grains[h].fields.entries, "dedup_key").value == key;
      assert sub.grains[sub.byHash[h]] == s.grains[h];
    }
  }

  method SiftCandidates(policy: Policy, p: Persisted, existing: set<string>, candidates: seq<Recommendation>, now: int)
    returns (survivors: seq<Recommendation>)
    ensures survivors == Sift(policy, p, existing, candidates, now).kept
  {
    hide BelowFloor, Cooling;
    var seen: set<string> := {};
    survivors := [];
    for i := 0 to |candidates|
      invariant Sift(policy, p, existing, candidates[..i], now) == Sifted(seen, survivors)
    {
      assert candidates[..i + 1][..i] == candidates[..i];
      var c := candidates[i];
      if BelowFloor(policy, p, c) { continue; }
      if c.dedupKey in seen { continue; }
      seen := seen + {c.dedupKey};
      if c.dedupKey in existing { continue; }
      if Cooling(p, c.dedupKey, now) { continue; }
      survivors := survivors + [c];
    }
    assert candidates[..|candidates|] == candidates;
  }

  /** Run the batch of a recommendation the policy may apply, and record it as applied. */
  method AutoApplyTo(e: Engine, sub: ReferenceSubstrate, p: Persisted, h: Hash, rec: Recommendation, now: int)
    returns (q: Persisted, failed: Option<Error>)
    requires sub.Valid()
    modifies sub
    ensures sub.Valid() && sub.state == old(sub.state)
    ensures forall n: nat ::
              AutoApply(e, Progress(old(sub.View()), p, n, None), h, rec, now)
              == Progress(sub.View(), q, if failed.None? then n + 1 else n, failed)
  {
    hide ExecAll, ParseBatch, Put, AuditSpec, Mint;
    q, failed := p, None;
    var created: seq<Hash> := [];
    if rec.proposal.Cal? {
      created, failed := sub.ExecuteCal(e.js, rec.proposal.cal);
      if failed.Some? { return; }
    }
    q := RecordStep(sub, q, AutoRecord(h, HeadOf(q, h), now));
    q := q.(applied := q.applied[h := AppliedBy(rec, created, now)]);
  }

  /** Store a survivor as pending, and apply it at once when the policy grants that. */
  method StoreSurvivor(e: Engine, sub: ReferenceSubstrate, p: Persisted, autoApplied: nat, rec: Recommendation,
                       trigger: Option<string>, now: int)
    returns (q: Persisted, count: nat, failed: Option<Error>)
    requires sub.Valid()
    modifies sub
    ensures sub.Valid() && sub.state == old(sub.state)
    ensures StoreOne(e, Progress(old(sub.View()), p, autoApplied, None), rec, trigger, now)
            == Progress(sub.View(), q, count, failed)
  {
    hide Put, RecSpec, AuditSpec, Mint, AutoApply, CanAutoApply;
    var hash := sub.PutGrain(RecSpec(rec));
    q := RecordStep(sub, p, PendingRecord(rec, hash, now));
    q := q.(creators := q.creators[hash := "engine:" + rec.analyzer]);
    if !rec.origin.Builtin? {
      if trigger.Some? { q := q.(coCreators := q.coCreators[hash := trigger.value]); }
    }
    assert (sub.View(), q) == Propose(old(sub.View()), p, rec, trigger, now);
    count, failed := autoApplied, None;
    if CanAutoApply(e, sub.View(), rec) {
      q, failed := AutoApplyTo(e, sub, q, hash, rec, now);
      if failed.None? { count := count + 1; }
    }
  }

  /** Measure, analyze, store: one run, or none when its gate is not met. */
  method Run(e: Engine, sub: ReferenceSubstrate, input: RunInput) returns (r: Result<RunReport, Error>)
    requires sub.Valid()
    modifies sub
    ensures sub.Valid()
    ensures sub.Seen() == RunStep(e, old(sub.Seen()), input).0
    ensures r == RunStep(e, old(sub.Seen()), input).1
    ensures Good(old(sub.Seen())) ==> Good(sub.Seen())
  {
    hide MeasureOutcomes, Candidates, Sift, ExistingKeys, StoreAll, Gate, Good, Follows, ReferenceSubstrate.Valid,
         ReferenceSubstrate.View;
    if Good(sub.Seen()) { RunKeeps(e, sub.Seen(), input); }
    var p := sub.LoadState();
    var now, trigger := input.now, input.opts.trigger;
    var gate := Gate(input.opts, p, input.newGrains, input.newErrors, now);
    if gate.Some? { return Ok(Skipped(gate.value)); }
    p := MeasureDue(e, sub.View(), p, now);
    var candidates := StampFindings(input.findings, now);
    var existing := CollectExistingKeys(sub, p);
    var survivors := SiftCandidates(e.policy, p, existing, candidates, now);
    var autoApplied, failed;
    p, autoApplied, failed := StoreSurvivors(e, sub, p, survivors, trigger, now);
    if failed.Some? { return Err(failed.value); }
    sub.StoreState(p.(lastRun := Some(now), watermark := Some(now)));
    r := Ok(Ran(|candidates|, |candidates| - |survivors|, |survivors|, autoApplied));
  }

  /** Store survivors in order until one fails. */
  method StoreSurvivors(e: Engine, sub: ReferenceSubstrate, p: Persisted, survivors: seq<Recommendation>,
                        trigger: Option<string>, now: int)
    returns (q: Persisted, autoApplied: nat, failed: Option<Error>)
    requires sub.Valid()
    modifies sub
    ensures sub.Valid() && sub.state == old(sub.state)
    ensures StoreAll(e, old(sub.View()), p, survivors, trigger, now) == Progress(sub.View(), q, autoApplied, failed)
  {
    hide StoreOne;
    ghost var start := sub.View();
    q, autoApplied, failed := p, 0, None;
    assert survivors[..0] == [];
    for i := 0 to |survivors|
      invariant sub.Valid() && sub.state == old(sub.state) && failed == None
      invariant StoreAll(e, start, p, survivors[..i], trigger, now) == Progress(sub.View(), q, autoApplied, None)
    {
      assert survivors[..i + 1][..i] == survivors[..i];
      q, autoApplied, failed := StoreSurvivor(e, sub, q, autoApplied, survivors[i], trigger, now);
      if failed.Some? {
        StoringStops(e, start, p, survivors, trigger, now, i + 1);
        return;
      }
    }
    assert survivors[..|survivors|] == survivors;
  }

  lemma {:induction false} StoringStops(e: Engine, s: Store, p: Persisted, recs: seq<Recommendation>,
                                        trigger: Option<string>, now: int, n: nat)
    requires n <= |recs| && StoreAll(e, s, p, recs[..n], trigger, now).failed.Some?
    ensures StoreAll(e, s, p, recs, trigger, now) == StoreAll(e, s, p, recs[..n], trigger, now)
    decreases |recs|
  {
    hide CanAutoApply, AutoApply, Propose;
    if n == |recs| {
      assert recs[..n] == recs;
    } else {
      assert recs[..|recs| - 1][..n] == recs[..n];
      StoringStops(e, s, p, recs[..|recs| - 1], trigger, now, n);
    }
  }

  // --- measuring ---

  /** The checkpoints of `h` in a list of due ones. */
  ghost function CheckpointsOf(due: seq<(Hash, int)>, h: Hash): seq<int> {
    if due == [] then []
    else
      var last := due[|due| - 1];
      CheckpointsOf(due[..|due| - 1], h) + if last.0 == h then [last.1] else []
  }

  /** The checkpoints of an applied recommendation that are due, measurable or not. */
  function DueOf(p: Persisted, h: Hash, now: int): seq<int> {
    if h !in p.applied || h !in p.status || p.status[h] != Applied || p.applied[h].metric.None? then []
    else Due(Horizons(p.applied[h].metric.value), now - p.applied[h].appliedAt, MeasuredOf(p, h))
  }

  /** The list holds the due checkpoints of every recommendation outside `keys`, and none of those inside. */
  ghost predicate DueListed(due: seq<(Hash, int)>, p: Persisted, keys: set<Hash>, now: int) {
    forall h :: CheckpointsOf(due, h) == if h in keys then [] else DueOf(p, h, now)
  }

  lemma ListedNext(before: seq<(Hash, int)>, due: seq<(Hash, int)>, p: Persisted, keys: set<Hash>, h: Hash, now: int)
    requires h in keys && DueListed(before, p, keys, now)
    requires CheckpointsOf(due, h) == CheckpointsOf(before, h) + DueOf(p, h, now)
    requires forall g | g != h :: CheckpointsOf(due, g) == CheckpointsOf(before, g)
    ensures DueListed(due, p, keys - {h}, now)
  {
    hide CheckpointsOf, DueOf;
  }

  lemma NothingListed(p: Persisted, now: int)
    ensures DueListed([], p, p.applied.Keys, now)
  {
    hide Due, Horizons;
  }

  method CollectDue(p: Persisted, now: int) returns (due: seq<(Hash, int)>)
    ensures DueListed(due, p, {}, now)
  {
    hide DueListed, CheckpointsOf, Horizons, Due;
    due := [];
    var keys := p.applied.Keys;
    NothingListed(p, now);
    while keys != {}
      invariant keys <= p.applied.Keys && DueListed(due, p, keys, now)
      decreases |keys|
    {
      var h :| h in keys;
      ghost var before := due;
      if h in p.status && p.status[h].Applied? && p.applied[h].metric.Some? {
        due := AppendDue(due, h, Horizons(p.applied[h].metric.value), now - p.applied[h].appliedAt, MeasuredOf(p, h));
      }
      ListedNext(before, due, p, keys, h, now);
      keys := keys - {h};
    }
  }

  method AppendDue(due0: seq<(Hash, int)>, h: Hash, horizons: seq<int>, elapsed: int, done: seq<int>)
    returns (due: seq<(Hash, int)>)
    ensures CheckpointsOf(due, h) == CheckpointsOf(due0, h) + Due(horizons, elapsed, done)
    ensures forall g | g != h :: CheckpointsOf(due, g) == CheckpointsOf(due0, g)
  {
    due := due0;
    for i := 0 to |horizons|
      invariant CheckpointsOf(due, h) == CheckpointsOf(due0, h) + Due(horizons[..i], elapsed, done)
      invariant forall g | g != h :: CheckpointsOf(due, g) == CheckpointsOf(due0, g)
    {
      assert horizons[..i + 1][..i] == horizons[..i];
      if elapsed >= horizons[i] && horizons[i] !in done {
        ghost var before := due;
        due := due + [(h, horizons[i])];
        assert due[..|due| - 1] == before;
      }
    }
    assert horizons[..|horizons|] == horizons;
  }

  /** Everything on the list has been taken. */
  ghost predicate ListTaken(e: Engine, s: Store, p: Persisted, q: Persisted, due: seq<(Hash, int)>, now: int) {
    && q == p.(measured := q.measured, outcomes := q.outcomes)
    && forall h :: Taken(e, s, p, q, h, CheckpointsOf(due, h), now)
  }

  /** Re-measure every due checkpoint whose metric can be re-measured. */
  method MeasureDue(e: Engine, s: Store, p: Persisted, now: int) returns (q: Persisted)
    ensures q == MeasureOutcomes(e, s, p, now)
  {
    hide DueListed, ListTaken, CheckpointsOf, Horizons, Due, MeasureOutcomes, MeasuredOf, OutcomesOf;
    var due := CollectDue(p, now);
    q := p;
    NothingTaken(e, s, p, now);
    assert due[..0] == [];
    for i := 0 to |due|
      invariant ListTaken(e, s, p, q, due[..i], now)
    {
      var (h, horizon) := due[i];
      DueIsApplied(p, due, i, now);
      var a := p.applied[h];
      var m := a.metric.value;
      var current := e.measure(s, m, a.appliedAt);
      ghost var before := q;
      if current.Some? {
        var o := Outcome(h, m.kind, m.baseline, current.value, current.value > m.baseline + EPSILON, horizon, now);
        q := q.(outcomes := q.outcomes[h := OutcomesOf(q, h) + [o]],
                measured := q.measured[h := MeasuredOf(q, h) + [horizon]]);
      }
      NextTaken(e, s, p, before, q, due, i, now);
    }
    assert due[..|due|] == due;
    AllTaken(e, s, p, q, due, now);
  }

  /** The measurement of one checkpoint. */
  predicate TakesOne(e: Engine, s: Store, p: Persisted, before: Persisted, q: Persisted, h: Hash, horizon: int,
                     now: int)
    requires h in p.applied && p.applied[h].metric.Some?
  {
    var current := e.measure(s, p.applied[h].metric.value, p.applied[h].appliedAt);
    if current.None? then q == before
    else
      var o := OutcomeAt(h, p.applied[h].metric.value, current.value, horizon, now);
      q == before.(outcomes := before.outcomes[h := OutcomesOf(before, h) + [o]],
                   measured := before.measured[h := MeasuredOf(before, h) + [horizon]])
  }

  lemma NextTaken(e: Engine, s: Store, p: Persisted, before: Persisted, q: Persisted, due: seq<(Hash, int)>, i: nat,
                  now: int)
    requires i < |due| && due[i].0 in p.applied && p.applied[due[i].0].metric.Some?
    requires ListTaken(e, s, p, before, due[..i], now) && TakesOne(e, s, p, before, q, due[i].0, due[i].1, now)
    ensures ListTaken(e, s, p, q, due[..i + 1], now)
  {
    hide Taken, CheckpointsOf, MeasuredOf, OutcomesOf;
    var part := due[..i + 1];
    NextCheckpoint(due, i);
    forall g ensures Taken(e, s, p, q, g, CheckpointsOf(part, g), now) {
      assert Taken(e, s, p, before, g, CheckpointsOf(due[..i], g), now);
      OneMoreTaken(e, s, p, before, q, due[i].0, due[i].1, g, CheckpointsOf(due[..i], g), now);
    }
  }

  lemma NextCheckpoint(due: seq<(Hash, int)>, i: nat)
    requires i < |due|
    ensures forall h ::
              CheckpointsOf(due[..i + 1], h) == CheckpointsOf(due[..i], h) + if due[i].0 == h then [due[i].1] else []
  {
    assert due[..i + 1][..i] == due[..i];
  }

  lemma {:induction false} CheckpointListed(due: seq<(Hash, int)>, i: nat)
    requires i < |due|
    ensures CheckpointsOf(due, due[i].0) != []
  {
    if i < |due| - 1 { CheckpointListed(due[..|due| - 1], i); }
  }

  lemma DueIsApplied(p: Persisted, due: seq<(Hash, int)>, i: nat, now: int)
    requires i < |due| && DueListed(due, p, {}, now)
    ensures var h := due[i].0; h in p.applied && h in p.status && p.status[h].Applied? && p.applied[h].metric.Some?
  {
    CheckpointListed(due, i);
    hide Due, Horizons, CheckpointsOf;
    assert DueOf(p, due[i].0, now) != [];
  }

  /** What has been measured of `h` once the checkpoints `taken` of it have been gone through. */
  ghost predicate Taken(e: Engine, s: Store, p: Persisted, q: Persisted, h: Hash, taken: seq<int>, now: int) {
    var current := if h in p.applied && p.applied[h].metric.Some?
      then e.measure(s, p.applied[h].metric.value, p.applied[h].appliedAt)
                   else None;
    var ms := if current.Some? then taken else [];
    && MeasuredOf(q, h) == MeasuredOf(p, h) + ms
    && OutcomesOf(q, h) == OutcomesOf(p, h)
       + (if ms == [] then [] else OutcomesAt(h, p.applied[h].metric.value, current.value, ms, now))
    && (h in q.measured <==> h in p.measured || ms != [])
    && (h in q.outcomes <==> h in p.outcomes || ms != [])
  }

  lemma NothingTaken(e: Engine, s: Store, p: Persisted, now: int)
    ensures ListTaken(e, s, p, p, [], now)
  {
  }

  lemma OneMoreTaken(e: Engine, s: Store, p: Persisted, before: Persisted, q: Persisted, h: Hash, horizon: int, g: Hash,
                     taken: seq<int>, now: int)
    requires h in p.applied && p.applied[h].metric.Some? && Taken(e, s, p, before, g, taken, now)
    requires TakesOne(e, s, p, before, q, h, horizon, now)
    ensures Taken(e, s, p, q, g, taken + if h == g then [horizon] else [], now)
  {
    if h == g {
      OneMoreHere(e, s, p, before, q, h, horizon, taken, now);
    } else {
      assert taken + [] == taken;
      hide OutcomeAt, OutcomesAt;
    }
  }

  lemma OneMoreHere(e: Engine, s: Store, p: Persisted, before: Persisted, q: Persisted, h: Hash, horizon: int,
                    taken: seq<int>, now: int)
    requires h in p.applied && p.applied[h].metric.Some? && Taken(e, s, p, before, h, taken, now)
    requires TakesOne(e, s, p, before, q, h, horizon, now)
    ensures Taken(e, s, p, q, h, taken + [horizon], now)
  {
    var m, current := p.applied[h].metric.value, e.measure(s, p.applied[h].metric.value, p.applied[h].appliedAt);
    hide OutcomeAt, OutcomesAt, Horizons;
    if current.Some? {
      OutcomesAtNext(h, m, current.value, taken, horizon, now);
      AppendLast(MeasuredOf(p, h), taken, horizon);
      AppendLast(OutcomesOf(p, h), OutcomesAt(h, m, current.value, taken, now),
                 OutcomeAt(h, m, current.value, horizon, now));
      assert MeasuredOf(q, h) == MeasuredOf(before, h) + [horizon];
      assert OutcomesOf(q, h) == OutcomesOf(before, h) + [OutcomeAt(h, m, current.value, horizon, now)];
      hide MeasuredOf, OutcomesOf;
    }
  }

  lemma AppendLast<T>(a: seq<T>, b: seq<T>, x: T)
    ensures a + (b + [x]) == (a + b) + [x]
    ensures a + [] == a
  {
  }

  lemma OutcomesAtNext(h: Hash, m: Metric, current: real, taken: seq<int>, horizon: int, now: int)
    ensures OutcomesAt(h, m, current, taken + [horizon], now)
            == OutcomesAt(h, m, current, taken, now) + [OutcomeAt(h, m, current, horizon, now)]
    ensures OutcomesAt(h, m, current, [], now) == []
  {
    hide OutcomeAt;
  }

  lemma AllTaken(e: Engine, s: Store, p: Persisted, q: Persisted, due: seq<(Hash, int)>, now: int)
    requires ListTaken(e, s, p, q, due, now) && DueListed(due, p, {}, now)
    ensures q == MeasureOutcomes(e, s, p, now)
  {
    hide Taken, DueOf, CheckpointsOf, MeasureOutcomes;
    var r := MeasureOutcomes(e, s, p, now);
    forall h ensures (h in q.measured <==> h in r.measured) && (h in q.outcomes <==> h in r.outcomes)
                     && (h in q.measured ==> q.measured[h] == r.measured[h])
                     && (h in q.outcomes ==> q.outcomes[h] == r.outcomes[h])
    {
      assert Taken(e, s, p, q, h, CheckpointsOf(due, h), now) && CheckpointsOf(due, h) == DueOf(p, h, now);
      SameAsMeasured(e, s, p, q, h, now);
    }
    assert q.measured == r.measured && q.outcomes == r.outcomes;
    OnlyMeasures(e, s, p, now);
  }

  lemma OnlyMeasures(e: Engine, s: Store, p: Persisted, now: int)
    ensures var r := MeasureOutcomes(e, s, p, now); r == p.(measured := r.measured, outcomes := r.outcomes)
  {
  }

  lemma SameAsMeasured(e: Engine, s: Store, p: Persisted, q: Persisted, h: Hash, now: int)
    requires Taken(e, s, p, q, h, DueOf(p, h, now), now)
    ensures var r := MeasureOutcomes(e, s, p, now);
            && (h in q.measured <==> h in r.measured) && (h in q.outcomes <==> h in r.outcomes)
            && (h in q.measured ==> q.measured[h] == r.measured[h])
            && (h in q.outcomes ==> q.outcomes[h] == r.outcomes[h])
  {
    hide Due, Horizons, OutcomesAt;
    var r := MeasureOutcomes(e, s, p, now);
    MeasuredAfter(e, s, p, now, h);
    NothingToMeasure(e, s, p, now, h);
    assert h in r.measured <==> h in p.measured || MeasuredNow(e, s, p, h, now) != [];
    assert h in r.outcomes <==> h in p.outcomes || MeasuredNow(e, s, p, h, now) != [];
    assert h in q.measured ==> MeasuredOf(q, h) == q.measured[h];
    assert h in q.outcomes ==> OutcomesOf(q, h) == q.outcomes[h];
  }
}
