/** A finding that keeps being rejected comes back ever more rarely. */
module Rejections {
  import opened Basics
  import opened LoopModel
  import opened CalText
  import opened GrainStore
  import opened EngineSpec
  import opened Invariants
  import opened Steps
  import opened Reachable
  import opened Runs
  import opened Guarantees

  // --- the interval after a rejection ---

  lemma {:induction false} Pow2Grows(m: nat, n: nat)
    requires m <= n
    ensures Pow2(m) <= Pow2(n) && Pow2(m) >= 1
    decreases n
  {
    if m < n { Pow2Grows(m, n - 1); } else if m > 0 { Pow2Grows(m - 1, n - 1); }
  }

  lemma {:induction false} Pow2Adds(m: nat, n: nat)
    ensures Pow2(m + n) == Pow2(m) * Pow2(n)
  {
    if m > 0 {
      Pow2Adds(m - 1, n);
      assert Pow2(m + n) == 2 * Pow2((m - 1) + n) && Pow2(m) == 2 * Pow2(m - 1);
    }
  }

  lemma SomePowers()
    ensures Pow2(4) == 16 && Pow2(31) == 0x8000_0000
  {
    assert Pow2(1) == 2 && Pow2(2) == 4 && Pow2(4) == 16 by {
      assert Pow2(0) == 1;
      assert Pow2(3) == 8;
    }
    Pow2Adds(4, 4);
    Pow2Adds(8, 8);
    Pow2Adds(16, 8);
    Pow2Adds(24, 4);
    Pow2Adds(28, 2);
    Pow2Adds(30, 1);
  }

  /** Seven days, doubled per earlier rejection and capped at ninety: neither the shift bound nor the
      saturating product ever shows. */
  lemma BackoffIsDoubling(strikes: nat)
    ensures Backoff(strikes) == Min(7 * DAY_MS * Pow2(strikes), 90 * DAY_MS)
    ensures BASE_MS * Pow2(Min(strikes, 31)) <= I64_MAX
  {
    SomePowers();
    hide Pow2;
    var n := Min(strikes, 31);
    Pow2Grows(n, 31);
    if strikes > 31 {
      Pow2Grows(4, strikes);
      Pow2Grows(4, 31);
    }
  }

  lemma SaturatedStrikesDoNotMatter(n: nat)
    ensures Backoff(Min(n, U32_MAX)) == Backoff(n)
  {
    hide Pow2;
  }

  // --- what one operation does to the cooldown of a key ---

  /** The operation is a rejection that goes through, of a recommendation for `key`. */
  predicate RejectsKey(w: World, op: Op, key: string) {
    && op.Review? && !op.approve && ReviewStep(w, op.h, false, op.req).1.None?
    && LoadRec(w.store, op.h).Ok? && LoadRec(w.store, op.h).value.dedupKey == key
  }

  function CooldownOf(p: Persisted, key: string): Option<int> {
    if key in p.cooldowns then Some(p.cooldowns[key]) else None
  }

  predicate SameRest(p: Persisted, q: Persisted) {
    q.cooldowns == p.cooldowns && q.strikes == p.strikes
  }

  lemma RunRests(e: Engine, w: World, input: RunInput)
    ensures SameRest(StateOf(w), StateOf(RunStep(e, w, input).0))
  {
    hide MeasureOutcomes, Survivors, StoreAll, Candidates, Gate;
    var p := MeasureOutcomes(e, w.store, StateOf(w), input.now);
    MeasuringKeepsRest(e, w.store, StateOf(w), input.now);
    StoreAllKeepsRest(e, w.store, p, Survivors(e, w.store, p, Candidates(input.findings, input.now), input.now),
                      input.opts.trigger, input.now);
  }

  lemma RollbackRests(w: World, h: Hash, req: Request)
    ensures SameRest(StateOf(w), StateOf(RollbackStep(w, h, req).0))
  {
    hide RetractAll, RollbackError, StepRecord, ValidateBecause, Put, AuditSpec, Mint;
  }

  lemma CarryRests(e: Engine, w: World, proposal: Proposal, req: Request)
    ensures SameRest(StateOf(w), StateOf(Carry(e, w, proposal, req).0))
  {
    hide RollbackStep, ExecAll, ParseBatch, SameRest;
    SameRestReflexive(StateOf(w));
    match proposal
    case Cal(_) =>
    case Edit(_, _, _) =>
    case Data(data) =>
      if StrField(data, "revert_of").Some? {
        RollbackRests(w, StrField(data, "revert_of").value, req);
      }
  }

  lemma SameRestReflexive(p: Persisted)
    ensures SameRest(p, p)
  {
  }

  lemma ApplyRests(e: Engine, w: World, h: Hash, allowDestructive: bool, req: Request)
    ensures SameRest(StateOf(w), StateOf(ApplyStep(e, w, h, allowDestructive, req).0))
  {
    hide Carry, ApplyError, ValidateBecause, Put, AuditSpec, Mint, AppliedBy;
    if ApplyError(w.store, StateOf(w), h, allowDestructive, req).None? {
      ApplyAllowed(w.store, StateOf(w), h, allowDestructive, req);
      CarryRests(e, w, LoadRec(w.store, h).value.proposal, req.(because := ValidateBecause(req.because).value));
    }
  }

  lemma ReviewRests(w: World, h: Hash, approve: bool, req: Request)
    requires Good(w)
    ensures var p, q := StateOf(w), StateOf(ReviewStep(w, h, approve, req).0);
            if approve || ReviewStep(w, h, approve, req).1.Some? then SameRest(p, q)
            else
              && LoadRec(w.store, h).Ok?
              && var key := LoadRec(w.store, h).value.dedupKey;
                 && q.cooldowns == p.cooldowns[key := req.now + Backoff(StrikesOf(p, key))]
                 && q.strikes == p.strikes[key := Min(StrikesOf(p, key) + 1, U32_MAX)]
  {
    var p, to := StateOf(w), if approve then Approved else Rejected;
    hide Inv, Backoff, Penalize, ReviewError, StepRecord, IsRec, AuditSpec, Put, ValidateBecause;
    if ReviewError(p, h, to, req).None? {
      ReviewAllowed(p, h, to, req);
      KnownRec(w.store, p, h);
      InvIsWf(w);
      var a := StepRecord(p, h, to, req);
      RecExtendsByPut(w.store, AuditSpec(a), h);
      var (s', q0) := Record(w.store, p, a);
      PenaltyRestsOneKey(s', q0, h, req.now);
    }
  }

  /** Only a rejection of the key touches its cooldown and its strikes. */
  lemma StepRests(e: Engine, w: World, op: Op, key: string)
    requires Good(w)
    ensures var p, q := StateOf(w), StateOf(Step(e, w, op));
            if RejectsKey(w, op, key) then
              CooldownOf(q, key) == Some(op.req.now + Backoff(StrikesOf(p, key)))
              && StrikesOf(q, key) == Min(StrikesOf(p, key) + 1, U32_MAX)
            else CooldownOf(q, key) == CooldownOf(p, key) && StrikesOf(q, key) == StrikesOf(p, key)
  {
    hide Inv, Backoff, RunStep, ReviewStep, ApplyStep, RollbackStep, ExecAll, ParseBatch, Put, SupersedeOp, RetractOp,
         LoadRec;
    match op
    case Run(input) => RunRests(e, w, input);
    case Review(h, approve, req) => ReviewRests(w, h, approve, req);
    case Apply(h, allowDestructive, req) => ApplyRests(e, w, h, allowDestructive, req);
    case Rollback(h, req) => RollbackRests(w, h, req);
    case Configure(_, _) =>
    case HostPut(_) =>
    case HostSupersede(_, _) =>
    case HostRetract(_, _) =>
    case HostCal(_) =>
  }

  // --- recommendations come from earlier runs ---

  function TimeOf(op: Op): Option<int> {
    match op
    case Run(input) => Some(input.now)
    case Review(_, _, req) => Some(req.now)
    case Apply(_, _, req) => Some(req.now)
    case Rollback(_, req) => Some(req.now)
    case _ => None
  }

  /** The clock never runs backwards from one engine operation to a later one. */
  predicate InOrder(acts: seq<Act>) {
    forall i, j | 0 <= i < j < |acts| && TimeOf(acts[i].op).Some? && TimeOf(acts[j].op).Some? ::
      TimeOf(acts[i].op).value <= TimeOf(acts[j].op).value
  }

  predicate SameEntries(p: Persisted, q: Persisted) {
    q.status.Keys == p.status.Keys
  }

  lemma RecordEntries(s: Store, p: Persisted, a: AuditRecord)
    requires a.recHash in p.status
    ensures SameEntries(p, Record(s, p, a).1)
  {
  }

  lemma ReviewEntries(w: World, h: Hash, approve: bool, req: Request)
    ensures SameEntries(StateOf(w), StateOf(ReviewStep(w, h, approve, req).0))
  {
    var p, to := StateOf(w), if approve then Approved else Rejected;
    hide ReviewError, ValidateBecause, Backoff, Put, AuditSpec, Mint, SameEntries;
    assert SameEntries(p, p) by { SameEntriesReflexive(p); }
    if ReviewError(p, h, to, req).None? {
      ReviewAllowed(p, h, to, req);
      RecordEntries(w.store, p, StepRecord(p, h, to, req));
      var (s, q) := Record(w.store, p, StepRecord(p, h, to, req));
      hide Record;
      PenaltyEntries(s, q, h, req.now);
      SameEntriesTransitive(p, q, Penalize(s, q, h, req.now));
    }
  }

  lemma SameEntriesReflexive(p: Persisted)
    ensures SameEntries(p, p)
  {
  }

  lemma SameEntriesTransitive(p: Persisted, q: Persisted, r: Persisted)
    requires SameEntries(p, q) && SameEntries(q, r)
    ensures SameEntries(p, r)
  {
  }

  lemma PenaltyEntries(s: Store, p: Persisted, h: Hash, now: int)
    ensures SameEntries(p, Penalize(s, p, h, now))
  {
  }

  lemma RollbackEntries(w: World, h: Hash, req: Request)
    ensures SameEntries(StateOf(w), StateOf(RollbackStep(w, h, req).0))
  {
    var p := StateOf(w);
    hide RollbackError, ValidateBecause, RetractAll, Record, SameEntries;
    SameEntriesReflexive(p);
    if RollbackError(p, h, req).None? {
      RollbackAllowed(p, h, req);
      var s := RetractAll(w.store, p.applied[h].created, "rollback of " + h).0;
      RecordEntries(s, p, StepRecord(p, h, RolledBack, req));
    }
  }

  lemma ApplyEntries(e: Engine, w: World, h: Hash, allowDestructive: bool, req: Request)
    requires Good(w)
    ensures SameEntries(StateOf(w), StateOf(ApplyStep(e, w, h, allowDestructive, req).0))
  {
    var p := StateOf(w);
    hide Inv, ApplyError, Carry, ValidateBecause, Record, SameEntries, AppliedBy;
    SameEntriesReflexive(p);
    if ApplyError(w.store, p, h, allowDestructive, req).None? {
      ApplyAllowed(w.store, p, h, allowDestructive, req);
      var because := ValidateBecause(req.because).value;
      var rec, inner := LoadRec(w.store, h).value, req.(because := because);
      CarryEntries(e, w, rec.proposal, inner);
      CarryKeeps(e, w, rec.proposal, inner, h);
      var (after, carried) := Carry(e, w, rec.proposal, inner);
      var q := StateOf(after);
      var a := AuditRecord(h, Some(p.status[h]), Applied, req.actor, req.observer, because, HeadOf(q, h), req.now);
      RecordEntries(after.store, q, a);
      SameEntriesTransitive(p, q, Record(after.store, q, a).1);
      if carried.Ok? {
        var q1 := Record(after.store, q, a).1;
        EntriesByStatus(p, q1, q1.(applied := q1.applied[h := AppliedBy(rec, carried.value, req.now)]));
      }
    }
  }

  lemma EntriesByStatus(p: Persisted, q: Persisted, r: Persisted)
    requires SameEntries(p, q) && r.status == q.status
    ensures SameEntries(p, r)
  {
  }

  lemma CarryEntries(e: Engine, w: World, proposal: Proposal, req: Request)
    ensures SameEntries(StateOf(w), StateOf(Carry(e, w, proposal, req).0))
  {
    hide RollbackStep, ExecAll, ParseBatch, SameEntries;
    SameEntriesReflexive(StateOf(w));
    match proposal
    case Cal(_) =>
    case Edit(_, _, _) =>
    case Data(data) =>
      if StrField(data, "revert_of").Some? {
        RollbackEntries(w, StrField(data, "revert_of").value, req);
      }
  }

  /** A run indexes only survivors of its own, created at its own time, at addresses not taken before. */
  lemma RunEntries(e: Engine, w: World, input: RunInput, h: Hash)
    requires Good(w) && h in StateOf(RunStep(e, w, input).0).status && h !in StateOf(w).status
    ensures var v := RunStep(e, w, input).0;
            && IsRec(v.store, h) && RecAt(v.store, h).createdAt == input.now
            && RecAt(v.store, h) in RunSurvivors(e, w, input)
    ensures h !in w.store.grains
  {
    hide Inv, Continues, Wf, Extends, MeasureOutcomes, Survivors, StoreAll, Gate, HeldOnlyBy, Candidates, IsRec, RecAt;
    NewEntriesAreAccountable(e, w, input, h);
    var p := MeasureOutcomes(e, w.store, StateOf(w), input.now);
    MeasureKeeps(e, w.store, StateOf(w), input.now);
    MeasuringKeepsRest(e, w.store, StateOf(w), input.now);
    var candidates := Candidates(input.findings, input.now);
    CandidatesAreNew(input.findings, input.now);
    SurvivorsReady(e, w.store, p, candidates, input.now);
    StoreAllKeeps(e, w.store, p, Survivors(e, w.store, p, candidates, input.now), input.opts.trigger, input.now);
  }

  /** Every indexed recommendation survived a run of the history and was created at that run's time. */
  lemma {:induction false} CreatedByARun(w: World, acts: seq<Act>, h: Hash) returns (i: nat)
    requires Initial(w) && h in StateOf(After(w, acts)).status
    ensures var v := After(w, acts);
            && i < |acts| && acts[i].op.Run? && IsRec(v.store, h)
            && RecAt(v.store, h) in RunSurvivors(acts[i].engine, After(w, acts[..i]), acts[i].op.input)
            && TimeOf(acts[i].op) == Some(RecAt(v.store, h).createdAt)
  {
    hide Inv, Step, IsRec, RecAt, Initial, RunSurvivors;
    assert acts != [] by { FreshStateIsEmpty(w); }
    var part, last := acts[..|acts| - 1], acts[|acts| - 1];
    ReachableIsGood(w, part);
    var v := After(w, part);
    if h in StateOf(v).status {
      i := CreatedByARun(w, part, h);
      assert part[..i] == acts[..i];
      StepIsGood(last.engine, v, last.op);
      SameRecAfter(v, Step(last.engine, v, last.op), h);
    } else {
      NewEntry(last.engine, v, last.op, h);
      i := |acts| - 1;
    }
  }

  lemma FreshStateIsEmpty(w: World)
    requires Initial(w)
    ensures StateOf(w).status == map[] && StateOf(w).cooldowns == map[] && StateOf(w).strikes == map[]
  {
  }

  lemma NewEntry(e: Engine, w: World, op: Op, h: Hash)
    requires Good(w) && h in StateOf(Step(e, w, op)).status && h !in StateOf(w).status
    ensures var v := Step(e, w, op);
            && IsRec(v.store, h) && TimeOf(op) == Some(RecAt(v.store, h).createdAt)
            && op.Run? && RecAt(v.store, h) in RunSurvivors(e, w, op.input)
    ensures h !in w.store.grains
  {
    hide Inv, IsRec, RecAt, RunStep, ReviewStep, ApplyStep, RollbackStep, ExecAll, ParseBatch, Put, SupersedeOp,
         RetractOp, RunSurvivors;
    match op
    case Run(input) => RunEntries(e, w, input, h);
    case Review(g, approve, req) => ReviewEntries(w, g, approve, req);
    case Apply(g, allowDestructive, req) => ApplyEntries(e, w, g, allowDestructive, req);
    case Rollback(g, req) => RollbackEntries(w, g, req);
    case _ =>
  }

  // --- the spacing of rejections ---

  /** The times at which recommendations for `key` were rejected, in order. */
  function RejectionTimes(w: World, acts: seq<Act>, key: string): seq<int> {
    if acts == [] then []
    else
      var part, last := acts[..|acts| - 1], acts[|acts| - 1];
      RejectionTimes(w, part, key) + if RejectsKey(After(w, part), last.op, key) then [last.op.req.now] else []
  }

  /** After rejections at times `ts` the key rests until the last one's interval is over. */
  predicate RestingFor(p: Persisted, key: string, ts: seq<int>) {
    && StrikesOf(p, key) == Min(|ts|, U32_MAX)
    && CooldownOf(p, key) == if ts == [] then None else Some(ts[|ts| - 1] + Backoff(|ts| - 1))
  }

  lemma {:induction false} RestFollowsRejections(w: World, acts: seq<Act>, key: string)
    requires Initial(w)
    ensures RestingFor(StateOf(After(w, acts)), key, RejectionTimes(w, acts, key))
  {
    hide Step, RejectsKey, Backoff, Initial, Inv;
    if acts == [] {
      FreshStateIsEmpty(w);
    } else {
      var part, last := acts[..|acts| - 1], acts[|acts| - 1];
      RestFollowsRejections(w, part, key);
      ReachableIsGood(w, part);
      StepRests(last.engine, After(w, part), last.op, key);
      var ts := RejectionTimes(w, part, key);
      SaturatedStrikesDoNotMatter(|ts|);
      if RejectsKey(After(w, part), last.op, key) {
        assert StrikesOf(StateOf(After(w, part)), key) == Min(|ts|, U32_MAX);
      }
    }
  }

  /** Only a pending recommendation is rejected, and it was proposed after its key had rested. */
  lemma RejectedAfterRest(w: World, acts: seq<Act>, act: Act, key: string)
    requires Initial(w) && InOrder(acts + [act]) && RejectsKey(After(w, acts), act.op, key)
    ensures var until := CooldownOf(StateOf(After(w, acts)), key);
            until.Some? ==> act.op.req.now >= until.value
  {
    hide After, Inv, IsRec, RecAt, Initial, InOrder;
    var v, op := After(w, acts), act.op;
    ReachableIsGood(w, acts);
    PendingWhenRejected(v, op, key);
    KnownRec(v.store, StateOf(v), op.h);
    GoodRec(v, op.h);
    assert RestedOk(v.store, StateOf(v), op.h);
    var i := CreatedByARun(w, acts, op.h);
    RunCameFirst(acts, act, i);
  }

  lemma RunCameFirst(acts: seq<Act>, act: Act, i: nat)
    requires InOrder(acts + [act]) && i < |acts| && TimeOf(acts[i].op).Some? && TimeOf(act.op).Some?
    ensures TimeOf(acts[i].op).value <= TimeOf(act.op).value
  {
    assert (acts + [act])[i] == acts[i] && (acts + [act])[|acts|] == act;
  }

  lemma PendingWhenRejected(w: World, op: Op, key: string)
    requires RejectsKey(w, op, key)
    ensures op.h in StateOf(w).status && StateOf(w).status[op.h].Pending?
  {
    hide ValidateBecause, Penalize, Record, StepRecord;
  }

  /** Times of one key's rejections, each as far behind the one before as the interval then in force. */
  predicate Spaced(ts: seq<int>) {
    forall n | 0 < n < |ts| :: ts[n] - ts[n - 1] >= Min(7 * DAY_MS * Pow2(n - 1), 90 * DAY_MS)
  }

  lemma OnlyReviewsReject(w: World, op: Op, key: string)
    requires RejectsKey(w, op, key)
    ensures op.Review?
  {
  }

  lemma OneMoreSpaced(ts: seq<int>, t: int)
    requires Spaced(ts)
    requires ts != [] ==> t >= ts[|ts| - 1] + Min(7 * DAY_MS * Pow2(|ts| - 1), 90 * DAY_MS)
    ensures Spaced(ts + [t])
  {
    hide Pow2, Min;
    var us := ts + [t];
    forall n | 0 < n < |us| ensures us[n] - us[n - 1] >= Min(7 * DAY_MS * Pow2(n - 1), 90 * DAY_MS) {
      if n < |ts| {
        assert us[n] == ts[n] && us[n - 1] == ts[n - 1];
      } else {
        assert us[n] == t && us[n - 1] == ts[|ts| - 1];
      }
    }
  }

  /** With a clock that never runs back, the rejection after the n-th comes at least seven days doubled
      n - 1 times, or ninety days, after the n-th. */
  lemma {:induction false} RejectionsAreSpaced(w: World, acts: seq<Act>, key: string)
    requires Initial(w) && InOrder(acts)
    ensures var ts := RejectionTimes(w, acts, key);
            forall n | 0 < n < |ts| :: ts[n] - ts[n - 1] >= Min(7 * DAY_MS * Pow2(n - 1), 90 * DAY_MS)
  {
    hide After, RejectsKey, Initial, Backoff, Pow2;
    if acts != [] {
      var part, last := acts[..|acts| - 1], acts[|acts| - 1];
      assert acts == part + [last];
      assert InOrder(part);
      hide InOrder;
      RejectionsAreSpaced(w, part, key);
      if RejectsKey(After(w, part), last.op, key) {
        RestFollowsRejections(w, part, key);
        RejectedAfterRest(w, part, last, key);
        var ts := RejectionTimes(w, part, key);
        if ts != [] { BackoffIsDoubling(|ts| - 1); }
        assert last.op.Review? by { OnlyReviewsReject(After(w, part), last.op, key); }
        OneMoreSpaced(ts, last.op.req.now);
      } else {
        assert RejectionTimes(w, acts, key) == RejectionTimes(w, part, key);
      }
    }
  }
}
