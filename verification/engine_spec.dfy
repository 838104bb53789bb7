/** The engine as functions from one world to the next: proposing, reviewing, applying, rolling back and
    re-measuring recommendations. */
module EngineSpec {
  import opened Basics
  import opened LoopModel
  import opened Text
  import opened CalText
  import opened GrainStore

  /** The store and the persisted loop state, which is absent until the first operation that stores it. */
  datatype World = World(store: Store, state: Option<Persisted>)

  function StateOf(w: World): Persisted {
    w.state.GetOr(EMPTY_STATE)
  }

  // --- authority ---

  datatype Scope = ReadScope | WriteScope | ReviewScope | ApplyScope | AdminScope

  predicate Has(scopes: set<Scope>, s: Scope) {
    AdminScope in scopes || s in scopes
  }

  /** Who asks for a lifecycle step, with what authority, why and when. */
  datatype Request = Request(actor: string, observer: Observer, scopes: set<Scope>, because: string, now: int)

  const MAX_BECAUSE := 500

  function ValidateBecause(because: string): Result<string, Error> {
    var trimmed := Trim(because);
    if trimmed == "" || |trimmed| > MAX_BECAUSE then Err(InvalidProposal) else Ok(trimmed)
  }

  // --- analyzers and the host policy ---

  /** The part of an analyzer id in front of its version. */
  function FamilyOf(id: string): string {
    match Find(id, "/")
    case Some(i) => FindSpec(id, "/"); id[..i]
    case None => id
  }

  datatype Trust = TrustBuiltin | TrustCommand | TrustLlm

  /** `structural` is the declaration that the analyzer's curation may be applied automatically. */
  datatype Manifest = Manifest(id: string, trust: Trust, structural: bool)

  datatype Draft = Draft(
    targetRef: string,
    action: ActionKind,
    severity: Severity,
    proposal: Proposal,
    metric: Option<Metric>,
    body: map<string, Value>)

  /** What one run has to consider: drafts of analyzers and verified drafts of a model. */
  datatype Finding =
    | Analyzed(manifest: Manifest, draft: Draft)
    | Discovered(model: string, targetRef: string, body: map<string, Value>)

  datatype Grant = Grant(analyzer: string, targets: seq<string>, maxSeverity: Severity)

  /** Severity floors are listed in the order of their keys; the first key of a family decides. */
  datatype Policy = Policy(autoApplyEnabled: bool, grants: seq<Grant>, floors: seq<(string, Severity)>)

  /** `measure` stands for the typed re-measurement of a metric since its apply time. */
  datatype Engine = Engine(
    js: Codec,
    policy: Policy,
    manifests: seq<Manifest>,
    measure: (Store, Metric, int) -> Option<real>)

  /** The policy class of a target reference, absent when the reference is malformed. */
  function TargetClass(targetRef: string): Option<string> {
    match SplitOnce(targetRef, ":")
    case None => None
    case Some((scheme, rest)) =>
      if rest == "" then None
      else if scheme == "grain" || scheme == "entity" then Some("memory")
      else if scheme == "query" || scheme == "template" then Some("query")
      else if scheme == "doc" then Some("prompt")
      else if scheme == "host" then Some("host")
      else None
  }

  predicate GrantsAutoApply(policy: Policy, family: string, class_: string, severity: Severity) {
    && policy.autoApplyEnabled
    && (class_ == "memory" || class_ == "query")
    && exists g | g in policy.grants ::
         FamilyOf(g.analyzer) == family && class_ in g.targets && SeverityRank(severity) <= SeverityRank(g.maxSeverity)
  }

  function HostFloor(floors: seq<(string, Severity)>, family: string): Option<Severity> {
    if floors == [] then None
    else if FamilyOf(floors[0].0) == family then Some(floors[0].1)
    else HostFloor(floors[1..], family)
  }

  /** The stricter of the file's floor for the analyzer and the host's floor for its family. */
  function Floor(policy: Policy, p: Persisted, analyzer: string): Option<Severity> {
    var file := if analyzer in p.floors then Some(p.floors[analyzer]) else None;
    match (file, HostFloor(policy.floors, FamilyOf(analyzer)))
    case (Some(a), Some(b)) => Some(if SeverityRank(a) < SeverityRank(b) then b else a)
    case (Some(a), None) => Some(a)
    case (None, host) => host
  }

  predicate BelowFloor(policy: Policy, p: Persisted, c: Recommendation) {
    var floor := Floor(policy, p, c.analyzer);
    floor.Some? && SeverityRank(c.severity) < SeverityRank(floor.value)
  }

  function DedupKey(family: string, targetRef: string, action: ActionKind): string {
    Normalize(family) + "\U{1F}" + Normalize(targetRef) + "\U{1F}" + ActionName(action)
  }

  function StampAnalyzed(m: Manifest, d: Draft, now: int): Recommendation {
    var destructive := d.proposal.Cal? && ContainsDestructive(d.proposal.cal);
    Recommendation(m.id, if m.trust.TrustCommand? then Command(m.id) else Builtin, d.targetRef,
                   DedupKey(FamilyOf(m.id), d.targetRef, d.action), d.severity, d.proposal, destructive,
                   d.proposal.Cal? && !destructive, d.metric, now, d.body)
  }

  function StampDiscovered(model: string, targetRef: string, body: map<string, Value>, now: int): Recommendation {
    Recommendation("loop.llm/1", Llm(model), targetRef, DedupKey("llm", targetRef, Flag), Low,
                   Data(map["source" := Str("llm")]), false, false, None, now, body)
  }

  /** The recommendation of a finding. A malformed target drops it, and a model may only target memory and queries. */
  function Stamp(f: Finding, now: int): Option<Recommendation> {
    match f
    case Analyzed(m, d) => if TargetClass(d.targetRef).Some? then Some(StampAnalyzed(m, d, now)) else None
    case Discovered(model, targetRef, body) =>
      if TargetClass(targetRef) == Some("memory") || TargetClass(targetRef) == Some("query") then
        Some(StampDiscovered(model, targetRef, body, now))
      else None
  }

  function Candidates(findings: seq<Finding>, now: int): seq<Recommendation> {
    if findings == [] then []
    else
      Candidates(findings[..|findings| - 1], now)
      + match Stamp(findings[|findings| - 1], now)
        case Some(rec) => [rec]
        case None => []
  }

  // --- which candidates survive ---

  function StatusOf(p: Persisted, h: Hash): Status {
    if h in p.status then p.status[h] else Pending
  }

  predicate IsLoopRec(g: GrainRecord) {
    g.grainType == RECOMMENDATION && g.namespace == LOOP_NS
  }

  predicate Occupies(p: Persisted, g: GrainRecord) {
    IsLoopRec(g) && IsOpen(StatusOf(p, g.hash)) && StrField(g.fields.entries, "dedup_key").Some?
  }

  /** Dedup keys held by stored recommendations that are open; one the index does not know counts as pending. */
  function ExistingKeys(s: Store, p: Persisted): set<string> {
    set h | h in s.grains && Occupies(p, s.grains[h]) :: StrField(s.grains[h].fields.entries, "dedup_key").value
  }

  predicate Cooling(p: Persisted, key: string, now: int) {
    key in p.cooldowns && now < p.cooldowns[key]
  }

  /** Candidates kept so far and the keys seen, which only those above their floor reach. */
  datatype Sifted = Sifted(seen: set<string>, kept: seq<Recommendation>)

  function SiftOne(policy: Policy, p: Persisted, existing: set<string>, x: Sifted, c: Recommendation,
                   now: int): Sifted {
    if BelowFloor(policy, p, c) || c.dedupKey in x.seen then x
    else Sifted(x.seen + {c.dedupKey},
                if c.dedupKey in existing || Cooling(p, c.dedupKey, now) then x.kept else x.kept + [c])
  }

  function Sift(policy: Policy, p: Persisted, existing: set<string>, cs: seq<Recommendation>, now: int): Sifted {
    if cs == [] then Sifted({}, [])
    else SiftOne(policy, p, existing, Sift(policy, p, existing, cs[..|cs| - 1], now), cs[|cs| - 1], now)
  }

  function Survivors(e: Engine, s: Store, p: Persisted, cs: seq<Recommendation>, now: int): seq<Recommendation> {
    Sift(e.policy, p, ExistingKeys(s, p), cs, now).kept
  }

  // --- lifecycle records ---

  /** Append the audit grain of a step and make it the recommendation's head. */
  function Record(s: Store, p: Persisted, a: AuditRecord): (Store, Persisted) {
    (Put(s, AuditSpec(a)),
     p.(status := p.status[a.recHash := a.to], auditHeads := p.auditHeads[a.recHash := Mint(s.nextId)]))
  }

  function HeadOf(p: Persisted, h: Hash): Option<Hash> {
    if h in p.auditHeads then Some(p.auditHeads[h]) else None
  }

  function LoadRec(s: Store, h: Hash): Result<Recommendation, Error> {
    if h !in s.grains then Err(NotFound(h))
    else
      match s.grains[h].fields.rec
      case Some(rec) => Ok(rec)
      case None => Err(InvalidRecommendation)
  }

  // --- auto-apply ---

  predicate SameFieldValue(key: string, v: Value, g: GrainRecord) {
    if key == "namespace" then v.Str? && Normalize(v.s) == Normalize(g.namespace)
    else
      && key in g.fields.entries
      && var w := g.fields.entries[key];
         if v.Str? && w.Str? then Normalize(v.s) == Normalize(w.s) else v == w
  }

  /** A line of the engine's own SUPERSEDE shape whose replacement changes no field value of its target. */
  predicate ValueIdentical(js: Codec, s: Store, line: string) {
    match ParseOwnSupersede(js, line)
    case None => false
    case Some(own) =>
      && own.fields.entries != map[]
      && own.target in s.grains
      && s.grains[own.target].validTo.None?
      && forall k | k in own.fields.entries :: SameFieldValue(k, own.fields.entries[k], s.grains[own.target])
  }

  predicate StructuralCuration(js: Codec, s: Store, cal: string) {
    forall i | 0 <= i < |Lines(cal)| :: Trim(Lines(cal)[i]) != "" ==> ValueIdentical(js, s, Trim(Lines(cal)[i]))
  }

  /** The first manifest with the id decides whether the analyzer may apply automatically. */
  predicate DeclaredStructural(manifests: seq<Manifest>, id: string) {
    manifests != [] && if manifests[0].id == id then manifests[0].structural else DeclaredStructural(manifests[1..], id)
  }

  predicate CanAutoApply(e: Engine, s: Store, rec: Recommendation) {
    && rec.origin.Builtin?
    && !rec.destructive
    && DeclaredStructural(e.manifests, rec.analyzer)
    && TargetClass(rec.targetRef).Some?
    && GrantsAutoApply(e.policy, FamilyOf(rec.analyzer), TargetClass(rec.targetRef).value, rec.severity)
    && rec.proposal.Cal?
    && StructuralCuration(e.js, s, rec.proposal.cal)
  }

  function AppliedBy(rec: Recommendation, created: seq<Hash>, now: int): AppliedRecord {
    AppliedRecord(now, rec.targetRef, rec.rollbackable, created, rec.metric)
  }

  // --- run ---

  /** Phase 3 under way: `failed` stops it, and then `state` is never stored. */
  datatype Progress = Progress(store: Store, state: Persisted, autoApplied: nat, failed: Option<Error>)

  function PendingRecord(rec: Recommendation, h: Hash, now: int): AuditRecord {
    AuditRecord(h, None, Pending, "engine:" + rec.analyzer, System, "analyzer proposed", None, now)
  }

  function AutoRecord(h: Hash, previous: Option<Hash>, now: int): AuditRecord {
    AuditRecord(h, Some(Pending), Applied, "policy:auto", PolicyObserver, "auto-applied per host policy", previous, now)
  }

  /** Store a recommendation as pending, with its author and, unless it is built in, whoever triggered it. */
  function Propose(s: Store, p: Persisted, rec: Recommendation, trigger: Option<string>, now: int): (Store, Persisted) {
    var h := Mint(s.nextId);
    var (s1, p1) := Record(Put(s, RecSpec(rec)), p, PendingRecord(rec, h, now));
    (s1, p1.(creators := p.creators[h := "engine:" + rec.analyzer],
             coCreators := if rec.origin.Builtin? || trigger.None? then p.coCreators
               else p.coCreators[h := trigger.value]))
  }

  function AutoApply(e: Engine, x: Progress, h: Hash, rec: Recommendation, now: int): Progress {
    var run := if rec.proposal.Cal? then ExecAll(x.store, ParseBatch(e.js, rec.proposal.cal))
      else Exec(x.store, [], None);
    if run.failed.Some? then x.(store := run.store, failed := run.failed)
    else
      var (s, p) := Record(run.store, x.state, AutoRecord(h, HeadOf(x.state, h), now));
      Progress(s, p.(applied := p.applied[h := AppliedBy(rec, run.created, now)]), x.autoApplied + 1, None)
  }

  function StoreOne(e: Engine, x: Progress, rec: Recommendation, trigger: Option<string>, now: int): Progress {
    if x.failed.Some? then x
    else
      var (s, p) := Propose(x.store, x.state, rec, trigger, now);
      var proposed := x.(store := s, state := p);
      if CanAutoApply(e, s, rec) then AutoApply(e, proposed, Mint(x.store.nextId), rec, now) else proposed
  }

  function StoreAll(e: Engine, s: Store, p: Persisted, recs: seq<Recommendation>, trigger: Option<string>,
                    now: int): Progress {
    if recs == [] then Progress(s, p, 0, None)
    else StoreOne(e, StoreAll(e, s, p, recs[..|recs| - 1], trigger, now), recs[|recs| - 1], trigger, now)
  }

  datatype RunOptions = RunOptions(
    minNew: Option<nat>,
    minNewErrors: Option<nat>,
    ifStaleMs: Option<int>,
    trigger: Option<string>)

  datatype SkipReason = MinNewNotMet | NotStale

  /** Any met condition lets the run go; the reason named is staleness only when nothing else was asked. */
  function Gate(opts: RunOptions, p: Persisted, newGrains: nat, newErrors: nat, now: int): Option<SkipReason> {
    if opts.minNew.None? && opts.minNewErrors.None? && opts.ifStaleMs.None? then None
    else if opts.minNew.Some? && newGrains >= opts.minNew.value then None
    else if opts.minNewErrors.Some? && newErrors >= opts.minNewErrors.value then None
    else if opts.ifStaleMs.Some? && (p.lastRun.None? || now - p.lastRun.value >= opts.ifStaleMs.value) then None
    else if opts.ifStaleMs.Some? && opts.minNew.None? && opts.minNewErrors.None? then Some(NotStale)
    else Some(MinNewNotMet)
  }

  /** What reaches a run from outside: options, findings, the gate's counts and the time. */
  datatype RunInput = RunInput(opts: RunOptions, findings: seq<Finding>, newGrains: nat, newErrors: nat, now: int)

  datatype RunReport =
    | Skipped(reason: SkipReason)
    | Ran(proposed: nat, deduped: int, stored: nat, autoApplied: nat)

  function RunSurvivors(e: Engine, w: World, input: RunInput): seq<Recommendation> {
    Survivors(e, w.store, MeasureOutcomes(e, w.store, StateOf(w), input.now), Candidates(input.findings, input.now),
              input.now)
  }

  function RunStep(e: Engine, w: World, input: RunInput): (World, Result<RunReport, Error>) {
    var gate := Gate(input.opts, StateOf(w), input.newGrains, input.newErrors, input.now);
    if gate.Some? then (w, Ok(Skipped(gate.value)))
    else
      var p := MeasureOutcomes(e, w.store, StateOf(w), input.now);
      var candidates := Candidates(input.findings, input.now);
      var survivors := Survivors(e, w.store, p, candidates, input.now);
      var x := StoreAll(e, w.store, p, survivors, input.opts.trigger, input.now);
      if x.failed.Some? then (World(x.store, w.state), Err(x.failed.value))
      else
        (World(x.store, Some(x.state.(lastRun := Some(input.now), watermark := Some(input.now)))),
         Ok(Ran(|candidates|, |candidates| - |survivors|, |survivors|, x.autoApplied)))
  }

  // --- outcomes ---

  const EPSILON := 1.0 / 4503599627370496.0

  function MeasuredOf(p: Persisted, h: Hash): seq<int> {
    if h in p.measured then p.measured[h] else []
  }

  function OutcomesOf(p: Persisted, h: Hash): seq<Outcome> {
    if h in p.outcomes then p.outcomes[h] else []
  }

  function Due(horizons: seq<int>, elapsed: int, done: seq<int>): seq<int> {
    if horizons == [] then []
    else
      var last := horizons[|horizons| - 1];
      Due(horizons[..|horizons| - 1], elapsed, done) + if elapsed >= last && last !in done then [last] else []
  }

  function OutcomeAt(h: Hash, m: Metric, current: real, horizon: int, now: int): Outcome {
    Outcome(h, m.kind, m.baseline, current, current > m.baseline + EPSILON, horizon, now)
  }

  function OutcomesAt(h: Hash, m: Metric, current: real, horizons: seq<int>, now: int): seq<Outcome> {
    seq(|horizons|, i requires 0 <= i < |horizons| => OutcomeAt(h, m, current, horizons[i], now))
  }

  /** The horizons of one recommendation that this run measures: all that are due, if its metric can be
      re-measured at all. */
  function MeasuredNow(e: Engine, s: Store, p: Persisted, h: Hash, now: int): seq<int> {
    if h !in p.applied || h !in p.status || p.status[h] != Applied || p.applied[h].metric.None? then []
    else
      var a := p.applied[h];
      if e.measure(s, a.metric.value, a.appliedAt).None? then []
      else Due(Horizons(a.metric.value), now - a.appliedAt, MeasuredOf(p, h))
  }

  function OutcomesNow(e: Engine, s: Store, p: Persisted, h: Hash, now: int): seq<Outcome> {
    if MeasuredNow(e, s, p, h, now) == [] then []
    else
      var a := p.applied[h];
      OutcomesAt(h, a.metric.value, e.measure(s, a.metric.value, a.appliedAt).value, MeasuredNow(e, s, p, h, now), now)
  }

  function MeasureOutcomes(e: Engine, s: Store, p: Persisted, now: int): Persisted {
    var due := set h | h in p.applied && MeasuredNow(e, s, p, h, now) != [];
    p.(measured := map h | h in p.measured.Keys + due :: MeasuredOf(p, h) + MeasuredNow(e, s, p, h, now),
       outcomes := map h | h in p.outcomes.Keys + due :: OutcomesOf(p, h) + OutcomesNow(e, s, p, h, now))
  }

  // --- review ---

  function ReviewError(p: Persisted, h: Hash, to: Status, req: Request): Option<Error> {
    if !Has(req.scopes, ReviewScope) then Some(ScopeDenied)
    else if ValidateBecause(req.because).Err? then Some(ValidateBecause(req.because).error)
    else if h !in p.status then Some(NotFound(h))
    else if !CanTransition(p.status[h], to, false) then Some(LifecycleViolation)
    else if to.Approved? && h in p.creators && p.creators[h] == req.actor then Some(SelfApproval)
    else if to.Approved? && h in p.coCreators && p.coCreators[h] == req.actor then Some(SelfApproval)
    else None
  }

  const DAY_MS := 86_400_000
  const BASE_MS := 7 * DAY_MS
  const CAP_MS := 90 * DAY_MS
  const I64_MAX := 0x7FFF_FFFF_FFFF_FFFF
  const U32_MAX := 0xFFFF_FFFF

  function Pow2(n: nat): nat {
    if n == 0 then 1 else 2 * Pow2(n - 1)
  }

  /** How long a key rests after a rejection that follows `strikes` earlier ones. */
  function Backoff(strikes: nat): int {
    Min(Min(BASE_MS * Pow2(Min(strikes, 31)), I64_MAX), CAP_MS)
  }

  function StrikesOf(p: Persisted, key: string): nat {
    if key in p.strikes then p.strikes[key] else 0
  }

  function Penalize(s: Store, p: Persisted, h: Hash, now: int): Persisted {
    match LoadRec(s, h)
    case Err(_) => p
    case Ok(rec) =>
      var strikes := StrikesOf(p, rec.dedupKey);
      p.(strikes := p.strikes[rec.dedupKey := Min(strikes + 1, U32_MAX)],
         cooldowns := p.cooldowns[rec.dedupKey := now + Backoff(strikes)])
  }

  /** The audit record of a step somebody asked for. */
  function StepRecord(p: Persisted, h: Hash, to: Status, req: Request): AuditRecord
    requires h in p.status && ValidateBecause(req.because).Ok?
  {
    AuditRecord(h, Some(p.status[h]), to, req.actor, req.observer, ValidateBecause(req.because).value, HeadOf(p, h),
                req.now)
  }

  function ReviewStep(w: World, h: Hash, approve: bool, req: Request): (World, Option<Error>) {
    var p := StateOf(w);
    var to := if approve then Approved else Rejected;
    var error := ReviewError(p, h, to, req);
    if error.Some? then (w, error)
    else
      var (s, q) := Record(w.store, p, StepRecord(p, h, to, req));
      (World(s, Some(if approve then q else Penalize(s, q, h, req.now))), None)
  }

  // --- rollback ---

  function RetractAll(s: Store, hs: seq<Hash>, reason: string): (Store, Option<Error>) {
    if hs == [] then (s, None)
    else
      var (before, error) := RetractAll(s, hs[..|hs| - 1], reason);
      if error.Some? then (before, error) else RetractOp(before, hs[|hs| - 1], reason)
  }

  function RollbackError(p: Persisted, h: Hash, req: Request): Option<Error> {
    if !Has(req.scopes, ApplyScope) then Some(ScopeDenied)
    else if ValidateBecause(req.because).Err? then Some(ValidateBecause(req.because).error)
    else if h !in p.status then Some(NotFound(h))
    else if !CanTransition(p.status[h], RolledBack, false) then Some(LifecycleViolation)
    else if h !in p.applied then Some(NotFound(h))
    else if !p.applied[h].rollbackable then Some(LifecycleViolation)
    else None
  }

  function RollbackStep(w: World, h: Hash, req: Request): (World, Option<Error>) {
    var p := StateOf(w);
    var error := RollbackError(p, h, req);
    if error.Some? then (w, error)
    else
      var (s, failed) := RetractAll(w.store, p.applied[h].created, "rollback of " + h);
      if failed.Some? then (World(s, w.state), failed)
      else
        var (s1, q) := Record(s, p, StepRecord(p, h, RolledBack, req));
        (World(s1, Some(q)), None)
  }

  // --- apply ---

  function ApplyError(s: Store, p: Persisted, h: Hash, allowDestructive: bool, req: Request): Option<Error> {
    if !Has(req.scopes, ApplyScope) then Some(ScopeDenied)
    else if ValidateBecause(req.because).Err? then Some(ValidateBecause(req.because).error)
    else if h !in p.status then Some(NotFound(h))
    else if !CanTransition(p.status[h], Applied, false) then Some(LifecycleViolation)
    else if LoadRec(s, h).Err? then Some(LoadRec(s, h).error)
    else if LoadRec(s, h).value.destructive && (!Has(req.scopes, AdminScope) || !allowDestructive)
      then Some(DestructiveGated)
    else None
  }

  /** Carry out a proposal: the world it leaves and the grains it created. */
  function Carry(e: Engine, w: World, proposal: Proposal, req: Request): (World, Result<seq<Hash>, Error>) {
    match proposal
    case Cal(cal) =>
      var x := ExecAll(w.store, ParseBatch(e.js, cal));
      (World(x.store, w.state), if x.failed.Some? then Err(x.failed.value) else Ok(x.created))
    case Edit(_, _, _) => (w, Err(InvalidProposal))
    case Data(data) =>
      match StrField(data, "revert_of")
      case None => (w, Err(InvalidProposal))
      case Some(earlier) =>
        var (after, error) := RollbackStep(w, earlier, req);
        (after, if error.Some? then Err(error.value) else Ok([]))
  }

  /** Record an apply that has been carried out, with what undoing it takes. */
  function Conclude(w: World, h: Hash, from: Status, rec: Recommendation, created: seq<Hash>, because: string,
                    req: Request): World {
    var p := StateOf(w);
    var (s, q) :=
      Record(w.store, p, AuditRecord(h, Some(from), Applied, req.actor, req.observer, because, HeadOf(p, h), req.now));
    World(s, Some(q.(applied := q.applied[h := AppliedBy(rec, created, req.now)])))
  }

  /** The step is recorded as taken from the status seen before the proposal was carried out. */
  function ApplyStep(e: Engine, w: World, h: Hash, allowDestructive: bool,
                     req: Request): (World, Result<AppliedRecord, Error>) {
    var p := StateOf(w);
    var error := ApplyError(w.store, p, h, allowDestructive, req);
    if error.Some? then (w, Err(error.value))
    else
      var rec := LoadRec(w.store, h).value;
      var because := ValidateBecause(req.because).value;
      var (after, carried) := Carry(e, w, rec.proposal, req.(because := because));
      if carried.Err? then (after, Err(carried.error))
      else (Conclude(after, h, p.status[h], rec, carried.value, because, req),
            Ok(AppliedBy(rec, carried.value, req.now)))
  }

  /** Only a batch and a revert of an earlier recommendation can be carried out. */
  predicate Executable(proposal: Proposal) {
    match proposal
    case Cal(_) => true
    case Edit(_, _, _) => false
    case Data(data) => StrField(data, "revert_of").Some?
  }

  /** What an apply would refuse whatever the lifecycle says. */
  function PreflightError(s: Store, h: Hash, scopes: set<Scope>, allowDestructive: bool): Option<Error> {
    if !Has(scopes, ApplyScope) then Some(ScopeDenied)
    else
      match LoadRec(s, h)
      case Err(e) => Some(e)
      case Ok(rec) =>
        if rec.destructive && (!Has(scopes, AdminScope) || !allowDestructive) then Some(DestructiveGated)
        else if !Executable(rec.proposal) then Some(InvalidProposal)
        else None
  }

  // --- runs of the whole system ---

  /** Everything that can happen to a file: engine operations and the host writing to its store. */
  datatype Op =
    | Run(input: RunInput)
    | Review(h: Hash, approve: bool, req: Request)
    | Apply(h: Hash, allowDestructive: bool, req: Request)
    | Rollback(h: Hash, req: Request)
    | Configure(analyzer: string, floor: Option<Severity>)
    | HostPut(spec: GrainSpec)
    | HostSupersede(target: Hash, spec: GrainSpec)
    | HostRetract(h: Hash, reason: string)
    | HostCal(cal: string)

  function ConfigureStep(w: World, analyzer: string, floor: Option<Severity>): World {
    var p := StateOf(w);
    w.(state := Some(p.(floors := if floor.Some? then p.floors[analyzer := floor.value] else p.floors - {analyzer})))
  }

  /** The world after an operation, whether it succeeded or failed. */
  function Step(e: Engine, w: World, op: Op): World {
    match op
    case Run(input) => RunStep(e, w, input).0
    case Review(h, approve, req) => ReviewStep(w, h, approve, req).0
    case Apply(h, allowDestructive, req) => ApplyStep(e, w, h, allowDestructive, req).0
    case Rollback(h, req) => RollbackStep(w, h, req).0
    case Configure(analyzer, floor) => ConfigureStep(w, analyzer, floor)
    case HostPut(spec) => w.(store := Put(w.store, spec))
    case HostSupersede(target, spec) => w.(store := SupersedeOp(w.store, target, spec).0)
    case HostRetract(h, reason) => w.(store := RetractOp(w.store, h, reason).0)
    case HostCal(cal) => w.(store := ExecAll(w.store, ParseBatch(e.js, cal)).store)
  }

  /** An operation, by the engine the host has set up at that moment: policy, analyzers and re-measurement are
      never persisted and may be others each time. */
  datatype Act = Act(engine: Engine, op: Op)

  function After(w: World, acts: seq<Act>): World {
    if acts == [] then w
    else Step(acts[|acts| - 1].engine, After(w, acts[..|acts| - 1]), acts[|acts| - 1].op)
  }

  /** A memory file nobody has run the loop on yet. */
  ghost predicate Initial(w: World) {
    Wf(w.store) && w.state.None?
  }
}
