/** Value types of the self-improvement loop: grains, recommendations, audit records and the lifecycle. */
module LoopModel {
  import opened Basics

  type Hash = string

  const LOOP_NS := "deja-loop"
  const RECOMMENDATION := "recommendation"
  const OBSERVATION := "observation"

  /** `mantissa` times two to the power of `exponent`. */
  datatype Scaled = Scaled(mantissa: int, exponent: int)

  /** Zero or an odd mantissa, so that equal numbers have one spelling. */
  predicate LowestTerms(s: Scaled) {
    if s.mantissa == 0 then s.exponent == 0 else s.mantissa % 2 == 1
  }

  /** A finite binary number. */
  type Binary = s: Scaled | LowestTerms(s) witness Scaled(0, 0)

  datatype Value =
    | Null
    | Bool(b: bool)
    | Int(i: int)
    | Float(number: Binary)
    | Str(s: string)
    | List(items: seq<Value>)
    | Object(entries: map<string, Value>)

  // --- lifecycle ---

  datatype Status = Pending | Approved | Rejected | Applied | RolledBack | Expired

  /** Which lifecycle steps are legal; only the host policy may apply a pending recommendation. */
  predicate CanTransition(from: Status, to: Status, byPolicy: bool) {
    match (from, to)
    case (Pending, Approved) => true
    case (Pending, Rejected) => true
    case (Pending, Applied) => byPolicy
    case (Approved, Applied) => true
    case (Applied, RolledBack) => true
    case (Pending, Expired) => true
    case (Approved, Expired) => true
    case _ => false
  }

  /** An open recommendation suppresses new proposals of the same finding. */
  predicate IsOpen(s: Status) {
    s.Pending? || s.Approved? || s.Applied?
  }

  datatype Observer = Human | Agent | PolicyObserver | System

  datatype AuditRecord = AuditRecord(
    recHash: Hash,
    from: Option<Status>,
    to: Status,
    actor: string,
    observer: Observer,
    because: string,
    previous: Option<Hash>,
    at: int)

  // --- recommendations ---

  datatype Severity = Info | Low | Medium | High

  function SeverityRank(s: Severity): nat {
    match s
    case Info => 0
    case Low => 1
    case Medium => 2
    case High => 3
  }

  datatype Origin = Builtin | Command(id: string) | Llm(model: string)

  datatype ActionKind = Consolidate | FlagContradiction | ClusterFailure | Expire | MergeHeads | Revert | Flag

  function ActionName(a: ActionKind): string {
    match a
    case Consolidate => "consolidate"
    case FlagContradiction => "flag_contradiction"
    case ClusterFailure => "cluster_failure"
    case Expire => "expire"
    case MergeHeads => "merge_heads"
    case Revert => "revert"
    case Flag => "flag"
  }

  datatype Metric = Metric(
    kind: string,
    baseline: real,
    subject: Option<string>,
    namespace: Option<string>,
    relation: Option<string>,
    reviewAfter: int,
    horizonsMs: seq<int>)

  function InsertSorted(x: int, xs: seq<int>): seq<int> {
    if xs == [] || xs[|xs| - 1] <= x then xs + [x]
    else InsertSorted(x, xs[..|xs| - 1]) + [xs[|xs| - 1]]
  }

  function SortInts(xs: seq<int>): seq<int> {
    if xs == [] then [] else InsertSorted(xs[|xs| - 1], SortInts(xs[..|xs| - 1]))
  }

  /** The measurement schedule of a metric: its horizons in ascending order, or its single review delay. */
  function Horizons(m: Metric): seq<int> {
    SortInts(if m.horizonsMs == [] then [m.reviewAfter] else m.horizonsMs)
  }

  datatype Proposal =
    | Cal(cal: string)
    | Edit(format: string, baseDigest: string, diff: string)
    | Data(data: map<string, Value>)

  /** `body` stands for the serialized fields the lifecycle never reads back. */
  datatype Recommendation = Recommendation(
    analyzer: string,
    origin: Origin,
    targetRef: string,
    dedupKey: string,
    severity: Severity,
    proposal: Proposal,
    destructive: bool,
    rollbackable: bool,
    metric: Option<Metric>,
    createdAt: int,
    body: map<string, Value>)

  // --- grains ---

  /** The JSON object of a grain, with the typed readings of it that decoding gives, when it has one. */
  datatype Fields = Fields(entries: map<string, Value>, rec: Option<Recommendation>, audit: Option<AuditRecord>)

  datatype GrainSpec = GrainSpec(grainType: string, namespace: string, fields: Fields)

  datatype GrainRecord = GrainRecord(
    hash: Hash,
    grainType: string,
    namespace: string,
    createdAt: int,
    validTo: Option<int>,
    supersededBy: Option<string>,
    fields: Fields)

  predicate Live(g: GrainRecord) {
    g.supersededBy.None?
  }

  function StrField(entries: map<string, Value>, key: string): Option<string> {
    if key in entries && entries[key].Str? then Some(entries[key].s) else None
  }

  function IntField(entries: map<string, Value>, key: string): Option<int> {
    if key in entries && entries[key].Int? then Some(entries[key].i) else None
  }

  const NOT_SERIALIZED := {"hash", "status", "namespace", "valid_to_ms"}

  function RecSpec(r: Recommendation): GrainSpec {
    GrainSpec(RECOMMENDATION, LOOP_NS,
              Fields((r.body - NOT_SERIALIZED)["dedup_key" := Str(r.dedupKey)], Some(r), None))
  }

  function StatusName(s: Status): string {
    match s
    case Pending => "pending"
    case Approved => "approved"
    case Rejected => "rejected"
    case Applied => "applied"
    case RolledBack => "rolled_back"
    case Expired => "expired"
  }

  function ObserverName(o: Observer): string {
    match o
    case Human => "human"
    case Agent => "agent"
    case PolicyObserver => "policy"
    case System => "system"
  }

  function AuditEntries(a: AuditRecord): map<string, Value> {
    var chain := [Str(a.recHash)] + if a.previous.Some? then [Str(a.previous.value)] else [];
    var entries := map[
      "observation_kind" := Str("loop_audit"),
      "rec_hash" := Str(a.recHash),
      "to_status" := Str(StatusName(a.to)),
      "actor" := Str(a.actor),
      "observer_type" := Str(ObserverName(a.observer)),
      "because" := Str(a.because),
      "at_ms" := Int(a.at),
      "derived_from" := List(chain)];
    if a.from.Some? then entries["from_status" := Str(StatusName(a.from.value))] else entries
  }

  function AuditSpec(a: AuditRecord): GrainSpec {
    GrainSpec(OBSERVATION, LOOP_NS, Fields(AuditEntries(a), None, Some(a)))
  }

  lemma SpecsKeepTheirNamespace(r: Recommendation, a: AuditRecord)
    ensures "namespace" !in RecSpec(r).fields.entries
    ensures StrField(RecSpec(r).fields.entries, "dedup_key") == Some(r.dedupKey)
    ensures "namespace" !in AuditSpec(a).fields.entries
  {
  }

  // --- persisted loop state ---

  datatype AppliedRecord = AppliedRecord(
    appliedAt: int,
    targetRef: string,
    rollbackable: bool,
    created: seq<Hash>,
    metric: Option<Metric>)

  datatype Outcome = Outcome(
    recHash: Hash,
    metric: string,
    baseline: real,
    current: real,
    regressed: bool,
    horizon: int,
    measuredAt: int)

  datatype Persisted = Persisted(
    lastRun: Option<int>,
    watermark: Option<int>,
    floors: map<string, Severity>,
    status: map<Hash, Status>,
    auditHeads: map<Hash, Hash>,
    creators: map<Hash, string>,
    coCreators: map<Hash, string>,
    cooldowns: map<string, int>,
    strikes: map<string, nat>,
    applied: map<Hash, AppliedRecord>,
    measured: map<Hash, seq<int>>,
    outcomes: map<Hash, seq<Outcome>>)

  const EMPTY_STATE :=
    Persisted(None, None, map[], map[], map[], map[], map[], map[], map[], map[], map[], map[])

  // --- failures ---

  datatype Error =
    | ScopeDenied
    | NotFound(hash: Hash)
    | LifecycleViolation
    | SelfApproval
    | DestructiveGated
    | InvalidProposal
    | InvalidRecommendation
    | SubstrateFault
    | CalUnsupported
}
