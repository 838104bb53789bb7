/** What every reachable world satisfies: audit trails, open recommendations, cooldowns, applied records and
    outcome schedules. */
module Invariants {
  import opened Basics
  import opened LoopModel
  import opened GrainStore
  import opened EngineSpec

  // --- audit trails ---

  /** `t` is what following the previous-audit links from `head` reads, oldest record first. */
  ghost predicate Linked(s: Store, head: Hash, t: seq<AuditRecord>)
    decreases |t|
  {
    && t != [] && head in s.grains && s.grains[head].fields.audit == Some(t[|t| - 1])
    && match t[|t| - 1].previous
       case None => |t| == 1
       case Some(previous) => Linked(s, previous, t[..|t| - 1])
  }

  /** There is only one way to read a trail from its head. */
  lemma {:induction false} TrailIsUnique(s: Store, head: Hash, t: seq<AuditRecord>, u: seq<AuditRecord>)
    requires Linked(s, head, t) && Linked(s, head, u)
    ensures t == u
    decreases |t|
  {
    var last := t[|t| - 1];
    if last.previous.Some? {
      TrailIsUnique(s, last.previous.value, t[..|t| - 1], u[..|u| - 1]);
    }
    assert t == t[..|t| - 1] + [last] && u == u[..|u| - 1] + [last];
  }

  lemma {:induction false} LinkedExtends(a: Store, b: Store, head: Hash, t: seq<AuditRecord>)
    requires Linked(a, head, t) && Extends(a, b)
    ensures Linked(b, head, t)
    decreases |t|
  {
    var last := t[|t| - 1];
    if last.previous.Some? { LinkedExtends(a, b, last.previous.value, t[..|t| - 1]); }
  }

  /** The host policy's own step, open only to built-in findings that destroy nothing. */
  predicate DirectByPolicy(a: AuditRecord, rec: Recommendation) {
    && a.from == Some(Pending) && a.to == Applied
    && a.actor == "policy:auto" && a.observer.PolicyObserver?
    && rec.origin.Builtin? && !rec.destructive
  }

  /** Nobody approves what they authored or triggered. */
  predicate Independent(a: AuditRecord, creator: string, co: Option<string>) {
    a.to.Approved? ==> a.actor != creator && co != Some(a.actor)
  }

  /** A record gives a reason of at most the allowed length. */
  predicate Reasoned(a: AuditRecord) {
    a.because != "" && |a.because| <= MAX_BECAUSE
  }

  predicate LegalMove(from: Status, a: AuditRecord, rec: Recommendation) {
    a.from == Some(from) && (CanTransition(from, a.to, false) || DirectByPolicy(a, rec))
  }

  predicate LegalTrail(t: seq<AuditRecord>, h: Hash, rec: Recommendation, creator: string, co: Option<string>) {
    && t != []
    && t[0].from.None? && t[0].to.Pending? && t[0].actor == creator
    && (forall i | 0 < i < |t| :: LegalMove(t[i - 1].to, t[i], rec))
    && (forall i | 0 <= i < |t| :: t[i].recHash == h && Independent(t[i], creator, co) && Reasoned(t[i]))
  }

  /** The applied record carries the time of the step that applied the recommendation. */
  predicate TimedOk(p: Persisted, h: Hash, t: seq<AuditRecord>) {
    forall i | 0 <= i < |t| && t[i].to.Applied? :: h in p.applied && p.applied[h].appliedAt == t[i].at
  }

  predicate IsRec(s: Store, h: Hash) {
    && h in s.grains && IsLoopRec(s.grains[h]) && s.grains[h].hash == h
    && s.grains[h].fields.rec.Some?
    && StrField(s.grains[h].fields.entries, "dedup_key") == Some(s.grains[h].fields.rec.value.dedupKey)
  }

  function RecAt(s: Store, h: Hash): Recommendation
    requires IsRec(s, h)
  {
    s.grains[h].fields.rec.value
  }

  function CoCreator(p: Persisted, h: Hash): Option<string> {
    if h in p.coCreators then Some(p.coCreators[h]) else None
  }

  /** The trail of a recommendation: linked, joined up, legal, independent and ending in its status. */
  ghost predicate Trail(s: Store, p: Persisted, h: Hash, t: seq<AuditRecord>) {
    && h in p.status && h in p.auditHeads && h in p.creators && IsRec(s, h)
    && Linked(s, p.auditHeads[h], t)
    && LegalTrail(t, h, RecAt(s, h), p.creators[h], CoCreator(p, h))
    && t[|t| - 1].to == p.status[h]
    && TimedOk(p, h, t)
  }

  // --- the other invariants, one recommendation at a time ---

  predicate AppliedOk(s: Store, p: Persisted, h: Hash)
    requires h in p.status && IsRec(s, h)
  {
    && (h in p.applied <==> p.status[h].Applied? || p.status[h].RolledBack?)
    && (h in p.applied ==>
          var a, rec := p.applied[h], RecAt(s, h);
          && a.targetRef == rec.targetRef && a.rollbackable == rec.rollbackable && a.metric == rec.metric
          && (forall c | c in a.created :: c in s.grains)
          && (p.status[h].RolledBack? ==> forall c | c in a.created :: !Live(s.grains[c])))
  }

  /** An open recommendation was proposed after its key had rested. */
  predicate RestedOk(s: Store, p: Persisted, h: Hash)
    requires h in p.status && IsRec(s, h)
  {
    var rec := RecAt(s, h);
    IsOpen(p.status[h]) && rec.dedupKey in p.cooldowns ==> rec.createdAt >= p.cooldowns[rec.dedupKey]
  }

  ghost predicate RecOk(s: Store, p: Persisted, h: Hash) {
    && h in p.status && IsRec(s, h) && AppliedOk(s, p, h) && RestedOk(s, p, h)
    && exists t :: Trail(s, p, h, t)
  }

  /** `h` is an indexed, open recommendation for `key`. */
  predicate Holds(s: Store, p: Persisted, h: Hash, key: string) {
    h in p.status && IsOpen(p.status[h]) && IsRec(s, h) && RecAt(s, h).dedupKey == key
  }

  ghost predicate OneOpenPerKey(s: Store, p: Persisted) {
    forall g, h, key | Holds(s, p, g, key) && Holds(s, p, h, key) :: g == h
  }

  /** What has been measured at all has been measured as often as the schedule lists it. */
  predicate AsListed(ms: seq<int>, horizons: seq<int>) {
    forall x | x in ms :: multiset(ms)[x] == multiset(horizons)[x]
  }

  predicate OutcomeOk(o: Outcome, h: Hash, a: AppliedRecord, m: Metric) {
    && o.recHash == h && o.metric == m.kind && o.baseline == m.baseline
    && o.regressed == (o.current > m.baseline + EPSILON)
    && o.horizon in Horizons(m)
    && o.measuredAt - a.appliedAt >= o.horizon
  }

  /** Measured horizons and outcomes run in lockstep, none early, each as often as the schedule lists it. */
  predicate ScheduleOk(p: Persisted, h: Hash) {
    var ms, os := MeasuredOf(p, h), OutcomesOf(p, h);
    && |ms| == |os|
    && (forall i | 0 <= i < |ms| :: os[i].horizon == ms[i])
    && (ms != [] ==>
          && h in p.applied && p.applied[h].metric.Some?
          && (forall i | 0 <= i < |os| :: OutcomeOk(os[i], h, p.applied[h], p.applied[h].metric.value))
          && AsListed(ms, Horizons(p.applied[h].metric.value)))
  }

  ghost predicate SameKeys(p: Persisted) {
    && p.auditHeads.Keys == p.status.Keys && p.creators.Keys == p.status.Keys
    && p.coCreators.Keys <= p.status.Keys && p.applied.Keys <= p.status.Keys
  }

  ghost predicate Inv(s: Store, p: Persisted) {
    && Wf(s) && SameKeys(p)
    && (forall h | h in p.status :: RecOk(s, p, h))
    && OneOpenPerKey(s, p)
    && (forall h: Hash :: ScheduleOk(p, h))
  }

  lemma EmptyInv(s: Store)
    requires Wf(s)
    ensures Inv(s, EMPTY_STATE)
  {
  }

  // --- what a step leaves of the past ---

  ghost predicate TrailGrows(s: Store, p: Persisted, s': Store, p': Persisted, h: Hash) {
    forall t | Trail(s, p, h, t) :: exists more :: Trail(s', p', h, t + more)
  }

  ghost predicate Kept(s: Store, p: Persisted, s': Store, p': Persisted, h: Hash) {
    && h in p.creators && h in p'.status && h in p'.creators
    && p'.creators[h] == p.creators[h] && CoCreator(p', h) == CoCreator(p, h)
    && (h in p.applied ==> h in p'.applied && p'.applied[h] == p.applied[h])
    && TrailGrows(s, p, s', p', h)
  }

  /** Grains, authors, applied records and audit trails of the past are still there. */
  ghost predicate Continues(s: Store, p: Persisted, s': Store, p': Persisted) {
    Extends(s, s') && forall h | h in p.status :: Kept(s, p, s', p', h)
  }

  lemma ContinuesTransitive(a: Store, p: Persisted, b: Store, q: Persisted, c: Store, r: Persisted)
    requires Continues(a, p, b, q) && Continues(b, q, c, r)
    ensures Continues(a, p, c, r)
  {
    hide Extends, Trail, CoCreator;
    ExtendsTransitive(a, b, c);
    forall h | h in p.status ensures Kept(a, p, c, r, h) {
      assert Kept(a, p, b, q, h) && Kept(b, q, c, r, h);
      forall t | Trail(a, p, h, t) ensures exists more :: Trail(c, r, h, t + more) {
        var m :| Trail(b, q, h, t + m);
        var n :| Trail(c, r, h, (t + m) + n);
        assert (t + m) + n == t + (m + n);
      }
    }
  }

  // --- the store alone moves ---

  lemma RecExtends(a: Store, b: Store, h: Hash)
    requires IsRec(a, h) && Extends(a, b)
    ensures IsRec(b, h) && RecAt(b, h) == RecAt(a, h)
  {
    SameDedupKey(a.grains[h], b.grains[h]);
  }

  predicate SameLook(p: Persisted, q: Persisted, h: Hash) {
    && h in p.status && h in p.auditHeads && h in p.creators && h in q.status && h in q.auditHeads && h in q.creators
    && q.status[h] == p.status[h] && q.auditHeads[h] == p.auditHeads[h] && q.creators[h] == p.creators[h]
    && CoCreator(q, h) == CoCreator(p, h)
    && (h in p.applied <==> h in q.applied) && (h in p.applied ==> q.applied[h] == p.applied[h])
  }

  lemma TrailExtends(a: Store, b: Store, p: Persisted, q: Persisted, h: Hash, t: seq<AuditRecord>)
    requires Trail(a, p, h, t) && Extends(a, b) && SameLook(p, q, h)
    ensures Trail(b, q, h, t)
  {
    RecExtends(a, b, h);
    LinkedExtends(a, b, p.auditHeads[h], t);
  }

  /** A recommendation a step does not touch stays as it was, whatever the step adds to the store. */
  lemma Untouched(a: Store, b: Store, p: Persisted, q: Persisted, h: Hash)
    requires RecOk(a, p, h) && Extends(a, b) && SameLook(p, q, h)
    requires var key := RecAt(a, h).dedupKey;
             IsOpen(p.status[h]) && key in q.cooldowns ==> key in p.cooldowns && q.cooldowns[key] == p.cooldowns[key]
    ensures RecOk(b, q, h) && Kept(a, p, b, q, h)
  {
    RecExtends(a, b, h);
    hide Trail, Linked, SameContent;
    forall t | Trail(a, p, h, t) ensures Trail(b, q, h, t + []) {
      TrailExtends(a, b, p, q, h, t);
      assert t + [] == t;
    }
  }

  lemma InvExtends(a: Store, b: Store, p: Persisted)
    requires Inv(a, p) && Wf(b) && Extends(a, b)
    ensures Inv(b, p) && Continues(a, p, b, p)
  {
    hide RecOk, Wf, Extends, ScheduleOk, Kept;
    forall h | h in p.status ensures RecOk(b, p, h) && Kept(a, p, b, p, h) {
      OkIsRec(a, p, h);
      Untouched(a, b, p, p, h);
    }
    forall h, key | Holds(b, p, h, key) ensures Holds(a, p, h, key) {
      OkIsRec(a, p, h);
      RecExtends(a, b, h);
    }
  }

  lemma OkIsRec(s: Store, p: Persisted, h: Hash)
    requires RecOk(s, p, h)
    ensures IsRec(s, h)
  {
  }
}
