/** What a substrate holds, as a value: grains by address, the next address and the logical clock. Every
    operation of the reference substrate is a function on it. */
module GrainStore {
  import opened Basics
  import opened LoopModel
  import opened CalText

  datatype Store = Store(grains: map<Hash, GrainRecord>, nextId: nat, clock: int)

  function Mint(n: nat): Hash {
    "ref-" + ZeroPad(8, Digits(n))
  }

  lemma MintIsInjective(m: nat, n: nat)
    requires Mint(m) == Mint(n)
    ensures m == n
  {
    assert Mint(m)[4..] == ZeroPad(8, Digits(m)) && Mint(n)[4..] == ZeroPad(8, Digits(n));
    PaddedDigitsDetermineNumber(8, m, n);
  }

  /** Every grain sits under its own non-empty address and no address still to be minted is taken. */
  ghost predicate Wf(s: Store) {
    && (forall h | h in s.grains :: h != "" && s.grains[h].hash == h)
    && (forall n: nat | n >= s.nextId :: Mint(n) !in s.grains)
  }

  function LiveSet(s: Store): set<Hash> {
    set h | h in s.grains && Live(s.grains[h])
  }

  // --- operations ---

  function RecordFor(spec: GrainSpec, hash: Hash, created: int): GrainRecord {
    GrainRecord(hash, spec.grainType, StrField(spec.fields.entries, "namespace").GetOr(spec.namespace), created,
                IntField(spec.fields.entries, "valid_to_ms"), None, spec.fields)
  }

  /** Append a grain under the next address, `Mint(s.nextId)`. */
  function Put(s: Store, spec: GrainSpec): Store {
    var h := Mint(s.nextId);
    Store(s.grains[h := RecordFor(spec, h, s.clock + 1)], s.nextId + 1, s.clock + 1)
  }

  function Close(s: Store, h: Hash, mark: string): Store
    requires h in s.grains
  {
    s.(grains := s.grains[h := s.grains[h].(supersededBy := Some(mark))])
  }

  /** The replacement is stored before the target is looked up, so a missing target leaves it behind. */
  function SupersedeOp(s: Store, target: Hash, spec: GrainSpec): (Store, Option<Error>) {
    var added := Put(s, spec);
    if target in added.grains then (Close(added, target, Mint(s.nextId)), None)
    else (added, Some(SubstrateFault))
  }

  const RETRACTION_KEYS := {"verification_status", "retract_reason"}

  function RetractionMarks(f: Fields, reason: string): Fields {
    f.(entries := f.entries["verification_status" := Str("retracted")]["retract_reason" := Str(reason)])
  }

  function RetractOp(s: Store, h: Hash, reason: string): (Store, Option<Error>) {
    if h in s.grains then
      var g := s.grains[h];
      (s.(grains := s.grains[h := g.(supersededBy := Some("retracted"), fields := RetractionMarks(g.fields, reason))]),
       None)
    else (s, Some(SubstrateFault))
  }

  /** A batch under way: the store it has reached, the addresses it has created and what stopped it. */
  datatype Exec = Exec(store: Store, created: seq<Hash>, failed: Option<Error>)

  function ExecStmt(x: Exec, stmt: Stmt): Exec {
    var s := x.store;
    match stmt
    case Forget(h) => if h in s.grains then x.(store := Close(s, h, "forgotten")) else x
    case Retract(h) =>
      var (after, error) := RetractOp(s, h, "cal retract");
      x.(store := after, failed := error)
    case Add(grainType, f) =>
      x.(store := Put(s, GrainSpec(grainType, "", f)), created := x.created + [Mint(s.nextId)])
    case Supersede(target, grainType, f) =>
      var (after, error) := SupersedeOp(s, target, GrainSpec(grainType, "", f));
      Exec(after, if error.None? then x.created + [Mint(s.nextId)] else x.created, error)
    case Read => x
    case Unsupported => x.(failed := Some(CalUnsupported))
  }

  /** Statements run in order until one fails; what ran before stays. */
  function ExecAll(s: Store, stmts: seq<Stmt>): Exec {
    if stmts == [] then Exec(s, [], None)
    else
      var x := ExecAll(s, stmts[..|stmts| - 1]);
      if x.failed.Some? then x else ExecStmt(x, stmts[|stmts| - 1])
  }

  // --- what every operation keeps ---

  /** The content of a grain: everything but liveness and the marks of a retraction. */
  predicate SameContent(g: GrainRecord, later: GrainRecord) {
    && later.hash == g.hash && later.grainType == g.grainType && later.namespace == g.namespace
    && later.createdAt == g.createdAt && later.validTo == g.validTo
    && later.fields.rec == g.fields.rec && later.fields.audit == g.fields.audit
    && later.fields.entries - RETRACTION_KEYS == g.fields.entries - RETRACTION_KEYS
  }

  /** The store only grows: no grain is lost, rewritten or revived. */
  ghost predicate Extends(a: Store, b: Store) {
    && a.nextId <= b.nextId && a.clock <= b.clock
    && forall h | h in a.grains ::
         h in b.grains && SameContent(a.grains[h], b.grains[h]) && (Live(b.grains[h]) ==> Live(a.grains[h]))
  }

  lemma ExtendsReflexive(s: Store)
    ensures Extends(s, s)
  {
  }

  lemma StillThere(a: Store, b: Store)
    requires Extends(a, b)
    ensures a.grains.Keys <= b.grains.Keys
  {
  }

  lemma ExtendsTransitive(a: Store, b: Store, c: Store)
    requires Extends(a, b) && Extends(b, c)
    ensures Extends(a, c)
  {
  }

  lemma SameDedupKey(g: GrainRecord, later: GrainRecord)
    requires SameContent(g, later)
    ensures StrField(later.fields.entries, "dedup_key") == StrField(g.fields.entries, "dedup_key")
  {
    var e, f := g.fields.entries, later.fields.entries;
    assert "dedup_key" in e <==> "dedup_key" in e - RETRACTION_KEYS;
    assert "dedup_key" in f <==> "dedup_key" in f - RETRACTION_KEYS;
    assert "dedup_key" in e ==> (e - RETRACTION_KEYS)["dedup_key"] == (f - RETRACTION_KEYS)["dedup_key"];
  }

  lemma PutKeeps(s: Store, spec: GrainSpec)
    requires Wf(s)
    ensures Wf(Put(s, spec)) && Extends(s, Put(s, spec))
    ensures Mint(s.nextId) !in s.grains
    ensures LiveSet(Put(s, spec)) == LiveSet(s) + {Mint(s.nextId)}
  {
    var h, after := Mint(s.nextId), Put(s, spec);
    forall n: nat | n >= after.nextId ensures Mint(n) !in after.grains {
      if Mint(n) == h { MintIsInjective(n, s.nextId); }
    }
    hide Mint, RecordFor;
  }

  lemma CloseKeeps(s: Store, h: Hash, mark: string)
    requires Wf(s) && h in s.grains
    ensures Wf(Close(s, h, mark)) && Extends(s, Close(s, h, mark))
    ensures LiveSet(Close(s, h, mark)) == LiveSet(s) - {h}
  {
    hide Mint;
  }

  lemma RetractKeeps(s: Store, h: Hash, reason: string)
    requires Wf(s)
    ensures var (after, error) := RetractOp(s, h, reason);
            && Wf(after) && Extends(s, after) && after.nextId == s.nextId
            && (error.None? <==> h in s.grains)
            && LiveSet(after) == LiveSet(s) - {h}
            && after.grains.Keys == s.grains.Keys
            && (error.None? ==>
                  StrField(after.grains[h].fields.entries, "verification_status") == Some("retracted")
                  && StrField(after.grains[h].fields.entries, "retract_reason") == Some(reason))
  {
    hide Mint;
    if h in s.grains {
      var e := s.grains[h].fields;
      assert RetractionMarks(e, reason).entries - RETRACTION_KEYS == e.entries - RETRACTION_KEYS;
    }
  }

  lemma SupersedeKeeps(s: Store, target: Hash, spec: GrainSpec)
    requires Wf(s)
    ensures var (after, error) := SupersedeOp(s, target, spec);
            && Wf(after) && Extends(s, after)
            && after.grains.Keys == s.grains.Keys + {Mint(s.nextId)} && after.nextId == s.nextId + 1
            && (error.None? <==> target in s.grains || target == Mint(s.nextId))
            && LiveSet(after) == LiveSet(s) + {Mint(s.nextId)} - {target}
  {
    PutKeeps(s, spec);
    var added := Put(s, spec);
    assert added.grains.Keys == s.grains.Keys + {Mint(s.nextId)} && added.nextId == s.nextId + 1;
    hide Wf, Mint, Put, Extends;
    if target in added.grains {
      CloseKeeps(added, target, Mint(s.nextId));
      ExtendsTransitive(s, added, Close(added, target, Mint(s.nextId)));
    }
  }

  /** The addresses a batch reports are new, pairwise different and present afterwards. */
  ghost predicate Fresh(s: Store, x: Exec) {
    && (forall i | 0 <= i < |x.created| :: x.created[i] !in s.grains && x.created[i] in x.store.grains)
    && (forall i, j | 0 <= i < j < |x.created| :: x.created[i] != x.created[j])
  }

  /** A statement reports no address, or the one it has just minted. */
  ghost predicate ReportsNew(x: Exec, y: Exec) {
    y.created == x.created
    || (y.created == x.created + [Mint(x.store.nextId)]
        && Mint(x.store.nextId) !in x.store.grains && Mint(x.store.nextId) in y.store.grains)
  }

  lemma ExecStmtExtends(x: Exec, stmt: Stmt)
    requires Wf(x.store)
    ensures var y := ExecStmt(x, stmt); Wf(y.store) && Extends(x.store, y.store) && ReportsNew(x, y)
  {
    var s := x.store;
    ExtendsReflexive(s);
    match stmt
    case Forget(h) =>
      if h in s.grains { CloseKeeps(s, h, "forgotten"); }
    case Retract(h) =>
      hide RetractOp;
      RetractKeeps(s, h, "cal retract");
    case Add(grainType, f) => PutKeeps(s, GrainSpec(grainType, "", f));
    case Supersede(target, grainType, f) =>
      PutKeeps(s, GrainSpec(grainType, "", f));
      hide SupersedeOp;
      SupersedeKeeps(s, target, GrainSpec(grainType, "", f));
    case Read =>
    case Unsupported =>
  }

  lemma FreshGrows(s: Store, x: Exec, y: Exec)
    requires Fresh(s, x) && Extends(s, x.store) && Extends(x.store, y.store) && ReportsNew(x, y)
    ensures Fresh(s, y)
  {
    hide Mint, SameContent;
  }

  lemma ExecStmtKeeps(s: Store, x: Exec, stmt: Stmt)
    requires Wf(x.store) && Extends(s, x.store) && Fresh(s, x)
    ensures var y := ExecStmt(x, stmt); Wf(y.store) && Extends(s, y.store) && Fresh(s, y)
  {
    hide Wf, Extends, Fresh, ReportsNew, ExecStmt;
    ExecStmtExtends(x, stmt);
    FreshGrows(s, x, ExecStmt(x, stmt));
    ExtendsTransitive(s, x.store, ExecStmt(x, stmt).store);
  }

  /** A batch, finished or failed, only extends the store. */
  lemma {:induction false} ExecKeeps(s: Store, stmts: seq<Stmt>)
    requires Wf(s)
    ensures var x := ExecAll(s, stmts); Wf(x.store) && Extends(s, x.store) && Fresh(s, x)
  {
    hide ExecStmt, Wf, Extends, Fresh;
    if stmts == [] {
      ExtendsReflexive(s);
      NothingCreated(s);
    } else {
      ExecKeeps(s, stmts[..|stmts| - 1]);
      ExecStmtKeeps(s, ExecAll(s, stmts[..|stmts| - 1]), stmts[|stmts| - 1]);
    }
  }

  lemma NothingCreated(s: Store)
    ensures Fresh(s, Exec(s, [], None))
  {
  }

  // --- batches that only add ---

  predicate OnlyAdds(stmts: seq<Stmt>) {
    forall i | 0 <= i < |stmts| :: stmts[i].Add? || stmts[i].Read?
  }

  function Members(hs: seq<Hash>): set<Hash> {
    set h | h in hs
  }

  /** A batch of ADDs cannot fail and makes live exactly what it creates. */
  lemma {:induction false} AddsOnlyAdd(s: Store, stmts: seq<Stmt>)
    requires Wf(s) && OnlyAdds(stmts)
    ensures var x := ExecAll(s, stmts);
            x.failed.None? && LiveSet(x.store) == LiveSet(s) + Members(x.created)
  {
    if stmts != [] {
      var part, last := stmts[..|stmts| - 1], stmts[|stmts| - 1];
      AddsOnlyAdd(s, part);
      ExecKeeps(s, part);
      var x := ExecAll(s, part);
      if last.Add? {
        PutKeeps(x.store, GrainSpec(last.grainType, "", last.fields));
      }
      hide Wf, Extends, Mint, Put, LiveSet;
    }
  }
}
