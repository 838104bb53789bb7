/** What the host policy applies by itself: batches that only replace grains by value-identical ones. */
module AutoApplying {
  import opened Basics
  import opened LoopModel
  import opened Text
  import opened CalText
  import opened GrainStore
  import opened EngineSpec
  import opened Invariants
  import opened Steps
  import opened Reachable
  import opened Runs
  import opened Guarantees
  import opened Rejections

  // --- batches of supersessions ---

  ghost predicate Supersessions(s: Store, stmts: seq<Stmt>) {
    forall i | 0 <= i < |stmts| :: stmts[i].Supersede? && stmts[i].target in s.grains
  }

  function Targets(stmts: seq<Stmt>): set<Hash> {
    set i | 0 <= i < |stmts| && stmts[i].Supersede? :: stmts[i].target
  }

  /** The grain a statement created carries the statement's type and fields and is live. */
  predicate CreatedBy(x: Exec, i: nat, stmt: Stmt)
    requires i < |x.created| && stmt.Supersede?
  {
    && x.created[i] in x.store.grains
    && var g := x.store.grains[x.created[i]];
       g.grainType == stmt.grainType && g.fields == stmt.fields && Live(g)
  }

  /** The target points at a grain that one of its own statements created. */
  ghost predicate Replaced(x: Exec, stmts: seq<Stmt>, t: Hash) {
    && t in x.store.grains
    && exists i | 0 <= i < |stmts| && i < |x.created| ::
         stmts[i].Supersede? && stmts[i].target == t && x.store.grains[t].supersededBy == Some(x.created[i])
  }

  ghost predicate AllReplaced(s: Store, stmts: seq<Stmt>, x: Exec) {
    && x.failed.None? && |x.created| == |stmts| && Supersessions(s, stmts)
    && (forall i | 0 <= i < |stmts| :: CreatedBy(x, i, stmts[i]))
    && (forall i | 0 <= i < |stmts| :: Replaced(x, stmts, stmts[i].target))
    && LiveSet(x.store) == LiveSet(s) - Targets(stmts) + Members(x.created)
  }

  /** What a supersession does: one live grain more, its target pointing there, every other grain as before. */
  ghost predicate Supersedes(x: Exec, y: Exec, stmt: Stmt)
    requires stmt.Supersede?
  {
    var h := Mint(x.store.nextId);
    && y.failed.None? && y.created == x.created + [h]
    && h !in x.store.grains && h in y.store.grains && stmt.target in y.store.grains && h != stmt.target
    && y.store.grains[h].grainType == stmt.grainType && y.store.grains[h].fields == stmt.fields
    && Live(y.store.grains[h])
    && y.store.grains[stmt.target].supersededBy == Some(h)
    && (forall g | g in x.store.grains && g != stmt.target ::
          g in y.store.grains && y.store.grains[g] == x.store.grains[g])
    && LiveSet(y.store) == LiveSet(x.store) + {h} - {stmt.target}
  }

  lemma SupersessionSupersedes(x: Exec, stmt: Stmt)
    requires Wf(x.store) && x.failed.None? && stmt.Supersede? && stmt.target in x.store.grains
    ensures Supersedes(x, ExecStmt(x, stmt), stmt)
  {
    var spec := GrainSpec(stmt.grainType, "", stmt.fields);
    PutKeeps(x.store, spec);
    SupersedeKeeps(x.store, stmt.target, spec);
    hide Mint, LiveSet, Wf, Extends;
  }

  lemma NextCreated(s: Store, stmts: seq<Stmt>, x: Exec, y: Exec, stmt: Stmt)
    requires AllReplaced(s, stmts, x) && stmt.Supersede? && Supersedes(x, y, stmt)
    requires forall c | c in x.created :: c != stmt.target
    ensures var all := stmts + [stmt];
            |y.created| == |all| && forall i | 0 <= i < |all| :: all[i].Supersede? && CreatedBy(y, i, all[i])
  {
    hide Mint, LiveSet, Replaced;
    var all := stmts + [stmt];
    forall i | 0 <= i < |all| ensures all[i].Supersede? && CreatedBy(y, i, all[i]) {
      if i < |stmts| {
        assert CreatedBy(x, i, stmts[i]) && x.created[i] in x.created && y.created[i] == x.created[i];
      }
    }
  }

  lemma NextTargets(s: Store, stmts: seq<Stmt>, x: Exec, y: Exec, stmt: Stmt)
    requires AllReplaced(s, stmts, x) && stmt.Supersede? && Supersedes(x, y, stmt)
    ensures var all := stmts + [stmt];
            forall i | 0 <= i < |all| :: all[i].Supersede? && Replaced(y, all, all[i].target)
  {
    hide Mint, LiveSet, CreatedBy;
    var all := stmts + [stmt];
    assert all[|stmts|] == stmt && y.created[|stmts|] == Mint(x.store.nextId);
    assert Replaced(y, all, stmt.target);
    forall i | 0 <= i < |all| ensures all[i].Supersede? && Replaced(y, all, all[i].target) {
      if i < |stmts| && all[i].target != stmt.target {
        assert Replaced(x, stmts, stmts[i].target);
        StillReplaced(x, y, stmts, stmt, stmts[i].target);
      }
    }
  }

  lemma NextLive(s: Store, stmts: seq<Stmt>, x: Exec, y: Exec, stmt: Stmt)
    requires AllReplaced(s, stmts, x) && stmt.Supersede? && Supersedes(x, y, stmt) && stmt.target !in Members(x.created)
    ensures LiveSet(y.store) == LiveSet(s) - Targets(stmts + [stmt]) + Members(y.created)
  {
    TargetsGrow(stmts, stmt);
    var h := Mint(x.store.nextId);
    assert Members(y.created) == Members(x.created) + {h};
    hide Mint, LiveSet, CreatedBy, Replaced, Targets, Members;
  }

  /** One more supersession. */
  lemma NextReplaced(s: Store, stmts: seq<Stmt>, x: Exec, stmt: Stmt)
    requires Wf(x.store) && Extends(s, x.store) && Fresh(s, x) && AllReplaced(s, stmts, x)
    requires stmt.Supersede? && stmt.target in s.grains
    ensures AllReplaced(s, stmts + [stmt], ExecStmt(x, stmt))
  {
    var y := ExecStmt(x, stmt);
    TargetIsOld(s, x, stmt.target);
    hide Wf, ExecStmt, LiveSet, CreatedBy, Replaced, Fresh, SameContent, Supersedes, Targets;
    SupersessionSupersedes(x, stmt);
    NextCreated(s, stmts, x, y, stmt);
    NextTargets(s, stmts, x, y, stmt);
    NextLive(s, stmts, x, y, stmt);
    assert y.failed.None? by { NothingFailed(x, y, stmt); }
  }

  lemma NothingFailed(x: Exec, y: Exec, stmt: Stmt)
    requires stmt.Supersede? && Supersedes(x, y, stmt)
    ensures y.failed.None?
  {
  }

  lemma TargetIsOld(s: Store, x: Exec, t: Hash)
    requires Fresh(s, x) && t in s.grains
    ensures t !in Members(x.created) && forall c | c in x.created :: c != t
  {
  }

  lemma TargetsGrow(stmts: seq<Stmt>, stmt: Stmt)
    requires stmt.Supersede?
    ensures Targets(stmts + [stmt]) == Targets(stmts) + {stmt.target}
  {
    var all := stmts + [stmt];
    assert all[|stmts|] == stmt;
    forall i | 0 <= i < |stmts| && stmts[i].Supersede? ensures stmts[i].target in Targets(all) {
      assert all[i] == stmts[i];
    }
  }

  lemma StillReplaced(x: Exec, y: Exec, stmts: seq<Stmt>, stmt: Stmt, t: Hash)
    requires Replaced(x, stmts, t) && y.created == x.created + [Mint(x.store.nextId)] && |x.created| == |stmts|
    requires t in y.store.grains && y.store.grains[t] == x.store.grains[t]
    ensures Replaced(y, stmts + [stmt], t)
  {
    hide Mint;
    var i :| 0 <= i < |stmts| && i < |x.created| && stmts[i].Supersede? && stmts[i].target == t
             && x.store.grains[t].supersededBy == Some(x.created[i]);
    assert (stmts + [stmt])[i] == stmts[i] && y.created[i] == x.created[i];
  }

  /** A batch that supersedes grains of the starting store runs to the end: every target is superseded by a live
      grain the batch created for it, and nothing else changes liveness. */
  lemma {:induction false} SupersessionsReplace(s: Store, stmts: seq<Stmt>)
    requires Wf(s) && Supersessions(s, stmts)
    ensures AllReplaced(s, stmts, ExecAll(s, stmts))
  {
    if stmts == [] {
      NothingReplaced(s);
    } else {
      hide Wf, Extends, Fresh, AllReplaced, ExecStmt;
      var rest, last := stmts[..|stmts| - 1], stmts[|stmts| - 1];
      SupersessionsReplace(s, rest);
      ExecKeeps(s, rest);
      assert stmts == rest + [last];
      assert ExecAll(s, rest).failed.None? by { RanThrough(s, rest); }
      NextReplaced(s, rest, ExecAll(s, rest), last);
    }
  }

  lemma NothingReplaced(s: Store)
    ensures AllReplaced(s, [], ExecAll(s, []))
  {
    assert LiveSet(s) == LiveSet(s) - Targets([]) + Members([]);
  }

  lemma RanThrough(s: Store, stmts: seq<Stmt>)
    requires AllReplaced(s, stmts, ExecAll(s, stmts))
    ensures ExecAll(s, stmts).failed.None?
  {
  }

  // --- batches that pass the auto-apply check ---

  /** Equal values, or texts that agree up to case and outer whitespace. */
  predicate MeansTheSame(v: Value, w: Value) {
    v == w || (v.Str? && w.Str? && Normalize(v.s) == Normalize(w.s))
  }

  /** The grain already says this under the key; `namespace` is its namespace. */
  predicate SaysTheSame(k: string, v: Value, t: GrainRecord) {
    if k == "namespace" then v.Str? && Normalize(v.s) == Normalize(t.namespace)
    else k in t.fields.entries && MeansTheSame(v, t.fields.entries[k])
  }

  /** The statement replaces a grain without expiry by one whose every field says the same. */
  predicate ReplacesIdentically(s: Store, stmt: Stmt) {
    && stmt.Supersede? && stmt.target in s.grains && stmt.fields.entries != map[]
    && s.grains[stmt.target].validTo.None?
    && forall k | k in stmt.fields.entries :: SaysTheSame(k, stmt.fields.entries[k], s.grains[stmt.target])
  }

  lemma SameFieldValueIs(k: string, v: Value, t: GrainRecord)
    ensures SameFieldValue(k, v, t) <==> SaysTheSame(k, v, t)
  {
    hide Normalize;
  }

  predicate AllReplaceIdentically(s: Store, stmts: seq<Stmt>) {
    forall i | 0 <= i < |stmts| :: ReplacesIdentically(s, stmts[i])
  }

  predicate SomeUnsupported(stmts: seq<Stmt>) {
    exists i | 0 <= i < |stmts| :: stmts[i] == Unsupported
  }

  lemma StatementAhead(s: Store, stmt: Stmt, tail: seq<Stmt>)
    ensures AllReplaceIdentically(s, [stmt] + tail) <==> ReplacesIdentically(s, stmt) && AllReplaceIdentically(s, tail)
    ensures SomeUnsupported([stmt] + tail) <==> stmt == Unsupported || SomeUnsupported(tail)
  {
    hide ReplacesIdentically;
    var stmts := [stmt] + tail;
    assert stmts[0] == stmt;
    forall i | 0 <= i < |tail| ensures tail[i] == stmts[i + 1] {
    }
    forall i | 0 < i < |stmts| ensures stmts[i] == tail[i - 1] {
    }
  }

  /** No type on the engine's own SUPERSEDE lines carries an opening brace. */
  predicate CleanTypes(js: Codec, lines: seq<string>) {
    forall i | 0 <= i < |lines| :: CleanLine(js, lines[i])
  }

  predicate CleanLine(js: Codec, line: string) {
    var own := ParseOwnSupersede(js, Trim(line));
    Trim(line) != "" && own.Some? ==> '{' !in own.value.grainType
  }

  lemma TrimIsIdempotent(s: string)
    ensures Trim(Trim(s)) == Trim(s)
  {
    var a, b := TrimSplits(s);
    TrimOfTrimmed(Trim(s));
  }

  /** The executor's reading of a line that passes the check: its replacement, unless the type has a brace. */
  lemma CuratedLine(js: Codec, s: Store, line: string)
    requires js.Lawful() && Wf(s) && Trim(line) != "" && ValueIdentical(js, s, Trim(line))
    ensures if CleanLine(js, line) then ReplacesIdentically(s, ParseStatement(js, Trim(line)))
            else ParseStatement(js, Trim(line)) == Unsupported
  {
    hide Trim, ParseStatement, ParseOwnSupersede, SameFieldValue, SaysTheSame, Codec.Lawful, Mint;
    TrimIsIdempotent(line);
    ReadersAgree(js, Trim(line));
    var own := ParseOwnSupersede(js, Trim(line)).value;
    forall k | k in own.fields.entries ensures SaysTheSame(k, own.fields.entries[k], s.grains[own.target]) {
      SameFieldValueIs(k, own.fields.entries[k], s.grains[own.target]);
    }
  }

  /** Every line passes the check, blank ones aside. */
  predicate Curated(js: Codec, s: Store, lines: seq<string>) {
    forall i | 0 <= i < |lines| :: Trim(lines[i]) != "" ==> ValueIdentical(js, s, Trim(lines[i]))
  }

  lemma {:induction false} CuratedBatch(js: Codec, s: Store, lines: seq<string>)
    requires js.Lawful() && Wf(s) && Curated(js, s, lines)
    ensures var stmts := ParseLines(js, lines);
            if CleanTypes(js, lines) then AllReplaceIdentically(s, stmts) else SomeUnsupported(stmts)
    decreases lines
  {
    hide Trim, ParseStatement, ValueIdentical, ReplacesIdentically, Codec.Lawful, Wf, CleanLine;
    assert AllReplaceIdentically(s, []);
    hide AllReplaceIdentically, SomeUnsupported;
    if lines != [] {
      var rest, stmts, tail := lines[1..], ParseLines(js, lines), ParseLines(js, lines[1..]);
      assert lines == [lines[0]] + rest;
      assert Curated(js, s, rest);
      CuratedBatch(js, s, rest);
      assert CleanTypes(js, lines) <==> CleanLine(js, lines[0]) && CleanTypes(js, rest);
      if Trim(lines[0]) == "" {
        assert CleanLine(js, lines[0]) by { BlankIsClean(js, lines[0]); }
        assert stmts == tail;
      } else {
        CuratedLine(js, s, lines[0]);
        assert stmts == [ParseStatement(js, Trim(lines[0]))] + tail;
        StatementAhead(s, ParseStatement(js, Trim(lines[0])), tail);
      }
    }
  }

  lemma BlankIsClean(js: Codec, line: string)
    requires Trim(line) == ""
    ensures CleanLine(js, line)
  {
  }

  lemma {:induction false} UnsupportedFails(s: Store, stmts: seq<Stmt>, i: nat)
    requires i < |stmts| && stmts[i] == Unsupported
    ensures ExecAll(s, stmts).failed.Some?
  {
    if i < |stmts| - 1 {
      UnsupportedFails(s, stmts[..|stmts| - 1], i);
      hide ExecStmt;
    }
  }

  /** A batch whose every line passes the check runs without error exactly when no type carries a brace. Then every
      target ends superseded by a live grain the batch created for it, whose fields equal the target's after
      normalization; no target had an expiry; and no other grain loses its liveness. */
  lemma CuratedBatchReplaces(js: Codec, s: Store, cal: string)
    requires js.Lawful() && Wf(s) && StructuralCuration(js, s, cal)
    ensures var stmts := ParseBatch(js, cal);
            var x := ExecAll(s, stmts);
            && (x.failed.None? <==> CleanTypes(js, Lines(cal)))
            && (x.failed.None? ==>
                  AllReplaced(s, stmts, x) && AllReplaceIdentically(s, stmts))
  {
    hide Lines, ParseLines, Codec.Lawful, CleanTypes, AllReplaced, ExecAll, SameFieldValue, ValueIdentical, Trim;
    CuratedBatch(js, s, Lines(cal));
    var stmts := ParseBatch(js, cal);
    if CleanTypes(js, Lines(cal)) {
      assert Supersessions(s, stmts);
      SupersessionsReplace(s, stmts);
      RanThrough(s, stmts);
    } else {
      var i :| 0 <= i < |stmts| && stmts[i] == Unsupported;
      UnsupportedFails(s, stmts, i);
    }
  }

  // --- when a run stops half way ---

  /** An automatic apply fails exactly on a type with a brace. */
  lemma AutoApplyFailsIff(e: Engine, x: Progress, h: Hash, rec: Recommendation, now: int)
    requires e.js.Lawful() && Wf(x.store) && x.failed.None? && CanAutoApply(e, x.store, rec)
    ensures AutoApply(e, x, h, rec, now).failed.Some? <==> !CleanTypes(e.js, Lines(rec.proposal.cal))
  {
    hide StructuralCuration, CleanTypes, Lines, ExecAll, ParseBatch, Record, AutoRecord, Codec.Lawful;
    CuratedBatchReplaces(e.js, x.store, rec.proposal.cal);
  }

  lemma AutoApplyStaysWf(e: Engine, x: Progress, h: Hash, rec: Recommendation, now: int)
    requires Wf(x.store)
    ensures Wf(AutoApply(e, x, h, rec, now).store) && Extends(x.store, AutoApply(e, x, h, rec, now).store)
  {
    ExtendsReflexive(x.store);
    hide Wf, ExecAll, ParseBatch, AutoRecord, Fresh, Extends;
    var run := if rec.proposal.Cal? then ExecAll(x.store, ParseBatch(e.js, rec.proposal.cal))
      else Exec(x.store, [], None);
    if rec.proposal.Cal? { ExecKeeps(x.store, ParseBatch(e.js, rec.proposal.cal)); }
    var s := Put(run.store, AuditSpec(AutoRecord(h, HeadOf(x.state, h), now)));
    PutKeeps(run.store, AuditSpec(AutoRecord(h, HeadOf(x.state, h), now)));
    hide Put;
    ExtendsTransitive(x.store, run.store, s);
  }

  lemma StoreOneExtends(e: Engine, x: Progress, rec: Recommendation, trigger: Option<string>, now: int)
    requires Wf(x.store)
    ensures var y := StoreOne(e, x, rec, trigger, now);
            && Wf(y.store) && Extends(x.store, y.store)
            && (x.failed.None? ==>
                  Mint(x.store.nextId) !in x.store.grains
                  && IsRec(y.store, Mint(x.store.nextId)) && RecAt(y.store, Mint(x.store.nextId)) == rec)
  {
    hide Wf, Extends, CanAutoApply, AutoApply, Propose, Put, IsRec, RecAt, Adds, Linked;
    ExtendsReflexive(x.store);
    if x.failed.None? {
      PutKeeps(x.store, RecSpec(rec));
      ProposeStores(x.store, x.state, rec, trigger, now);
      var (s, p) := Propose(x.store, x.state, rec, trigger, now);
      var h, proposed := Mint(x.store.nextId), x.(store := s, state := p);
      hide Mint;
      AutoApplyStaysWf(e, proposed, h, rec, now);
      var y := AutoApply(e, proposed, h, rec, now);
      ExtendsTransitive(x.store, s, y.store);
      RecExtends(s, y.store, h);
    }
  }

  /** The policy lets this recommendation be applied once it is stored, and its batch spells a type with a brace. */
  predicate StopsOn(e: Engine, x: Progress, rec: Recommendation, trigger: Option<string>, now: int) {
    && CanAutoApply(e, Propose(x.store, x.state, rec, trigger, now).0, rec)
    && !CleanTypes(e.js, Lines(rec.proposal.cal))
  }

  lemma StoreOneFailsIff(e: Engine, x: Progress, rec: Recommendation, trigger: Option<string>, now: int)
    requires e.js.Lawful() && Wf(x.store) && x.failed.None?
    ensures StoreOne(e, x, rec, trigger, now).failed.Some? <==> StopsOn(e, x, rec, trigger, now)
  {
    hide Codec.Lawful, Wf, CleanTypes, AutoApply, StructuralCuration, GrantsAutoApply, DeclaredStructural, TargetClass,
         Lines;
    var h := Mint(x.store.nextId);
    PutKeeps(x.store, RecSpec(rec));
    PutKeeps(Put(x.store, RecSpec(rec)), AuditSpec(PendingRecord(rec, h, now)));
    var (s, p) := Propose(x.store, x.state, rec, trigger, now);
    assert s == Put(Put(x.store, RecSpec(rec)), AuditSpec(PendingRecord(rec, h, now)));
    hide Put, Mint, Propose;
    if CanAutoApply(e, s, rec) {
      AutoApplyFailsIff(e, x.(store := s, state := p), h, rec, now);
    }
  }

  /** Storing gets as far as the recommendation at `i` and stops on it. */
  predicate StopsAt(e: Engine, s: Store, p: Persisted, recs: seq<Recommendation>, trigger: Option<string>, now: int,
                    i: nat)
    requires i < |recs|
  {
    var x := StoreAll(e, s, p, recs[..i], trigger, now);
    x.failed.None? && StopsOn(e, x, recs[i], trigger, now)
  }

  lemma {:induction false} StoringFailsIff(e: Engine, s: Store, p: Persisted, recs: seq<Recommendation>,
                                           trigger: Option<string>, now: int)
    requires e.js.Lawful() && Wf(s)
    ensures var x := StoreAll(e, s, p, recs, trigger, now);
            && Wf(x.store)
            && (x.failed.Some? <==> exists i | 0 <= i < |recs| :: StopsAt(e, s, p, recs, trigger, now, i))
  {
    hide Codec.Lawful, Wf, StopsOn, StoreOne, Extends, Mint, IsRec, RecAt;
    if recs != [] {
      var n := |recs| - 1;
      var rest := recs[..n];
      StoringFailsIff(e, s, p, rest, trigger, now);
      var x := StoreAll(e, s, p, rest, trigger, now);
      StoreOneExtends(e, x, recs[n], trigger, now);
      forall i | 0 <= i < n
        ensures StopsAt(e, s, p, recs, trigger, now, i) <==> StopsAt(e, s, p, rest, trigger, now, i)
      {
        StopsInPrefix(e, s, p, recs, trigger, now, n, i);
      }
      if x.failed.None? {
        StoreOneFailsIff(e, x, recs[n], trigger, now);
        assert StopsAt(e, s, p, recs, trigger, now, n) <==> StopsOn(e, x, recs[n], trigger, now);
      } else {
        FailedStays(e, x, recs[n], trigger, now);
        var i :| 0 <= i < n && StopsAt(e, s, p, rest, trigger, now, i);
        assert StopsAt(e, s, p, recs, trigger, now, i);
      }
    }
  }

  lemma FailedStays(e: Engine, x: Progress, rec: Recommendation, trigger: Option<string>, now: int)
    requires x.failed.Some?
    ensures StoreOne(e, x, rec, trigger, now) == x
  {
  }

  /** A run fails exactly when its gate is met and it gets to a survivor that the policy lets it apply and whose batch
      spells a type with a brace. */
  lemma RunFailsIff(e: Engine, w: World, input: RunInput)
    requires e.js.Lawful() && Wf(w.store)
    ensures var p, survivors := MeasureOutcomes(e, w.store, StateOf(w), input.now), RunSurvivors(e, w, input);
            RunStep(e, w, input).1.Err?
            <==> Gate(input.opts, StateOf(w), input.newGrains, input.newErrors, input.now).None?
                 && exists i | 0 <= i < |survivors| ::
                      StopsAt(e, w.store, p, survivors, input.opts.trigger, input.now, i)
  {
    hide Codec.Lawful, Wf, StoreAll, StopsAt, MeasureOutcomes, Survivors, Candidates, Gate;
    var p := MeasureOutcomes(e, w.store, StateOf(w), input.now);
    StoringFailsIff(e, w.store, p, RunSurvivors(e, w, input), input.opts.trigger, input.now);
  }

  // --- the same condition on the store the run starts from ---

  predicate SameReading(g: GrainRecord, h: GrainRecord) {
    g.fields == h.fields && g.namespace == h.namespace && g.validTo == h.validTo
  }

  ghost predicate Minted(h: Hash) {
    exists n: nat :: Mint(n) == h
  }

  /** Grains keep what the check reads of them, and new ones sit at minted addresses. */
  ghost predicate SameReadings(a: Store, b: Store) {
    && (forall g | g in a.grains :: g in b.grains && SameReading(a.grains[g], b.grains[g]))
    && (forall g | g in b.grains && g !in a.grains :: Minted(g))
  }

  lemma ReadingsTransitive(a: Store, b: Store, c: Store)
    requires SameReadings(a, b) && SameReadings(b, c)
    ensures SameReadings(a, c)
  {
    hide Minted;
  }

  lemma PutReads(s: Store, spec: GrainSpec)
    requires Wf(s)
    ensures SameReadings(s, Put(s, spec))
  {
    PutKeeps(s, spec);
    assert Minted(Mint(s.nextId));
    hide Minted, Mint, RecordFor;
  }

  // --- what a run may replace, and by what ---

  /** The grain says nothing that its target does not say: every field it has means what the target's field means, a
      `namespace` field what the target's namespace means, and the target has no expiry that would get lost. */
  predicate Repeats(c: GrainRecord, t: GrainRecord) {
    && c.fields.entries != map[] && t.validTo.None?
    && forall k | k in c.fields.entries :: SaysTheSame(k, c.fields.entries[k], t)
  }

  /** Every grain that lost its liveness, or is superseded by another one than before, is superseded by a new grain that
      repeats it. */
  ghost predicate OnlyRepeats(a: Store, b: Store) {
    forall t | t in b.grains ::
      || (if t in a.grains then b.grains[t].supersededBy == a.grains[t].supersededBy else Live(b.grains[t]))
      || exists c :: RepeatedBy(a, b, t, c)
  }

  predicate RepeatedBy(a: Store, b: Store, t: Hash, c: Hash)
    requires t in b.grains
  {
    c in b.grains && c !in a.grains && c != t && b.grains[t].supersededBy == Some(c)
    && Repeats(b.grains[c], b.grains[t])
  }

  /** Both together: what one step of storing survivors leaves of the store. */
  ghost predicate Harmless(a: Store, b: Store) {
    SameReadings(a, b) && OnlyRepeats(a, b)
  }

  lemma HarmlessTransitive(a: Store, b: Store, c: Store)
    requires Harmless(a, b) && Harmless(b, c)
    ensures Harmless(a, c)
  {
    ReadingsTransitive(a, b, c);
    hide Repeats, Minted;
    forall t | t in c.grains
      ensures (if t in a.grains then c.grains[t].supersededBy == a.grains[t].supersededBy else Live(c.grains[t]))
              || exists d :: RepeatedBy(a, c, t, d)
    {
      if d :| RepeatedBy(b, c, t, d) {
        assert RepeatedBy(a, c, t, d);
      } else if t in b.grains {
        if d :| RepeatedBy(a, b, t, d) {
          RepeatsStays(b.grains[d], b.grains[t], c.grains[d], c.grains[t]);
          assert RepeatedBy(a, c, t, d);
        }
      }
    }
  }

  lemma RepeatsStays(c: GrainRecord, t: GrainRecord, c': GrainRecord, t': GrainRecord)
    requires Repeats(c, t) && SameReading(c, c') && SameReading(t, t')
    ensures Repeats(c', t')
  {
    hide MeansTheSame;
  }

  lemma HarmlessReflexive(s: Store)
    ensures Harmless(s, s)
  {
    ReadingsReflexive(s);
    hide Minted;
  }

  lemma PutIsHarmless(s: Store, spec: GrainSpec)
    requires Wf(s)
    ensures Harmless(s, Put(s, spec))
  {
    PutReads(s, spec);
    PutKeeps(s, spec);
    hide Minted, Mint, Repeats;
  }

  lemma RepeatsWhenIdentical(s: Store, stmt: Stmt, c: GrainRecord, t: GrainRecord)
    requires ReplacesIdentically(s, stmt) && c.fields == stmt.fields && SameReading(s.grains[stmt.target], t)
    ensures Repeats(c, t)
  {
    forall k | k in c.fields.entries ensures SaysTheSame(k, c.fields.entries[k], t) {
      assert SaysTheSame(k, stmt.fields.entries[k], s.grains[stmt.target]);
    }
  }

  lemma SupersedeIsHarmless(s: Store, x: Exec, stmt: Stmt)
    requires Wf(x.store) && SameReadings(s, x.store) && ReplacesIdentically(s, stmt)
    ensures Harmless(x.store, ExecStmt(x, stmt).store)
  {
    var spec, h, t := GrainSpec(stmt.grainType, "", stmt.fields), Mint(x.store.nextId), stmt.target;
    var mid := Put(x.store, spec);
    hide Minted, Mint, Repeats, SameFieldValue, ReplacesIdentically, Wf, SameReadings;
    PutReads(x.store, spec);
    PutKeeps(x.store, spec);
    TargetIsStored(s, x.store, stmt);
    RepeatsWhenIdentical(s, stmt, mid.grains[h], mid.grains[t]);
    hide SameReading;
    CloseIsHarmless(x.store, spec, t);
    assert ExecStmt(x, stmt).store == Close(mid, t, h) by { hide RecordFor, Close; }
  }

  lemma CloseIsHarmless(s: Store, spec: GrainSpec, t: Hash)
    requires Wf(s) && t in s.grains
    requires Repeats(Put(s, spec).grains[Mint(s.nextId)], Put(s, spec).grains[t])
    ensures Harmless(s, Close(Put(s, spec), t, Mint(s.nextId)))
  {
    var h, mid := Mint(s.nextId), Put(s, spec);
    PutReads(s, spec);
    PutKeeps(s, spec);
    hide Minted, Mint, SameReadings, RecordFor, Wf;
    var after := Close(mid, t, h);
    RepeatsStays(mid.grains[h], mid.grains[t], after.grains[h], after.grains[t]);
    hide Repeats;
    ReadingsTransitive(s, mid, after) by { hide Put; }
    assert RepeatedBy(s, after, t, h);
  }

  lemma TargetIsStored(s: Store, s': Store, stmt: Stmt)
    requires SameReadings(s, s') && ReplacesIdentically(s, stmt)
    ensures stmt.Supersede? && stmt.target in s'.grains
    ensures SameReading(s.grains[stmt.target], s'.grains[stmt.target])
  {
    hide Minted, SameFieldValue, SameReading;
  }

  /** A curated batch, finished or failed, is harmless: each of its statements repeats its target or cannot be read. */
  lemma {:induction false} CuratedIsHarmless(s: Store, stmts: seq<Stmt>)
    requires Wf(s)
    requires forall i | 0 <= i < |stmts| :: stmts[i] == Unsupported || ReplacesIdentically(s, stmts[i])
    ensures Harmless(s, ExecAll(s, stmts).store)
  {
    if stmts == [] {
      HarmlessReflexive(s);
    } else {
      var rest, last := stmts[..|stmts| - 1], stmts[|stmts| - 1];
      CuratedIsHarmless(s, rest);
      ExecKeeps(s, rest);
      var x := ExecAll(s, rest);
      assert SameReadings(s, x.store);
      hide Wf, SameReadings, OnlyRepeats, Harmless, ReplacesIdentically;
      if x.failed.None? && last != Unsupported {
        SupersedeIsHarmless(s, x, last);
        HarmlessTransitive(s, x.store, ExecStmt(x, last).store);
      }
    }
  }

  lemma {:induction false} CuratedStatements(js: Codec, s: Store, lines: seq<string>)
    requires js.Lawful() && Wf(s) && Curated(js, s, lines)
    ensures forall i | 0 <= i < |ParseLines(js, lines)| ::
              ParseLines(js, lines)[i] == Unsupported || ReplacesIdentically(s, ParseLines(js, lines)[i])
    decreases lines
  {
    hide Trim, ParseStatement, ValueIdentical, ReplacesIdentically, Codec.Lawful, Wf, CleanLine;
    if lines != [] {
      var rest := lines[1..];
      assert forall i | 0 <= i < |rest| :: rest[i] == lines[i + 1];
      CuratedStatements(js, s, rest);
      if Trim(lines[0]) != "" { CuratedLine(js, s, lines[0]); }
    }
  }

  lemma ProposeIsHarmless(s: Store, p: Persisted, rec: Recommendation, trigger: Option<string>, now: int)
    requires Wf(s)
    ensures Wf(Propose(s, p, rec, trigger, now).0) && Harmless(s, Propose(s, p, rec, trigger, now).0)
  {
    var a := PendingRecord(rec, Mint(s.nextId), now);
    var s1 := Put(s, RecSpec(rec));
    PutKeeps(s, RecSpec(rec));
    PutIsHarmless(s, RecSpec(rec));
    hide Put, Wf, Harmless, RecSpec, AuditSpec;
    PutKeeps(s1, AuditSpec(a));
    PutIsHarmless(s1, AuditSpec(a));
    HarmlessTransitive(s, s1, Put(s1, AuditSpec(a)));
  }

  /** An automatic apply, finished or failed, is harmless. */
  lemma AutoApplyIsHarmless(e: Engine, x: Progress, h: Hash, rec: Recommendation, now: int)
    requires e.js.Lawful() && Wf(x.store) && CanAutoApply(e, x.store, rec)
    ensures Harmless(x.store, AutoApply(e, x, h, rec, now).store)
  {
    var stmts := ParseBatch(e.js, rec.proposal.cal);
    CuratedStatements(e.js, x.store, Lines(rec.proposal.cal));
    hide StructuralCuration, GrantsAutoApply, DeclaredStructural, TargetClass, Lines, ExecAll, ParseBatch, AuditSpec,
         Codec.Lawful, Put, Wf, Harmless, ReplacesIdentically;
    CuratedIsHarmless(x.store, stmts);
    ExecKeeps(x.store, stmts);
    var spec := AuditSpec(AutoRecord(h, HeadOf(x.state, h), now));
    PutIsHarmless(ExecAll(x.store, stmts).store, spec);
    HarmlessTransitive(x.store, ExecAll(x.store, stmts).store, Put(ExecAll(x.store, stmts).store, spec));
  }

  lemma {:induction false} StoringIsHarmless(e: Engine, s: Store, p: Persisted, recs: seq<Recommendation>,
                                             trigger: Option<string>, now: int)
    requires e.js.Lawful() && Wf(s)
    ensures var x := StoreAll(e, s, p, recs, trigger, now); Wf(x.store) && Harmless(s, x.store)
  {
    StoringFailsIff(e, s, p, recs, trigger, now);
    hide Codec.Lawful, Wf, Harmless, CanAutoApply, AutoApply, Propose, StopsAt;
    if recs == [] {
      HarmlessReflexive(s);
    } else {
      var rest, rec := recs[..|recs| - 1], recs[|recs| - 1];
      StoringIsHarmless(e, s, p, rest, trigger, now);
      var x := StoreAll(e, s, p, rest, trigger, now);
      if x.failed.None? {
        ProposeIsHarmless(x.store, x.state, rec, trigger, now);
        var (s1, p1) := Propose(x.store, x.state, rec, trigger, now);
        HarmlessTransitive(s, x.store, s1);
        if CanAutoApply(e, s1, rec) {
          AutoApplyIsHarmless(e, x.(store := s1, state := p1), Mint(x.store.nextId), rec, now);
          HarmlessTransitive(s, s1, StoreAll(e, s, p, recs, trigger, now).store);
        }
      }
    }
  }

  /** Whatever a run replaces by itself, finished or failed, it replaces by a grain that says the same; nothing else
      loses its liveness, and no field, namespace or expiry of a stored grain changes. */
  lemma RunOnlyRepeats(e: Engine, w: World, input: RunInput)
    requires e.js.Lawful() && Wf(w.store)
    ensures var after := RunStep(e, w, input).0.store; SameReadings(w.store, after) && OnlyRepeats(w.store, after)
  {
    hide Codec.Lawful, Wf, StoreAll, MeasureOutcomes, Survivors, Candidates, Gate, SameReadings, OnlyRepeats;
    var p := MeasureOutcomes(e, w.store, StateOf(w), input.now);
    StoringIsHarmless(e, w.store, p, RunSurvivors(e, w, input), input.opts.trigger, input.now);
    HarmlessReflexive(w.store);
  }

  lemma ReadingsReflexive(s: Store)
    ensures SameReadings(s, s)
  {
  }

  /** A batch that names no address before it is minted. */
  ghost predicate TargetsKnown(js: Codec, s: Store, cal: string) {
    forall i | 0 <= i < |Lines(cal)| :: TargetKnown(js, s, Trim(Lines(cal)[i]))
  }

  ghost predicate TargetKnown(js: Codec, s: Store, line: string) {
    var own := ParseOwnSupersede(js, line);
    own.Some? ==> own.value.target in s.grains || !Minted(own.value.target)
  }

  lemma SameVerdict(js: Codec, s: Store, s': Store, line: string)
    requires SameReadings(s, s') && TargetKnown(js, s, line)
    ensures ValueIdentical(js, s, line) <==> ValueIdentical(js, s', line)
  {
    hide ParseOwnSupersede, Minted;
    var own := ParseOwnSupersede(js, line);
    if own.Some? && own.value.target in s.grains {
      var g, h := s.grains[own.value.target], s'.grains[own.value.target];
      forall k | k in own.value.fields.entries
        ensures SameFieldValue(k, own.value.fields.entries[k], g) <==> SameFieldValue(k, own.value.fields.entries[k], h)
      {
      }
    }
  }

  lemma SameGrant(e: Engine, s: Store, s': Store, rec: Recommendation)
    requires SameReadings(s, s') && (rec.proposal.Cal? ==> TargetsKnown(e.js, s, rec.proposal.cal))
    ensures CanAutoApply(e, s, rec) <==> CanAutoApply(e, s', rec)
  {
    hide SameReadings, ValueIdentical, Lines, Trim, TargetKnown, TargetClass, GrantsAutoApply, DeclaredStructural;
    if rec.proposal.Cal? {
      var lines := Lines(rec.proposal.cal);
      forall i | 0 <= i < |lines|
        ensures ValueIdentical(e.js, s, Trim(lines[i])) <==> ValueIdentical(e.js, s', Trim(lines[i]))
      {
        SameVerdict(e.js, s, s', Trim(lines[i]));
      }
    }
  }

  /** The survivor may be auto-applied as the store stands, and its batch spells a type with a brace. */
  predicate BracedAndGranted(e: Engine, s: Store, rec: Recommendation) {
    CanAutoApply(e, s, rec) && !CleanTypes(e.js, Lines(rec.proposal.cal))
  }

  lemma StopsAtIsBraced(e: Engine, s: Store, p: Persisted, recs: seq<Recommendation>, trigger: Option<string>,
                        now: int, i: nat)
    requires e.js.Lawful() && Wf(s) && i < |recs|
    requires recs[i].proposal.Cal? ==> TargetsKnown(e.js, s, recs[i].proposal.cal)
    ensures StopsAt(e, s, p, recs, trigger, now, i)
            <==> StoreAll(e, s, p, recs[..i], trigger, now).failed.None? && BracedAndGranted(e, s, recs[i])
  {
    var x := StoreAll(e, s, p, recs[..i], trigger, now);
    StoringIsHarmless(e, s, p, recs[..i], trigger, now);
    ProposeIsHarmless(x.store, x.state, recs[i], trigger, now);
    hide Codec.Lawful, Wf, StoreAll, SameReadings, CanAutoApply, CleanTypes, Propose, Lines, TargetsKnown;
    if x.failed.None? {
      var s1 := Propose(x.store, x.state, recs[i], trigger, now).0;
      ReadingsTransitive(s, x.store, s1);
      SameGrant(e, s, s1, recs[i]);
    }
  }

  /** Decided before the run: when no batch names an address before it is minted, a run fails exactly when its gate is
      met and some survivor may be auto-applied to the store as it stands and spells a type with a brace. */
  lemma RunFailsIffBraced(e: Engine, w: World, input: RunInput)
    requires e.js.Lawful() && Wf(w.store)
    requires forall i | 0 <= i < |RunSurvivors(e, w, input)| ::
               var c := RunSurvivors(e, w, input)[i];
               c.proposal.Cal? ==> TargetsKnown(e.js, w.store, c.proposal.cal)
    ensures var survivors := RunSurvivors(e, w, input);
            RunStep(e, w, input).1.Err?
            <==> Gate(input.opts, StateOf(w), input.newGrains, input.newErrors, input.now).None?
                 && exists i | 0 <= i < |survivors| :: BracedAndGranted(e, w.store, survivors[i])
  {
    hide Codec.Lawful, Wf, StoreAll, StopsAt, MeasureOutcomes, RunSurvivors, Gate, BracedAndGranted, TargetsKnown,
         RunStep;
    RunFailsIff(e, w, input);
    var p, recs := MeasureOutcomes(e, w.store, StateOf(w), input.now), RunSurvivors(e, w, input);
    var trigger, now := input.opts.trigger, input.now;
    forall i | 0 <= i < |recs| ensures StopsAt(e, w.store, p, recs, trigger, now, i) <==>
        StoreAll(e, w.store, p, recs[..i], trigger, now).failed.None? && BracedAndGranted(e, w.store, recs[i]) {
      StopsAtIsBraced(e, w.store, p, recs, trigger, now, i);
    }
    if i :| 0 <= i < |recs| && BracedAndGranted(e, w.store, recs[i]) {
      if StoreAll(e, w.store, p, recs[..i], trigger, now).failed.Some? {
        var j := StoppedEarlier(e, w.store, p, recs, trigger, now, i);
      }
    }
  }

  lemma StoppedEarlier(e: Engine, s: Store, p: Persisted, recs: seq<Recommendation>, trigger: Option<string>, now: int,
                       i: nat) returns (j: nat)
    requires e.js.Lawful() && Wf(s) && i <= |recs| && StoreAll(e, s, p, recs[..i], trigger, now).failed.Some?
    ensures j < i && StopsAt(e, s, p, recs, trigger, now, j)
  {
    hide Codec.Lawful, Wf, StoreAll, StopsAt;
    StoringFailsIff(e, s, p, recs[..i], trigger, now);
    j :| 0 <= j < i && StopsAt(e, s, p, recs[..i], trigger, now, j);
    StopsInPrefix(e, s, p, recs, trigger, now, i, j);
  }

  lemma StopsInPrefix(e: Engine, s: Store, p: Persisted, recs: seq<Recommendation>, trigger: Option<string>, now: int,
                      i: nat, j: nat)
    requires j < i <= |recs|
    ensures StopsAt(e, s, p, recs[..i], trigger, now, j) <==> StopsAt(e, s, p, recs, trigger, now, j)
  {
    hide StoreAll, StopsOn;
    assert recs[..i][..j] == recs[..j];
  }

  /** The recommendation a run failed on was stored before it failed. */
  lemma {:induction false} FailedOn(e: Engine, s: Store, p: Persisted, recs: seq<Recommendation>,
                                    trigger: Option<string>, now: int)
    returns (c: Recommendation, h: Hash)
    requires Wf(s)
    ensures var x := StoreAll(e, s, p, recs, trigger, now);
            && Wf(x.store) && Extends(s, x.store)
            && (x.failed.Some? ==> c in recs && h !in s.grains && IsRec(x.store, h) && RecAt(x.store, h) == c)
  {
    hide Wf, Extends, StoreOne, IsRec, RecAt, Mint;
    if recs == [] {
      c, h := StampDiscovered("", "", map[], 0), "";
      ExtendsReflexive(s);
    } else {
      var rest, last := recs[..|recs| - 1], recs[|recs| - 1];
      assert recs == rest + [last];
      c, h := FailedOn(e, s, p, rest, trigger, now);
      var x := StoreAll(e, s, p, rest, trigger, now);
      StoreOneExtends(e, x, last, trigger, now);
      var y := StoreOne(e, x, last, trigger, now);
      ExtendsTransitive(s, x.store, y.store);
      if x.failed.Some? {
        RecExtends(x.store, y.store, h);
      } else {
        c, h := last, Mint(x.store.nextId);
        StillThere(s, x.store);
      }
    }
  }

  /** A stored recommendation that nothing indexes: nobody can review it. */
  ghost predicate Orphan(w: World, h: Hash, key: string) {
    IsRec(w.store, h) && RecAt(w.store, h).dedupKey == key && h !in StateOf(w).status
  }

  /** A run that fails leaves the loop state untouched, but some survivor's grain stays behind as an orphan: its key
      counts as occupied although no recommendation anybody could review holds it. */
  lemma FailedRunLeavesAnOrphan(e: Engine, w: World, input: RunInput) returns (c: Recommendation, h: Hash)
    requires Good(w) && RunStep(e, w, input).1.Err?
    ensures var w' := RunStep(e, w, input).0;
            && w'.state == w.state && c in RunSurvivors(e, w, input)
            && Orphan(w', h, c.dedupKey)
            && c.dedupKey in ExistingKeys(w'.store, StateOf(w'))
            && forall g :: !Holds(w'.store, StateOf(w'), g, c.dedupKey)
  {
    hide Inv, StoreAll, MeasureOutcomes, Survivors, Candidates, Gate, Wf, Extends, IsRec, RecAt, ExistingKeys, Holds;
    InvIsWf(w);
    var p := MeasureOutcomes(e, w.store, StateOf(w), input.now);
    c, h := FailedOn(e, w.store, p, RunSurvivors(e, w, input), input.opts.trigger, input.now);
    var w' := RunStep(e, w, input).0;
    assert w'.store == StoreAll(e, w.store, p, RunSurvivors(e, w, input), input.opts.trigger, input.now).store;
    assert h !in StateOf(w).status by { IndexedIsStored(w, h); }
    UnindexedOccupies(w'.store, StateOf(w'), h, c.dedupKey);
    forall g ensures !Holds(w'.store, StateOf(w), g, c.dedupKey) {
      SurvivorIsFree(e, w, w'.store, input, c, g);
    }
  }

  /** Nothing ever indexes an orphan. */
  lemma OrphanStays(e: Engine, w: World, op: Op, h: Hash, key: string)
    requires Good(w) && Orphan(w, h, key)
    ensures Orphan(Step(e, w, op), h, key)
  {
    hide Inv, Step, TrailGrows;
    StepIsGood(e, w, op);
    RecExtends(w.store, Step(e, w, op).store, h);
    hide Continues, IsRec, RecAt;
    if h in StateOf(Step(e, w, op)).status { NewEntry(e, w, op, h); }
  }

  lemma {:induction false} OrphanStaysForever(w: World, acts: seq<Act>, h: Hash, key: string)
    requires Good(w) && Orphan(w, h, key)
    ensures Orphan(After(w, acts), h, key)
  {
    hide Good, Step, Orphan;
    if acts != [] {
      var part, last := acts[..|acts| - 1], acts[|acts| - 1];
      OrphanStaysForever(w, part, h, key);
      GoodStaysGood(w, part);
      OrphanStays(last.engine, After(w, part), last.op, h, key);
    }
  }

  /** No run proposes the key of an orphan, whatever it finds. */
  lemma OrphanKeyIsNotProposed(e: Engine, w: World, input: RunInput, h: Hash, key: string)
    requires Orphan(w, h, key)
    ensures forall c | c in RunSurvivors(e, w, input) :: c.dedupKey != key
  {
    var p := MeasureOutcomes(e, w.store, StateOf(w), input.now);
    MeasuringKeepsRest(e, w.store, StateOf(w), input.now);
    UnindexedOccupies(w.store, p, h, key);
    hide MeasureOutcomes, Sift, ExistingKeys, Cooling, BelowFloor;
    SiftKeeps(e.policy, p, ExistingKeys(w.store, p), Candidates(input.findings, input.now), input.now);
  }

  /** After a failed run one of its survivors is never stored again: in no later history, by no engine and from no
      findings, does its key survive a run. */
  lemma FailedRunSilencesAKey(e: Engine, w: World, input: RunInput) returns (c: Recommendation)
    requires Good(w) && RunStep(e, w, input).1.Err?
    ensures c in RunSurvivors(e, w, input)
    ensures forall acts, e', input', d | d in RunSurvivors(e', After(RunStep(e, w, input).0, acts), input') ::
              d.dedupKey != c.dedupKey
  {
    hide Good, RunStep, Orphan, RunSurvivors, After, ExistingKeys, Holds;
    var h;
    c, h := FailedRunLeavesAnOrphan(e, w, input);
    RunKeeps(e, w, input);
    var w' := RunStep(e, w, input).0;
    forall acts, e', input', d | d in RunSurvivors(e', After(w', acts), input') ensures d.dedupKey != c.dedupKey {
      OrphanStaysForever(w', acts, h, c.dedupKey);
      OrphanKeyIsNotProposed(e', After(w', acts), input', h, c.dedupKey);
    }
  }

  lemma IndexedIsStored(w: World, h: Hash)
    requires Good(w)
    ensures h in StateOf(w).status ==> h in w.store.grains
  {
    if h in StateOf(w).status { KnownRec(w.store, StateOf(w), h); }
  }

  lemma UnindexedOccupies(s: Store, p: Persisted, h: Hash, key: string)
    requires IsRec(s, h) && RecAt(s, h).dedupKey == key && h !in p.status
    ensures key in ExistingKeys(s, p)
  {
    assert Occupies(p, s.grains[h]);
  }

  lemma SurvivorIsFree(e: Engine, w: World, s': Store, input: RunInput, c: Recommendation, g: Hash)
    requires Good(w) && Extends(w.store, s') && c in RunSurvivors(e, w, input)
    ensures !Holds(s', StateOf(w), g, c.dedupKey)
  {
    if Holds(s', StateOf(w), g, c.dedupKey) {
      KnownRec(w.store, StateOf(w), g);
      RecExtends(w.store, s', g);
      hide Inv, RunSurvivors, Extends;
      HeldKeyIsNotProposed(e, w, input, g, c.dedupKey);
    }
  }

  /** The input that shows the gap: any value-identical replacement, spelled with the type `fact{`, passes the
      check and then stops the batch. */
  lemma BracedTypePassesTheCheck(js: Codec, s: Store, target: string, f: Fields)
    requires js.Lawful() && Token(target) && target in s.grains && s.grains[target].validTo.None? && f.entries != map[]
    requires forall k | k in f.entries :: SaysTheSame(k, f.entries[k], s.grains[target])
    ensures var cal := WriteSupersede(js, target, "fact{", f);
            StructuralCuration(js, s, cal) && ExecAll(s, ParseBatch(js, cal)).failed.Some?
  {
    BracedToken();
    hide Token, Codec.Lawful, WriteSupersede, Lines, ParseStatement, Trim, ParseOwnSupersede, SameFieldValue, ExecAll,
         StartsWithVerb, NoWs, ParseLines, ValueIdentical, StructuralCuration;
    var cal := WriteSupersede(js, target, "fact{", f);
    WrittenSupersedeIsALine(js, target, "fact{", f);
    WriterRoundTrip(js, target, "fact{", f);
    OneLineAlone(cal);
    BracedTypeIsUnsupported(js, target, f);
    OneStatement(js, cal);
    SameFieldsAreIdentical(js, s, cal, target, f);
    OneLineIsCurated(js, s, cal);
    UnsupportedFails(s, ParseBatch(js, cal), 0);
  }

  lemma OneStatement(js: Codec, cal: string)
    requires Lines(cal) == [cal] && Trim(cal) == cal && cal != ""
    ensures ParseBatch(js, cal) == [ParseStatement(js, cal)]
  {
    hide ParseStatement, Lines, Trim;
    assert [cal][1..] == [];
    assert ParseLines(js, [cal][1..]) == [];
  }

  lemma BracedToken()
    ensures Token("fact{")
  {
  }

  lemma OneLineAlone(cal: string)
    requires OneLine(cal)
    ensures Lines(cal) == [cal] && cal != ""
  {
    LinesOfJoin([cal]);
    hide Lines;
    assert Join([cal]) == cal;
  }

  lemma SameFieldsAreIdentical(js: Codec, s: Store, line: string, target: string, f: Fields)
    requires ParseOwnSupersede(js, line).Some?
    requires ParseOwnSupersede(js, line).value.target == target
             && ParseOwnSupersede(js, line).value.fields.entries == f.entries
    requires target in s.grains && s.grains[target].validTo.None? && f.entries != map[]
    requires forall k | k in f.entries :: SaysTheSame(k, f.entries[k], s.grains[target])
    ensures ValueIdentical(js, s, line)
  {
    hide ParseOwnSupersede, SameFieldValue, SaysTheSame;
    forall k | k in f.entries ensures SameFieldValue(k, f.entries[k], s.grains[target]) {
      SameFieldValueIs(k, f.entries[k], s.grains[target]);
    }
  }

  lemma OneLineIsCurated(js: Codec, s: Store, cal: string)
    requires Lines(cal) == [cal] && Trim(cal) == cal && ValueIdentical(js, s, cal)
    ensures StructuralCuration(js, s, cal)
  {
    hide Lines, Trim, ValueIdentical;
  }
}
