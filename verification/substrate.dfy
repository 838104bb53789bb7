/** The in-memory reference substrate: a list of grains, an index from address to position, the address
    counter, the logical clock and the stored loop state. */
module Substrate {
  import opened Basics
  import opened LoopModel
  import opened CalText
  import opened GrainStore
  import opened Text
  import opened EngineSpec


  class ReferenceSubstrate {
    var grains: seq<GrainRecord>
    var byHash: map<Hash, nat>
    var nextId: nat
    var clock: int
    var state: Option<Persisted>

    /** The index and the list describe the same grains, and the addresses to come are free. */
    ghost predicate Valid()
      reads this
    {
      && (forall h | h in byHash :: h != "" && byHash[h] < |grains| && grains[byHash[h]].hash == h)
      && (forall i | 0 <= i < |grains| :: grains[i].hash in byHash && byHash[grains[i].hash] == i)
      && (forall n: nat | n >= nextId :: Mint(n) !in byHash)
    }

    function View(): Store
      reads this
      requires Valid()
    {
      Store(map h | h in byHash :: grains[byHash[h]], nextId, clock)
    }

    function Seen(): World
      reads this
      requires Valid()
    {
      World(View(), state)
    }

    constructor ()
      ensures Valid() && Seen() == World(Store(map[], 0, 0), None) && Initial(Seen())
    {
      grains, byHash, nextId, clock, state := [], map[], 0, 0, None;
      new;
      ViewIsWellFormed(this);
    }

    /** Append a record, minting an address when it has none. A record that brings its own address keeps
        the index sound exactly when that address is neither taken nor still to be minted. */
    method Insert(record: GrainRecord) returns (hash: Hash)
      requires Valid()
      modifies this
      ensures record.hash == "" ==> hash == Mint(old(nextId)) && nextId == old(nextId) + 1
      ensures record.hash != "" ==> hash == record.hash && nextId == old(nextId)
      ensures grains == old(grains) + [record.(hash := hash)] && byHash == old(byHash)[hash := |old(grains)|]
      ensures clock == old(clock) && state == old(state)
      ensures Valid() <==> record.hash == ""
                           || (record.hash !in old(byHash) && forall n: nat | n >= old(nextId) ::
                                 Mint(n) != record.hash)
    {
      if record.hash == "" {
        hash := MintHash();
        forall n: nat | n >= nextId ensures Mint(n) != hash {
          if Mint(n) == hash { MintIsInjective(n, nextId - 1); }
        }
      } else {
        hash := record.hash;
      }
      assert hash != "";
      byHash := byHash[hash := |grains|];
      grains := grains + [record.(hash := hash)];
      ghost var taken := record.hash != "" && hash in old(byHash);
      if taken {
        assert grains[old(byHash)[hash]].hash == hash && byHash[hash] != old(byHash)[hash];
      }
    }

    method MintHash() returns (h: Hash)
      modifies `nextId
      ensures h == Mint(old(nextId)) && nextId == old(nextId) + 1
    {
      h := Mint(nextId);
      nextId := nextId + 1;
    }

    method RecordFromSpec(spec: GrainSpec) returns (record: GrainRecord)
      modifies `clock
      ensures clock == old(clock) + 1 && record == RecordFor(spec, "", clock)
    {
      clock := clock + 1;
      record := RecordFor(spec, "", clock);
    }

    method PutGrain(spec: GrainSpec) returns (hash: Hash)
      requires Valid()
      modifies this
      ensures Valid() && View() == Put(old(View()), spec) && state == old(state)
      ensures hash == Mint(old(nextId)) && hash in byHash
    {
      var record := RecordFromSpec(spec);
      hash := Insert(record);
      hide Mint, RecordFor;
      assert byHash == old(byHash)[hash := |old(grains)|];
      assert View().grains == old(View()).grains[hash := record.(hash := hash)];
    }

    /** Mark the grain under `h` as no longer live. */
    method Mark(h: Hash, mark: string)
      requires Valid() && h in byHash
      modifies `grains
      ensures Valid() && View() == Close(old(View()), h, mark)
    {
      var i := byHash[h];
      grains := grains[i := grains[i].(supersededBy := Some(mark))];
    }

    method Supersede(target: Hash, spec: GrainSpec) returns (r: Result<Hash, Error>)
      requires Valid()
      modifies this
      ensures Valid() && state == old(state)
      ensures View() == SupersedeOp(old(View()), target, spec).0
      ensures r == match SupersedeOp(old(View()), target, spec).1
                   case None => Ok(Mint(old(nextId)))
                   case Some(e) => Err(e)
    {
      var hash := PutGrain(spec);
      if target !in byHash { return Err(SubstrateFault); }
      Mark(target, hash);
      r := Ok(hash);
    }

    method Retract(h: Hash, reason: string) returns (r: Option<Error>)
      requires Valid()
      modifies this
      ensures Valid() && state == old(state)
      ensures View() == RetractOp(old(View()), h, reason).0 && r == RetractOp(old(View()), h, reason).1
    {
      hide RetractionMarks, Mint;
      if h !in byHash { return Some(SubstrateFault); }
      var i := byHash[h];
      var g := grains[i];
      var marked := g.(supersededBy := Some("retracted"), fields := RetractionMarks(g.fields, reason));
      grains := grains[i := marked];
      assert View().grains == old(View()).grains[h := marked];
      r := None;
    }

    method ExecuteStatement(stmt: Stmt, created: seq<Hash>) returns (rows: seq<Hash>, error: Option<Error>)
      requires Valid()
      modifies this
      ensures Valid() && state == old(state)
      ensures Exec(View(), rows, error) == ExecStmt(Exec(old(View()), created, None), stmt)
    {
      rows, error := created, None;
      match stmt {
        case Forget(h) =>
          if h in byHash { Mark(h, "forgotten"); }
        case Retract(h) =>
          error := Retract(h, "cal retract");
        case Add(grainType, f) =>
          var hash := PutGrain(GrainSpec(grainType, "", f));
          rows := rows + [hash];
        case Supersede(target, grainType, f) =>
          var r := Supersede(target, GrainSpec(grainType, "", f));
          match r {
            case Ok(hash) => rows := rows + [hash];
            case Err(e) => error := Some(e);
          }
        case Read =>
        case Unsupported =>
          error := Some(CalUnsupported);
      }
    }

    /** Run a batch line by line. Execution stops at the first failing line; the lines before it stay run. */
    method ExecuteCal(js: Codec, cal: string) returns (created: seq<Hash>, failed: Option<Error>)
      requires Valid()
      modifies this
      ensures Valid() && state == old(state)
      ensures Exec(View(), created, failed) == ExecAll(old(View()), ParseBatch(js, cal))
    {
      var lines := Lines(cal);
      created, failed := [], None;
      ghost var start := View();
      ghost var stmts: seq<Stmt> := [];
      assert lines[..0] == [];
      hide ExecStmt, ParseStatement, Trim;
      for i := 0 to |lines|
        invariant Valid() && state == old(state)
        invariant stmts == ParseLines(js, lines[..i])
        invariant ExecAll(start, stmts) == Exec(View(), created, None) && failed == None
      {
        var line := Trim(lines[i]);
        NextLine(js, lines, i);
        if line == "" { continue; }
        var stmt := ParseStatement(js, line);
        created, failed := ExecuteStatement(stmt, created);
        NextStatement(start, stmts, stmt);
        stmts := stmts + [stmt];
        if failed.Some? {
          RestIsSkipped(js, start, lines, i + 1);
          return;
        }
      }
      assert lines[..|lines|] == lines;
    }

    method LoadState() returns (p: Persisted)
      ensures p == state.GetOr(EMPTY_STATE)
    {
      p := state.GetOr(EMPTY_STATE);
    }

    method StoreState(p: Persisted)
      requires Valid()
      modifies `state
      ensures Valid() && View() == old(View()) && state == Some(p)
    {
      state := Some(p);
    }
  }

  // --- the line loop against the parsed batch ---

  lemma {:induction false} ParseLinesSplits(js: Codec, a: seq<string>, b: seq<string>)
    ensures ParseLines(js, a + b) == ParseLines(js, a) + ParseLines(js, b)
    decreases a
  {
    hide ParseStatement, Trim;
    if a == [] {
      assert a + b == b;
    } else {
      assert (a + b)[1..] == a[1..] + b;
      ParseLinesSplits(js, a[1..], b);
    }
  }

  lemma NextLine(js: Codec, lines: seq<string>, i: nat)
    requires i < |lines|
    ensures ParseLines(js, lines[..i + 1])
            == ParseLines(js, lines[..i]) + if Trim(lines[i]) == "" then [] else [ParseStatement(js, Trim(lines[i]))]
  {
    hide ParseStatement, Trim;
    assert lines[..i + 1] == lines[..i] + [lines[i]];
    assert [lines[i]][1..] == [];
    ParseLinesSplits(js, lines[..i], [lines[i]]);
  }

  lemma NextStatement(s: Store, stmts: seq<Stmt>, stmt: Stmt)
    ensures ExecAll(s, stmts + [stmt])
            == if ExecAll(s, stmts).failed.Some? then ExecAll(s, stmts) else ExecStmt(ExecAll(s, stmts), stmt)
  {
    hide ExecStmt;
    assert (stmts + [stmt])[..|stmts|] == stmts;
  }

  lemma {:induction false} FailureIsFinal(s: Store, stmts: seq<Stmt>, rest: seq<Stmt>)
    requires ExecAll(s, stmts).failed.Some?
    ensures ExecAll(s, stmts + rest) == ExecAll(s, stmts)
    decreases rest
  {
    hide ExecStmt;
    if rest == [] {
      assert stmts + rest == stmts;
    } else {
      var all := stmts + rest;
      assert all[..|all| - 1] == stmts + rest[..|rest| - 1];
      FailureIsFinal(s, stmts, rest[..|rest| - 1]);
    }
  }

  lemma RestIsSkipped(js: Codec, s: Store, lines: seq<string>, i: nat)
    requires i <= |lines| && ExecAll(s, ParseLines(js, lines[..i])).failed.Some?
    ensures ExecAll(s, ParseLines(js, lines)) == ExecAll(s, ParseLines(js, lines[..i]))
  {
    hide ExecStmt, ExecAll, ParseLines;
    assert lines == lines[..i] + lines[i..];
    ParseLinesSplits(js, lines[..i], lines[i..]);
    FailureIsFinal(s, ParseLines(js, lines[..i]), ParseLines(js, lines[i..]));
  }

  /** A valid substrate shows a well-formed store; without loop state it is where histories start. */
  lemma ViewIsWellFormed(sub: ReferenceSubstrate)
    requires sub.Valid()
    ensures Wf(sub.View()) && (sub.state.None? ==> Initial(sub.Seen()))
  {
    hide Mint;
  }
}
