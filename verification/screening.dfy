/** From findings to survivors: which findings count, which candidate a run proposes for a key and why it does not, and
    when a run does not happen at all. */
module Screening {
  import opened Basics
  import opened LoopModel
  import opened Text
  import opened CalText
  import opened GrainStore
  import opened EngineSpec
  import opened Invariants
  import opened Runs
  import opened Guarantees
  import opened DedupKeys

  // --- targets and families ---

  /** The text behind one of these schemes is not empty. */
  predicate Aims(target: string, scheme: string) {
    scheme < target
  }

  lemma TargetClassIs(target: string)
    ensures TargetClass(target) == Some("memory") <==> Aims(target, "grain:") || Aims(target, "entity:")
    ensures TargetClass(target) == Some("query") <==> Aims(target, "query:") || Aims(target, "template:")
    ensures TargetClass(target) == Some("prompt") <==> Aims(target, "doc:")
    ensures TargetClass(target) == Some("host") <==> Aims(target, "host:")
    ensures TargetClass(target).Some? ==>
              TargetClass(target).value == "memory" || TargetClass(target).value == "query"
              || TargetClass(target).value == "prompt" || TargetClass(target).value == "host"
  {
    if Accepted(target) {
      var scheme, rest := AcceptedShape(target);
      assert target == scheme + ":" + rest && target[..|scheme| + 1] == scheme + ":";
      SchemeSplits(scheme, rest);
    }
    AimIsItsScheme(target, "grain");
    AimIsItsScheme(target, "entity");
    AimIsItsScheme(target, "query");
    AimIsItsScheme(target, "template");
    AimIsItsScheme(target, "doc");
    AimIsItsScheme(target, "host");
    hide SplitOnce;
  }

  lemma AimIsItsScheme(target: string, scheme: string)
    requires KnownScheme(scheme)
    ensures Aims(target, scheme + ":")
            <==> SplitOnce(target, ":").Some? && SplitOnce(target, ":").value.0 == scheme
                 && SplitOnce(target, ":").value.1 != ""
  {
    if Aims(target, scheme + ":") {
      var rest := target[|scheme| + 1..];
      assert target == scheme + ":" + rest;
      SchemeSplits(scheme, rest);
    }
    FindSpec(target, ":");
    hide KnownScheme, Find;
    if SplitOnce(target, ":").Some? && SplitOnce(target, ":").value.0 == scheme
      && SplitOnce(target, ":").value.1 != "" {
      assert target[..|scheme| + 1] == target[..|scheme|] + target[|scheme|..|scheme| + 1];
    }
  }

  /** The family of an id is what stands in front of its first slash. */
  predicate IsFamily(id: string, family: string) {
    family <= id && '/' !in family && (|family| == |id| || id[|family|] == '/')
  }

  lemma FamilyIs(id: string, family: string)
    ensures FamilyOf(id) == family <==> IsFamily(id, family)
  {
    FamilyIsInFront(id);
    hide FamilyOf, IsFamily;
    if IsFamily(id, family) { OneFamily(id, family, FamilyOf(id)); }
  }

  lemma FamilyIsInFront(id: string)
    ensures IsFamily(id, FamilyOf(id))
  {
    FindSpec(id, "/");
    forall j: nat ensures OccursAt(id, "/", j) <==> j < |id| && id[j] == '/' { SlashAt(id, j); }
    hide Find, OccursAt;
    match Find(id, "/") {
      case Some(i) => assert forall j: nat | j < i :: !OccursAt(id, "/", j);
      case None => assert forall j: nat | j < |id| :: !OccursAt(id, "/", j);
    }
  }

  lemma SlashAt(s: string, j: nat)
    ensures OccursAt(s, "/", j) <==> j < |s| && s[j] == '/'
  {
    if j < |s| { assert s[j..j + 1] == [s[j]]; }
  }

  lemma OneFamily(id: string, f: string, g: string)
    requires IsFamily(id, f) && IsFamily(id, g)
    ensures f == g
  {
    NoSlashInside(g, |f|);
    NoSlashInside(f, |g|);
  }

  lemma NoSlashInside(s: string, k: nat)
    ensures '/' !in s && k < |s| ==> s[k] != '/'
  {
  }

  predicate SameFamily(a: string, b: string) {
    FamilyOf(a) == FamilyOf(b)
  }

  // --- findings and candidates ---

  /** What a candidate takes over from the finding it comes from. */
  predicate ComesFrom(f: Finding, c: Recommendation, now: int) {
    && c.createdAt == now
    && match f
       case Analyzed(m, d) =>
         && (Aims(d.targetRef, "grain:") || Aims(d.targetRef, "entity:") || Aims(d.targetRef, "query:")
             || Aims(d.targetRef, "template:") || Aims(d.targetRef, "doc:") || Aims(d.targetRef, "host:"))
         && c.analyzer == m.id && c.targetRef == d.targetRef && c.severity == d.severity && c.proposal == d.proposal
         && c.metric == d.metric && c.body == d.body
         && c.origin == (if m.trust.TrustCommand? then Command(m.id) else Builtin)
         && c.dedupKey == DedupKey(FamilyOf(m.id), d.targetRef, d.action)
         && (c.destructive <==> c.proposal.Cal? && ContainsDestructive(c.proposal.cal))
         && (c.rollbackable <==> c.proposal.Cal? && !ContainsDestructive(c.proposal.cal))
       case Discovered(model, targetRef, body) =>
         && (Aims(targetRef, "grain:") || Aims(targetRef, "entity:") || Aims(targetRef, "query:")
             || Aims(targetRef, "template:"))
         && c.analyzer == "loop.llm/1" && c.origin == Llm(model) && c.targetRef == targetRef && c.severity == Low
         && c.proposal.Data? && "revert_of" !in c.proposal.data && c.metric.None? && c.body == body
         && c.dedupKey == DedupKey("llm", targetRef, Flag) && !c.destructive && !c.rollbackable
  }

  lemma StampComesFrom(f: Finding, now: int, c: Recommendation)
    ensures Stamp(f, now) == Some(c) ==> ComesFrom(f, c, now)
    ensures ComesFrom(f, c, now) ==> Stamp(f, now).Some?
  {
    TargetClassIs(if f.Analyzed? then f.draft.targetRef else f.targetRef);
    hide TargetClass, ContainsDestructive, DedupKey, FamilyOf, Aims;
  }

  /** The candidates come from these findings, in their order. */
  predicate Taken(findings: seq<Finding>, cs: seq<Recommendation>, now: int, from: seq<nat>) {
    && |from| == |cs| && (forall a, b | 0 <= a < b < |from| :: from[a] < from[b])
    && forall a | 0 <= a < |from| :: from[a] < |findings| && ComesFrom(findings[from[a]], cs[a], now)
  }

  /** The candidates of a run, in the order of their findings: one for every finding with a target it may aim at. */
  lemma {:induction false} CandidatesAre(findings: seq<Finding>, now: int) returns (from: seq<nat>)
    ensures Taken(findings, Candidates(findings, now), now, from)
    ensures forall i, c | 0 <= i < |findings| && ComesFrom(findings[i], c, now) :: i in from
  {
    hide Stamp, ComesFrom, Taken;
    if findings == [] {
      from := [];
      assert Taken(findings, [], now, from) by { NothingTaken(now); }
    } else {
      var n := |findings| - 1;
      var rest, last := findings[..n], findings[n];
      var before := CandidatesAre(rest, now);
      var stamped := Stamp(last, now);
      if stamped.Some? {
        from := before + [n];
        StampComesFrom(last, now, stamped.value);
        TakenNext(findings, Candidates(rest, now), now, before, stamped.value);
        assert Candidates(findings, now) == Candidates(rest, now) + [stamped.value];
      } else {
        from := before;
        TakenStays(findings, Candidates(rest, now), now, before);
        assert Candidates(findings, now) == Candidates(rest, now);
      }
      forall i, c | 0 <= i < |findings| && ComesFrom(findings[i], c, now) ensures i in from {
        if i < n {
          assert rest[i] == findings[i];
          assert i in before;
        } else {
          StampComesFrom(last, now, c);
          assert from[|before|] == n;
        }
      }
    }
  }

  lemma NothingTaken(now: int)
    ensures Taken([], [], now, [])
  {
  }

  lemma TakenStays(findings: seq<Finding>, cs: seq<Recommendation>, now: int, from: seq<nat>)
    requires findings != [] && Taken(findings[..|findings| - 1], cs, now, from)
    ensures Taken(findings, cs, now, from)
  {
    hide ComesFrom;
  }

  lemma TakenNext(findings: seq<Finding>, cs: seq<Recommendation>, now: int, from: seq<nat>, c: Recommendation)
    requires findings != [] && Taken(findings[..|findings| - 1], cs, now, from)
    requires ComesFrom(findings[|findings| - 1], c, now)
    ensures Taken(findings, cs + [c], now, from + [|findings| - 1])
  {
    hide ComesFrom;
  }

  // --- severity floors ---

  predicate Weaker(a: Severity, b: Severity) {
    match b
    case Info => false
    case Low => a.Info?
    case Medium => a.Info? || a.Low?
    case High => !a.High?
  }

  /** Weaker than the file asks of its analyzer, or than the host asks of its family by the first floor it lists. */
  predicate TooWeak(policy: Policy, p: Persisted, c: Recommendation) {
    || (c.analyzer in p.floors && Weaker(c.severity, p.floors[c.analyzer]))
    || (exists i | 0 <= i < |policy.floors| ::
          FirstFloor(policy.floors, c, i) && Weaker(c.severity, policy.floors[i].1))
  }

  predicate FirstFloor(floors: seq<(string, Severity)>, c: Recommendation, i: nat)
    requires i < |floors|
  {
    SameFamily(floors[i].0, c.analyzer) && forall j | 0 <= j < i :: !SameFamily(floors[j].0, c.analyzer)
  }

  lemma {:induction false} HostFloorIs(floors: seq<(string, Severity)>, c: Recommendation)
    ensures var floor := HostFloor(floors, FamilyOf(c.analyzer));
            && (floor.None? ==> forall i | 0 <= i < |floors| :: !SameFamily(floors[i].0, c.analyzer))
            && (floor.Some? ==> exists i | 0 <= i < |floors| ::
                  FirstFloor(floors, c, i) && floors[i].1 == floor.value)
    decreases floors
  {
    hide FamilyOf;
    if floors != [] {
      var rest := floors[1..];
      if SameFamily(floors[0].0, c.analyzer) {
        assert FirstFloor(floors, c, 0);
      } else {
        HostFloorIs(rest, c);
        var floor := HostFloor(rest, FamilyOf(c.analyzer));
        if floor.Some? {
          var i :| 0 <= i < |rest| && FirstFloor(rest, c, i) && rest[i].1 == floor.value;
          assert floors[i + 1] == rest[i];
          assert FirstFloor(floors, c, i + 1);
        }
      }
    }
  }

  lemma BelowFloorIs(policy: Policy, p: Persisted, c: Recommendation)
    ensures BelowFloor(policy, p, c) <==> TooWeak(policy, p, c)
  {
    HostFloorIs(policy.floors, c);
    hide FamilyOf, HostFloor, SameFamily;
    var floor := HostFloor(policy.floors, FamilyOf(c.analyzer));
    if floor.Some? {
      var i :| 0 <= i < |policy.floors| && FirstFloor(policy.floors, c, i) && policy.floors[i].1 == floor.value;
      forall j | 0 <= j < |policy.floors| && FirstFloor(policy.floors, c, j) ensures j == i {
      }
    }
  }

  // --- survivors ---

  /** Some stored recommendation of the loop carries the key, and is pending, approved, applied or not indexed. */
  predicate Occupied(w: World, key: string) {
    var p := StateOf(w);
    exists h | h in w.store.grains ::
      var g := w.store.grains[h];
      && g.grainType == "recommendation" && g.namespace == "deja-loop"
      && "dedup_key" in g.fields.entries && g.fields.entries["dedup_key"] == Str(key)
      && (g.hash in p.status ==> p.status[g.hash].Pending? || p.status[g.hash].Approved? || p.status[g.hash].Applied?)
  }

  predicate Resting(w: World, key: string, now: int) {
    key in StateOf(w).cooldowns && now < StateOf(w).cooldowns[key]
  }

  /** The first candidate of its key that is not too weak. */
  predicate LeadsItsKey(policy: Policy, p: Persisted, cs: seq<Recommendation>, i: nat)
    requires i < |cs|
  {
    !TooWeak(policy, p, cs[i])
    && forall j | 0 <= j < i :: cs[j].dedupKey == cs[i].dedupKey ==> TooWeak(policy, p, cs[j])
  }

  lemma OccupiedIs(w: World, p: Persisted, key: string)
    requires p.status == StateOf(w).status
    ensures key in ExistingKeys(w.store, p) <==> Occupied(w, key)
  {
  }

  /** What is kept are the candidates at these places, in their order. */
  predicate Picks(cs: seq<Recommendation>, kept: seq<Recommendation>, picks: seq<nat>) {
    && |picks| == |kept| && (forall a, b | 0 <= a < b < |picks| :: picks[a] < picks[b])
    && forall a | 0 <= a < |picks| :: picks[a] < |cs| && kept[a] == cs[picks[a]]
  }

  lemma PicksMore(cs: seq<Recommendation>, kept: seq<Recommendation>, picks: seq<nat>)
    requires cs != [] && Picks(cs[..|cs| - 1], kept, picks)
    ensures Picks(cs, kept, picks) && Picks(cs, kept + [cs[|cs| - 1]], picks + [|cs| - 1])
    ensures forall a | 0 <= a < |picks| :: picks[a] < |cs| - 1
  {
  }

  lemma {:induction false} SiftPicks(policy: Policy, p: Persisted, existing: set<string>, cs: seq<Recommendation>,
                                     now: int) returns (picks: seq<nat>)
    ensures var x := Sift(policy, p, existing, cs, now);
            && Picks(cs, x.kept, picks)
            && (forall i | 0 <= i < |cs| :: i in picks <==>
                  LeadsItsKey(policy, p, cs, i) && cs[i].dedupKey !in existing && !Cooling(p, cs[i].dedupKey, now))
            && (forall k :: k in x.seen <==> exists i | 0 <= i < |cs| ::
                  cs[i].dedupKey == k && !TooWeak(policy, p, cs[i]))
  {
    hide TooWeak, LeadsItsKey, Picks, Sift, Cooling;
    SiftStarts(policy, p, existing, now);
    if cs == [] {
      picks := [];
    } else {
      var n := |cs| - 1;
      var rest, c := cs[..n], cs[n];
      var before := SiftPicks(policy, p, existing, rest, now);
      var x, y := Sift(policy, p, existing, cs, now), Sift(policy, p, existing, rest, now);
      SiftNext(policy, p, existing, cs, now);
      LeadsByTheSeen(policy, p, cs, y.seen);
      SeenGrows(policy, p, cs, y.seen, x.seen);
      PicksMore(cs, y.kept, before);
      picks := if x.kept == y.kept then before else before + [n];
      forall i | 0 <= i < |cs| ensures i in picks <==>
          LeadsItsKey(policy, p, cs, i) && cs[i].dedupKey !in existing && !Cooling(p, cs[i].dedupKey, now) {
        if i < n {
          assert rest[i] == cs[i];
          assert i in picks <==> i in before;
        } else {
          assert n !in before;
        }
      }
    }
  }

  lemma SiftStarts(policy: Policy, p: Persisted, existing: set<string>, now: int)
    ensures Sift(policy, p, existing, [], now) == Sifted({}, []) && Picks([], [], [])
  {
  }

  lemma SiftNext(policy: Policy, p: Persisted, existing: set<string>, cs: seq<Recommendation>, now: int)
    requires cs != []
    ensures var c, y := cs[|cs| - 1], Sift(policy, p, existing, cs[..|cs| - 1], now);
            var x, strong := Sift(policy, p, existing, cs, now), !TooWeak(policy, p, c);
            && x.seen == (if strong then y.seen + {c.dedupKey} else y.seen)
            && x.kept == (if strong && c.dedupKey !in y.seen && c.dedupKey !in existing && !Cooling(p, c.dedupKey, now)
                          then y.kept + [c] else y.kept)
  {
    BelowFloorIs(policy, p, cs[|cs| - 1]);
    hide BelowFloor, Cooling, TooWeak;
  }

  /** The last candidate leads its key when none of the earlier strong enough ones has it. */
  lemma LeadsByTheSeen(policy: Policy, p: Persisted, cs: seq<Recommendation>, seen: set<string>)
    requires cs != []
    requires var rest := cs[..|cs| - 1];
             forall k :: k in seen <==> exists i | 0 <= i < |rest| ::
               rest[i].dedupKey == k && !TooWeak(policy, p, rest[i])
    ensures var n := |cs| - 1;
            && (LeadsItsKey(policy, p, cs, n) <==> !TooWeak(policy, p, cs[n]) && cs[n].dedupKey !in seen)
            && forall i | 0 <= i < n :: LeadsItsKey(policy, p, cs, i) <==> LeadsItsKey(policy, p, cs[..n], i)
  {
    hide TooWeak;
    var n := |cs| - 1;
    assert forall j | 0 <= j < n :: cs[..n][j] == cs[j];
  }

  lemma SeenGrows(policy: Policy, p: Persisted, cs: seq<Recommendation>, before: set<string>, seen: set<string>)
    requires cs != []
    requires var rest := cs[..|cs| - 1];
             forall k :: k in before <==> exists i | 0 <= i < |rest| ::
               rest[i].dedupKey == k && !TooWeak(policy, p, rest[i])
    requires var c := cs[|cs| - 1]; seen == if TooWeak(policy, p, c) then before else before + {c.dedupKey}
    ensures forall k :: k in seen <==> exists i | 0 <= i < |cs| :: cs[i].dedupKey == k && !TooWeak(policy, p, cs[i])
  {
    hide TooWeak;
    var rest, c := cs[..|cs| - 1], cs[|cs| - 1];
    forall k ensures k in seen <==> exists i | 0 <= i < |cs| :: cs[i].dedupKey == k && !TooWeak(policy, p, cs[i]) {
      if k in before {
        var i :| 0 <= i < |rest| && rest[i].dedupKey == k && !TooWeak(policy, p, rest[i]);
        assert cs[i] == rest[i];
      }
      if i :| 0 <= i < |cs| && cs[i].dedupKey == k && !TooWeak(policy, p, cs[i]) {
        if i < |rest| { assert rest[i] == cs[i]; }
      }
    }
  }

  /** The survivors of a run are, in the order of the candidates, exactly the first strong enough candidate of every key
      that no open or unindexed recommendation occupies and that is not resting. */
  lemma SurvivorsAre(e: Engine, w: World, input: RunInput) returns (picks: seq<nat>)
    ensures var p, cs, kept := StateOf(w), Candidates(input.findings, input.now), RunSurvivors(e, w, input);
            && |picks| == |kept| && (forall a, b | 0 <= a < b < |picks| :: picks[a] < picks[b])
            && (forall a | 0 <= a < |picks| :: picks[a] < |cs| && kept[a] == cs[picks[a]])
            && (forall i | 0 <= i < |cs| :: i in picks <==>
                  && LeadsItsKey(e.policy, p, cs, i)
                  && !Occupied(w, cs[i].dedupKey) && !Resting(w, cs[i].dedupKey, input.now))
  {
    var q := MeasureOutcomes(e, w.store, StateOf(w), input.now);
    var cs := Candidates(input.findings, input.now);
    MeasuringKeepsRest(e, w.store, StateOf(w), input.now);
    picks := SiftPicks(e.policy, q, ExistingKeys(w.store, q), cs, input.now);
    forall i | 0 <= i < |cs| ensures i in picks <==>
        && LeadsItsKey(e.policy, StateOf(w), cs, i)
        && !Occupied(w, cs[i].dedupKey) && !Resting(w, cs[i].dedupKey, input.now) {
      OccupiedIs(w, q, cs[i].dedupKey);
      SameStrength(e.policy, q, StateOf(w), cs, i);
    }
  }

  lemma SameStrength(policy: Policy, p: Persisted, q: Persisted, cs: seq<Recommendation>, i: nat)
    requires i < |cs| && p.floors == q.floors
    ensures LeadsItsKey(policy, p, cs, i) <==> LeadsItsKey(policy, q, cs, i)
  {
    forall j | 0 <= j < |cs| ensures TooWeak(policy, p, cs[j]) <==> TooWeak(policy, q, cs[j]) {
    }
    hide TooWeak;
  }

  // --- the gate of a run ---

  /** A run is skipped exactly when something was asked of it and nothing asked is met; then nothing is written, and
      staleness is named as the reason only when it was all that was asked. */
  lemma SkippedIffNothingMet(e: Engine, w: World, input: RunInput)
    ensures var o, last := input.opts, StateOf(w).lastRun;
            var (w', r) := RunStep(e, w, input);
            && ((r.Ok? && r.value.Skipped?) <==>
                  && (o.minNew.Some? || o.minNewErrors.Some? || o.ifStaleMs.Some?)
                  && (o.minNew.Some? ==> input.newGrains < o.minNew.value)
                  && (o.minNewErrors.Some? ==> input.newErrors < o.minNewErrors.value)
                  && (o.ifStaleMs.Some? ==> last.Some? && input.now - last.value < o.ifStaleMs.value))
            && (r.Ok? && r.value.Skipped? ==>
                  w' == w && (r.value.reason.NotStale? <==> o.minNew.None? && o.minNewErrors.None?))
  {
    hide MeasureOutcomes, Candidates, Survivors, StoreAll;
  }

  /** After a run that happened, one that only asks to be stale is skipped exactly until that much time has passed. */
  lemma StaleSinceLastRun(e: Engine, w: World, input: RunInput, e': Engine, next: RunInput, ms: int)
    requires RunStep(e, w, input).1.Ok? && RunStep(e, w, input).1.value.Ran?
    requires next.opts.minNew.None? && next.opts.minNewErrors.None? && next.opts.ifStaleMs == Some(ms)
    ensures var w' := RunStep(e, w, input).0;
            && StateOf(w').lastRun == Some(input.now) && StateOf(w').watermark == Some(input.now)
            && (RunStep(e', w', next) == (w', Ok(Skipped(NotStale))) <==> next.now - input.now < ms)
  {
    var w' := RunStep(e, w, input).0;
    SkippedIffNothingMet(e', w', next);
    hide MeasureOutcomes, Candidates, Survivors, StoreAll;
  }

  // --- configuring ---

  /** Configuring sets or removes one analyzer's floor and touches nothing else. */
  lemma ConfigureSetsOneFloor(w: World, analyzer: string, floor: Option<Severity>)
    ensures var p, w' := StateOf(w), ConfigureStep(w, analyzer, floor);
            var q := StateOf(w');
            && w'.store == w.store && q == p.(floors := q.floors)
            && (analyzer in q.floors <==> floor.Some?) && (floor.Some? ==> q.floors[analyzer] == floor.value)
            && forall a | a != analyzer ::
                 (a in q.floors <==> a in p.floors) && (a in p.floors ==> q.floors[a] == p.floors[a])
  {
  }
}
