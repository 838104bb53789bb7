/** Two stages of recall: the bounded expansion along the entity graph and the newest-per-key
    conflict filter. Store legs are arbitrary functions from an entity to the grains they return. */
module Recall {
  import opened Basics

  /** A content address; its 32 bytes compare like the number they spell. */
  type Hash = nat

  datatype Grain = Grain(
    hash: Hash,
    subject: Option<string>,
    relation: Option<string>,
    obj: Option<string>,
    createdAt: Option<int>)

  const RECALL_OVERFETCH := 4
  const MULTI_HOP_SEED := 8
  const MULTI_HOP_FANOUT := 8

  type Leg = string -> seq<Grain>

  // --- the entity graph ---

  function TermOf(field: Option<string>): seq<string> {
    match field
    case Some(v) => if v == "" then [] else [v]
    case None => []
  }

  /** The entities a grain names: its subject, then its object. */
  function Entities(g: Grain): seq<string> {
    TermOf(g.subject) + TermOf(g.obj)
  }

  function EntitiesOf(gs: seq<Grain>): seq<string> {
    if gs == [] then [] else Entities(gs[0]) + EntitiesOf(gs[1..])
  }

  function Hashes(gs: seq<Grain>): set<Hash> {
    set g | g in gs :: g.hash
  }

  ghost predicate DistinctHashes(gs: seq<Grain>) {
    forall i, j | 0 <= i < j < |gs| :: gs[i].hash != gs[j].hash
  }

  function Seeds(raw: seq<Grain>): seq<Grain> {
    raw[..Min(MULTI_HOP_SEED, |raw|)]
  }

  datatype Legs = Legs(forward: Leg, reverse: Leg) {
    function Of(e: string): seq<Grain> {
      forward(e) + reverse(e)
    }

    ghost predicate Bounded() {
      forall e :: |forward(e)| <= MULTI_HOP_FANOUT && |reverse(e)| <= MULTI_HOP_FANOUT
    }

    /** `e` is the end of a walk of `steps` edges from an entity the seeds name. */
    ghost predicate Reachable(seeds: seq<Grain>, e: string, steps: nat)
      decreases steps
    {
      if steps == 0 then e in EntitiesOf(seeds)
      else exists via :: Reachable(seeds, via, steps - 1) && e in EntitiesOf(Of(via))
    }

    /** Equal addresses mean equal grains, across the first pass and both legs. */
    ghost predicate ContentAddressed(raw: seq<Grain>) {
      && (forall g, h | g in raw && h in raw && g.hash == h.hash :: g == h)
      && (forall g, e, h | g in raw && h in Of(e) && g.hash == h.hash :: g == h)
      && (forall e, g, f, h | g in Of(e) && h in Of(f) && g.hash == h.hash :: g == h)
    }

    /** The pool once the entities `es` have been expanded in order. */
    function Pool(raw: seq<Grain>, es: seq<string>): seq<Grain> {
      if es == [] then raw else Absorb(Pool(raw, es[..|es| - 1]), Of(es[|es| - 1]))
    }
  }

  /** Append the grains whose address is not in the pool yet. */
  function Absorb(pool: seq<Grain>, gs: seq<Grain>): seq<Grain> {
    if gs == [] then pool
    else
      var before, g := Absorb(pool, gs[..|gs| - 1]), gs[|gs| - 1];
      if g.hash in Hashes(before) then before else before + [g]
  }

  lemma {:induction false} AbsorbExtends(pool: seq<Grain>, gs: seq<Grain>)
    ensures pool <= Absorb(pool, gs)
    ensures |Absorb(pool, gs)| <= |pool| + |gs|
    ensures Hashes(Absorb(pool, gs)) == Hashes(pool) + Hashes(gs)
    ensures DistinctHashes(pool) ==> DistinctHashes(Absorb(pool, gs))
    ensures forall i | |pool| <= i < |Absorb(pool, gs)| ::
              Absorb(pool, gs)[i] in gs && Absorb(pool, gs)[i].hash !in Hashes(pool)
  {
    if gs != [] {
      var rest, g := gs[..|gs| - 1], gs[|gs| - 1];
      var before := Absorb(pool, rest);
      AbsorbExtends(pool, rest);
      assert gs == rest + [g];
      HashesAppend(rest, g);
      HashesAppend(before, g);
      if g.hash !in Hashes(before) && DistinctHashes(pool) {
        assert forall k | 0 <= k < |before| :: before[k].hash in Hashes(before);
      }
    }
  }

  lemma AbsorbNext(pool: seq<Grain>, gs: seq<Grain>, i: nat)
    requires i < |gs|
    ensures var before := Absorb(pool, gs[..i]);
            Absorb(pool, gs[..i + 1]) == if gs[i].hash in Hashes(before) then before else before + [gs[i]]
  {
    assert gs[..i + 1][..i] == gs[..i];
  }

  lemma HashesAppend(a: seq<Grain>, g: Grain)
    ensures Hashes(a + [g]) == Hashes(a) + {g.hash}
  {
  }

  /** The names of `es` not visited yet, each once, in order. */
  function Unvisited(visited: set<string>, es: seq<string>): seq<string>
    decreases es
  {
    if es == [] then []
    else if es[0] in visited then Unvisited(visited, es[1..])
    else [es[0]] + Unvisited(visited + {es[0]}, es[1..])
  }

  function Names(es: seq<string>): set<string> {
    set e | e in es
  }

  lemma {:induction false} UnvisitedIsNew(visited: set<string>, es: seq<string>)
    ensures Distinct(Unvisited(visited, es))
    ensures Names(Unvisited(visited, es)) == Names(es) - visited
    decreases es
  {
    if es != [] {
      assert es == [es[0]] + es[1..];
      assert Names(es) == {es[0]} + Names(es[1..]);
      UnvisitedIsNew(if es[0] in visited then visited else visited + {es[0]}, es[1..]);
      if es[0] !in visited {
        var rest := Unvisited(visited + {es[0]}, es[1..]);
        assert Names([es[0]] + rest) == {es[0]} + Names(rest);
        assert es[0] !in Names(rest);
      }
    }
  }

  lemma {:induction false} UnvisitedAppend(visited: set<string>, a: seq<string>, b: seq<string>)
    ensures Unvisited(visited, a + b) == Unvisited(visited, a) + Unvisited(visited + Names(a), b)
    decreases a
  {
    if a == [] {
      assert a + b == b;
      assert visited + Names(a) == visited;
    } else {
      assert (a + b)[1..] == a[1..] + b;
      assert a == [a[0]] + a[1..];
      var v := if a[0] in visited then visited else visited + {a[0]};
      assert v + Names(a[1..]) == visited + Names(a);
      UnvisitedAppend(v, a[1..], b);
    }
  }

  lemma {:induction false} EntitiesOfAppend(a: seq<Grain>, b: seq<Grain>)
    ensures EntitiesOf(a + b) == EntitiesOf(a) + EntitiesOf(b)
    decreases a
  {
    if a == [] {
      assert a + b == b;
    } else {
      assert (a + b)[1..] == a[1..] + b;
      EntitiesOfAppend(a[1..], b);
    }
  }

  lemma {:induction false} EntityOfMember(gs: seq<Grain>, e: string)
    ensures e in EntitiesOf(gs) <==> exists g :: g in gs && e in Entities(g)
  {
    if gs != [] {
      EntityOfMember(gs[1..], e);
      assert gs == [gs[0]] + gs[1..];
    }
  }

  method PushTerm(field: Option<string>, visited0: set<string>, out0: seq<string>)
    returns (visited: set<string>, out: seq<string>)
    ensures visited == visited0 + Names(TermOf(field))
    ensures out == out0 + Unvisited(visited0, TermOf(field))
  {
    visited, out := visited0, out0;
    if field.Some? && field.value != "" && field.value !in visited {
      visited := visited + {field.value};
      out := out + [field.value];
    }
  }

  /** Follow both terms of a grain, unless they were met before. */
  method PushEntities(g: Grain, visited0: set<string>, out0: seq<string>)
    returns (visited: set<string>, out: seq<string>)
    ensures visited == visited0 + Names(Entities(g))
    ensures out == out0 + Unvisited(visited0, Entities(g))
  {
    UnvisitedAppend(visited0, TermOf(g.subject), TermOf(g.obj));
    visited, out := PushTerm(g.subject, visited0, out0);
    visited, out := PushTerm(g.obj, visited, out);
  }

  lemma NewGrain(visited0: set<string>, added: seq<Grain>, g: Grain)
    ensures Names(EntitiesOf(added + [g])) == Names(EntitiesOf(added)) + Names(Entities(g))
    ensures Unvisited(visited0, EntitiesOf(added + [g]))
            == Unvisited(visited0, EntitiesOf(added))
               + Unvisited(visited0 + Names(EntitiesOf(added)), Entities(g))
  {
    EntitiesOfAppend(added, [g]);
    assert EntitiesOf([g]) == Entities(g);
    UnvisitedAppend(visited0, EntitiesOf(added), Entities(g));
  }

  /** What taking these legs has done: grains added to the pool, entities met and queued. */
  ghost predicate Took(raw0: seq<Grain>, visited0: set<string>, legs: seq<Grain>, raw: seq<Grain>,
                       visited: set<string>, queued: seq<string>, added: seq<Grain>)
  {
    && raw == Absorb(raw0, legs) == raw0 + added
    && visited == visited0 + Names(EntitiesOf(added))
    && queued == Unvisited(visited0, EntitiesOf(added))
  }

  lemma TookNothing(raw0: seq<Grain>, visited0: set<string>, legs: seq<Grain>)
    ensures Took(raw0, visited0, legs[..0], raw0, visited0, [], [])
  {
    assert Names(EntitiesOf([])) == {} && legs[..0] == [];
  }

  lemma TookNext(raw0: seq<Grain>, visited0: set<string>, legs: seq<Grain>, i: nat, raw: seq<Grain>,
                 visited: set<string>, queued: seq<string>, added: seq<Grain>)
    requires i < |legs| && Took(raw0, visited0, legs[..i], raw, visited, queued, added)
    ensures var g := legs[i];
            if g.hash in Hashes(raw) then Took(raw0, visited0, legs[..i + 1], raw, visited, queued, added)
            else Took(raw0, visited0, legs[..i + 1], raw + [g], visited + Names(Entities(g)),
                      queued + Unvisited(visited, Entities(g)), added + [g])
  {
    AbsorbNext(raw0, legs, i);
    NewGrain(visited0, added, legs[i]);
    hide EntitiesOf, Entities, Unvisited, Names, Hashes, Absorb;
    assert raw0 + (added + [legs[i]]) == raw + [legs[i]];
  }

  /** Take one entity's legs into the pool and queue the entities of what was new. */
  method TakeLegs(raw0: seq<Grain>, visited0: set<string>, legs: seq<Grain>)
    returns (raw: seq<Grain>, visited: set<string>, queued: seq<string>, ghost added: seq<Grain>)
    ensures raw == Absorb(raw0, legs) == raw0 + added
    ensures visited == visited0 + Names(EntitiesOf(added))
    ensures queued == Unvisited(visited0, EntitiesOf(added))
  {
    hide EntitiesOf, Entities, Unvisited, Names, Hashes, Absorb;
    var seen := Hashes(raw0);
    raw, visited, queued, added := raw0, visited0, [], [];
    TookNothing(raw0, visited0, legs);
    for i := 0 to |legs|
      invariant Took(raw0, visited0, legs[..i], raw, visited, queued, added) && seen == Hashes(raw)
    {
      var g := legs[i];
      TookNext(raw0, visited0, legs, i, raw, visited, queued, added);
      if g.hash !in seen {
        HashesAppend(raw, g);
        seen := seen + {g.hash};
        visited, queued := PushEntities(g, visited, queued);
        raw, added := raw + [g], added + [g];
      }
    }
    assert legs[..|legs|] == legs;
  }

  // --- the walk ---

  /** Nothing is queued twice, and what was met is what is queued. */
  ghost predicate Queues(expanded: seq<string>, waiting: seq<string>, next: seq<string>, visited: set<string>) {
    && Distinct(expanded) && Distinct(waiting) && Distinct(next)
    && Names(expanded) !! Names(waiting) !! Names(next)
    && visited == Names(expanded) + Names(waiting) + Names(next)
  }

  /** State of the walk: `expanded` entities have given their legs to the pool, `waiting` ones are
      `level` edges from the seeds and `next` ones are one edge further. */
  ghost predicate Walk(legs: Legs, raw0: seq<Grain>, raw: seq<Grain>, expanded: seq<string>, waiting: seq<string>,
                       next: seq<string>, visited: set<string>, level: nat)
  {
    && raw == legs.Pool(raw0, expanded)
    && Queues(expanded, waiting, next, visited)
    && (forall e | e in expanded :: ReachedBefore(legs, raw0, e, level + 1))
    && (forall e | e in waiting :: legs.Reachable(Seeds(raw0), e, level))
    && (forall e | e in next :: legs.Reachable(Seeds(raw0), e, level + 1))
  }

  /** Some walk of fewer than `n` edges from the seeds ends in `e`. */
  ghost predicate ReachedBefore(legs: Legs, raw0: seq<Grain>, e: string, n: nat) {
    exists j :: 0 <= j < n && legs.Reachable(Seeds(raw0), e, j)
  }

  lemma DistinctAppend(a: seq<string>, b: seq<string>)
    requires Distinct(a) && Distinct(b) && Names(a) !! Names(b)
    ensures Distinct(a + b) && Names(a + b) == Names(a) + Names(b)
  {
    forall i, j | 0 <= i < j < |a + b| ensures (a + b)[i] != (a + b)[j] {
      if i < |a| <= j {
        assert a[i] in Names(a) && b[j - |a|] in Names(b);
      }
    }
  }

  lemma QueuedReachable(legs: Legs, seeds: seq<Grain>, raw: seq<Grain>, e: string, added: seq<Grain>, level: nat,
                        f: string)
    requires legs.Reachable(seeds, e, level) && Absorb(raw, legs.Of(e)) == raw + added
    requires f in EntitiesOf(added)
    ensures legs.Reachable(seeds, f, level + 1)
  {
    AbsorbExtends(raw, legs.Of(e));
    EntityOfMember(added, f);
    var g :| g in added && f in Entities(g);
    var i :| 0 <= i < |added| && added[i] == g;
    assert (raw + added)[|raw| + i] == g;
    EntityOfMember(legs.Of(e), f);
  }

  lemma MoveEntity(expanded: seq<string>, waiting: seq<string>, next: seq<string>, visited: set<string>,
                   es: seq<string>)
    requires Queues(expanded, waiting, next, visited) && waiting != []
    ensures Queues(expanded + [waiting[0]], waiting[1..], next + Unvisited(visited, es), visited + Names(es))
    ensures Names(expanded + [waiting[0]]) + Names(waiting[1..]) == Names(expanded) + Names(waiting)
  {
    hide Unvisited;
    var e, queued := waiting[0], Unvisited(visited, es);
    UnvisitedIsNew(visited, es);
    assert waiting == [e] + waiting[1..];
    assert e !in Names(waiting[1..]);
    DistinctAppend(expanded, [e]);
    DistinctAppend(next, queued);
  }

  lemma ExpandEntity(legs: Legs, raw0: seq<Grain>, raw: seq<Grain>, expanded: seq<string>, waiting: seq<string>,
                     next: seq<string>, visited: set<string>, level: nat, added: seq<Grain>)
    requires Walk(legs, raw0, raw, expanded, waiting, next, visited, level) && waiting != []
    requires Absorb(raw, legs.Of(waiting[0])) == raw + added
    ensures Walk(legs, raw0, raw + added, expanded + [waiting[0]], waiting[1..],
                 next + Unvisited(visited, EntitiesOf(added)), visited + Names(EntitiesOf(added)), level)
    ensures Names(expanded + [waiting[0]]) + Names(waiting[1..]) == Names(expanded) + Names(waiting)
  {
    hide Absorb, Unvisited, EntitiesOf, Legs.Reachable, Queues, Names, ReachedBefore;
    var e, queued := waiting[0], Unvisited(visited, EntitiesOf(added));
    MoveEntity(expanded, waiting, next, visited, EntitiesOf(added));
    assert (expanded + [e])[..|expanded + [e]| - 1] == expanded;
    QueuedAreReachable(legs, raw0, raw, e, visited, added, level);
    assert ReachedBefore(legs, raw0, e, level + 1) by { ReachedHere(legs, raw0, e, level); }
  }

  lemma ReachedHere(legs: Legs, raw0: seq<Grain>, e: string, level: nat)
    requires legs.Reachable(Seeds(raw0), e, level)
    ensures ReachedBefore(legs, raw0, e, level + 1)
  {
    hide Legs.Reachable;
  }

  lemma QueuedAreReachable(legs: Legs, raw0: seq<Grain>, raw: seq<Grain>, e: string, visited: set<string>,
                           added: seq<Grain>, level: nat)
    requires legs.Reachable(Seeds(raw0), e, level) && Absorb(raw, legs.Of(e)) == raw + added
    ensures forall f | f in Unvisited(visited, EntitiesOf(added)) :: legs.Reachable(Seeds(raw0), f, level + 1)
  {
    hide Absorb, Unvisited, EntitiesOf, Legs.Reachable;
    var queued := Unvisited(visited, EntitiesOf(added));
    UnvisitedIsNew(visited, EntitiesOf(added));
    forall f | f in queued ensures legs.Reachable(Seeds(raw0), f, level + 1) {
      assert f in Names(queued);
      QueuedReachable(legs, Seeds(raw0), raw, e, added, level, f);
    }
  }

  lemma WalkFacts(legs: Legs, raw0: seq<Grain>, raw: seq<Grain>, expanded: seq<string>, waiting: seq<string>,
                  next: seq<string>, visited: set<string>, level: nat)
    requires Walk(legs, raw0, raw, expanded, waiting, next, visited, level)
    ensures raw == legs.Pool(raw0, expanded) && Distinct(expanded)
    ensures forall e | e in expanded :: ReachedBefore(legs, raw0, e, level + 1)
    ensures visited == Names(expanded) + Names(waiting) + Names(next)
  {
  }

  lemma NextLevel(legs: Legs, raw0: seq<Grain>, raw: seq<Grain>, expanded: seq<string>, next: seq<string>,
                  visited: set<string>, level: nat)
    requires Walk(legs, raw0, raw, expanded, [], next, visited, level)
    ensures Walk(legs, raw0, raw, expanded, next, [], visited, level + 1)
  {
    forall e | e in expanded ensures ReachedBefore(legs, raw0, e, level + 2) {
      assert ReachedBefore(legs, raw0, e, level + 1);
    }
  }

  /** Every pool grain's entities have been met, and every expanded entity's legs are in the pool. */
  ghost predicate Closed(legs: Legs, raw: seq<Grain>, expanded: seq<string>, visited: set<string>) {
    && (forall g, e | g in raw && e in Entities(g) :: e in visited)
    && (forall e | e in expanded :: Hashes(legs.Of(e)) <= Hashes(raw))
  }

  lemma StaysClosed(legs: Legs, raw: seq<Grain>, expanded: seq<string>, visited: set<string>, e: string,
                    added: seq<Grain>)
    requires Closed(legs, raw, expanded, visited)
    requires Absorb(raw, legs.Of(e)) == raw + added
    ensures Closed(legs, raw + added, expanded + [e], visited + Names(EntitiesOf(added)))
  {
    AbsorbExtends(raw, legs.Of(e));
    forall g, f | g in raw + added && f in Entities(g) ensures f in visited + Names(EntitiesOf(added)) {
      if g in added { EntityOfMember(added, f); }
    }
  }

  ghost predicate Covered(legs: Legs, raw0: seq<Grain>, visited: set<string>, level: nat) {
    forall e, j | 0 <= j <= level && legs.Reachable(Seeds(raw0), e, j) :: e in visited
  }

  lemma {:induction false} PoolMembers(legs: Legs, raw0: seq<Grain>, expanded: seq<string>)
    ensures raw0 <= legs.Pool(raw0, expanded)
    ensures DistinctHashes(raw0) ==> DistinctHashes(legs.Pool(raw0, expanded))
    ensures forall i | |raw0| <= i < |legs.Pool(raw0, expanded)| ::
              exists e :: e in expanded && legs.Pool(raw0, expanded)[i] in legs.Of(e)
    ensures forall i | |raw0| <= i < |legs.Pool(raw0, expanded)| ::
              legs.Pool(raw0, expanded)[i].hash !in Hashes(raw0)
  {
    if expanded != [] {
      var before, e := expanded[..|expanded| - 1], expanded[|expanded| - 1];
      PoolMembers(legs, raw0, before);
      AbsorbExtends(legs.Pool(raw0, before), legs.Of(e));
      var pool := legs.Pool(raw0, expanded);
      forall i | |raw0| <= i < |pool| ensures exists f :: f in expanded && pool[i] in legs.Of(f) {
        if i < |legs.Pool(raw0, before)| {
          var f :| f in before && pool[i] in legs.Of(f);
          assert f in expanded;
        } else {
          assert e in expanded && pool[i] in legs.Of(e);
        }
      }
      assert Hashes(raw0) <= Hashes(legs.Pool(raw0, before));
    }
  }

  /** One more edge of the graph leads only to entities already met. */
  lemma CoverNextLevel(legs: Legs, raw0: seq<Grain>, expanded: seq<string>, visited0: set<string>,
                       visited: set<string>, level: nat)
    requires legs.ContentAddressed(raw0)
    requires Closed(legs, legs.Pool(raw0, expanded), expanded, visited)
    requires Covered(legs, raw0, visited0, level) && visited0 <= Names(expanded) && visited0 <= visited
    ensures Covered(legs, raw0, visited, level + 1)
  {
    hide Closed, Legs.ContentAddressed, EntitiesOf, Legs.Pool;
    forall e, j | 0 <= j <= level + 1 && legs.Reachable(Seeds(raw0), e, j) ensures e in visited {
      if j <= level {
        assert e in visited0;
      } else {
        var via :| legs.Reachable(Seeds(raw0), via, level) && e in EntitiesOf(legs.Of(via));
        assert via in visited0;
        LegsOfExpanded(legs, raw0, expanded, visited, via, e);
      }
    }
  }

  lemma LegsOfExpanded(legs: Legs, raw0: seq<Grain>, expanded: seq<string>, visited: set<string>, via: string,
                       e: string)
    requires legs.ContentAddressed(raw0)
    requires Closed(legs, legs.Pool(raw0, expanded), expanded, visited)
    requires via in expanded && e in EntitiesOf(legs.Of(via))
    ensures e in visited
  {
    hide EntitiesOf, Entities, Legs.Pool, Legs.ContentAddressed;
    var raw := legs.Pool(raw0, expanded);
    EntityOfMember(legs.Of(via), e);
    var g :| g in legs.Of(via) && e in Entities(g);
    assert g.hash in Hashes(legs.Of(via));
    var h :| h in raw && h.hash == g.hash;
    SameAddress(legs, raw0, expanded, via, g, h);
  }

  lemma SameAddress(legs: Legs, raw0: seq<Grain>, expanded: seq<string>, via: string, g: Grain, h: Grain)
    requires legs.ContentAddressed(raw0)
    requires g in legs.Of(via) && h in legs.Pool(raw0, expanded) && g.hash == h.hash
    ensures g == h
  {
    hide Legs.Pool, Hashes;
    PoolMembers(legs, raw0, expanded);
    var raw := legs.Pool(raw0, expanded);
    var i :| 0 <= i < |raw| && raw[i] == h;
    if i < |raw0| {
      assert h in raw0;
    }
  }

  /** Every entity fewer than `n` edges from the seeds has been expanded. */
  ghost predicate AllExpanded(legs: Legs, raw0: seq<Grain>, expanded: seq<string>, n: nat) {
    forall e, j | 0 <= j < n && legs.Reachable(Seeds(raw0), e, j) :: e in expanded
  }

  /** With nothing left waiting, the whole reachable graph has been expanded. */
  lemma {:induction false} NothingWaiting(legs: Legs, raw0: seq<Grain>, expanded: seq<string>, visited: set<string>,
                                          level: nat, n: nat)
    requires legs.ContentAddressed(raw0)
    requires Closed(legs, legs.Pool(raw0, expanded), expanded, visited) && visited == Names(expanded)
    requires Covered(legs, raw0, visited, level)
    ensures AllExpanded(legs, raw0, expanded, n)
    decreases n - level
  {
    if n > level {
      CoverNextLevel(legs, raw0, expanded, visited, visited, level);
      NothingWaiting(legs, raw0, expanded, visited, level + 1, n);
    }
  }

  /** The first pass names no entity that its seeds do not name. */
  predicate SeedsNameAll(raw0: seq<Grain>) {
    Names(EntitiesOf(raw0)) <= Names(EntitiesOf(Seeds(raw0)))
  }

  lemma StartWalk(legs: Legs, raw0: seq<Grain>)
    ensures var es := EntitiesOf(Seeds(raw0));
            && Walk(legs, raw0, raw0, [], Unvisited({}, es), [], Names(es), 0)
            && (SeedsNameAll(raw0) ==> Closed(legs, raw0, [], Names(es)))
            && Covered(legs, raw0, Names(es), 0)
    ensures AllExpanded(legs, raw0, [], 0)
  {
    var es := EntitiesOf(Seeds(raw0));
    UnvisitedIsNew({}, es);
    forall e | e in Unvisited({}, es) ensures legs.Reachable(Seeds(raw0), e, 0) {
      assert e in Names(Unvisited({}, es));
    }
    if SeedsNameAll(raw0) {
      forall g, e | g in raw0 && e in Entities(g) ensures e in Names(es) {
        EntityOfMember(raw0, e);
        assert e in Names(EntitiesOf(raw0));
      }
    }
  }

  /** The entities the walk has met: those the seeds name and those the added grains name. */
  function Met(raw0: seq<Grain>, raw: seq<Grain>): set<string> {
    Names(EntitiesOf(Seeds(raw0))) + Names(EntitiesOf(raw[Min(|raw0|, |raw|)..]))
  }

  lemma SeedsAreMet(raw0: seq<Grain>)
    ensures Met(raw0, raw0) == Names(EntitiesOf(Seeds(raw0)))
  {
    assert raw0[|raw0|..] == [];
  }

  lemma MetGrows(raw0: seq<Grain>, raw: seq<Grain>, added: seq<Grain>)
    requires raw0 <= raw
    ensures Met(raw0, raw + added) == Met(raw0, raw) + Names(EntitiesOf(added))
  {
    assert (raw + added)[|raw0|..] == raw[|raw0|..] + added;
    EntitiesOfAppend(raw[|raw0|..], added);
  }

  lemma ExpandedAreMet(expanded: seq<string>, visited: set<string>)
    requires Names(expanded) <= visited
    ensures forall e | e in expanded :: e in visited
  {
  }

  // --- the walk as a function ---

  datatype State = State(
    raw: seq<Grain>,
    visited: set<string>,
    waiting: seq<string>,
    next: seq<string>,
    expanded: seq<string>)

  /** What the legs add to the pool. */
  function Brought(raw: seq<Grain>, gs: seq<Grain>): (added: seq<Grain>)
    ensures Absorb(raw, gs) == raw + added
  {
    AbsorbExtends(raw, gs);
    Absorb(raw, gs)[|raw|..]
  }

  function Start(raw0: seq<Grain>): State {
    var es := EntitiesOf(Seeds(raw0));
    State(raw0, Names(es), Unvisited({}, es), [], [])
  }

  /** Expand the entity in front. */
  function Advance(legs: Legs, st: State): State
    requires st.waiting != []
  {
    var added := Brought(st.raw, legs.Of(st.waiting[0]));
    var es := EntitiesOf(added);
    State(st.raw + added, st.visited + Names(es), st.waiting[1..], st.next + Unvisited(st.visited, es),
          st.expanded + [st.waiting[0]])
  }

  function NextHop(st: State): State {
    State(st.raw, st.visited, st.next, [], st.expanded)
  }

  /** Go on for this and `hops - 1` more hops, until nothing waits or the budget is reached. */
  function Walked(legs: Legs, st: State, hops: nat, budget: nat): State
    decreases hops, |st.waiting|
  {
    if st.waiting == [] then
      if hops <= 1 || st.next == [] then st else Walked(legs, NextHop(st), hops - 1, budget)
    else if |st.raw| >= budget then st
    else Walked(legs, Advance(legs, st), hops, budget)
  }

  /** The expansion of a first pass by so many hops. */
  function Expansion(legs: Legs, raw0: seq<Grain>, hops: nat, budget: nat): State {
    if hops == 0 then Start(raw0) else Walked(legs, Start(raw0), hops, budget)
  }

  /** The expansion for a caller who asked for `k` results. */
  function ExpansionFor(legs: Legs, raw0: seq<Grain>, hops: nat, k: nat): State {
    Expansion(legs, raw0, hops, k * RECALL_OVERFETCH)
  }

  ghost predicate Sound(legs: Legs, raw0: seq<Grain>, st: State, level: nat) {
    && Walk(legs, raw0, st.raw, st.expanded, st.waiting, st.next, st.visited, level)
    && raw0 <= st.raw && st.visited == Met(raw0, st.raw)
  }

  lemma StartIsSound(legs: Legs, raw0: seq<Grain>)
    ensures Sound(legs, raw0, Start(raw0), 0)
  {
    StartWalk(legs, raw0);
    SeedsAreMet(raw0);
    hide Walk, Met;
  }

  lemma AdvanceIsSound(legs: Legs, raw0: seq<Grain>, st: State, level: nat)
    requires Sound(legs, raw0, st, level) && st.waiting != []
    ensures Sound(legs, raw0, Advance(legs, st), level)
    ensures Names(Advance(legs, st).expanded) + Names(st.waiting[1..]) == Names(st.expanded) + Names(st.waiting)
    ensures legs.Bounded() ==> |Advance(legs, st).raw| <= |st.raw| + 2 * MULTI_HOP_FANOUT
  {
    hide Walk, Met, Absorb, EntitiesOf, Unvisited, Names, Legs.Pool;
    var e := st.waiting[0];
    var added := Brought(st.raw, legs.Of(e));
    AbsorbExtends(st.raw, legs.Of(e));
    ExpandEntity(legs, raw0, st.raw, st.expanded, st.waiting, st.next, st.visited, level, added);
    MetGrows(raw0, st.raw, added);
  }

  /** What a walk leaves behind: the pool of the entities it expanded, each once, met on the way and near enough. */
  ghost predicate Outcome(legs: Legs, raw0: seq<Grain>, st: State, hops: nat) {
    && st.raw == legs.Pool(raw0, st.expanded) && Distinct(st.expanded)
    && (forall e | e in st.expanded :: ReachedBefore(legs, raw0, e, hops))
    && (forall e | e in st.expanded :: e in Met(raw0, st.raw))
  }

  lemma SoundOutcome(legs: Legs, raw0: seq<Grain>, st: State, level: nat, hops: nat)
    requires Sound(legs, raw0, st, level) && level < hops
    ensures Outcome(legs, raw0, st, hops)
  {
    WalkFacts(legs, raw0, st.raw, st.expanded, st.waiting, st.next, st.visited, level);
    hide Walk, Met, Legs.Pool, ReachedBefore, Distinct;
    ReachedEarlier(legs, raw0, st.expanded, level + 1, hops);
    ExpandedAreMet(st.expanded, st.visited);
  }

  lemma {:induction false} WalkedIsSound(legs: Legs, raw0: seq<Grain>, st: State, level: nat, hops: nat, budget: nat)
    requires hops > 0 && Sound(legs, raw0, st, level)
    ensures Outcome(legs, raw0, Walked(legs, st, hops, budget), level + hops)
    ensures legs.Bounded() && |st.raw| <= Max(|raw0|, budget + 2 * MULTI_HOP_FANOUT - 1) ==>
              |Walked(legs, st, hops, budget).raw| <= Max(|raw0|, budget + 2 * MULTI_HOP_FANOUT - 1)
    decreases hops, |st.waiting|
  {
    hide Walk, Met, Outcome, Advance;
    SoundOutcome(legs, raw0, st, level, level + hops);
    if st.waiting == [] {
      if hops > 1 && st.next != [] {
        NextLevel(legs, raw0, st.raw, st.expanded, st.next, st.visited, level);
        WalkedIsSound(legs, raw0, NextHop(st), level + 1, hops - 1, budget);
      }
    } else if |st.raw| < budget {
      AdvanceIsSound(legs, raw0, st, level);
      hide Sound;
      assert Advance(legs, st).waiting == st.waiting[1..] by { AdvanceTakesOne(legs, st); }
      WalkedIsSound(legs, raw0, Advance(legs, st), level, hops, budget);
    }
  }

  lemma AdvanceTakesOne(legs: Legs, st: State)
    requires st.waiting != []
    ensures Advance(legs, st).waiting == st.waiting[1..]
  {
  }

  /** Everything up to this level has been met, and nothing met so far was left behind. */
  ghost predicate Complete(legs: Legs, raw0: seq<Grain>, st: State, met: set<string>, level: nat) {
    && Closed(legs, st.raw, st.expanded, st.visited) && Covered(legs, raw0, met, level)
    && met == Names(st.expanded) + Names(st.waiting) && met <= st.visited
  }

  lemma {:induction false} WalkedIsComplete(legs: Legs, raw0: seq<Grain>, st: State, met: set<string>, level: nat,
                                            hops: nat, budget: nat)
    requires hops > 0 && legs.ContentAddressed(raw0)
    requires Sound(legs, raw0, st, level) && Complete(legs, raw0, st, met, level)
    ensures var after := Walked(legs, st, hops, budget);
            |after.raw| < budget ==> AllExpanded(legs, raw0, after.expanded, level + hops)
    decreases hops, |st.waiting|
  {
    hide Walk, Met, Advance, Sound, Complete, Legs.ContentAddressed, AllExpanded;
    if st.waiting == [] {
      LevelDone(legs, raw0, st, met, level, hops);
      if hops > 1 && st.next != [] {
        WalkedIsComplete(legs, raw0, NextHop(st), st.visited, level + 1, hops - 1, budget);
      }
    } else if |st.raw| < budget {
      AdvanceTakesOne(legs, st);
      AdvanceIsSound(legs, raw0, st, level);
      AdvanceIsComplete(legs, raw0, st, met, level);
      WalkedIsComplete(legs, raw0, Advance(legs, st), met, level, hops, budget);
    }
  }

  lemma LevelDone(legs: Legs, raw0: seq<Grain>, st: State, met: set<string>, level: nat, hops: nat)
    requires hops > 0 && legs.ContentAddressed(raw0) && st.waiting == []
    requires Sound(legs, raw0, st, level) && Complete(legs, raw0, st, met, level)
    ensures Sound(legs, raw0, NextHop(st), level + 1)
    ensures Complete(legs, raw0, NextHop(st), st.visited, level + 1)
    ensures hops == 1 || st.next == [] ==> AllExpanded(legs, raw0, st.expanded, level + hops)
  {
    hide Walk, Met, Closed, Covered, AllExpanded, Legs.Pool, Legs.ContentAddressed, Names;
    WalkFacts(legs, raw0, st.raw, st.expanded, st.waiting, st.next, st.visited, level);
    NoNames();
    NextLevel(legs, raw0, st.raw, st.expanded, st.next, st.visited, level);
    CoverNextLevel(legs, raw0, st.expanded, met, st.visited, level);
    CoveredIsExpanded(legs, raw0, met, st.expanded, level);
    if st.next == [] {
      NothingWaiting(legs, raw0, st.expanded, st.visited, level + 1, level + hops);
    }
  }

  lemma AdvanceIsComplete(legs: Legs, raw0: seq<Grain>, st: State, met: set<string>, level: nat)
    requires Sound(legs, raw0, st, level) && Complete(legs, raw0, st, met, level) && st.waiting != []
    ensures Complete(legs, raw0, Advance(legs, st), met, level)
  {
    AdvanceIsSound(legs, raw0, st, level);
    hide Sound, Closed, Covered, Absorb, EntitiesOf, Unvisited, Names;
    var e := st.waiting[0];
    StaysClosed(legs, st.raw, st.expanded, st.visited, e, Brought(st.raw, legs.Of(e)));
  }

  lemma StartIsComplete(legs: Legs, raw0: seq<Grain>)
    requires SeedsNameAll(raw0)
    ensures Complete(legs, raw0, Start(raw0), Start(raw0).visited, 0)
  {
    StartWalk(legs, raw0);
    var st := Start(raw0);
    WalkFacts(legs, raw0, st.raw, st.expanded, st.waiting, st.next, st.visited, 0);
    NoNames();
    hide Walk, Closed, Covered, SeedsNameAll;
  }

  /** What any expansion leaves behind, and how far it goes. */
  lemma ExpansionIsSound(legs: Legs, raw0: seq<Grain>, hops: nat, budget: nat)
    ensures Outcome(legs, raw0, Expansion(legs, raw0, hops, budget), hops)
    ensures legs.Bounded() ==>
              |Expansion(legs, raw0, hops, budget).raw| <= Max(|raw0|, budget + 2 * MULTI_HOP_FANOUT - 1)
  {
    StartIsSound(legs, raw0);
    if hops > 0 { WalkedIsSound(legs, raw0, Start(raw0), 0, hops, budget); }
  }

  /** Short of the budget, a first pass whose seeds name everything it names misses nothing within reach. */
  lemma ExpansionIsComplete(legs: Legs, raw0: seq<Grain>, hops: nat, budget: nat)
    requires SeedsNameAll(raw0) && legs.ContentAddressed(raw0) && |Expansion(legs, raw0, hops, budget).raw| < budget
    ensures AllExpanded(legs, raw0, Expansion(legs, raw0, hops, budget).expanded, hops)
  {
    hide Start, Sound, Complete, Walked, SeedsNameAll, Legs.ContentAddressed;
    StartIsSound(legs, raw0);
    StartIsComplete(legs, raw0);
    if hops > 0 { WalkedIsComplete(legs, raw0, Start(raw0), Start(raw0).visited, 0, hops, budget); }
  }

  /** `WITH multi_hop(hops)` for a caller who asked for `k` results: the specified expansion. The pool is the first pass
      followed by what the expanded entities brought; no entity is expanded twice and each lies fewer than `hops` edges
      from the seeds. Short of the budget the walk misses nothing when the seeds name all the first pass names. */
  method ExpandHops(raw0: seq<Grain>, hops: nat, k: nat, legs: Legs)
    returns (raw: seq<Grain>, ghost expanded: seq<string>)
    ensures var after := ExpansionFor(legs, raw0, hops, k); raw == after.raw && expanded == after.expanded
    ensures raw == legs.Pool(raw0, expanded) && Distinct(expanded)
    ensures forall e | e in expanded :: ReachedBefore(legs, raw0, e, hops)
    ensures forall e | e in expanded :: e in Met(raw0, raw)
    ensures legs.Bounded() ==> |raw| <= Max(|raw0|, 4 * k + 15)
    ensures SeedsNameAll(raw0) && legs.ContentAddressed(raw0) && |raw| < 4 * k ==>
              AllExpanded(legs, raw0, expanded, hops)
  {
    hide AllExpanded, ReachedBefore, Legs.Reachable, Legs.Pool, Absorb, EntitiesOf, Unvisited, SeedsNameAll,
         Legs.ContentAddressed, Hashes, Names, Distinct, Met;
    var budget := k * RECALL_OVERFETCH;
    ghost var after := Expansion(legs, raw0, hops, budget);
    ExpansionIsSound(legs, raw0, hops, budget);
    if SeedsNameAll(raw0) && legs.ContentAddressed(raw0) && |after.raw| < budget {
      ExpansionIsComplete(legs, raw0, hops, budget);
    }
    hide Expansion, Outcome, Legs.Bounded;
    raw, expanded := raw0, [];
    var visited, frontier := SeedFrontier(raw0);
    StartOfExpansion(legs, raw0, hops, budget);
    var hop := 0;
    label Hops: while hop < hops
      invariant hop <= hops
      invariant hop < hops ==> after == Walked(legs, State(raw, visited, frontier, [], expanded), hops - hop, budget)
      invariant hop == hops ==> after.raw == raw && after.expanded == expanded
    {
      var next: seq<string> := [];
      for i := 0 to |frontier|
        invariant after == Walked(legs, State(raw, visited, frontier[i..], next, expanded), hops - hop, budget)
      {
        ghost var st := State(raw, visited, frontier[i..], next, expanded);
        assert st.waiting[0] == frontier[i] && st.waiting[1..] == frontier[i + 1..];
        if |raw| >= budget { break Hops; }
        var queued;
        ghost var added;
        raw, visited, queued, added := TakeLegs(raw, visited, legs.Of(frontier[i]));
        expanded := expanded + [frontier[i]];
        next := next + queued;
        assert Advance(legs, st) == State(raw, visited, frontier[i + 1..], next, expanded);
      }
      assert frontier[|frontier|..] == [];
      hop := hop + 1;
      frontier := next;
      if next == [] { break; }
    }
    OutcomeFacts(legs, raw0, after, hops);
  }

  lemma StartOfExpansion(legs: Legs, raw0: seq<Grain>, hops: nat, budget: nat)
    ensures Expansion(legs, raw0, hops, budget)
            == if hops == 0 then Start(raw0) else Walked(legs, Start(raw0), hops, budget)
  {
  }

  lemma OutcomeFacts(legs: Legs, raw0: seq<Grain>, st: State, hops: nat)
    requires Outcome(legs, raw0, st, hops)
    ensures st.raw == legs.Pool(raw0, st.expanded) && Distinct(st.expanded)
    ensures forall e | e in st.expanded :: ReachedBefore(legs, raw0, e, hops)
    ensures forall e | e in st.expanded :: e in Met(raw0, st.raw)
  {
  }

  // --- when the expansion misses nothing ---

  predicate IsAbout(g: Grain, e: string) {
    e != "" && (g.subject == Some(e) || g.obj == Some(e))
  }

  /** Some grain that either leg returns for the one entity names the other as its subject or object. */
  ghost predicate LeadsTo(legs: Legs, via: string, e: string) {
    exists g :: (g in legs.forward(via) || g in legs.reverse(via)) && IsAbout(g, e)
  }

  /** What can be reached: the entities the seeds name, and whatever those in reach lead to. */
  lemma EdgesAre(legs: Legs, seeds: seq<Grain>, e: string, steps: nat)
    ensures legs.Reachable(seeds, e, 0) <==> exists g :: g in seeds && IsAbout(g, e)
    ensures legs.Reachable(seeds, e, steps + 1)
            <==> exists via :: legs.Reachable(seeds, via, steps) && LeadsTo(legs, via, e)
  {
    EntityOfMember(seeds, e);
    forall g ensures e in Entities(g) <==> IsAbout(g, e) {
      NamedBy(g, e);
    }
    hide Entities, EntitiesOf, IsAbout;
    forall via ensures e in EntitiesOf(legs.Of(via)) <==> LeadsTo(legs, via, e) {
      EntityOfMember(legs.Of(via), e);
    }
    hide LeadsTo;
  }

  /** The walk starts from the entities that the first eight grains name. */
  lemma SeedsAreEight(raw0: seq<Grain>, e: string)
    ensures e in EntitiesOf(Seeds(raw0)) <==> exists i | 0 <= i < |raw0| && i < 8 :: IsAbout(raw0[i], e)
  {
    EntityOfMember(Seeds(raw0), e);
    forall g ensures e in Entities(g) <==> IsAbout(g, e) {
      NamedBy(g, e);
    }
    hide Entities, EntitiesOf, IsAbout;
  }

  /** What an expanded entity brings is appended as it comes, the forward leg first. */
  lemma ForwardLegFirst(legs: Legs, raw: seq<Grain>, e: string)
    requires DistinctHashes(raw + (legs.forward(e) + legs.reverse(e)))
    ensures legs.Pool(raw, [e]) == raw + legs.forward(e) + legs.reverse(e)
  {
    AllAbsorbed(raw, legs.forward(e) + legs.reverse(e));
    assert [e][..0] == [];
    assert legs.Pool(raw, [e]) == Absorb(raw, legs.Of(e));
  }

  lemma {:induction false} AllAbsorbed(pool: seq<Grain>, gs: seq<Grain>)
    requires DistinctHashes(pool + gs)
    ensures Absorb(pool, gs) == pool + gs
  {
    if gs != [] {
      var rest, g := gs[..|gs| - 1], gs[|gs| - 1];
      assert pool + gs == pool + rest + [g];
      assert forall i | 0 <= i < |pool + rest| :: (pool + gs)[i] == (pool + rest)[i];
      AllAbsorbed(pool, rest);
      var all, n := pool + gs, |pool + rest|;
      assert all[n] == g;
      assert forall i | 0 <= i < n :: all[i].hash != all[n].hash;
      assert g.hash !in Hashes(pool + rest);
    }
  }

  lemma NamedBy(g: Grain, e: string)
    ensures e in Entities(g) <==> IsAbout(g, e)
  {
    var es := Entities(g);
    if e != "" && g.subject == Some(e) { assert es[0] == e; }
    if e != "" && g.obj == Some(e) { assert es[|es| - 1] == e; }
  }

  lemma {:induction false} PoolStays(legs: Legs, raw0: seq<Grain>, expanded: seq<string>)
    requires forall e, g | g in legs.Of(e) :: g.hash in Hashes(raw0)
    ensures legs.Pool(raw0, expanded) == raw0
  {
    if expanded != [] {
      PoolStays(legs, raw0, expanded[..|expanded| - 1]);
      NothingAbsorbed(raw0, legs.Of(expanded[|expanded| - 1]));
    }
  }

  lemma {:induction false} NothingAbsorbed(pool: seq<Grain>, gs: seq<Grain>)
    requires forall g | g in gs :: g.hash in Hashes(pool)
    ensures Absorb(pool, gs) == pool
  {
    hide Hashes;
    if gs != [] {
      NothingAbsorbed(pool, gs[..|gs| - 1]);
    }
  }

  /** When the legs only bring back first-pass grains, nothing but the seeds' own entities is expanded: an entity that
      only a later first-pass grain names is missed however many hops are asked for. */
  lemma UnseededEntityIsMissed(legs: Legs, raw0: seq<Grain>, raw: seq<Grain>, expanded: seq<string>, hops: nat,
                               e: string, j: nat)
    requires raw == legs.Pool(raw0, expanded)
    requires forall f | f in expanded :: f in Met(raw0, raw)
    requires forall f, g | g in legs.Of(f) :: g.hash in Hashes(raw0)
    requires j < hops && legs.Reachable(Seeds(raw0), e, j) && e !in EntitiesOf(Seeds(raw0))
    ensures raw == raw0 && !AllExpanded(legs, raw0, expanded, hops)
  {
    PoolStays(legs, raw0, expanded);
    SeedsAreMet(raw0);
    hide Legs.Pool, Legs.Reachable, Hashes;
    assert e !in Met(raw0, raw);
  }

  /** On every bounded, content-addressed store, an expansion that stays short of the budget expands every entity fewer
      than `hops` edges from the seeds. */
  ghost predicate CompleteEverywhere(raw0: seq<Grain>, hops: nat) {
    forall legs: Legs, k: nat | legs.Bounded() && legs.ContentAddressed(raw0)
                                && |ExpansionFor(legs, raw0, hops, k).raw| < k * RECALL_OVERFETCH ::
      AllExpanded(legs, raw0, ExpansionFor(legs, raw0, hops, k).expanded, hops)
  }

  /** Equal addresses mean equal grains. */
  ghost predicate Addressed(raw0: seq<Grain>) {
    forall g, h | g in raw0 && h in raw0 && g.hash == h.hash :: g == h
  }

  lemma {:induction false} NoSeedsNoReach(legs: Legs, raw0: seq<Grain>, e: string, j: nat)
    requires EntitiesOf(Seeds(raw0)) == []
    ensures !legs.Reachable(Seeds(raw0), e, j)
    decreases j
  {
    hide EntitiesOf;
    if j > 0 && legs.Reachable(Seeds(raw0), e, j) {
      var via :| legs.Reachable(Seeds(raw0), via, j - 1) && e in EntitiesOf(legs.Of(via));
      NoSeedsNoReach(legs, raw0, via, j - 1);
    }
  }

  lemma {:induction false} LastHopExpandsAll(legs: Legs, st: State, budget: nat)
    ensures var after := Walked(legs, st, 1, budget);
            |after.raw| < budget ==> Names(after.expanded) == Names(st.expanded) + Names(st.waiting)
    decreases |st.waiting|
  {
    if st.waiting != [] && |st.raw| < budget {
      LastHopExpandsAll(legs, Advance(legs, st), budget);
      assert st.waiting == [st.waiting[0]] + st.waiting[1..];
      assert Names(Advance(legs, st).expanded) == Names(st.expanded) + {st.waiting[0]};
    }
  }

  /** One hop only has the seeds' own entities to expand. */
  lemma OneHopIsComplete(legs: Legs, raw0: seq<Grain>, budget: nat)
    requires |Expansion(legs, raw0, 1, budget).raw| < budget
    ensures AllExpanded(legs, raw0, Expansion(legs, raw0, 1, budget).expanded, 1)
  {
    hide EntitiesOf, Unvisited, Walked;
    var es, after := EntitiesOf(Seeds(raw0)), Expansion(legs, raw0, 1, budget);
    UnvisitedIsNew({}, es);
    LastHopExpandsAll(legs, Start(raw0), budget);
    NoNames();
    assert Names(after.expanded) == Names(es);
    forall e | e in es ensures e in after.expanded {
      assert e in Names(es);
    }
  }

  /** A store that answers one entity with one grain and everything else with nothing. */
  function OnlyAnswer(s: string, g: Grain): Legs {
    Legs((e: string) => if e == s then [g] else [], (e: string) => [])
  }

  lemma OnlyAnswerIsAStore(s: string, g: Grain, raw0: seq<Grain>)
    requires g in raw0 && Addressed(raw0)
    ensures OnlyAnswer(s, g).Bounded() && OnlyAnswer(s, g).ContentAddressed(raw0)
    ensures forall e, h | h in OnlyAnswer(s, g).Of(e) :: h.hash in Hashes(raw0)
  {
    forall e ensures OnlyAnswer(s, g).Of(e) == if e == s then [g] else [] {
    }
  }

  /** When a first-pass grain names an entity that no seed names and some seed names an entity at all, this store makes
      every expansion of two or more hops miss it. */
  lemma UnseededIsMissed(raw0: seq<Grain>, hops: nat, s: string, g: Grain, e: string, budget: nat)
    requires Addressed(raw0) && hops > 1 && s in EntitiesOf(Seeds(raw0))
    requires g in raw0 && e in Entities(g) && e !in EntitiesOf(Seeds(raw0))
    ensures var legs := OnlyAnswer(s, g);
            && legs.Bounded() && legs.ContentAddressed(raw0) && legs.Reachable(Seeds(raw0), e, 1)
            && Expansion(legs, raw0, hops, budget).raw == raw0
            && !AllExpanded(legs, raw0, Expansion(legs, raw0, hops, budget).expanded, hops)
  {
    var legs := OnlyAnswer(s, g);
    OnlyAnswerIsAStore(s, g, raw0);
    assert legs.Of(s) == [g];
    EntityOfMember([g], e);
    assert g in [g];
    assert legs.Reachable(Seeds(raw0), s, 0);
    assert legs.Reachable(Seeds(raw0), e, 1);
    ExpansionIsSound(legs, raw0, hops, budget);
    var after := Expansion(legs, raw0, hops, budget);
    OutcomeFacts(legs, raw0, after, hops);
    hide Legs.Pool, Legs.Reachable, Legs.Of, OnlyAnswer, Expansion, Met, AllExpanded, Outcome, EntitiesOf, Entities;
    UnseededEntityIsMissed(legs, raw0, after.raw, after.expanded, hops, e, 1);
  }

  /** The expansion misses nothing on any store exactly when it makes one hop at most, has no entity to start from, or
      its seeds name every entity the first pass names. */
  lemma CompleteIffSeedsNameAll(raw0: seq<Grain>, hops: nat)
    requires Addressed(raw0)
    ensures CompleteEverywhere(raw0, hops) <==> hops < 2 || EntitiesOf(Seeds(raw0)) == [] || SeedsNameAll(raw0)
  {
    hide Expansion, EntitiesOf, Legs.ContentAddressed, Legs.Bounded, Legs.Reachable, Addressed;
    if hops < 2 || EntitiesOf(Seeds(raw0)) == [] || SeedsNameAll(raw0) {
      forall legs: Legs, k: nat
        | legs.ContentAddressed(raw0) && |ExpansionFor(legs, raw0, hops, k).raw| < k * RECALL_OVERFETCH
        ensures AllExpanded(legs, raw0, ExpansionFor(legs, raw0, hops, k).expanded, hops)
      {
        var budget := k * RECALL_OVERFETCH;
        if SeedsNameAll(raw0) {
          ExpansionIsComplete(legs, raw0, hops, budget);
        } else if hops == 1 {
          OneHopIsComplete(legs, raw0, budget);
        } else if hops > 1 {
          forall e, j: nat ensures !legs.Reachable(Seeds(raw0), e, j) { NoSeedsNoReach(legs, raw0, e, j); }
        }
      }
    } else {
      var e :| e in Names(EntitiesOf(raw0)) && e !in Names(EntitiesOf(Seeds(raw0)));
      EntityOfMember(raw0, e);
      var g :| g in raw0 && e in Entities(g);
      var s := EntitiesOf(Seeds(raw0))[0];
      var k := |raw0| + 1;
      UnseededIsMissed(raw0, hops, s, g, e, k * RECALL_OVERFETCH);
      assert |ExpansionFor(OnlyAnswer(s, g), raw0, hops, k).raw| < k * RECALL_OVERFETCH;
    }
  }

  // --- one grain too many ---

  function NineRows(): seq<Grain> {
    seq(9, i requires 0 <= i < 9 => Grain(i, Some("e"), None, if i == 8 then Some("x") else None, None))
  }

  function NinthAgain(): Legs {
    Legs((e: string) => if e == "e" then [NineRows()[8]] else [], (e: string) => [])
  }

  /** The input that shows the seed limit: nine first-pass grains about `e`, the ninth also naming `x`. The legs of `e`
      return the ninth, so `x` is one edge away, addresses identify grains, and no expansion reaches `x`. */
  lemma NinthGrainIsMissed(hops: nat, budget: nat)
    requires hops > 1
    ensures var legs, after := NinthAgain(), Expansion(NinthAgain(), NineRows(), hops, budget);
            && legs.Bounded() && legs.ContentAddressed(NineRows()) && legs.Reachable(Seeds(NineRows()), "x", 1)
            && after.raw == NineRows() && !AllExpanded(legs, NineRows(), after.expanded, hops)
  {
    SeedsNameOnly();
    NinthIsReachable();
    NinthIsAddressed();
    var legs, rows := NinthAgain(), NineRows();
    ExpansionIsSound(legs, rows, hops, budget);
    var after := Expansion(legs, rows, hops, budget);
    OutcomeFacts(legs, rows, after, hops);
    hide NinthAgain, NineRows, Met, AllExpanded, Legs.Reachable, Legs.Pool, Legs.Of, Legs.ContentAddressed,
         Legs.Bounded, Hashes, EntitiesOf, Expansion, Outcome;
    UnseededEntityIsMissed(legs, rows, after.raw, after.expanded, hops, "x", 1);
  }

  lemma NinthIsAddressed()
    ensures NinthAgain().Bounded() && NinthAgain().ContentAddressed(NineRows())
    ensures forall e, g | g in NinthAgain().Of(e) :: g.hash in Hashes(NineRows())
  {
    var rows := NineRows();
    assert rows[8] in rows;
    forall g | g in rows ensures 0 <= g.hash < 9 && g == rows[g.hash] {
      var i :| 0 <= i < 9 && rows[i] == g;
    }
    forall e, g | g in NinthAgain().Of(e) ensures g == rows[8] {
      assert NinthAgain().Of(e) == if e == "e" then [rows[8]] else [];
    }
    hide NinthAgain, NineRows, Legs.Of;
  }

  lemma SeedsNameOnly()
    ensures "e" in EntitiesOf(Seeds(NineRows())) && "x" !in EntitiesOf(Seeds(NineRows()))
  {
    var seeds := Seeds(NineRows());
    EntityOfMember(seeds, "e");
    EntityOfMember(seeds, "x");
    assert seeds[0] in seeds && "e" in Entities(seeds[0]) by { assert Entities(seeds[0])[0] == "e"; }
    forall g | g in seeds ensures "x" !in Entities(g) {
      assert Entities(g) == ["e"];
    }
  }

  lemma NinthIsReachable()
    ensures NinthAgain().Reachable(Seeds(NineRows()), "x", 1)
  {
    SeedsNameOnly();
    var legs, ninth := NinthAgain(), NineRows()[8];
    assert legs.Of("e") == [ninth];
    EntityOfMember([ninth], "x");
    assert ninth in [ninth] && Entities(ninth)[1] == "x";
    assert legs.Reachable(Seeds(NineRows()), "e", 0);
  }

  lemma NoNames()
    ensures Names([]) == {}
  {
  }

  lemma ReachedEarlier(legs: Legs, raw0: seq<Grain>, expanded: seq<string>, m: nat, n: nat)
    requires m <= n && forall e | e in expanded :: ReachedBefore(legs, raw0, e, m)
    ensures forall e | e in expanded :: ReachedBefore(legs, raw0, e, n)
  {
    forall e | e in expanded ensures ReachedBefore(legs, raw0, e, n) {
      assert ReachedBefore(legs, raw0, e, m);
    }
  }

  lemma CoveredIsExpanded(legs: Legs, raw0: seq<Grain>, met: set<string>, expanded: seq<string>, level: nat)
    requires Covered(legs, raw0, met, level) && met <= Names(expanded)
    ensures AllExpanded(legs, raw0, expanded, level + 1)
  {
  }

  lemma NoEntities()
    ensures EntitiesOf([]) == [] && Unvisited({}, []) == [] && Names([]) == {}
  {
  }

  lemma NextSeed(seeds: seq<Grain>, i: nat)
    requires i < |seeds|
    ensures var before, after := EntitiesOf(seeds[..i]), EntitiesOf(seeds[..i + 1]);
            && Names(after) == Names(before) + Names(Entities(seeds[i]))
            && Unvisited({}, after) == Unvisited({}, before) + Unvisited(Names(before), Entities(seeds[i]))
  {
    hide EntitiesOf, Entities, Unvisited, Names;
    NewGrain({}, seeds[..i], seeds[i]);
    assert seeds[..i + 1] == seeds[..i] + [seeds[i]];
    assert {} + Names(EntitiesOf(seeds[..i])) == Names(EntitiesOf(seeds[..i]));
  }

  method SeedFrontier(raw: seq<Grain>) returns (visited: set<string>, frontier: seq<string>)
    ensures visited == Names(EntitiesOf(Seeds(raw))) && frontier == Unvisited({}, EntitiesOf(Seeds(raw)))
  {
    hide EntitiesOf, Entities, Unvisited, Seeds, Names;
    visited, frontier := {}, [];
    var seeds := Seeds(raw);
    NoEntities();
    assert seeds[..0] == [];
    for i := 0 to |seeds|
      invariant visited == Names(EntitiesOf(seeds[..i])) && frontier == Unvisited({}, EntitiesOf(seeds[..i]))
    {
      NextSeed(seeds, i);
      visited, frontier := PushEntities(seeds[i], visited, frontier);
    }
    assert seeds[..|seeds|] == seeds;
  }

  // --- WITH conflict_resolution ---

  type Key = (string, string)

  function KeyOf(g: Grain): Option<Key> {
    if g.subject.Some? && g.relation.Some? then Some((g.subject.value, g.relation.value)) else None
  }

  function Created(g: Grain): int {
    g.createdAt.GetOr(0)
  }

  /** Newer, or equally new with the larger address. */
  predicate Newer(a: (int, Hash), b: (int, Hash)) {
    a.0 > b.0 || (a.0 == b.0 && a.1 > b.1)
  }

  function Rank(g: Grain): (int, Hash) {
    (Created(g), g.hash)
  }

  /** `g` is the newest grain of its key among the hits. */
  ghost predicate IsNewest(hits: seq<Grain>, g: Grain) {
    g in hits && forall h | h in hits && KeyOf(h) == KeyOf(g) :: !Newer(Rank(h), Rank(g))
  }

  /** A hit stays when it has no key or carries the address of its key's newest hit. */
  ghost predicate Stays(hits: seq<Grain>, g: Grain) {
    KeyOf(g).Some? ==> exists h :: IsNewest(hits, h) && KeyOf(h) == KeyOf(g) && h.hash == g.hash
  }

  ghost function Resolved(hits: seq<Grain>, part: seq<Grain>): seq<Grain> {
    if part == [] then []
    else Resolved(hits, part[..|part| - 1]) + if Stays(hits, part[|part| - 1]) then [part[|part| - 1]] else []
  }

  /** The table the first pass builds: per key, the rank of its newest hit. */
  ghost predicate NewestTable(newest: map<Key, (int, Hash)>, hits: seq<Grain>) {
    && (forall g | g in hits && KeyOf(g).Some? :: KeyOf(g).value in newest)
    && (forall k | k in newest :: exists g :: IsNewest(hits, g) && KeyOf(g) == Some(k) && newest[k] == Rank(g))
  }

  lemma NextHit(newest: map<Key, (int, Hash)>, hits: seq<Grain>, g: Grain)
    requires NewestTable(newest, hits)
    ensures KeyOf(g).None? ==> NewestTable(newest, hits + [g])
    ensures KeyOf(g).Some? ==>
              var k := KeyOf(g).value;
              NewestTable(if k !in newest || Newer(Rank(g), newest[k]) then newest[k := Rank(g)] else newest,
                          hits + [g])
  {
    var after := hits + [g];
    var table := if KeyOf(g).Some? && (KeyOf(g).value !in newest || Newer(Rank(g), newest[KeyOf(g).value]))
                 then newest[KeyOf(g).value := Rank(g)] else newest;
    forall k | k in table ensures exists h :: IsNewest(after, h) && KeyOf(h) == Some(k) && table[k] == Rank(h) {
      if KeyOf(g) == Some(k) && table[k] == Rank(g) {
        if k in newest {
          var h :| IsNewest(hits, h) && KeyOf(h) == Some(k) && newest[k] == Rank(h);
        }
        assert IsNewest(after, g);
      } else {
        var h :| IsNewest(hits, h) && KeyOf(h) == Some(k) && newest[k] == Rank(h);
        assert IsNewest(after, h);
      }
    }
  }

  lemma TableDecides(newest: map<Key, (int, Hash)>, hits: seq<Grain>, g: Grain)
    requires NewestTable(newest, hits) && g in hits && KeyOf(g).Some?
    ensures Stays(hits, g) <==> newest[KeyOf(g).value].1 == g.hash
  {
    var k := KeyOf(g).value;
    var h :| IsNewest(hits, h) && KeyOf(h) == Some(k) && newest[k] == Rank(h);
    if Stays(hits, g) {
      var n :| IsNewest(hits, n) && KeyOf(n) == KeyOf(g) && n.hash == g.hash;
      assert !Newer(Rank(n), Rank(h)) && !Newer(Rank(h), Rank(n));
    }
  }

  method ResolveConflicts(hits: seq<Grain>) returns (kept: seq<Grain>)
    ensures kept == Resolved(hits, hits)
  {
    var newest: map<Key, (int, Hash)> := map[];
    for i := 0 to |hits|
      invariant NewestTable(newest, hits[..i])
    {
      var h := hits[i];
      NextHit(newest, hits[..i], h);
      assert hits[..i + 1] == hits[..i] + [h];
      if KeyOf(h).Some? {
        var key := KeyOf(h).value;
        var better := if key in newest then Newer(Rank(h), newest[key]) else true;
        if better {
          newest := newest[key := Rank(h)];
        }
      }
    }
    assert hits[..|hits|] == hits;
    kept := [];
    for i := 0 to |hits|
      invariant kept == Resolved(hits, hits[..i])
    {
      var h := hits[i];
      assert hits[..i + 1][..i] == hits[..i];
      if KeyOf(h).Some? { TableDecides(newest, hits, h); }
      if KeyOf(h).None? || KeyOf(h).value !in newest || newest[KeyOf(h).value].1 == h.hash {
        kept := kept + [h];
      }
    }
  }

  // --- what the filter promises ---

  lemma {:induction false} ResolvedMembers(hits: seq<Grain>, part: seq<Grain>, g: Grain)
    ensures g in Resolved(hits, part) <==> g in part && Stays(hits, g)
  {
    if part != [] {
      ResolvedMembers(hits, part[..|part| - 1], g);
      assert part == part[..|part| - 1] + [part[|part| - 1]];
    }
  }

  /** Some hit of every key is its newest. */
  lemma {:induction false} NewestExists(hits: seq<Grain>, g: Grain) returns (n: Grain)
    requires g in hits
    ensures IsNewest(hits, n) && KeyOf(n) == KeyOf(g)
    decreases |hits|
  {
    var rest, last := hits[..|hits| - 1], hits[|hits| - 1];
    assert hits == rest + [last];
    if exists h :: h in rest && KeyOf(h) == KeyOf(g) {
      var h :| h in rest && KeyOf(h) == KeyOf(g);
      var m := NewestExists(rest, h);
      n := if KeyOf(last) == KeyOf(g) && Newer(Rank(last), Rank(m)) then last else m;
    } else {
      n := last;
    }
  }

  lemma DistinctHashesDetermine(hits: seq<Grain>, a: Grain, b: Grain)
    requires DistinctHashes(hits) && a in hits && b in hits && a.hash == b.hash
    ensures a == b
  {
  }

  /** Over hits with distinct addresses exactly the newest of each key stays, and every hit without a key. */
  lemma OneHitPerKey(hits: seq<Grain>, g: Grain)
    requires DistinctHashes(hits) && g in hits
    ensures g in Resolved(hits, hits) <==> KeyOf(g).None? || IsNewest(hits, g)
    ensures KeyOf(g).Some? ==> exists n :: n in Resolved(hits, hits) && KeyOf(n) == KeyOf(g)
    ensures forall a, b | a in Resolved(hits, hits) && b in Resolved(hits, hits) && KeyOf(a).Some?
            && KeyOf(a) == KeyOf(b)
              :: a == b
  {
    ResolvedMembers(hits, hits, g);
    if Stays(hits, g) && KeyOf(g).Some? {
      var n :| IsNewest(hits, n) && KeyOf(n) == KeyOf(g) && n.hash == g.hash;
      DistinctHashesDetermine(hits, n, g);
    }
    var n := NewestExists(hits, g);
    ResolvedMembers(hits, hits, n);
    forall a, b | a in Resolved(hits, hits) && b in Resolved(hits, hits) && KeyOf(a).Some? && KeyOf(a) == KeyOf(b)
      ensures a == b
    {
      ResolvedMembers(hits, hits, a);
      ResolvedMembers(hits, hits, b);
      var m :| IsNewest(hits, m) && KeyOf(m) == KeyOf(a) && m.hash == a.hash;
      var k :| IsNewest(hits, k) && KeyOf(k) == KeyOf(b) && k.hash == b.hash;
      assert !Newer(Rank(m), Rank(k)) && !Newer(Rank(k), Rank(m));
      DistinctHashesDetermine(hits, m, a);
      DistinctHashesDetermine(hits, k, b);
    }
  }

  lemma {:induction false} NothingToResolve(hits: seq<Grain>, part: seq<Grain>)
    requires forall g | g in part :: Stays(hits, g)
    ensures Resolved(hits, part) == part
  {
    if part != [] {
      var rest, last := part[..|part| - 1], part[|part| - 1];
      assert part == rest + [last];
      NothingToResolve(hits, rest);
    }
  }

  /** Resolving twice is resolving once. */
  lemma ResolvingIsIdempotent(hits: seq<Grain>)
    ensures var kept := Resolved(hits, hits); Resolved(kept, kept) == kept
  {
    var kept := Resolved(hits, hits);
    forall g | g in kept ensures Stays(kept, g) {
      ResolvedMembers(hits, hits, g);
      if KeyOf(g).Some? {
        var n :| IsNewest(hits, n) && KeyOf(n) == KeyOf(g) && n.hash == g.hash;
        ResolvedMembers(hits, hits, n);
        forall h | h in kept && KeyOf(h) == KeyOf(n) ensures !Newer(Rank(h), Rank(n)) {
          ResolvedMembers(hits, hits, h);
        }
        assert IsNewest(kept, n);
      }
    }
    NothingToResolve(kept, kept);
  }

  /** The newest hit of a key, spelled out: over hits with distinct addresses a hit with a subject and a relation stays
      exactly when no other hit of the two was created later, or at the same time under a larger address. */
  lemma NewestHitStays(hits: seq<Grain>, g: Grain)
    requires DistinctHashes(hits) && g in hits
    ensures g in Resolved(hits, hits)
            <==> g.subject.None? || g.relation.None?
                 || forall h | h in hits && h.subject == g.subject && h.relation == g.relation && h != g ::
                      h.createdAt.GetOr(0) < g.createdAt.GetOr(0)
                      || (h.createdAt.GetOr(0) == g.createdAt.GetOr(0) && h.hash < g.hash)
  {
    OneHitPerKey(hits, g);
    hide Resolved;
    if g.subject.Some? && g.relation.Some? {
      assert IsNewest(hits, g) <==> forall h | h in hits && KeyOf(h) == KeyOf(g) :: !Newer(Rank(h), Rank(g));
      forall h | h in hits ensures KeyOf(h) == KeyOf(g) <==> h.subject == g.subject && h.relation == g.relation {
      }
      forall h | h in hits && h.hash == g.hash ensures h == g { DistinctHashesDetermine(hits, h, g); }
    }
  }
}
