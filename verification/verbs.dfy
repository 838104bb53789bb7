/** What the verbs of a batch do: how the executor tells them apart whatever their case, which of them the destructive
    check flags, and what each leaves of the store. */
module Verbs {
  import opened Basics
  import opened LoopModel
  import opened Text
  import opened CalText
  import opened GrainStore

  // --- telling verbs apart ---

  /** The same letters as an upper-case word, in any mix of cases. */
  predicate Spells(w: string, verb: string) {
    |w| == |verb|
    && forall i | 0 <= i < |w| :: w[i] == verb[i] || ('A' <= verb[i] <= 'Z' && w[i] as int == verb[i] as int + 32)
  }

  predicate PlainVerb(verb: string) {
    verb != "" && forall i | 0 <= i < |verb| :: 'A' <= verb[i] <= 'Z'
  }

  lemma UpperSpells(w: string, verb: string)
    requires PlainVerb(verb)
    ensures Upper(w) == verb <==> Spells(w, verb)
  {
    if Spells(w, verb) {
      forall i | 0 <= i < |w| ensures Upper(w)[i] == verb[i] {
      }
    }
    if Upper(w) == verb {
      forall i | 0 <= i < |w| ensures w[i] == verb[i] || w[i] as int == verb[i] as int + 32 {
        assert UpperChar(w[i]) == verb[i];
      }
    }
  }

  predicate IsRead(word: string) {
    Spells(word, "RECALL") || Spells(word, "ASSEMBLE") || Spells(word, "EXPLAIN") || Spells(word, "HISTORY")
  }

  /** The word a line starts with, up to the first whitespace, decides what the executor makes of it. */
  lemma FirstWordDecides(js: Codec, word: string, rest: string)
    requires word != "" && NoWs(word) && (rest == "" || IsWs(rest[0]))
    ensures var stmt := ParseStatement(js, word + rest);
            && (stmt.Forget? <==> Spells(word, "FORGET"))
            && (stmt.Retract? <==> Spells(word, "RETRACT"))
            && (stmt.Add? ==> Spells(word, "ADD"))
            && (stmt.Supersede? ==> Spells(word, "SUPERSEDE"))
            && (stmt.Read? <==> IsRead(word))
            && (stmt.Forget? ==> stmt.hash == Trim(if rest == "" then "" else rest[1..]))
            && (stmt.Retract? ==> stmt.hash == Trim(if rest == "" then "" else rest[1..]))
  {
    WordSplits(word, rest);
    var tail := SplitKeyword(word + rest).1;
    KeywordDecides(js, word + rest, word, tail);
    VerbsArePlain();
    hide Upper, Spells, PlainVerb, ParseStatement, Trim, IsWs, NoWs, SplitKeyword;
    UpperSpells(word, "FORGET");
    UpperSpells(word, "RETRACT");
    UpperSpells(word, "ADD");
    UpperSpells(word, "SUPERSEDE");
    UpperSpells(word, "RECALL");
    UpperSpells(word, "ASSEMBLE");
    UpperSpells(word, "EXPLAIN");
    UpperSpells(word, "HISTORY");
  }

  lemma VerbsArePlain()
    ensures PlainVerb("FORGET") && PlainVerb("RETRACT") && PlainVerb("ADD") && PlainVerb("SUPERSEDE")
    ensures PlainVerb("RECALL") && PlainVerb("ASSEMBLE") && PlainVerb("EXPLAIN") && PlainVerb("HISTORY")
  {
  }

  lemma WordSplits(word: string, rest: string)
    requires word != "" && NoWs(word) && (rest == "" || IsWs(rest[0]))
    ensures SplitKeyword(word + rest).0 == word
    ensures Trim(SplitKeyword(word + rest).1) == Trim(if rest == "" then "" else rest[1..])
  {
    var line := word + rest;
    FirstWsIs(word, rest);
    hide IsWs, NoWs, FirstWs, Trim, TrimStart;
    assert line[..|word|] == word;
    if rest != "" {
      assert line[|word| + 1..] == rest[1..];
      TrimOfTrimStart(rest[1..]);
    }
  }

  lemma KeywordDecides(js: Codec, line: string, word: string, tail: string)
    requires SplitKeyword(line) == (word, tail)
    ensures var stmt, verb := ParseStatement(js, line), Upper(word);
            && (stmt.Forget? <==> verb == "FORGET") && (stmt.Retract? <==> verb == "RETRACT")
            && (stmt.Add? ==> verb == "ADD") && (stmt.Supersede? ==> verb == "SUPERSEDE")
            && (stmt.Read? <==> verb == "RECALL" || verb == "ASSEMBLE" || verb == "EXPLAIN" || verb == "HISTORY")
            && (stmt.Forget? || stmt.Retract? ==> stmt.hash == Trim(tail))
  {
    hide Upper, ParseTypeAndJson, Trim, SplitKeyword;
    ReplacesOrNot(js, tail);
    hide ParseSupersede;
  }

  lemma ReplacesOrNot(js: Codec, tail: string)
    ensures ParseSupersede(js, tail).Supersede? || ParseSupersede(js, tail) == Unsupported
  {
    hide ParseTypeAndJson, Trim, SplitOnce;
  }

  lemma TrimOfTrimStart(s: string)
    ensures Trim(TrimStart(s)) == Trim(s)
  {
    var a := TrimStartSplits(s);
    TrimIgnoresLeading(a, TrimStart(s));
  }

  /** An ASCII letter or digit, or an underscore. */
  predicate InWords(c: char) {
    0x30 <= c as int <= 0x39 || 0x41 <= c as int <= 0x5A || c as int == 0x5F || 0x61 <= c as int <= 0x7A
  }

  /** The destructive check flags a line exactly when the word behind its leading whitespace is FORGET or PURGE. */
  lemma FlaggedIff(blank: string, word: string, rest: string)
    requires AllWs(blank) && word != "" && (forall i | 0 <= i < |word| :: InWords(word[i]))
    requires rest == "" || !InWords(rest[0])
    ensures DestructiveLine(blank + word + rest) <==> Spells(word, "FORGET") || Spells(word, "PURGE")
  {
    assert InWords(word[0]) && !IsWs(word[0]);
    forall c ensures WordChar(c) <==> InWords(c) {
    }
    hide InWords;
    assert blank + word + rest == blank + (word + rest);
    TrimStartDrops(blank, word + rest);
    LeadingWordIs(word, rest);
    UpperSpells(word, "FORGET");
    UpperSpells(word, "PURGE");
    hide Upper, Spells, IsWs;
  }

  // --- what a statement leaves ---

  /** Everything about a grain but its liveness. */
  predicate OnlyMarked(g: GrainRecord, later: GrainRecord) {
    later == g.(supersededBy := later.supersededBy)
  }

  /** A FORGET never fails, creates nothing and ends the liveness of its grain, if there is one; no other grain, and
      nothing else of that one, changes. */
  lemma ForgetEndsLiveness(x: Exec, h: Hash)
    ensures var y := ExecStmt(x, Forget(h));
            && y.failed == x.failed && y.created == x.created && y.store.nextId == x.store.nextId
            && y.store.grains.Keys == x.store.grains.Keys
            && (forall g | g in x.store.grains ::
                  && OnlyMarked(x.store.grains[g], y.store.grains[g])
                  && (g != h ==> y.store.grains[g] == x.store.grains[g]))
            && (h in x.store.grains ==> !Live(y.store.grains[h]))
  {
  }

  /** A RETRACT of a stored grain ends its liveness and notes that it was retracted and why; of any other address it
      stops the batch. Nothing else changes. */
  lemma RetractNotesWhy(x: Exec, h: Hash)
    ensures var y := ExecStmt(x, Retract(h));
            && y.created == x.created && y.store.grains.Keys == x.store.grains.Keys
            && (forall g | g in x.store.grains && g != h :: y.store.grains[g] == x.store.grains[g])
            && (h !in x.store.grains ==> y == x.(failed := Some(SubstrateFault)))
            && (h in x.store.grains ==>
                  && y.failed.None? && !Live(y.store.grains[h])
                  && y.store.grains[h].fields.entries
                     == x.store.grains[h].fields.entries["verification_status" := Str("retracted")]
                          ["retract_reason" := Str("cal retract")])
  {
  }

  /** A read changes nothing, an unreadable line only stops the batch. */
  lemma OthersChangeNothing(x: Exec)
    ensures ExecStmt(x, Read) == x
    ensures ExecStmt(x, Unsupported).store == x.store && ExecStmt(x, Unsupported).failed == Some(CalUnsupported)
  {
  }

  /** An ADD or the replacement of a SUPERSEDE is stored live under the next address, with the type and fields it
      spells, in the namespace and with the expiry its fields name. */
  lemma NewGrainIs(x: Exec, stmt: Stmt)
    requires Wf(x.store) && (stmt.Add? || (stmt.Supersede? && stmt.target != Mint(x.store.nextId)))
    ensures var y, h := ExecStmt(x, stmt), Mint(x.store.nextId);
            && h in y.store.grains
            && var g := y.store.grains[h];
               && g.hash == h && g.grainType == stmt.grainType && g.fields == stmt.fields && Live(g)
               && g.namespace == (if "namespace" in stmt.fields.entries && stmt.fields.entries["namespace"].Str?
                                  then stmt.fields.entries["namespace"].s else "")
               && g.validTo == (if "valid_to_ms" in stmt.fields.entries && stmt.fields.entries["valid_to_ms"].Int?
                                then Some(stmt.fields.entries["valid_to_ms"].i) else None)
               && g.createdAt == x.store.clock + 1 && y.store.clock == x.store.clock + 1
  {
    hide Mint;
  }

  /** A SUPERSEDE of a stored grain marks that grain with the address of its replacement. */
  lemma SupersedeMarksTarget(x: Exec, stmt: Stmt)
    requires Wf(x.store) && stmt.Supersede? && stmt.target in x.store.grains
    ensures var y := ExecStmt(x, stmt);
            && y.failed.None? && y.created == x.created + [Mint(x.store.nextId)]
            && stmt.target in y.store.grains
            && y.store.grains[stmt.target] == x.store.grains[stmt.target].(supersededBy := Some(Mint(x.store.nextId)))
            && forall g | g in x.store.grains && g != stmt.target ::
                 g in y.store.grains && y.store.grains[g] == x.store.grains[g]
  {
    PutKeeps(x.store, GrainSpec(stmt.grainType, "", stmt.fields));
    hide Mint, RecordFor;
  }

  /** Addresses are `ref-` and the decimal count, in at least eight digits. */
  lemma MintReads(n: nat)
    ensures var h := Mint(n); |h| >= 12 && h[..4] == "ref-" && Numeral(h[4..]) == n && (n < 100_000_000 ==> |h| == 12)
  {
    assert Mint(n)[4..] == ZeroPad(8, Digits(n));
    NumeralIgnoresPadding(8, Digits(n));
    NumeralOfDigits(n);
    if n < 100_000_000 { DigitCount(n, 8); }
  }

  function PowerOfTen(k: nat): nat {
    if k == 0 then 1 else 10 * PowerOfTen(k - 1)
  }

  lemma {:induction false} DigitCount(n: nat, k: nat)
    requires 0 < k && n < PowerOfTen(k)
    ensures |Digits(n)| <= k
  {
    if n >= 10 {
      assert k > 1;
      DigitCount(n / 10, k - 1);
    }
  }

  // --- normalized texts ---

  /** Whitespace is the twenty-five code points of the Unicode White_Space property. */
  lemma WhitespaceIs(c: char)
    ensures IsWs(c) <==> c as int in {0x09, 0x0A, 0x0B, 0x0C, 0x0D, 0x20, 0x85, 0xA0, 0x1680, 0x2000, 0x2001, 0x2002,
                                      0x2003, 0x2004, 0x2005, 0x2006, 0x2007, 0x2008, 0x2009, 0x200A, 0x2028, 0x2029,
                                      0x202F, 0x205F, 0x3000}
  {
  }

  /** Two texts normalize alike exactly when, without outer whitespace, they have the same letters up to case. */
  lemma NormalizeIgnores(s: string, t: string)
    ensures Normalize(s) == Normalize(t)
            <==> |Trim(s)| == |Trim(t)|
                 && forall i | 0 <= i < |Trim(s)| :: SameLetter(Trim(s)[i], Trim(t)[i])
  {
    var a, b := Trim(s), Trim(t);
    hide Trim;
    if Normalize(s) == Normalize(t) {
      assert |Lower(a)| == |Lower(b)|;
      forall i | 0 <= i < |a| ensures SameLetter(a[i], b[i]) {
        assert Lower(a)[i] == Lower(b)[i];
      }
    }
  }

  predicate SameLetter(c: char, d: char) {
    || c == d
    || ('A' <= c <= 'Z' && d as int == c as int + 32)
    || ('A' <= d <= 'Z' && c as int == d as int + 32)
  }

  // --- lines ---

  /** A line ends at its first line feed, and a carriage return in front of that belongs to the line end. */
  lemma FirstLine(line: string, rest: string)
    requires '\n' !in line && '\r' !in line
    ensures Lines(line + "\n" + rest) == [line] + Lines(rest)
    ensures Lines(line + "\r\n" + rest) == [line] + Lines(rest)
    ensures Lines(line) == if line == "" then [] else [line]
  {
    var plain, ended := line + "\n" + rest, line + "\r\n" + rest;
    assert plain == line + ['\n'] + rest && ended == (line + "\r") + ['\n'] + rest;
    FindChar(line, '\n', rest);
    FindChar(line + "\r", '\n', rest);
    assert plain[..|line|] == line && plain[|line| + 1..] == rest;
    assert ended[..|line| + 1] == line + "\r" && ended[|line| + 2..] == rest;
    assert (line + "\r")[..|line|] == line;
    FindSpec(line, "\n");
    NoNewline(line);
    hide Find;
  }

  // --- what stored records say ---

  /** The stored fields of an audit record name everything it says. */
  lemma AuditFieldsSay(a: AuditRecord)
    ensures var f := AuditEntries(a);
            && f["rec_hash"] == Str(a.recHash) && f["actor"] == Str(a.actor) && f["because"] == Str(a.because)
            && f["at_ms"] == Int(a.at) && f["observation_kind"] == Str("loop_audit")
            && f["derived_from"] == List([Str(a.recHash)] + if a.previous.Some? then [Str(a.previous.value)] else [])
            && ("from_status" in f <==> a.from.Some?)
  {
  }

  /** Two audit records with the same stored fields are the same record. */
  lemma AuditFieldsTellApart(a: AuditRecord, b: AuditRecord)
    requires AuditEntries(a) == AuditEntries(b)
    ensures a == b
  {
    AuditFieldsSay(a);
    AuditFieldsSay(b);
    var f := AuditEntries(a);
    assert f["to_status"] == Str(StatusName(a.to)) == Str(StatusName(b.to));
    assert f["observer_type"] == Str(ObserverName(a.observer)) == Str(ObserverName(b.observer));
    assert a.from.Some? ==> f["from_status"] == Str(StatusName(a.from.value));
    assert b.from.Some? ==> f["from_status"] == Str(StatusName(b.from.value));
    var da, db := f["derived_from"].items, AuditEntries(b)["derived_from"].items;
    assert |da| == |db| && (|da| == 2 ==> da[1] == db[1]);
    StatusNamesDiffer(a.to, b.to);
    if a.from.Some? { StatusNamesDiffer(a.from.value, b.from.value); }
  }

  lemma StatusNamesDiffer(a: Status, b: Status)
    ensures StatusName(a) == StatusName(b) <==> a == b
  {
    assert "pending"[0] == 'p' && "approved"[0] == 'a' && "rejected"[0] == 'r' && "applied"[0] == 'a'
           && "expired"[0] == 'e';
  }

  /** A stored recommendation carries its key and its body, without the fields that are never serialized. */
  lemma RecFieldsSay(r: Recommendation)
    ensures var f := RecSpec(r).fields;
            && RecSpec(r).grainType == "recommendation" && RecSpec(r).namespace == "deja-loop" && f.rec == Some(r)
            && f.audit.None? && "dedup_key" in f.entries && f.entries["dedup_key"] == Str(r.dedupKey)
            && "hash" !in f.entries && "status" !in f.entries && "namespace" !in f.entries
            && "valid_to_ms" !in f.entries
            && forall k | k in r.body && k !in {"hash", "status", "namespace", "valid_to_ms", "dedup_key"} ::
                 k in f.entries && f.entries[k] == r.body[k]
  {
  }
}
