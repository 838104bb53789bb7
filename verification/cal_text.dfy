/** CAL statements as text: what the writer emits, how the engine reads its own lines back and how the
    reference executor reads any line. */
module CalText {
  import opened Basics
  import opened LoopModel
  import opened Text

  /** Printing and reading one JSON object. Only what the loop needs of a JSON library is asked for. */
  datatype Codec = Codec(write: Fields -> string, parse: string -> Option<Fields>) {

    ghost predicate Lawful() {
      && (forall f :: parse(write(f)).Some? && parse(write(f)).value.entries == f.entries)
      && (forall f :: ObjectText(write(f)))
      && (forall s :: Trimmed(s) && parse(s).Some? ==> s != "" && s[0] == '{')
      // a text that opens a brace and then holds a whole object leaves the brace open
      && (forall s, t :: s != "" && s[0] == '{' && parse(t).Some? ==> parse(s + t).None?)
    }
  }

  predicate ObjectText(s: string) {
    Trimmed(s) && OneLine(s) && s[0] == '{'
  }

  /** A token of a statement: no whitespace inside. */
  predicate Token(s: string) {
    s != "" && NoWs(s)
  }

  // --- the writer ---

  function WriteForget(hash: string): string {
    "FORGET " + hash
  }

  function WriteAdd(js: Codec, grainType: string, f: Fields): string {
    "ADD " + grainType + " " + js.write(f)
  }

  function WriteSupersede(js: Codec, target: string, grainType: string, f: Fields): string {
    "SUPERSEDE " + target + " WITH " + grainType + " " + js.write(f)
  }

  // --- the engine reading its own SUPERSEDE lines ---

  datatype Replacement = Replacement(target: string, grainType: string, fields: Fields)

  function StripPrefix(s: string, prefix: string): Option<string> {
    if prefix <= s then Some(s[|prefix|..]) else None
  }

  function ParseOwnSupersede(js: Codec, line: string): Option<Replacement> {
    match StripPrefix(Trim(line), "SUPERSEDE ")
    case None => None
    case Some(rest) =>
      match SplitOnce(rest, " WITH ")
      case None => None
      case Some((target, after)) =>
        match SplitOnce(Trim(after), " ")
        case None => None
        case Some((grainType, json)) =>
          match js.parse(Trim(json))
          case None => None
          case Some(f) => Some(Replacement(Trim(target), grainType, f))
  }

  // --- the executor ---

  datatype Stmt =
    | Forget(hash: Hash)
    | Retract(hash: Hash)
    | Add(grainType: string, fields: Fields)
    | Supersede(target: Hash, grainType: string, fields: Fields)
    | Read
    | Unsupported

  function SplitKeyword(line: string): (string, string) {
    var n := FirstWs(line);
    if n < |line| then (line[..n], TrimStart(line[n + 1..])) else (line, "")
  }

  function ParseTypeAndJson(js: Codec, s: string): Option<(string, Fields)> {
    match Find(s, "{")
    case None => None
    case Some(brace) =>
      FindSpec(s, "{");
      var grainType := Trim(s[..brace]);
      if grainType == "" then None
      else
        match js.parse(Trim(s[brace..]))
        case None => None
        case Some(f) => Some((grainType, f))
  }

  function ParseSupersede(js: Codec, rest: string): Stmt {
    match SplitOnce(rest, " WITH ")
    case None => Unsupported
    case Some((target, after)) =>
      match ParseTypeAndJson(js, after)
      case None => Unsupported
      case Some((grainType, f)) => Supersede(Trim(target), grainType, f)
  }

  /** How the executor reads one trimmed, non-empty line. */
  function ParseStatement(js: Codec, line: string): Stmt {
    var (keyword, rest) := SplitKeyword(line);
    var verb := Upper(keyword);
    if verb == "FORGET" then Forget(Trim(rest))
    else if verb == "RETRACT" then Retract(Trim(rest))
    else if verb == "ADD" then
      match ParseTypeAndJson(js, rest)
      case None => Unsupported
      case Some((grainType, f)) => Add(grainType, f)
    else if verb == "SUPERSEDE" then ParseSupersede(js, rest)
    else if verb == "RECALL" || verb == "ASSEMBLE" || verb == "EXPLAIN" || verb == "HISTORY" then Read
    else Unsupported
  }

  function ParseLines(js: Codec, lines: seq<string>): seq<Stmt> {
    if lines == [] then []
    else
      var line := Trim(lines[0]);
      (if line == "" then [] else [ParseStatement(js, line)]) + ParseLines(js, lines[1..])
  }

  function ParseBatch(js: Codec, cal: string): seq<Stmt> {
    ParseLines(js, Lines(cal))
  }

  // --- the destructive check ---

  predicate WordChar(c: char) {
    'a' <= c <= 'z' || 'A' <= c <= 'Z' || '0' <= c <= '9' || c == '_'
  }

  function LeadingWord(s: string): string {
    if s != "" && WordChar(s[0]) then [s[0]] + LeadingWord(s[1..]) else ""
  }

  predicate DestructiveLine(line: string) {
    var word := Upper(LeadingWord(TrimStart(line)));
    word == "FORGET" || word == "PURGE"
  }

  predicate ContainsDestructive(cal: string) {
    exists i | 0 <= i < |Lines(cal)| :: DestructiveLine(Lines(cal)[i])
  }

  // --- the keyword of a line, seen by both readers ---

  lemma {:induction false} LeadingWordIs(w: string, rest: string)
    requires forall i | 0 <= i < |w| :: WordChar(w[i])
    requires rest == "" || !WordChar(rest[0])
    ensures LeadingWord(w + rest) == w
    decreases w
  {
    if w == "" {
      assert w + rest == rest;
    } else {
      assert (w + rest)[1..] == w[1..] + rest;
      LeadingWordIs(w[1..], rest);
      assert w == [w[0]] + w[1..];
    }
  }

  lemma UpperWordChars(s: string, verb: string)
    requires Upper(s) == verb && forall i | 0 <= i < |verb| :: 'A' <= verb[i] <= 'Z'
    ensures forall i | 0 <= i < |s| :: WordChar(s[i])
  {
    forall i | 0 <= i < |s| ensures WordChar(s[i]) {
      assert UpperChar(s[i]) == verb[i];
    }
  }

  /** When the executor's keyword is a plain verb, the destructive check sees the same word. */
  lemma SameKeyword(line: string, verb: string)
    requires Trim(line) != ""
    requires Upper(SplitKeyword(Trim(line)).0) == verb
    requires verb != "" && forall i | 0 <= i < |verb| :: 'A' <= verb[i] <= 'Z'
    ensures Upper(LeadingWord(TrimStart(line))) == verb
  {
    var keyword := SplitKeyword(Trim(line)).0;
    var b := TrimEndSplits(TrimStart(line));
    var t := Trim(line);
    assert TrimStart(line) == t + b;
    var rest := (t + b)[|keyword|..];
    assert t[..|keyword|] == keyword;
    assert TrimStart(line) == keyword + rest;
    UpperWordChars(keyword, verb);
    if rest != "" {
      assert IsWs(rest[0]) by {
        if |keyword| < |t| { assert rest[0] == t[|keyword|]; } else { assert rest[0] == b[0]; }
      }
    }
    LeadingWordIs(keyword, rest);
  }

  /** A batch the check does not flag never reaches the executor's FORGET arm. */
  lemma UnflaggedNeverForgets(js: Codec, cal: string, i: nat)
    requires !ContainsDestructive(cal) && i < |ParseBatch(js, cal)|
    ensures !ParseBatch(js, cal)[i].Forget?
  {
    hide ParseTypeAndJson, ParseSupersede, Trim, Lines, IsWs, DestructiveLine, ParseLines;
    var j := LineOfStatement(js, Lines(cal), i);
    var line := Lines(cal)[j];
    if ParseStatement(js, Trim(line)).Forget? {
      ForgetLineIsDestructive(js, line);
    }
  }

  lemma ForgetLineIsDestructive(js: Codec, line: string)
    requires Trim(line) != "" && ParseStatement(js, Trim(line)).Forget?
    ensures DestructiveLine(line)
  {
    hide ParseTypeAndJson, SplitKeyword, Trim, IsWs;
    var verb := Upper(SplitKeyword(Trim(line)).0);
    assert verb == "FORGET";
    SameKeyword(line, verb);
  }

  lemma {:induction false} LineOfStatement(js: Codec, lines: seq<string>, i: nat) returns (j: nat)
    requires i < |ParseLines(js, lines)|
    ensures j < |lines| && Trim(lines[j]) != "" && ParseLines(js, lines)[i] == ParseStatement(js, Trim(lines[j]))
    decreases lines
  {
    hide ParseStatement, Trim;
    if Trim(lines[0]) != "" && i == 0 {
      j := 0;
    } else {
      var k := LineOfStatement(js, lines[1..], if Trim(lines[0]) == "" then i else i - 1);
      j := k + 1;
    }
  }

  /** A batch whose every statement is an ADD or a read is never flagged. */
  lemma AddOnlyIsNotDestructive(js: Codec, cal: string)
    requires forall i | 0 <= i < |ParseBatch(js, cal)| :: ParseBatch(js, cal)[i].Add? || ParseBatch(js, cal)[i].Read?
    ensures !ContainsDestructive(cal)
  {
    forall j | 0 <= j < |Lines(cal)| ensures !DestructiveLine(Lines(cal)[j]) {
      assert ParseBatch(js, cal) == ParseLines(js, Lines(cal));
      AddLineIsNotDestructive(js, Lines(cal), j);
    }
  }

  lemma {:induction false} AddLineIsNotDestructive(js: Codec, lines: seq<string>, j: nat)
    requires j < |lines|
    requires forall i | 0 <= i < |ParseLines(js, lines)| ::
               ParseLines(js, lines)[i].Add? || ParseLines(js, lines)[i].Read?
    ensures !DestructiveLine(lines[j])
    decreases lines
  {
    hide ParseStatement, Trim, DestructiveLine;
    var line := Trim(lines[0]);
    var rest := ParseLines(js, lines[1..]);
    if j > 0 {
      forall i | 0 <= i < |rest| ensures rest[i].Add? || rest[i].Read? {
        assert rest[i] == ParseLines(js, lines)[if line == "" then i else i + 1];
      }
      AddLineIsNotDestructive(js, lines[1..], j - 1);
    } else if line == "" {
      BlankLine(lines[0]);
    } else {
      assert ParseLines(js, lines)[0] == ParseStatement(js, line);
      AddOrReadIsNotDestructive(js, lines[0]);
    }
  }

  lemma AddOrReadIsNotDestructive(js: Codec, line: string)
    requires Trim(line) != ""
    requires ParseStatement(js, Trim(line)).Add? || ParseStatement(js, Trim(line)).Read?
    ensures !DestructiveLine(line)
  {
    hide ParseTypeAndJson, ParseSupersede, SplitKeyword, Trim, IsWs;
    var verb := Upper(SplitKeyword(Trim(line)).0);
    SameKeyword(line, verb);
  }

  lemma BlankLine(s: string)
    requires Trim(s) == ""
    ensures !DestructiveLine(s)
  {
    var a := TrimStartSplits(s);
    var b := TrimEndSplits(TrimStart(s));
    assert TrimStart(s) == b;
  }

  // --- writer, engine and executor agree ---

  /** A token without whitespace ends at the first separator that starts with a space. */
  lemma SplitAfterWord(a: string, sep: string, after: string)
    requires NoWs(a) && sep != "" && sep[0] == ' '
    ensures SplitOnce(a + sep + after, sep) == Some((a, after))
  {
    var s := a + sep + after;
    assert IsWs(' ');
    assert s[|a|..|a| + |sep|] == sep;
    forall j | 0 <= j < |a| ensures !OccursAt(s, sep, j) {
      assert j + |sep| <= |s| ==> s[j..j + |sep|][0] == a[j];
    }
    FindIs(s, sep, |a|);
    assert s[..|a|] == a && s[|a| + |sep|..] == after;
  }

  lemma WordIsTrimmed(w: string)
    requires NoWs(w)
    ensures Trimmed(w) && Trim(w) == w
  {
    TrimOfTrimmed(w);
  }

  /** The engine's reading of a line spelled with single spaces; it does not mind a brace in the type. */
  lemma OwnReading(js: Codec, target: string, grainType: string, json: string)
    requires Token(target) && Token(grainType) && json != "" && Trimmed(json)
    ensures ParseOwnSupersede(js, "SUPERSEDE " + target + " WITH " + grainType + " " + json)
            == match js.parse(json)
               case None => None
               case Some(f) => Some(Replacement(target, grainType, f))
  {
    var after := grainType + " " + json;
    var rest := target + " WITH " + after;
    var line := "SUPERSEDE " + target + " WITH " + grainType + " " + json;
    assert line == "SUPERSEDE " + rest;
    assert Trimmed(after) && Trimmed(line) by {
      assert after[0] == grainType[0] && after[|after| - 1] == json[|json| - 1];
      assert line[0] == 'S' && line[|line| - 1] == json[|json| - 1];
    }
    hide IsWs, Trim, SplitOnce;
    TrimOfTrimmed(line);
    TrimOfTrimmed(after);
    TrimOfTrimmed(json);
    WordIsTrimmed(target);
    assert StripPrefix(line, "SUPERSEDE ") == Some(rest) by {
      assert line[10..] == rest;
    }
    SplitAfterWord(target, " WITH ", after);
    SplitAfterWord(grainType, " ", json);
  }

  /** Reading back a written SUPERSEDE gives the target, the type and the fields that were written. */
  lemma WriterRoundTrip(js: Codec, target: string, grainType: string, f: Fields)
    requires js.Lawful() && Token(target) && Token(grainType)
    ensures var own := ParseOwnSupersede(js, WriteSupersede(js, target, grainType, f));
            && own.Some? && own.value.target == target && own.value.grainType == grainType
            && own.value.fields.entries == f.entries
  {
    assert ObjectText(js.write(f));
    OwnReading(js, target, grainType, js.write(f));
  }

  /** The executor's reading of the text behind ` WITH `, against the engine's reading of it. */
  lemma TypeAndJsonAgree(js: Codec, after: string, grainType: string, rest: string, f: Fields)
    requires js.Lawful()
    requires SplitOnce(Trim(after), " ") == Some((grainType, rest)) && js.parse(Trim(rest)) == Some(f)
    ensures '{' !in grainType ==> ParseTypeAndJson(js, after) == Some((Trim(grainType), f))
    ensures '{' in grainType ==> ParseTypeAndJson(js, after) == None
    ensures Trim(grainType) != ""
  {
    var json := Trim(rest);
    assert json != "" && json[0] == '{' && Trimmed(json) by { var e, h := TrimSplits(rest); }
    var c, e, d := AfterShape(after, grainType, rest);
    TypeHasText(grainType);
    hide IsWs, Trim, SplitOnce, ParseTypeAndJson;
    if '{' !in grainType {
      CleanType(js, c, grainType, e, json, d, f);
    } else {
      BracedType(js, c, grainType, e, json, d, f);
    }
  }

  /** The text behind ` WITH `, cut into whitespace, type, whitespace and the object text. */
  lemma AfterShape(after: string, grainType: string, rest: string) returns (c: string, e: string, d: string)
    requires SplitOnce(Trim(after), " ") == Some((grainType, rest)) && Trim(rest) != ""
    ensures after == c + grainType + " " + e + Trim(rest) + d
    ensures AllWs(c) && AllWs(e) && AllWs(d) && '{' !in c && '{' !in e
    ensures grainType != "" && !IsWs(grainType[0])
  {
    var g, h;
    c, g := TrimSplits(after);
    e, h := TrimSplits(rest);
    d := h + g;
    SplitAtSpace(Trim(after), grainType, rest);
    WhitespaceHasNoBrace(c);
    WhitespaceHasNoBrace(e);
    JoinAllWs(h, g);
    hide Trim, SplitOnce, IsWs, AllWs;
    Regroup(c, grainType, e, Trim(rest), h, g);
  }

  lemma JoinAllWs(h: string, g: string)
    requires AllWs(h) && AllWs(g)
    ensures AllWs(h + g)
  {
    hide IsWs;
  }

  lemma SplitAtSpace(whole: string, grainType: string, rest: string)
    requires SplitOnce(whole, " ") == Some((grainType, rest)) && (whole == "" || !IsWs(whole[0]))
    ensures whole == grainType + " " + rest && grainType != "" && !IsWs(grainType[0])
  {
    FindSpec(whole, " ");
    assert IsWs(' ');
    hide IsWs, Find;
    assert whole[|grainType|..|grainType| + 1] == " ";
    assert whole == whole[..|grainType|] + whole[|grainType|..|grainType| + 1] + whole[|grainType| + 1..];
    assert whole[0] == if grainType == "" then ' ' else grainType[0];
  }

  lemma Regroup(c: string, t: string, e: string, core: string, h: string, g: string)
    ensures c + (t + " " + (e + core + h)) + g == c + t + " " + e + core + (h + g)
  {
  }

  lemma TypeHasText(s: string)
    requires s != "" && !IsWs(s[0])
    ensures Trim(s) != ""
  {
    var a, b := TrimSplits(s);
    assert Trim(s) == "" ==> s == a + b;
  }

  lemma WhitespaceHasNoBrace(s: string)
    requires AllWs(s)
    ensures '{' !in s
  {
    assert !IsWs('{');
  }

  lemma CleanType(js: Codec, c: string, grainType: string, e: string, json: string, d: string, f: Fields)
    requires AllWs(c) && AllWs(e) && AllWs(d) && '{' !in c && '{' !in e && '{' !in grainType
    requires grainType != "" && !IsWs(grainType[0]) && Trim(grainType) != ""
    requires json != "" && json[0] == '{' && Trimmed(json) && js.parse(json) == Some(f)
    ensures ParseTypeAndJson(js, c + grainType + " " + e + json + d) == Some((Trim(grainType), f))
  {
    var head := c + grainType + " " + e;
    FindChar(head, '{', json[1..] + d);
    assert head + json + d == head + ['{'] + (json[1..] + d);
    assert (head + json + d)[..|head|] == head && (head + json + d)[|head|..] == "" + json + d;
    assert Find(head + json + d, "{") == Some(|head|);
    SpacedType(c, grainType, e);
    hide IsWs, Find, Trim;
    assert Trim(json + d) == json by {
      TrimIs("", json, d);
      assert "" + json + d == json + d;
    }
    assert (head + json + d)[|head|..] == json + d;
  }

  lemma SpacedType(c: string, grainType: string, e: string)
    requires AllWs(c) && AllWs(e)
    ensures Trim(c + grainType + " " + e) == Trim(grainType)
  {
    var p, q := TrimSplits(grainType);
    assert IsWs(' ');
    assert c + grainType + " " + e == (c + p) + Trim(grainType) + (q + " " + e);
    hide IsWs;
    TrimIs(c + p, Trim(grainType), q + " " + e);
  }

  lemma BracedType(js: Codec, c: string, grainType: string, e: string, json: string, d: string, f: Fields)
    requires js.Lawful()
    requires AllWs(c) && AllWs(e) && AllWs(d) && '{' !in c && '{' in grainType
    requires json != "" && Trimmed(json) && js.parse(json) == Some(f)
    ensures ParseTypeAndJson(js, c + grainType + " " + e + json + d) == None
  {
    var i := FirstBrace(grainType);
    var open := grainType[i..] + " " + e;
    hide Codec.Lawful, Find, Trim, ParseTypeAndJson;
    assert c + grainType + " " + e + json + d == c + grainType[..i] + (open + json) + d;
    BraceStaysOpen(js, open, json);
    Unreadable(js, c + grainType[..i], open + json, d);
  }

  /** When the text from the first brace on is no object, the statement body cannot be read. */
  lemma Unreadable(js: Codec, head: string, text: string, d: string)
    requires '{' !in head && text != "" && text[0] == '{' && Trimmed(text) && AllWs(d) && js.parse(text).None?
    ensures ParseTypeAndJson(js, head + text + d) == None
  {
    var s := head + text + d;
    FindChar(head, '{', text[1..] + d);
    assert s == head + ['{'] + (text[1..] + d);
    hide IsWs, Find;
    TrimIs("", text, d);
    assert s[|head|..] == "" + text + d;
    hide Trim;
  }

  lemma BraceStaysOpen(js: Codec, s: string, t: string)
    requires js.Lawful() && s != "" && s[0] == '{' && js.parse(t).Some?
    ensures js.parse(s + t).None?
  {
  }

  lemma {:induction false} FirstBrace(s: string) returns (i: nat)
    requires '{' in s
    ensures i < |s| && s[i] == '{' && '{' !in s[..i]
    decreases s
  {
    if s[0] == '{' {
      i := 0;
    } else {
      assert s == [s[0]] + s[1..];
      var k := FirstBrace(s[1..]);
      i := k + 1;
      assert s[..i] == [s[0]] + s[1..][..k];
    }
  }

  /** Whatever line the engine recognizes as its own, the executor reads the same replacement from it
      exactly when the type carries no brace and no trailing whitespace (and the target is not blank);
      a type with a brace makes the line unreadable. */
  lemma ReadersAgree(js: Codec, line: string)
    requires js.Lawful() && ParseOwnSupersede(js, line).Some?
    ensures var own := ParseOwnSupersede(js, line).value;
            var stmt := ParseStatement(js, Trim(line));
            && Trim(line) != ""
            && (own.target != "" ==>
                  stmt == if '{' in own.grainType then Unsupported
                          else Supersede(own.target, Trim(own.grainType), own.fields))
            && (stmt == Supersede(own.target, own.grainType, own.fields) <==>
                  own.target != "" && '{' !in own.grainType && Trim(own.grainType) == own.grainType)
  {
    hide IsWs, Find, FirstWs, SplitKeyword, TrimStart, TrimEnd, Codec.Lawful;
    var text := Trim(line);
    var rest := text[10..];
    var (head, after) := SplitOnce(rest, " WITH ").value;
    var (grainType, json) := SplitOnce(Trim(after), " ").value;
    var f := js.parse(Trim(json)).value;
    assert ParseOwnSupersede(js, line) == Some(Replacement(Trim(head), grainType, f));
    TypeAndJsonAgree(js, after, grainType, json, f);
    assert text == "SUPERSEDE " + rest;
    SupersedeStatement(js, text, rest);
    TargetsAgree(rest, head, after);
    hide ParseTypeAndJson, ParseStatement, SplitOnce, Trim;
  }

  lemma SupersedeStatement(js: Codec, text: string, rest: string)
    requires text == "SUPERSEDE " + rest
    ensures ParseStatement(js, text) == ParseSupersede(js, TrimStart(rest))
  {
    assert text == "SUPERSEDE" + (" " + rest);
    assert IsWs(' ') && NoWs("SUPERSEDE");
    FirstWsIs("SUPERSEDE", " " + rest);
    assert text[..9] == "SUPERSEDE" && text[9 + 1..] == rest;
    assert Upper("SUPERSEDE") == "SUPERSEDE";
  }

  /** Dropping the whitespace in front of the target moves no separator, unless there is no target. */
  lemma TargetsAgree(rest: string, head: string, after: string)
    requires SplitOnce(rest, " WITH ") == Some((head, after))
    ensures Trim(head) != "" ==>
              SplitOnce(TrimStart(rest), " WITH ").Some?
              && Trim(SplitOnce(TrimStart(rest), " WITH ").value.0) == Trim(head)
              && SplitOnce(TrimStart(rest), " WITH ").value.1 == after
    ensures SplitOnce(TrimStart(rest), " WITH ").Some? ==>
              Trim(SplitOnce(TrimStart(rest), " WITH ").value.0) != ""
  {
    var a := TrimStartSplits(rest);
    var tail := TrimStart(rest);
    FindSpec(rest, " WITH ");
    FindSpec(tail, " WITH ");
    assert IsWs(' ') && IsWs(" WITH "[0]);
    assert |tail| >= 6 ==> tail[0] == tail[0..6][0];
    if SplitOnce(tail, " WITH ").Some? {
      TypeHasText(SplitOnce(tail, " WITH ").value.0);
    }
    hide IsWs;
    if Trim(head) != "" {
      HeadReachesPast(a, head, rest);
      TargetMoves(a, tail, head, after);
    }
  }

  /** A head with some text in it is longer than the whitespace in front. */
  lemma HeadReachesPast(a: string, head: string, rest: string)
    requires AllWs(a) && a <= rest && head <= rest && Trim(head) != ""
    ensures |a| <= |head|
  {
    if |a| > |head| {
      assert head == a[..|head|];
      BlankIsBlank(head);
      assert false;
    }
  }

  lemma TargetMoves(a: string, tail: string, head: string, after: string)
    requires AllWs(a) && |a| <= |head| && SplitOnce(a + tail, " WITH ") == Some((head, after))
    ensures SplitOnce(tail, " WITH ").Some?
    ensures Trim(SplitOnce(tail, " WITH ").value.0) == Trim(head) && SplitOnce(tail, " WITH ").value.1 == after
  {
    FindSpec(a + tail, " WITH ");
    var i := |head| - |a|;
    FindAfterPrefix(a, tail, " WITH ", |head|);
    FindSpec(tail, " WITH ");
    assert head == a + tail[..i];
    TrimIgnoresLeading(a, tail[..i]);
    assert tail[i + 6..] == (a + tail)[|head| + 6..];
  }

  lemma BlankIsBlank(s: string)
    requires AllWs(s)
    ensures Trim(s) == ""
  {
    TrimIs(s, "", "");
    assert s + "" + "" == s;
  }

  /** The same statement, up to how its fields decode. */
  predicate SameStmt(a: Stmt, b: Stmt) {
    match (a, b)
    case (Forget(g), Forget(h)) => g == h
    case (Add(t, f), Add(u, g)) => t == u && f.entries == g.entries
    case (Supersede(x, t, f), Supersede(y, u, g)) => x == y && t == u && f.entries == g.entries
    case _ => false
  }

  predicate Braced(stmt: Stmt) {
    (stmt.Add? || stmt.Supersede?) && '{' in stmt.grainType
  }

  /** What the executor makes of a written statement: the statement itself, or nothing when its type has a brace. */
  predicate AsRead(written: Stmt, read: Stmt) {
    if Braced(written) then read == Unsupported else SameStmt(written, read)
  }

  /** The executor extracts from a written SUPERSEDE exactly what the engine reads back from it, unless its type has a
      brace, which makes the line unreadable. */
  lemma ExecutorReadsWrittenSupersede(js: Codec, target: string, grainType: string, f: Fields)
    requires js.Lawful() && Token(target) && Token(grainType)
    ensures AsRead(Supersede(target, grainType, f), ParseStatement(js, WriteSupersede(js, target, grainType, f)))
  {
    hide ParseStatement, Trim, IsWs, NoWs, Codec.Lawful, OneLine, StartsWithVerb;
    var line := WriteSupersede(js, target, grainType, f);
    WrittenSupersedeIsALine(js, target, grainType, f);
    WriterRoundTrip(js, target, grainType, f);
    assert NoWs(grainType);
    WordIsTrimmed(grainType);
    ReadersAgree(js, line);
  }

  /** A type the writer accepts but the executor cannot read back: the engine still takes the line as its own. */
  lemma BracedTypeIsUnsupported(js: Codec, target: string, f: Fields)
    requires js.Lawful() && Token(target)
    ensures var line := WriteSupersede(js, target, "fact{", f);
            ParseOwnSupersede(js, line).Some? && ParseStatement(js, Trim(line)) == Unsupported
  {
    var line := WriteSupersede(js, target, "fact{", f);
    WriterRoundTrip(js, target, "fact{", f);
    assert '{' in "fact{" by { assert "fact{"[4] == '{'; }
    hide ParseStatement, ParseOwnSupersede, Trim, IsWs, Codec.Lawful, WriteSupersede;
    ReadersAgree(js, line);
  }

  lemma VerbIsNotDestructive(line: string)
    requires StartsWithVerb(line)
    ensures !DestructiveLine(line)
  {
    if "SUPERSEDE " <= line {
      VerbLine("SUPERSEDE", line[9..], line);
    } else {
      VerbLine("ADD", line[3..], line);
    }
  }

  predicate StartsWithVerb(line: string) {
    "SUPERSEDE " <= line || "ADD " <= line
  }

  lemma VerbLine(verb: string, rest: string, line: string)
    requires verb == "SUPERSEDE" || verb == "ADD"
    requires line == verb + rest && rest != "" && rest[0] == ' '
    ensures !DestructiveLine(line)
  {
    assert TrimStart(line) == line;
    LeadingWordIs(verb, rest);
    assert Upper(verb)[0] == verb[0];
  }

  lemma WrittenSupersedeIsALine(js: Codec, target: string, grainType: string, f: Fields)
    requires js.Lawful() && Token(target) && Token(grainType)
    ensures var line := WriteSupersede(js, target, grainType, f);
            OneLine(line) && StartsWithVerb(line) && Trim(line) == line
  {
    assert ObjectText(js.write(f));
    SupersedeShape(target, grainType, js.write(f));
    hide Codec.Lawful, OneLine, Trim, StartsWithVerb;
  }

  lemma SupersedeShape(target: string, grainType: string, json: string)
    requires Token(target) && Token(grainType) && ObjectText(json)
    ensures var line := "SUPERSEDE " + target + " WITH " + grainType + " " + json;
            OneLine(line) && StartsWithVerb(line) && Trim(line) == line
  {
    WordHasNoBreak(target);
    WordHasNoBreak(grainType);
    var line := "SUPERSEDE " + target + " WITH " + grainType + " " + json;
    assert line[..10] == "SUPERSEDE ";
    assert line[|line| - 1] == json[|json| - 1] && line[0] == 'S' && !IsWs('S');
    hide IsWs;
    assert Trimmed(line);
    TrimOfTrimmed(line);
  }

  lemma WrittenAddIsALine(js: Codec, grainType: string, f: Fields)
    requires js.Lawful() && Token(grainType)
    ensures var line := WriteAdd(js, grainType, f);
            OneLine(line) && StartsWithVerb(line) && Trim(line) == line
  {
    assert ObjectText(js.write(f));
    AddShape(grainType, js.write(f));
    hide Codec.Lawful, OneLine, Trim, StartsWithVerb;
  }

  lemma AddShape(grainType: string, json: string)
    requires Token(grainType) && ObjectText(json)
    ensures var line := "ADD " + grainType + " " + json;
            OneLine(line) && StartsWithVerb(line) && Trim(line) == line
  {
    WordHasNoBreak(grainType);
    var line := "ADD " + grainType + " " + json;
    assert line[..4] == "ADD ";
    assert line[|line| - 1] == json[|json| - 1] && line[0] == 'A' && !IsWs('A');
    hide IsWs;
    assert Trimmed(line);
    TrimOfTrimmed(line);
  }

  lemma WordHasNoBreak(w: string)
    requires NoWs(w)
    ensures '\n' !in w && '\r' !in w
  {
    assert IsWs('\n') && IsWs('\r');
  }

  lemma WrittenForgetIsALine(hash: string)
    requires Token(hash)
    ensures OneLine(WriteForget(hash)) && DestructiveLine(WriteForget(hash))
            && Trim(WriteForget(hash)) == WriteForget(hash)
  {
    var line := WriteForget(hash);
    WordHasNoBreak(hash);
    assert line == "FORGET" + (" " + hash);
    assert line[0] == 'F' && line[|line| - 1] == hash[|hash| - 1] && !IsWs('F');
    hide IsWs;
    TrimOfTrimmed(line);
    LeadingWordIs("FORGET", " " + hash);
    TrimStartDrops("", line);
    assert "" + line == line;
  }

  // --- batches of written statements ---

  /** The statements the writer is for, with addresses and types free of whitespace. */
  predicate Writable(stmt: Stmt) {
    match stmt
    case Forget(hash) => Token(hash)
    case Add(grainType, _) => Token(grainType)
    case Supersede(target, grainType, _) => Token(target) && Token(grainType)
    case _ => false
  }

  function WriteStmt(js: Codec, stmt: Stmt): string
    requires Writable(stmt)
  {
    match stmt
    case Forget(hash) => WriteForget(hash)
    case Add(grainType, f) => WriteAdd(js, grainType, f)
    case Supersede(target, grainType, f) => WriteSupersede(js, target, grainType, f)
  }

  function WriteStmts(js: Codec, stmts: seq<Stmt>): seq<string>
    requires forall i | 0 <= i < |stmts| :: Writable(stmts[i])
  {
    seq(|stmts|, i requires 0 <= i < |stmts| => WriteStmt(js, stmts[i]))
  }

  lemma KeywordSplits(verb: string, rest: string)
    requires verb == "FORGET" || verb == "ADD"
    requires rest != "" && !IsWs(rest[0])
    ensures SplitKeyword(verb + " " + rest) == (verb, rest)
  {
    var line := verb + " " + rest;
    assert line == verb + (" " + rest);
    assert IsWs(' ') && NoWs(verb);
    FirstWsIs(verb, " " + rest);
    assert line[..|verb|] == verb && line[|verb| + 1..] == rest;
  }

  lemma UpperOfVerb(verb: string)
    requires verb == "FORGET" || verb == "ADD"
    ensures Upper(verb) == verb
  {
  }

  lemma VerbStatement(js: Codec, verb: string, rest: string)
    requires verb == "FORGET" || verb == "ADD"
    requires rest != "" && !IsWs(rest[0])
    ensures ParseStatement(js, verb + " " + rest)
            == if verb == "FORGET" then Forget(Trim(rest))
               else match ParseTypeAndJson(js, rest)
                    case None => Unsupported
                    case Some((grainType, f)) => Add(grainType, f)
  {
    KeywordSplits(verb, rest);
    UpperOfVerb(verb);
    hide SplitKeyword, ParseTypeAndJson, ParseSupersede, Trim, IsWs, Upper;
  }

  lemma ExecutorReadsWrittenForget(js: Codec, hash: string)
    requires Token(hash)
    ensures ParseStatement(js, WriteForget(hash)) == Forget(hash)
  {
    WordIsTrimmed(hash);
    VerbStatement(js, "FORGET", hash);
    hide ParseStatement, Trim, IsWs;
    assert WriteForget(hash) == "FORGET" + " " + hash;
  }

  lemma ExecutorReadsWrittenAdd(js: Codec, grainType: string, f: Fields)
    requires js.Lawful() && Token(grainType)
    ensures AsRead(Add(grainType, f), ParseStatement(js, WriteAdd(js, grainType, f)))
  {
    var json := js.write(f);
    assert ObjectText(json) && js.parse(json).Some? && js.parse(json).value.entries == f.entries;
    hide Codec.Lawful, ParseStatement, NoWs, OneLine;
    AddIsRead(js, grainType, json, js.parse(json).value);
  }

  lemma AddIsRead(js: Codec, grainType: string, json: string, f: Fields)
    requires js.Lawful() && Token(grainType) && ObjectText(json) && js.parse(json) == Some(f)
    ensures ParseStatement(js, "ADD " + grainType + " " + json)
            == if '{' in grainType then Unsupported else Add(grainType, f)
  {
    hide Codec.Lawful, ParseStatement, ParseTypeAndJson, Trim, IsWs, NoWs, OneLine, Token, ObjectText;
    WrittenTypeAndJson(js, grainType, json, f);
    VerbStatement(js, "ADD", grainType + " " + json);
    AddBehindVerb(grainType, json);
  }

  lemma AddBehindVerb(grainType: string, json: string)
    ensures "ADD " + grainType + " " + json == "ADD" + " " + (grainType + " " + json)
  {
  }

  lemma WrittenTypeAndJson(js: Codec, grainType: string, json: string, f: Fields)
    requires js.Lawful() && Token(grainType) && ObjectText(json) && js.parse(json) == Some(f)
    ensures var rest := grainType + " " + json;
            && rest != "" && !IsWs(rest[0])
            && ParseTypeAndJson(js, rest) == if '{' in grainType then None else Some((grainType, f))
  {
    WordIsTrimmed(grainType);
    assert !IsWs(grainType[0]);
    hide ParseTypeAndJson, Trim, IsWs, NoWs, OneLine, Codec.Lawful;
    assert (grainType + " " + json)[0] == grainType[0];
    assert "" + grainType + " " + "" + json + "" == grainType + " " + json;
    if '{' in grainType {
      BracedType(js, "", grainType, "", json, "", f);
    } else {
      CleanType(js, "", grainType, "", json, "", f);
    }
  }

  /** A written statement is one line, the executor reads it back exactly when its type has no brace, and only FORGETs
      are flagged. */
  lemma WrittenStatement(js: Codec, stmt: Stmt)
    requires js.Lawful() && Writable(stmt)
    ensures var line := WriteStmt(js, stmt);
            && OneLine(line) && Trim(line) == line
            && AsRead(stmt, ParseStatement(js, line))
            && (SameStmt(stmt, ParseStatement(js, line)) <==> !Braced(stmt))
            && (DestructiveLine(line) <==> stmt.Forget?)
  {
    hide Codec.Lawful, OneLine, Trim, StartsWithVerb, DestructiveLine, ParseStatement, NoWs;
    match stmt
    case Forget(hash) =>
      WrittenForgetIsALine(hash);
      ExecutorReadsWrittenForget(js, hash);
    case Add(grainType, f) =>
      WrittenAddIsALine(js, grainType, f);
      VerbIsNotDestructive(WriteAdd(js, grainType, f));
      ExecutorReadsWrittenAdd(js, grainType, f);
    case Supersede(target, grainType, f) =>
      WrittenSupersedeIsALine(js, target, grainType, f);
      VerbIsNotDestructive(WriteSupersede(js, target, grainType, f));
      ExecutorReadsWrittenSupersede(js, target, grainType, f);
  }

  lemma {:induction false} WrittenLinesAreRead(js: Codec, stmts: seq<Stmt>)
    requires js.Lawful() && forall i | 0 <= i < |stmts| :: Writable(stmts[i])
    ensures var read := ParseLines(js, WriteStmts(js, stmts));
            |read| == |stmts| && forall i | 0 <= i < |stmts| :: AsRead(stmts[i], read[i])
    decreases stmts
  {
    hide Codec.Lawful, ParseStatement, Trim, AsRead, WriteStmt, Writable, OneLine, DestructiveLine;
    if stmts != [] {
      var lines, rest := WriteStmts(js, stmts), stmts[1..];
      WrittenLinesAreRead(js, rest);
      WrittenStatement(js, stmts[0]);
      assert lines[1..] == WriteStmts(js, rest);
      assert lines[0] == WriteStmt(js, stmts[0]) != "" by { LineIsNotEmpty(js, stmts[0]); }
      var read, tail := ParseLines(js, lines), ParseLines(js, WriteStmts(js, rest));
      assert read == [ParseStatement(js, lines[0])] + tail;
      forall i | 0 <= i < |stmts| ensures AsRead(stmts[i], read[i]) {
        if i > 0 { assert stmts[i] == rest[i - 1] && read[i] == tail[i - 1]; }
      }
    }
  }

  lemma LineIsNotEmpty(js: Codec, stmt: Stmt)
    requires js.Lawful() && Writable(stmt)
    ensures WriteStmt(js, stmt) != ""
  {
    WrittenStatement(js, stmt);
    hide WriteStmt, Writable;
  }

  /** A joined batch of written statements: the executor reads exactly those statements from it, none in the
      place of one with a braced type, and it is flagged destructive if and only if one of them is a FORGET. */
  lemma WrittenBatch(js: Codec, stmts: seq<Stmt>)
    requires js.Lawful() && forall i | 0 <= i < |stmts| :: Writable(stmts[i])
    ensures var read := ParseBatch(js, Join(WriteStmts(js, stmts)));
            |read| == |stmts| && forall i | 0 <= i < |stmts| :: AsRead(stmts[i], read[i])
    ensures ContainsDestructive(Join(WriteStmts(js, stmts))) <==> exists i | 0 <= i < |stmts| :: stmts[i].Forget?
  {
    hide Codec.Lawful, ParseStatement, Trim, AsRead, WriteStmt, Writable, OneLine, DestructiveLine, Lines, Join,
         ParseLines;
    var lines := WriteStmts(js, stmts);
    forall i | 0 <= i < |stmts| ensures OneLine(lines[i]) && (DestructiveLine(lines[i]) <==> stmts[i].Forget?) {
      WrittenStatement(js, stmts[i]);
    }
    LinesOfJoin(lines);
    WrittenLinesAreRead(js, stmts);
    if i :| 0 <= i < |stmts| && stmts[i].Forget? {
      assert DestructiveLine(lines[i]);
    }
  }
}
