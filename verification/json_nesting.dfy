/** The one-pass nesting guard in front of the JSON decoder, against the container depth of
    every JSON text (RFC 8259). Text is a sequence of characters standing for its bytes; bytes
    of multi-byte UTF-8 sequences are ordinary string characters here as they are there. */
module JsonNesting {
  import opened Basics

  const MAX_NESTING_DEPTH := 8

  // --- JSON texts, by the grammar of RFC 8259 sections 2, 4, 5 and 7 ---

  predicate Whitespace(s: string) {
    forall i | 0 <= i < |s| :: s[i] == ' ' || s[i] == '\t' || s[i] == '\n' || s[i] == '\r'
  }

  predicate HexDigit(c: char) {
    '0' <= c <= '9' || 'a' <= c <= 'f' || 'A' <= c <= 'F'
  }

  /** The characters the scanner reacts to. */
  predicate Special(c: char) {
    c == '\"' || c == '\\' || c == '{' || c == '}' || c == '[' || c == ']'
  }

  /** One unit of a quoted string: a plain character, `\` and an escape letter, or `\u` and
      four hexadecimal digits. */
  datatype Unit = Plain(c: char) | Escaped(c: char) | Unicode(hex: string)

  predicate ValidUnit(u: Unit) {
    match u
    case Plain(c) => c != '\"' && c != '\\' && c >= ' '
    case Escaped(c) => c in "\"\\/bfnrt"
    case Unicode(hex) => |hex| == 4 && forall i | 0 <= i < 4 :: HexDigit(hex[i])
  }

  /** A value with the whitespace the grammar allows around it. */
  datatype Text = Text(before: string, value: Value, after: string)

  datatype Value =
    | Atom(word: string)                  // null, true, false or a number
    | Quoted(units: seq<Unit>)
    | Array(items: seq<Text>, gap: string)      // gap: the inside of an empty array
    | Object(members: seq<Member>, gap: string)

  datatype Member = Member(before: string, name: seq<Unit>, after: string, value: Text)

  predicate ValidAtom(w: string) {
    |w| > 0 && forall i | 0 <= i < |w| :: !Special(w[i])
  }

  predicate ValidUnits(us: seq<Unit>) {
    forall i | 0 <= i < |us| :: ValidUnit(us[i])
  }

  predicate ValidText(t: Text) {
    Whitespace(t.before) && Whitespace(t.after) && ValidValue(t.value)
  }

  predicate ValidValue(v: Value) {
    match v
    case Atom(w) => ValidAtom(w)
    case Quoted(us) => ValidUnits(us)
    case Array(items, gap) => Whitespace(gap) && forall t | t in items :: ValidText(t)
    case Object(members, gap) => Whitespace(gap) && forall m | m in members :: ValidMember(m)
  }

  predicate ValidMember(m: Member) {
    Whitespace(m.before) && ValidUnits(m.name) && Whitespace(m.after) && ValidText(m.value)
  }

  // --- printing ---

  function PrintUnit(u: Unit): string {
    match u
    case Plain(c) => [c]
    case Escaped(c) => ['\\', c]
    case Unicode(hex) => ['\\', 'u'] + hex
  }

  function PrintUnits(us: seq<Unit>): string {
    if us == [] then "" else PrintUnit(us[0]) + PrintUnits(us[1..])
  }

  function PrintQuoted(us: seq<Unit>): string {
    "\"" + PrintUnits(us) + "\""
  }

  function Print(t: Text): string {
    t.before + PrintValue(t.value) + t.after
  }

  function PrintValue(v: Value): string {
    match v
    case Atom(w) => w
    case Quoted(us) => PrintQuoted(us)
    case Array(items, gap) => "[" + (if items == [] then gap else PrintItems(items)) + "]"
    case Object(members, gap) => "{" + (if members == [] then gap else PrintMembers(members)) + "}"
  }

  function PrintItems(items: seq<Text>): string
    requires items != []
  {
    if |items| == 1 then Print(items[0]) else Print(items[0]) + "," + PrintItems(items[1..])
  }

  function PrintMembers(members: seq<Member>): string
    requires members != []
  {
    if |members| == 1 then PrintMember(members[0]) else PrintMember(members[0]) + "," + PrintMembers(members[1..])
  }

  function PrintMember(m: Member): string {
    m.before + PrintQuoted(m.name) + m.after + ":" + Print(m.value)
  }

  // --- depth of the value itself ---

  function Depth(v: Value): nat {
    match v
    case Atom(_) => 0
    case Quoted(_) => 0
    case Array(items, _) => 1 + DepthOfItems(items)
    case Object(members, _) => 1 + DepthOfMembers(members)
  }

  function DepthOfItems(items: seq<Text>): nat {
    if items == [] then 0 else Max(Depth(items[0].value), DepthOfItems(items[1..]))
  }

  function DepthOfMembers(members: seq<Member>): nat {
    if members == [] then 0 else Max(Depth(members[0].value.value), DepthOfMembers(members[1..]))
  }

  // --- the scanner ---

  /** `clamped` records that a closing bracket met depth zero, where the decrement saturates. */
  datatype Scan = Scanning(depth: nat, inString: bool, escape: bool, clamped: bool) | TooDeep(depth: nat, clamped: bool)

  const START := Scanning(0, false, false, false)

  function Step(s: Scan, c: char): Scan {
    match s
    case TooDeep(_, _) => s
    case Scanning(depth, inString, escape, clamped) =>
      if escape then Scanning(depth, inString, false, clamped)
      else if c == '\\' && inString then Scanning(depth, inString, true, clamped)
      else if c == '\"' then Scanning(depth, !inString, false, clamped)
      else if (c == '{' || c == '[') && !inString then
        if depth + 1 > MAX_NESTING_DEPTH then TooDeep(depth + 1, clamped)
          else Scanning(depth + 1, false, false, clamped)
      else if (c == '}' || c == ']') && !inString then
        Scanning(if depth == 0 then 0 else depth - 1, false, false, clamped || depth == 0)
      else s
  }

  function Steps(s: Scan, text: string): Scan
    decreases text
  {
    if text == "" then s else Steps(Step(s, text[0]), text[1..])
  }

  datatype Error = NestingTooDeep(depth: nat, max: nat)

  method ValidateNestingDepth(json: string) returns (r: Result<(), Error>)
    ensures r == match Steps(START, json)
                 case TooDeep(d, _) => Err(NestingTooDeep(d, MAX_NESTING_DEPTH))
                 case Scanning(_, _, _, _) => Ok(())
  {
    var depth := 0;
    var inString, escape := false, false;
    ghost var clamped := false;
    assert json[0..] == json;
    for i := 0 to |json|
      invariant 0 <= depth <= MAX_NESTING_DEPTH
      invariant Steps(START, json) == Steps(Scanning(depth, inString, escape, clamped), json[i..])
    {
      assert json[i..][1..] == json[i + 1..];
      var c := json[i];
      if escape {
        escape := false;
      } else if c == '\\' && inString {
        escape := true;
      } else if c == '\"' {
        inString := !inString;
      } else if (c == '{' || c == '[') && !inString {
        depth := depth + 1;
        if depth > MAX_NESTING_DEPTH {
          TooDeepStays(depth, clamped, json[i + 1..]);
          return Err(NestingTooDeep(depth, MAX_NESTING_DEPTH));
        }
      } else if (c == '}' || c == ']') && !inString {
        clamped := clamped || depth == 0;
        depth := if depth == 0 then 0 else depth - 1;
      }
    }
    r := Ok(());
  }

  lemma {:induction false} TooDeepStays(d: nat, clamped: bool, text: string)
    ensures Steps(TooDeep(d, clamped), text) == TooDeep(d, clamped)
    decreases text
  {
    if text != "" { TooDeepStays(d, clamped, text[1..]); }
  }

  lemma {:induction false} StepsAppend(s: Scan, a: string, b: string)
    ensures Steps(s, a + b) == Steps(Steps(s, a), b)
    decreases a
  {
    if a == "" {
      assert a + b == b;
    } else {
      assert (a + b)[1..] == a[1..] + b;
      StepsAppend(Step(s, a[0]), a[1..], b);
    }
  }

  // --- the scanner against the text ---

  /** Where a scan that stood at `depth` outside any string stands after a value of that nesting. */
  function After(depth: nat, clamped: bool, nesting: nat): Scan {
    if depth + nesting <= MAX_NESTING_DEPTH then Scanning(depth, false, false, clamped)
    else TooDeep(MAX_NESTING_DEPTH + 1, clamped)
  }

  lemma {:induction false} NeutralText(s: Scan, text: string)
    requires s.Scanning? && !s.inString && !s.escape
    requires forall i | 0 <= i < |text| :: !Special(text[i])
    ensures Steps(s, text) == s
    decreases text
  {
    if text != "" {
      NeutralText(s, text[1..]);
    }
  }

  lemma WhitespaceIsNeutral(s: Scan, text: string)
    requires s.Scanning? && !s.inString && !s.escape && Whitespace(text)
    ensures Steps(s, text) == s
  {
    NeutralText(s, text);
  }

  lemma InsideUnit(s: Scan, u: Unit)
    requires s.Scanning? && s.inString && !s.escape && ValidUnit(u)
    ensures Steps(s, PrintUnit(u)) == s
  {
    match u
    case Plain(c) => assert PrintUnit(u)[1..] == "";
    case Escaped(c) =>
      AfterBackslash(s, c, "");
      assert PrintUnit(u) == ['\\', c] + "";
    case Unicode(hex) =>
      AfterBackslash(s, 'u', hex);
      InsideHex(s, hex);
  }

  lemma AfterBackslash(s: Scan, c: char, rest: string)
    requires s.Scanning? && s.inString && !s.escape
    ensures Steps(s, ['\\', c] + rest) == Steps(s, rest)
  {
    var text := ['\\', c] + rest;
    assert text[1..] == [c] + rest;
    assert text[1..][1..] == rest;
    assert Step(s, '\\') == s.(escape := true);
  }

  lemma {:induction false} InsideHex(s: Scan, text: string)
    requires s.Scanning? && s.inString && !s.escape
    requires forall i | 0 <= i < |text| :: text[i] != '\"' && text[i] != '\\'
    ensures Steps(s, text) == s
    decreases text
  {
    if text != "" { InsideHex(s, text[1..]); }
  }

  /** Nothing inside a quoted string moves the scan: brackets do not count, escaped quotes do not end it. */
  lemma {:induction false} InsideString(s: Scan, us: seq<Unit>)
    requires s.Scanning? && s.inString && !s.escape && ValidUnits(us)
    ensures Steps(s, PrintUnits(us)) == s
    decreases us
  {
    if us != [] {
      StepsAppend(s, PrintUnit(us[0]), PrintUnits(us[1..]));
      InsideUnit(s, us[0]);
      InsideString(s, us[1..]);
    }
  }

  lemma QuotedStringIsNeutral(s: Scan, us: seq<Unit>)
    requires s.Scanning? && !s.inString && !s.escape && ValidUnits(us)
    ensures Steps(s, PrintQuoted(us)) == s
  {
    var t := s.(inString := true);
    var text := PrintUnits(us) + "\"";
    assert PrintQuoted(us)[1..] == text;
    StepsAppend(t, PrintUnits(us), "\"");
    InsideString(t, us);
    assert "\""[1..] == "";
  }

  lemma {:induction false} TextNesting(depth: nat, clamped: bool, t: Text)
    requires depth <= MAX_NESTING_DEPTH && ValidText(t)
    ensures Steps(Scanning(depth, false, false, clamped), Print(t)) == After(depth, clamped, Depth(t.value))
    decreases t, 1
  {
    var s := Scanning(depth, false, false, clamped);
    Steps3(s, t.before, PrintValue(t.value), t.after);
    WhitespaceIsNeutral(s, t.before);
    ValueNesting(depth, clamped, t.value);
    if depth + Depth(t.value) <= MAX_NESTING_DEPTH {
      WhitespaceIsNeutral(s, t.after);
    } else {
      TooDeepStays(MAX_NESTING_DEPTH + 1, clamped, t.after);
    }
  }

  lemma Steps3(s: Scan, a: string, b: string, c: string)
    ensures Steps(s, a + b + c) == Steps(Steps(Steps(s, a), b), c)
  {
    StepsAppend(s, a + b, c);
    StepsAppend(s, a, b);
  }

  lemma {:induction false} ValueNesting(depth: nat, clamped: bool, v: Value)
    requires depth <= MAX_NESTING_DEPTH && ValidValue(v)
    ensures Steps(Scanning(depth, false, false, clamped), PrintValue(v)) == After(depth, clamped, Depth(v))
    decreases v, 0
  {
    var s := Scanning(depth, false, false, clamped);
    match v
    case Atom(w) => NeutralText(s, w);
    case Quoted(us) => QuotedStringIsNeutral(s, us);
    case Array(items, gap) =>
      if depth < MAX_NESTING_DEPTH {
        if items == [] {
          WhitespaceIsNeutral(s.(depth := depth + 1), gap);
        } else {
          ItemsNesting(depth + 1, clamped, items);
        }
      }
      Bracketed(depth, clamped, '[', if items == [] then gap else PrintItems(items), ']', DepthOfItems(items));
    case Object(members, gap) =>
      if depth < MAX_NESTING_DEPTH {
        if members == [] {
          WhitespaceIsNeutral(s.(depth := depth + 1), gap);
        } else {
          MembersNesting(depth + 1, clamped, members);
        }
      }
      Bracketed(depth, clamped, '{', if members == [] then gap else PrintMembers(members), '}',
                DepthOfMembers(members));
  }

  /** A container adds one level around an inside of known nesting. */
  lemma Bracketed(depth: nat, clamped: bool, open: char, inside: string, close: char, nesting: nat)
    requires depth <= MAX_NESTING_DEPTH
    requires (open == '[' && close == ']') || (open == '{' && close == '}')
    requires depth < MAX_NESTING_DEPTH ==>
               Steps(Scanning(depth + 1, false, false, clamped), inside) == After(depth + 1, clamped, nesting)
    ensures Steps(Scanning(depth, false, false, clamped), [open] + inside + [close])
            == After(depth, clamped, 1 + nesting)
  {
    var s := Scanning(depth, false, false, clamped);
    Steps3(s, [open], inside, [close]);
    assert [open][1..] == "" && [close][1..] == "";
    if depth == MAX_NESTING_DEPTH || depth + 1 + nesting > MAX_NESTING_DEPTH {
      TooDeepStays(MAX_NESTING_DEPTH + 1, clamped, inside);
      TooDeepStays(MAX_NESTING_DEPTH + 1, clamped, [close]);
    }
  }

  lemma {:induction false} ItemsNesting(depth: nat, clamped: bool, items: seq<Text>)
    requires depth <= MAX_NESTING_DEPTH && items != [] && forall t | t in items :: ValidText(t)
    ensures Steps(Scanning(depth, false, false, clamped), PrintItems(items))
            == After(depth, clamped, DepthOfItems(items))
    decreases items, 0
  {
    var s := Scanning(depth, false, false, clamped);
    TextNesting(depth, clamped, items[0]);
    if |items| > 1 {
      ItemsNesting(depth, clamped, items[1..]);
      Separated(s, Print(items[0]), PrintItems(items[1..]));
    }
  }

  /** A comma between two parts changes nothing; once too deep, the rest is never looked at. */
  lemma Separated(s: Scan, a: string, b: string)
    requires s.Scanning? && !s.inString && !s.escape
    requires Steps(s, a) == s || Steps(s, a).TooDeep?
    ensures Steps(s, a + "," + b) == if Steps(s, a) == s then Steps(s, b) else Steps(s, a)
  {
    Steps3(s, a, ",", b);
    assert ","[1..] == "";
    if Steps(s, a).TooDeep? {
      TooDeepStays(Steps(s, a).depth, Steps(s, a).clamped, ",");
      TooDeepStays(Steps(s, a).depth, Steps(s, a).clamped, b);
    }
  }

  lemma {:induction false} MembersNesting(depth: nat, clamped: bool, members: seq<Member>)
    requires depth <= MAX_NESTING_DEPTH && members != [] && forall m | m in members :: ValidMember(m)
    ensures Steps(Scanning(depth, false, false, clamped), PrintMembers(members))
            == After(depth, clamped, DepthOfMembers(members))
    decreases members, 0
  {
    var s := Scanning(depth, false, false, clamped);
    var m := members[0];
    MemberNameIsNeutral(s, m);
    TextNesting(depth, clamped, m.value);
    if |members| > 1 {
      MembersNesting(depth, clamped, members[1..]);
      Separated(s, PrintMember(m), PrintMembers(members[1..]));
    }
  }

  lemma MemberNameIsNeutral(s: Scan, m: Member)
    requires s.Scanning? && !s.inString && !s.escape && ValidMember(m)
    ensures Steps(s, PrintMember(m)) == Steps(s, Print(m.value))
  {
    Steps3(s, m.before + PrintQuoted(m.name) + m.after, ":", Print(m.value));
    Steps3(s, m.before, PrintQuoted(m.name), m.after);
    WhitespaceIsNeutral(s, m.before);
    QuotedStringIsNeutral(s, m.name);
    WhitespaceIsNeutral(s, m.after);
    assert ":"[1..] == "";
  }

  /** The guard passes a JSON text exactly when its containers nest at most eight deep; when it
      refuses, the depth it names is nine; and no closing bracket ever meets depth zero. */
  lemma ScanDecidesNesting(t: Text)
    requires ValidText(t)
    ensures Depth(t.value) <= 8 ==> Steps(START, Print(t)) == START
    ensures Depth(t.value) > 8 ==> Steps(START, Print(t)) == TooDeep(9, false)
  {
    TextNesting(0, false, t);
  }
}
