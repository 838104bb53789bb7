/** The laws asked of a JSON codec can be met together: a codec that meets them, built from a prefix-free
    spelling of trees in which every JSON object has a tree. */
module CodecWitness {
  import opened Basics
  import opened LoopModel
  import opened Text
  import opened CalText

  datatype Tree = Leaf | Node(left: Tree, right: Tree)

  // --- trees as text ---

  function Spell(t: Tree): string {
    match t
    case Leaf => "0"
    case Node(l, r) => "1" + Spell(l) + Spell(r)
  }

  lemma NodeSpelling(l: Tree, r: Tree, x: string)
    ensures Spell(Node(l, r)) + x == ['1'] + (Spell(l) + (Spell(r) + x))
  {
    Regroup(Spell(l), Spell(r), x);
    assert Spell(Node(l, r)) == "1" + Spell(l) + Spell(r);
    hide Spell;
  }

  lemma Regroup(a: string, b: string, x: string)
    ensures "1" + a + b + x == ['1'] + (a + (b + x))
  {
  }

  lemma SameTail(c: char, x: string, d: char, y: string)
    requires [c] + x == [d] + y
    ensures c == d && x == y
  {
    assert ([c] + x)[0] == c && ([d] + y)[0] == d;
    assert ([c] + x)[1..] == x && ([d] + y)[1..] == y;
  }

  /** No spelling is the beginning of another one. */
  lemma {:induction false} SpellIsPrefixFree(a: Tree, x: string, b: Tree, y: string)
    requires Spell(a) + x == Spell(b) + y
    ensures a == b && x == y
  {
    if a.Node? { NodeSpelling(a.left, a.right, x); }
    if b.Node? { NodeSpelling(b.left, b.right, y); }
    assert Spell(Leaf) == ['0'];
    hide Spell;
    var tailA := if a.Leaf? then x else Spell(a.left) + (Spell(a.right) + x);
    var tailB := if b.Leaf? then y else Spell(b.left) + (Spell(b.right) + y);
    SameTail(if a.Leaf? then '0' else '1', tailA, if b.Leaf? then '0' else '1', tailB);
    if a.Node? {
      SpellIsPrefixFree(a.left, Spell(a.right) + x, b.left, Spell(b.right) + y);
      SpellIsPrefixFree(a.right, x, b.right, y);
    }
  }

  predicate Binary(s: string) {
    forall i | 0 <= i < |s| :: s[i] == '0' || s[i] == '1'
  }

  lemma {:induction false} SpellIsBinary(t: Tree)
    ensures Binary(Spell(t))
  {
    if t.Node? {
      SpellIsBinary(t.left);
      SpellIsBinary(t.right);
    }
  }

  // --- every JSON object has a tree ---

  function NatOf(t: Tree): nat {
    if t.Leaf? then 0 else 1 + NatOf(t.right)
  }

  function IntOf(t: Tree): int {
    match t
    case Leaf => 0
    case Node(sign, size) =>
      var n: int := NatOf(size);
      if sign.Leaf? then n else -n
  }

  function CharOf(t: Tree): char {
    var n := NatOf(t);
    if n < 0xD800 || 0xE000 <= n < 0x11_0000 then n as char else ' '
  }

  function StringOf(t: Tree): string {
    if t.Leaf? then "" else [CharOf(t.left)] + StringOf(t.right)
  }

  function BinaryOf(t: Tree): Binary {
    var s := if t.Leaf? then Scaled(0, 0) else Scaled(IntOf(t.left), IntOf(t.right));
    if LowestTerms(s) then s else Scaled(0, 0)
  }

  function ValueOf(t: Tree): Value
    decreases t, 1
  {
    match t
    case Leaf => Null
    case Node(kind, body) =>
      var k := NatOf(kind);
      if k == 0 then Bool(body.Leaf?)
      else if k == 1 then Int(IntOf(body))
      else if k == 2 then Float(BinaryOf(body))
      else if k == 3 then Str(StringOf(body))
      else if k == 4 then List(ListOf(body))
      else Object(MapOf(body))
  }

  function ListOf(t: Tree): seq<Value>
    decreases t, 0
  {
    if t.Leaf? then [] else [ValueOf(t.left)] + ListOf(t.right)
  }

  function MapOf(t: Tree): map<string, Value>
    decreases t, 0
  {
    if t.Leaf? || t.left.Leaf? then map[]
    else MapOf(t.right)[StringOf(t.left.left) := ValueOf(t.left.right)]
  }

  lemma {:induction false} TreeOfNat(n: nat) returns (t: Tree)
    ensures NatOf(t) == n
  {
    if n == 0 {
      t := Leaf;
    } else {
      var r := TreeOfNat(n - 1);
      t := Node(Leaf, r);
    }
  }

  lemma TreeOfInt(n: int) returns (t: Tree)
    ensures IntOf(t) == n
  {
    var r := TreeOfNat(if n < 0 then -n else n);
    t := Node(if n < 0 then Node(Leaf, Leaf) else Leaf, r);
  }

  lemma {:induction false} TreeOfString(s: string) returns (t: Tree)
    ensures StringOf(t) == s
    decreases s
  {
    if s == "" {
      t := Leaf;
    } else {
      var c := TreeOfNat(s[0] as int);
      var r := TreeOfString(s[1..]);
      t := Node(c, r);
      assert CharOf(c) == s[0];
    }
  }

  lemma {:induction false} TreeOfValue(v: Value) returns (t: Tree)
    ensures ValueOf(t) == v
    decreases v, 1, 0
  {
    var body := Leaf;
    match v {
      case Null =>
        t := Leaf;
        return;
      case Bool(b) => body := if b then Leaf else Node(Leaf, Leaf);
      case Int(i) => body := TreeOfInt(i);
      case Float(s) =>
        var l := TreeOfInt(s.mantissa);
        var r := TreeOfInt(s.exponent);
        body := Node(l, r);
      case Str(s) => body := TreeOfString(s);
      case List(items) => body := TreeOfList(v, items);
      case Object(entries) => body := TreeOfMap(v, entries);
    }
    var kind := TreeOfNat(if v.Bool? then 0 else if v.Int? then 1 else if v.Float? then 2 else if v.Str? then 3
                          else if v.List? then 4 else 5);
    t := Node(kind, body);
  }

  lemma {:induction false} TreeOfList(v: Value, items: seq<Value>) returns (t: Tree)
    requires forall i | 0 <= i < |items| :: items[i] < v
    ensures ListOf(t) == items
    decreases v, 0, |items|
  {
    if items == [] {
      t := Leaf;
    } else {
      var l := TreeOfValue(items[0]);
      var r := TreeOfList(v, items[1..]);
      t := Node(l, r);
    }
  }

  lemma {:induction false} TreeOfMap(v: Value, entries: map<string, Value>) returns (t: Tree)
    requires forall k | k in entries :: entries[k] < v
    ensures MapOf(t) == entries
    decreases v, 0, |entries|
  {
    if entries == map[] {
      t := Leaf;
    } else {
      var k :| k in entries;
      var key := TreeOfString(k);
      var value := TreeOfValue(entries[k]);
      var rest := entries - {k};
      assert |rest| < |entries| by {
        assert rest.Keys == entries.Keys - {k};
        assert |rest| == |rest.Keys| && |entries| == |entries.Keys|;
      }
      var r := TreeOfMap(v, rest);
      t := Node(Node(key, value), r);
      assert entries == rest[k := entries[k]];
    }
  }

  // --- the codec ---

  lemma ObjectHasTree(entries: map<string, Value>)
    ensures exists t :: MapOf(t) == entries
  {
    var t := TreeOfMap(Object(entries), entries);
  }

  ghost function TreeFor(entries: map<string, Value>): (t: Tree)
    ensures MapOf(t) == entries
  {
    ObjectHasTree(entries);
    var t :| MapOf(t) == entries;
    t
  }

  /** A tree spelled between braces. */
  function Braced(t: Tree): string {
    "{" + Spell(t) + "}"
  }

  ghost function Write(f: Fields): string {
    Braced(TreeFor(f.entries))
  }

  ghost function Parse(s: string): Option<Fields> {
    if exists t :: Braced(t) == s then
      var t :| Braced(t) == s;
      Some(Fields(MapOf(t), None, None))
    else None
  }

  lemma BracedSpelling(t: Tree)
    ensures Braced(t) == ['{'] + (Spell(t) + "}")
  {
    hide Spell;
  }

  lemma BracedIsInjective(a: Tree, b: Tree)
    requires Braced(a) == Braced(b)
    ensures a == b
  {
    BracedSpelling(a);
    BracedSpelling(b);
    hide Spell, Braced;
    SameTail('{', Spell(a) + "}", '{', Spell(b) + "}");
    SpellIsPrefixFree(a, "}", b, "}");
  }

  lemma BracedIsText(spelling: string)
    requires Binary(spelling)
    ensures ObjectText("{" + spelling + "}")
    ensures var s := "{" + spelling + "}"; forall i | 0 < i < |s| :: s[i] != '{'
  {
    var s := "{" + spelling + "}";
    assert |s| == |spelling| + 2 && s[0] == '{' && s[|s| - 1] == '}';
    forall i | 0 < i < |s| - 1 ensures s[i] == '0' || s[i] == '1' {
      assert s[i] == spelling[i - 1];
    }
  }

  lemma BracedIsObjectText(t: Tree)
    ensures ObjectText(Braced(t))
    ensures forall i | 0 < i < |Braced(t)| :: Braced(t)[i] != '{'
  {
    SpellIsBinary(t);
    BracedIsText(Spell(t));
    hide Spell;
  }

  lemma WrittenIsRead(f: Fields)
    ensures Parse(Write(f)).Some? && Parse(Write(f)).value.entries == f.entries
  {
    assert Braced(TreeFor(f.entries)) == Write(f);
    var t :| Braced(t) == Write(f) && Parse(Write(f)) == Some(Fields(MapOf(t), None, None));
    BracedIsInjective(t, TreeFor(f.entries));
  }

  lemma ReadIsBraced(s: string) returns (t: Tree)
    requires Parse(s).Some?
    ensures Braced(t) == s
  {
    t :| Braced(t) == s;
  }

  lemma OpenBraceStaysOpen(s: string, t: string)
    requires s != "" && s[0] == '{' && Parse(t).Some?
    ensures Parse(s + t).None?
  {
    var a := ReadIsBraced(t);
    assert (s + t)[|s|] == Braced(a)[0] == '{';
    forall b ensures Braced(b) != s + t {
      BracedIsObjectText(b);
    }
  }

  /** Some codec meets all the laws. */
  lemma LawsCanBeMet()
    ensures exists js: Codec :: js.Lawful()
  {
    var js := Codec((f: Fields) => Write(f), (s: string) => Parse(s));
    forall f ensures js.parse(js.write(f)).Some? && js.parse(js.write(f)).value.entries == f.entries
      && ObjectText(js.write(f)) {
      WrittenIsRead(f);
      BracedIsObjectText(TreeFor(f.entries));
    }
    forall s | js.parse(s).Some? ensures s != "" && s[0] == '{' {
      var t := ReadIsBraced(s);
    }
    forall s, t | s != "" && s[0] == '{' && js.parse(t).Some? ensures js.parse(s + t).None? {
      OpenBraceStaysOpen(s, t);
    }
    assert js.Lawful();
  }
}
