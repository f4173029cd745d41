/**
 * JSON values, their text, and what that text determines.
 *
 * Text is a sequence of UTF-16 code units: sorting, escaping and lone surrogates are decided by code unit.
 */
module Json {
  type Unit = u: int | 0 <= u < 0x1_0000

  type Text = seq<Unit>

  /** A number is kept as its shortest decimal text; an object as its properties in enumeration order. */
  datatype Json =
    | Null
    | Bool(flag: bool)
    | Number(digits: Text)
    | Str(text: Text)
    | Arr(items: seq<Json>)
    | Obj(fields: seq<Field>)

  datatype Field = Field(key: Text, value: Json)

  /** A literal of the source, as code units. */
  function Units(s: string): Text {
    seq(|s|, i requires 0 <= i < |s| => if s[i] < '\U{10000}' then s[i] as int else 0)
  }

  const QUOTE: Unit := 34
  const BACKSLASH: Unit := 92
  const COMMA: Unit := 44
  const COLON: Unit := 58
  const LBRACKET: Unit := 91
  const RBRACKET: Unit := 93
  const LBRACE: Unit := 123
  const RBRACE: Unit := 125
  const LOWER_U: Unit := 117

  predicate IsNumberUnit(u: Unit) { 48 <= u <= 57 || u == 45 || u == 43 || u == 46 || u == 101 }

  predicate IsNumberText(t: Text) {
    |t| > 0 && (48 <= t[0] <= 57 || t[0] == 45) && forall i :: 0 <= i < |t| ==> IsNumberUnit(t[i])
  }

  predicate DistinctKeys(fields: seq<Field>) {
    forall i, j :: 0 <= i < j < |fields| ==> fields[i].key != fields[j].key
  }

  predicate WellFormed(v: Json)
    decreases v
  {
    match v
    case Number(t) => IsNumberText(t)
    case Arr(items) => forall i :: 0 <= i < |items| ==> WellFormed(items[i])
    case Obj(fields) => DistinctKeys(fields) && forall i :: 0 <= i < |fields| ==> WellFormedField(fields[i])
    case _ => true
  }

  predicate WellFormedField(f: Field)
    decreases f
  {
    WellFormed(f.value)
  }

  // ----- strings

  predicate IsHigh(u: Unit) { 0xD800 <= u <= 0xDBFF }
  predicate IsLow(u: Unit) { 0xDC00 <= u <= 0xDFFF }

  /** A surrogate with no partner beside it. */
  predicate IsLone(s: Text, i: nat)
    requires i < |s|
  {
    || (IsHigh(s[i]) && !(i + 1 < |s| && IsLow(s[i + 1])))
    || (IsLow(s[i]) && !(i > 0 && IsHigh(s[i - 1])))
  }

  function HexDigit(d: nat): Unit
    requires d < 16
  {
    if d < 10 then 48 + d else 87 + d
  }

  function HexValue(u: Unit): int { if u >= 97 then u - 87 else u - 48 }

  function UnicodeEscape(u: Unit): Text {
    var high := u / 16 / 16;
    [BACKSLASH, LOWER_U, HexDigit(high / 16), HexDigit(high % 16), HexDigit(u / 16 % 16), HexDigit(u % 16)]
  }

  function Chunk(s: Text, i: nat): (c: Text)
    requires i < |s|
    ensures |c| > 0
  {
    var u := s[i];
    if u == 8 then [BACKSLASH, 98]
    else if u == 9 then [BACKSLASH, 116]
    else if u == 10 then [BACKSLASH, 110]
    else if u == 12 then [BACKSLASH, 102]
    else if u == 13 then [BACKSLASH, 114]
    else if u == QUOTE || u == BACKSLASH then [BACKSLASH, u]
    else if u < 32 || IsLone(s, i) then UnicodeEscape(u)
    else [u]
  }

  function EscapeFrom(s: Text, i: nat): Text
    requires i <= |s|
    decreases |s| - i
  {
    if i == |s| then [QUOTE] else Chunk(s, i) + EscapeFrom(s, i + 1)
  }

  function Quoted(s: Text): Text { [QUOTE] + EscapeFrom(s, 0) }

  function Unescape(u: Unit): Unit {
    if u == 98 then 8 else if u == 116 then 9 else if u == 110 then 10 else if u == 102 then 12
    else if u == 114 then 13 else u
  }

  /** Reads units up to the closing quote: what they spell, and what follows the quote. */
  function ReadString(x: Text): (Text, Text) {
    if x == [] then ([], [])
    else if x[0] == QUOTE then ([], x[1..])
    else
      var (unit, rest) := ReadUnit(x);
      var (spelled, after) := ReadString(rest);
      ([unit] + spelled, after)
  }

  function ReadUnit(x: Text): (r: (Unit, Text))
    requires x != []
    ensures |r.1| < |x|
  {
    if x[0] != BACKSLASH || |x| < 2 then (x[0], x[1..])
    else if x[1] == LOWER_U && |x| >= 6 then
      var u := HexValue(x[2]) * 4096 + HexValue(x[3]) * 256 + HexValue(x[4]) * 16 + HexValue(x[5]);
      (if 0 <= u < 0x1_0000 then u else 0, x[6..])
    else (Unescape(x[1]), x[2..])
  }

  lemma UnicodeEscapeReadsBack(u: Unit, tail: Text)
    ensures UnicodeEscape(u)[0] == BACKSLASH
    ensures ReadUnit(UnicodeEscape(u) + tail) == (u, tail)
  {
    hide HexDigit, HexValue;
    var x := UnicodeEscape(u) + tail;
    assert x[6..] == tail;
    HexReadsBack(u / 16 / 16 / 16);
    HexReadsBack(u / 16 / 16 % 16);
    HexReadsBack(u / 16 % 16);
    HexReadsBack(u % 16);
    NibblesMakeUnit(u, u / 16, u / 16 / 16, u / 16 / 16 / 16);
  }

  lemma HexReadsBack(d: nat)
    requires d < 16
    ensures HexValue(HexDigit(d)) == d
  {}

  lemma NibblesMakeUnit(u: nat, a: nat, b: nat, c: nat)
    requires a == u / 16 && b == a / 16 && c == b / 16
    ensures c * 4096 + b % 16 * 256 + a % 16 * 16 + u % 16 == u
  {
    assert u == a * 16 + u % 16 && a == b * 16 + a % 16 && b == c * 16 + b % 16;
  }

  lemma ChunkReadsBack(s: Text, i: nat, tail: Text)
    requires i < |s|
    ensures Chunk(s, i)[0] != QUOTE && ReadUnit(Chunk(s, i) + tail) == (s[i], tail)
  {
    hide IsLone, UnicodeEscape;
    var c := Chunk(s, i);
    assert (c + tail)[|c|..] == tail;
    if c == UnicodeEscape(s[i]) { UnicodeEscapeReadsBack(s[i], tail); }
  }

  lemma {:induction false} StringReadsBack(s: Text, i: nat, tail: Text)
    requires i <= |s|
    ensures ReadString(EscapeFrom(s, i) + tail) == (s[i..], tail)
    decreases |s| - i
  {
    hide Chunk, ReadUnit;
    if i == |s| {
      assert ([QUOTE] + tail)[1..] == tail;
    } else {
      var rest := EscapeFrom(s, i + 1) + tail;
      assert EscapeFrom(s, i) + tail == Chunk(s, i) + rest;
      ChunkReadsBack(s, i, rest);
      StringReadsBack(s, i + 1, tail);
      assert (Chunk(s, i) + rest)[0] == Chunk(s, i)[0];
      assert s[i..] == [s[i]] + s[i + 1..];
    }
  }

  // ----- whole values

  function Write(v: Json): (t: Text)
    decreases v
  {
    match v
    case Null => [110, LOWER_U, 108, 108]
    case Bool(flag) => if flag then [116, 114, LOWER_U, 101] else [102, 97, 108, 115, 101]
    case Number(digits) => digits
    case Str(text) => Quoted(text)
    case Arr(items) => [LBRACKET] + WriteItems(items, true)
    case Obj(fields) => [LBRACE] + WriteFields(fields, true)
  }

  function Separator(first: bool): Text { if first then [] else [COMMA] }

  function WriteItems(items: seq<Json>, first: bool): Text
    decreases items
  {
    if items == [] then [RBRACKET] else Separator(first) + (Write(items[0]) + WriteItems(items[1..], false))
  }

  function WriteField(f: Field): Text
    decreases f
  {
    Quoted(f.key) + ([COLON] + Write(f.value))
  }

  function WriteFields(fields: seq<Field>, first: bool): Text
    decreases fields
  {
    if fields == [] then [RBRACE] else Separator(first) + (WriteField(fields[0]) + WriteFields(fields[1..], false))
  }

  /** What may follow a value: the end, a separator or a closing mark, so a number's text ends there. */
  predicate Ends(tail: Text) { tail == [] || !IsNumberUnit(tail[0]) }

  /** The first unit of a value's text tells which kind of value it is. */
  function Lead(v: Json): Unit
    requires v.Number? ==> |v.digits| > 0
  {
    match v
    case Null => 110
    case Bool(flag) => if flag then 116 else 102
    case Number(digits) => digits[0]
    case Str(_) => QUOTE
    case Arr(_) => LBRACKET
    case Obj(_) => LBRACE
  }

  lemma WriteLeads(v: Json)
    requires WellFormed(v)
    ensures |Write(v)| > 0 && Write(v)[0] == Lead(v)
  {}

  lemma CancelPrefix(p: Text, x: Text, y: Text)
    requires p + x == p + y
    ensures x == y
  {
    assert x == (p + x)[|p|..];
    assert y == (p + y)[|p|..];
  }

  lemma StringTextIsPrefixFree(a: Text, b: Text, x: Text, y: Text)
    requires Quoted(a) + x == Quoted(b) + y
    ensures a == b && x == y
  {
    hide EscapeFrom, ReadString;
    assert Quoted(a) + x == [QUOTE] + (EscapeFrom(a, 0) + x);
    assert Quoted(b) + y == [QUOTE] + (EscapeFrom(b, 0) + y);
    CancelPrefix([QUOTE], EscapeFrom(a, 0) + x, EscapeFrom(b, 0) + y);
    StringReadsBack(a, 0, x);
    StringReadsBack(b, 0, y);
  }

  lemma NumberTextEnds(a: Text, b: Text, x: Text, y: Text)
    requires IsNumberText(a) && IsNumberText(b) && Ends(x) && Ends(y)
    requires a + x == b + y
    ensures a == b && x == y
  {
    assert |x| > 0 ==> (a + x)[|a|] == x[0];
    assert |y| > 0 ==> (b + y)[|b|] == y[0];
    assert a == (a + x)[..|a|] == (b + y)[..|b|] == b;
    CancelPrefix(a, x, y);
  }

  /** No text of a value continues into the text of another one: equal texts mean equal values. */
  lemma {:induction false} TextIsPrefixFree(a: Json, b: Json, x: Text, y: Text)
    requires WellFormed(a) && WellFormed(b) && Ends(x) && Ends(y)
    requires Write(a) + x == Write(b) + y
    ensures a == b && x == y
    decreases a
  {
    hide EscapeFrom;
    WriteLeads(a);
    WriteLeads(b);
    assert Lead(a) == (Write(a) + x)[0] == (Write(b) + y)[0] == Lead(b);
    match a
    case Number(s) =>
      assert b.Number?;
      NumberTextEnds(s, b.digits, x, y);
    case Str(s) =>
      assert b.Str?;
      StringTextIsPrefixFree(s, b.text, x, y);
    case Arr(items) =>
      assert b.Arr?;
      assert Write(a) + x == [LBRACKET] + (WriteItems(items, true) + x);
      assert Write(b) + y == [LBRACKET] + (WriteItems(b.items, true) + y);
      CancelPrefix([LBRACKET], WriteItems(items, true) + x, WriteItems(b.items, true) + y);
      ItemsArePrefixFree(items, b.items, true, x, y);
    case Obj(fields) =>
      assert b.Obj?;
      assert Write(a) + x == [LBRACE] + (WriteFields(fields, true) + x);
      assert Write(b) + y == [LBRACE] + (WriteFields(b.fields, true) + y);
      CancelPrefix([LBRACE], WriteFields(fields, true) + x, WriteFields(b.fields, true) + y);
      FieldsArePrefixFree(fields, b.fields, true, x, y);
    case _ =>
      assert a == b;
      CancelPrefix(Write(a), x, y);
  }

  lemma ItemsTextShape(items: seq<Json>, first: bool, x: Text)
    requires forall i :: 0 <= i < |items| ==> WellFormed(items[i])
    ensures WriteItems(items, first) != []
    ensures Ends(WriteItems(items, false) + x)
    ensures (WriteItems(items, first) + x)[0] == RBRACKET <==> items == []
    ensures items != [] ==>
      WriteItems(items, first) + x == Separator(first) + (Write(items[0]) + (WriteItems(items[1..], false) + x))
  {
    hide Write;
    if items != [] {
      WriteLeads(items[0]);
      JoinShape(Separator(first), Write(items[0]), WriteItems(items[1..], false), x);
    }
  }

  lemma JoinShape(separator: Text, head: Text, rest: Text, x: Text)
    requires |head| > 0
    ensures separator + (head + rest) + x == separator + (head + (rest + x))
    ensures (separator + (head + rest) + x)[0] == if separator == [] then head[0] else separator[0]
  {}

  lemma {:induction false} ItemsArePrefixFree(a: seq<Json>, b: seq<Json>, first: bool, x: Text, y: Text)
    requires forall i :: 0 <= i < |a| ==> WellFormed(a[i])
    requires forall i :: 0 <= i < |b| ==> WellFormed(b[i])
    requires WriteItems(a, first) + x == WriteItems(b, first) + y
    ensures a == b && x == y
    decreases a
  {
    ItemsTextShape(a, first, x);
    ItemsTextShape(b, first, y);
    if a == [] {
      CancelPrefix([RBRACKET], x, y);
    } else {
      var p, q := WriteItems(a[1..], false) + x, WriteItems(b[1..], false) + y;
      CancelPrefix(Separator(first), Write(a[0]) + p, Write(b[0]) + q);
      ItemsTextShape(a[1..], false, x);
      ItemsTextShape(b[1..], false, y);
      TextIsPrefixFree(a[0], b[0], p, q);
      ItemsArePrefixFree(a[1..], b[1..], false, x, y);
      assert a == [a[0]] + a[1..] && b == [b[0]] + b[1..];
    }
  }

  lemma FieldsTextShape(fields: seq<Field>, first: bool, x: Text)
    ensures WriteFields(fields, first) != []
    ensures Ends(WriteFields(fields, false) + x)
    ensures (WriteFields(fields, first) + x)[0] == RBRACE <==> fields == []
    ensures fields != [] ==>
      WriteFields(fields, first) + x == Separator(first) + (WriteField(fields[0]) + (WriteFields(fields[1..], false) + x))
  {}

  lemma {:induction false} FieldsArePrefixFree(a: seq<Field>, b: seq<Field>, first: bool, x: Text, y: Text)
    requires forall i :: 0 <= i < |a| ==> WellFormedField(a[i])
    requires forall i :: 0 <= i < |b| ==> WellFormedField(b[i])
    requires WriteFields(a, first) + x == WriteFields(b, first) + y
    ensures a == b && x == y
    decreases a
  {
    hide EscapeFrom, Quoted;
    FieldsTextShape(a, first, x);
    FieldsTextShape(b, first, y);
    if a == [] {
      CancelPrefix([RBRACE], x, y);
    } else {
      var p, q := WriteFields(a[1..], false) + x, WriteFields(b[1..], false) + y;
      CancelPrefix(Separator(first), WriteField(a[0]) + p, WriteField(b[0]) + q);
      FieldsTextShape(a[1..], false, x);
      FieldsTextShape(b[1..], false, y);
      FieldIsPrefixFree(a[0], b[0], p, q);
      FieldsArePrefixFree(a[1..], b[1..], false, x, y);
      assert a == [a[0]] + a[1..] && b == [b[0]] + b[1..];
    }
  }

  lemma {:induction false} FieldIsPrefixFree(a: Field, b: Field, x: Text, y: Text)
    requires WellFormedField(a) && WellFormedField(b) && Ends(x) && Ends(y)
    requires WriteField(a) + x == WriteField(b) + y
    ensures a == b && x == y
    decreases a
  {
    hide EscapeFrom, Quoted, Write;
    var p, q := Write(a.value) + x, Write(b.value) + y;
    assert WriteField(a) + x == Quoted(a.key) + ([COLON] + p);
    assert WriteField(b) + y == Quoted(b.key) + ([COLON] + q);
    StringTextIsPrefixFree(a.key, b.key, [COLON] + p, [COLON] + q);
    CancelPrefix([COLON], p, q);
    TextIsPrefixFree(a.value, b.value, x, y);
  }

  /** Text written without spaces determines the value it was written from. */
  lemma WriteIsInjective(a: Json, b: Json)
    requires WellFormed(a) && WellFormed(b)
    ensures Write(a) == Write(b) <==> a == b
  {
    hide Write;
    if Write(a) == Write(b) {
      assert Write(a) + [] == Write(b) + [];
      TextIsPrefixFree(a, b, [], []);
    }
  }

  // ----- what a value says, object order aside

  /** The value with every object as the finite map it stands for. */
  datatype Tree =
    | NullTree
    | BoolTree(flag: bool)
    | NumberTree(digits: Text)
    | StrTree(text: Text)
    | ArrTree(items: seq<Tree>)
    | ObjTree(fields: map<Text, Tree>)

  function Denote(v: Json): Tree
    decreases v
  {
    match v
    case Null => NullTree
    case Bool(flag) => BoolTree(flag)
    case Number(digits) => NumberTree(digits)
    case Str(text) => StrTree(text)
    case Arr(items) => ArrTree(seq(|items|, i requires 0 <= i < |items| => Denote(items[i])))
    case Obj(fields) => ObjTree(DenoteFields(fields))
  }

  function DenoteField(f: Field): Tree
    decreases f
  {
    Denote(f.value)
  }

  function DenoteFields(fields: seq<Field>): map<Text, Tree>
    decreases fields
  {
    if fields == [] then map[] else DenoteFields(fields[1..])[fields[0].key := DenoteField(fields[0])]
  }

  predicate HasKey(fields: seq<Field>, key: Text) {
    exists i :: 0 <= i < |fields| && fields[i].key == key
  }

  lemma {:induction false} DenoteFieldsIs(fields: seq<Field>)
    requires DistinctKeys(fields)
    ensures forall i :: 0 <= i < |fields| ==>
      fields[i].key in DenoteFields(fields) && DenoteFields(fields)[fields[i].key] == Denote(fields[i].value)
    ensures forall k :: k in DenoteFields(fields) <==> HasKey(fields, k)
  {
    hide Denote;
    if fields != [] {
      var rest := fields[1..];
      DenoteFieldsIs(rest);
      assert forall i :: 1 <= i < |fields| ==> fields[i] == rest[i - 1];
      forall k ensures k in DenoteFields(fields) <==> HasKey(fields, k) {
        if HasKey(fields, k) {
          var i :| 0 <= i < |fields| && fields[i].key == k;
          if i > 0 { assert rest[i - 1].key == k; }
        }
        if HasKey(rest, k) {
          var i :| 0 <= i < |rest| && rest[i].key == k;
          assert fields[i + 1].key == k;
        }
        assert fields[0].key == k ==> HasKey(fields, k);
      }
    }
  }
}
