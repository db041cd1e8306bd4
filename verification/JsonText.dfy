/**
 JSON values, their printed text, and unique readability: one text is the text of at most
 one value.
 */
module JsonText {
  import opened Common
  import opened BaseUnit

  datatype List<+T> = Nil | Cons(head: T, tail: List<T>)

  datatype Field = Field(key: string, value: Json)

  /**
   A JavaScript value as the serializers meet it. A finite number is given by its own
   decimal literal; `Undefined` in an array is an empty slot.
   */
  datatype Json =
    | Null
    | Bool(b: bool)
    | Num(literal: string)
    | NonFinite
    | Str(s: string)
    | Date(iso: string)
    | Undefined
    | Arr(items: List<Json>)
    | Obj(fields: List<Field>)

  // ----- text -----

  function HexChar(d: nat): char
    requires d < 16
  {
    if d < 10 then DigitChar(d) else ('a' as int + d - 10) as char
  }

  /** The letter of a two-character escape, if the character has one. */
  function ShortEscape(c: char): Option<char> {
    if c == '"' then Some('"')
    else if c == '\\' then Some('\\')
    else if c == '\U{8}' then Some('b')
    else if c == '\U{C}' then Some('f')
    else if c == '\n' then Some('n')
    else if c == '\r' then Some('r')
    else if c == '\t' then Some('t')
    else None
  }

  function Escape(c: char): string {
    if ShortEscape(c).Some? then ['\\', ShortEscape(c).value]
    else if c < ' ' then ['\\', 'u', '0', '0', HexChar(c as int / 16), HexChar(c as int % 16)]
    else [c]
  }

  function EscapeAll(s: string): string {
    if s == "" then "" else Escape(s[0]) + EscapeAll(s[1..])
  }

  /** `JSON.stringify` of a string. */
  function Quote(s: string): string {
    ['"'] + EscapeAll(s) + ['"']
  }

  function Print(v: Json): string {
    match v
    case Null => "null"
    case NonFinite => "null"
    case Bool(b) => if b then "true" else "false"
    case Num(literal) => literal
    case Str(s) => Quote(s)
    case Date(iso) => Quote(iso)
    case Undefined => ""
    case Arr(items) => ['['] + PrintItems(items) + [']']
    case Obj(fields) => ['{'] + PrintFields(fields) + ['}']
  }

  function PrintItems(items: List<Json>): string {
    match items
    case Nil => ""
    case Cons(v, rest) => Print(v) + if rest.Nil? then "" else [','] + PrintItems(rest)
  }

  function PrintFields(fields: List<Field>): string {
    match fields
    case Nil => ""
    case Cons(f, rest) => Quote(f.key) + [':'] + Print(f.value) + if rest.Nil? then "" else [','] + PrintFields(rest)
  }

  // ----- the values a text is read back to -----

  predicate NumberChar(c: char) {
    IsDigit(c) || c == '-' || c == '+' || c == '.' || c == 'e' || c == 'E'
  }

  predicate IsLiteral(s: string) {
    s != "" && (IsDigit(s[0]) || s[0] == '-') && forall i :: 0 <= i < |s| ==> NumberChar(s[i])
  }

  /** Plain values: no date or non-finite number left, and no array of exactly one empty slot. */
  predicate Readable(v: Json) {
    match v
    case Num(literal) => IsLiteral(literal)
    case NonFinite => false
    case Date(_) => false
    case Arr(items) => items != Cons(Undefined, Nil) && ReadableItems(items)
    case Obj(fields) => ReadableFields(fields)
    case _ => true
  }

  predicate ReadableItems(items: List<Json>) {
    match items
    case Nil => true
    case Cons(v, rest) => Readable(v) && ReadableItems(rest)
  }

  predicate ReadableFields(fields: List<Field>) {
    match fields
    case Nil => true
    case Cons(f, rest) => Readable(f.value) && !f.value.Undefined? && ReadableFields(rest)
  }

  // ----- unique readability -----

  /** What may follow a value inside a text. */
  predicate Ends(x: string) {
    x == "" || x[0] == ',' || x[0] == ']' || x[0] == '}'
  }

  lemma EscapeUnique(c: char, d: char, x: string, y: string)
    requires Escape(c) + x == Escape(d) + y
    ensures c == d && x == y
  {
    var s, t := Escape(c) + x, Escape(d) + y;
    assert s[0] == Escape(c)[0] && t[0] == Escape(d)[0];
    if s[0] == '\\' {
      assert s[1] == Escape(c)[1] && t[1] == Escape(d)[1];
      if ShortEscape(c).None? {
        assert s[4] == Escape(c)[4] && s[5] == Escape(c)[5] && t[4] == Escape(d)[4] && t[5] == Escape(d)[5];
      }
    }
    assert x == s[|Escape(c)|..] && y == t[|Escape(d)|..];
  }

  lemma BodySplit(a: string, x: string)
    requires a != ""
    ensures EscapeAll(a) + ['"'] + x == Escape(a[0]) + (EscapeAll(a[1..]) + ['"'] + x)
  {
  }

  lemma BodyStarts(a: string, x: string)
    ensures (EscapeAll(a) + ['"'] + x)[0] == '"' <==> a == ""
  {
    if a != "" {
      assert (EscapeAll(a) + ['"'] + x)[0] == Escape(a[0])[0];
    }
  }

  lemma {:induction false} QuoteBodyUnique(a: string, b: string, x: string, y: string)
    requires EscapeAll(a) + ['"'] + x == EscapeAll(b) + ['"'] + y
    ensures a == b && x == y
  {
    var s, t := EscapeAll(a) + ['"'] + x, EscapeAll(b) + ['"'] + y;
    BodyStarts(a, x);
    BodyStarts(b, y);
    if a == "" {
      assert x == s[1..] && y == t[1..];
    } else {
      BodySplit(a, x);
      BodySplit(b, y);
      EscapeUnique(a[0], b[0], EscapeAll(a[1..]) + ['"'] + x, EscapeAll(b[1..]) + ['"'] + y);
      QuoteBodyUnique(a[1..], b[1..], x, y);
      assert a == [a[0]] + a[1..] && b == [b[0]] + b[1..];
    }
  }

  lemma QuoteUnique(a: string, b: string, x: string, y: string)
    requires Quote(a) + x == Quote(b) + y
    ensures a == b && x == y
  {
    assert (Quote(a) + x)[1..] == EscapeAll(a) + ['"'] + x;
    assert (Quote(b) + y)[1..] == EscapeAll(b) + ['"'] + y;
    QuoteBodyUnique(a, b, x, y);
  }

  lemma NextIsNumber(a: string, b: string, x: string, y: string)
    requires IsLiteral(b) && |a| < |b| && a + x == b + y
    ensures x != "" && NumberChar(x[0])
  {
    assert (a + x)[|a|] == x[0] && (b + y)[|a|] == b[|a|];
  }

  lemma LiteralUnique(a: string, b: string, x: string, y: string)
    requires IsLiteral(a) && IsLiteral(b) && Ends(x) && Ends(y) && a + x == b + y
    ensures a == b && x == y
  {
    var s, t := a + x, b + y;
    if |a| < |b| {
      NextIsNumber(a, b, x, y);
    } else if |b| < |a| {
      NextIsNumber(b, a, y, x);
    }
    assert a == s[..|a|] && b == t[..|b|] && x == s[|a|..] && y == t[|b|..];
  }

  datatype Kind = KNull | KTrue | KFalse | KNum | KStr | KArr | KObj | KEnd

  function KindOfChar(c: char): Kind {
    if c == 'n' then KNull else if c == 't' then KTrue else if c == 'f' then KFalse
    else if IsDigit(c) || c == '-' then KNum
    else if c == '"' then KStr else if c == '[' then KArr else if c == '{' then KObj else KEnd
  }

  function KindOf(v: Json): Kind {
    match v
    case Null => KNull
    case NonFinite => KNull
    case Bool(b) => if b then KTrue else KFalse
    case Num(_) => KNum
    case Str(_) => KStr
    case Date(_) => KStr
    case Undefined => KEnd
    case Arr(_) => KArr
    case Obj(_) => KObj
  }

  /** The first character tells what kind of value, or end of value, follows. */
  lemma FirstTells(v: Json, x: string)
    requires Readable(v) && Ends(x)
    ensures Print(v) + x == "" ==> v.Undefined?
    ensures Print(v) + x != "" ==> KindOfChar((Print(v) + x)[0]) == KindOf(v)
  {
    if v.Undefined? {
      assert Print(v) + x == x;
    } else {
      assert (Print(v) + x)[0] == Print(v)[0];
    }
  }

  /** What follows the head of an array, up to and past its closing bracket. */
  function ItemsTail(rest: List<Json>, x: string): string {
    if rest.Nil? then [']'] + x else [','] + (PrintItems(rest) + ([']'] + x))
  }

  function FieldsTail(rest: List<Field>, x: string): string {
    if rest.Nil? then ['}'] + x else [','] + (PrintFields(rest) + (['}'] + x))
  }

  lemma Regroup(a: string, b: string, c: string, d: string, e: string)
    ensures a + b + c + d + e == a + (b + (c + (d + e)))
  {
  }

  lemma Associate(a: string, b: string, c: string)
    ensures a + b + c == a + (b + c)
  {
  }

  lemma Peel(open: char, close: char, a: string, b: string, x: string, y: string)
    requires [open] + a + [close] + x == [open] + b + [close] + y
    ensures a + ([close] + x) == b + ([close] + y)
  {
    assert a + ([close] + x) == ([open] + a + [close] + x)[1..];
    assert b + ([close] + y) == ([open] + b + [close] + y)[1..];
  }

  lemma ItemsSplit(items: List<Json>, x: string)
    requires items.Cons?
    ensures PrintItems(items) + ([']'] + x) == Print(items.head) + ItemsTail(items.tail, x)
    ensures Ends(ItemsTail(items.tail, x))
  {
    var p := Print(items.head);
    if items.tail.Cons? {
      var q := PrintItems(items.tail);
      assert p + ([','] + q) + ([']'] + x) == p + ([','] + (q + ([']'] + x)));
    } else {
      assert PrintItems(items) == p;
    }
  }

  lemma FieldsSplit(fields: List<Field>, x: string)
    requires fields.Cons?
    ensures PrintFields(fields) + (['}'] + x) ==
            Quote(fields.head.key) + ([':'] + (Print(fields.head.value) + FieldsTail(fields.tail, x)))
    ensures Ends(FieldsTail(fields.tail, x))
  {
    var k, p := Quote(fields.head.key), Print(fields.head.value);
    var more := if fields.tail.Nil? then "" else [','] + PrintFields(fields.tail);
    assert PrintFields(fields) == k + [':'] + p + more;
    Regroup(k, [':'], p, more, ['}'] + x);
    assert more + (['}'] + x) == FieldsTail(fields.tail, x) by {
      if fields.tail.Cons? {
        Associate([','], PrintFields(fields.tail), ['}'] + x);
      }
    }
  }

  lemma SameKind(v: Json, w: Json, x: string, y: string)
    requires Readable(v) && Readable(w) && Ends(x) && Ends(y) && Print(v) + x == Print(w) + y
    ensures KindOf(v) == KindOf(w)
  {
    FirstTells(v, x);
    FirstTells(w, y);
  }

  lemma ScalarUnique(v: Json, w: Json, x: string, y: string)
    requires Readable(v) && Readable(w) && Ends(x) && Ends(y) && Print(v) + x == Print(w) + y
    requires KindOf(v) == KindOf(w) && !v.Arr? && !v.Obj?
    ensures v == w && x == y
  {
    if v.Num? {
      LiteralUnique(v.literal, w.literal, x, y);
    } else if v.Str? {
      QuoteUnique(v.s, w.s, x, y);
    } else {
      assert x == (Print(v) + x)[|Print(v)|..] && y == (Print(w) + y)[|Print(w)|..];
    }
  }

  /** Equal texts, with nothing but the ends of values after them, are texts of equal values. */
  lemma {:induction false} PrintUnique(v: Json, w: Json, x: string, y: string)
    requires Readable(v) && Readable(w) && Ends(x) && Ends(y) && Print(v) + x == Print(w) + y
    ensures v == w && x == y
    decreases v, 1
  {
    SameKind(v, w, x, y);
    match v
    case Arr(items) =>
      Peel('[', ']', PrintItems(items), PrintItems(w.items), x, y);
      ArraysUnique(items, w.items, x, y);
    case Obj(fields) =>
      Peel('{', '}', PrintFields(fields), PrintFields(w.fields), x, y);
      ObjectsUnique(fields, w.fields, x, y);
    case _ => ScalarUnique(v, w, x, y);
  }

  /** A non-empty array does not look like an empty one. */
  lemma ArrayStarts(items: List<Json>, x: string)
    requires items != Cons(Undefined, Nil) && ReadableItems(items)
    ensures (PrintItems(items) + ([']'] + x))[0] == ']' <==> items.Nil?
  {
    if items.Cons? {
      ItemsSplit(items, x);
      FirstTells(items.head, ItemsTail(items.tail, x));
      if items.head.Undefined? {
        assert Print(items.head) + ItemsTail(items.tail, x) == ItemsTail(items.tail, x);
      }
    }
  }

  lemma {:induction false} ArraysUnique(vs: List<Json>, ws: List<Json>, x: string, y: string)
    requires ReadableItems(vs) && ReadableItems(ws)
    requires vs != Cons(Undefined, Nil) && ws != Cons(Undefined, Nil)
    requires PrintItems(vs) + ([']'] + x) == PrintItems(ws) + ([']'] + y)
    ensures vs == ws && x == y
    decreases vs, 1
  {
    ArrayStarts(vs, x);
    ArrayStarts(ws, y);
    if vs.Nil? {
      assert x == (PrintItems(vs) + ([']'] + x))[1..];
      assert y == (PrintItems(ws) + ([']'] + y))[1..];
    } else {
      ItemsUnique(vs, ws, x, y);
    }
  }

  lemma {:induction false} ItemsUnique(vs: List<Json>, ws: List<Json>, x: string, y: string)
    requires vs.Cons? && ws.Cons? && ReadableItems(vs) && ReadableItems(ws)
    requires PrintItems(vs) + ([']'] + x) == PrintItems(ws) + ([']'] + y)
    ensures vs == ws && x == y
    decreases vs, 0
  {
    ItemsSplit(vs, x);
    ItemsSplit(ws, y);
    var s, t := ItemsTail(vs.tail, x), ItemsTail(ws.tail, y);
    PrintUnique(vs.head, ws.head, s, t);
    assert s[0] == t[0];
    if vs.tail.Nil? {
      assert x == s[1..] && y == t[1..];
    } else {
      assert s[1..] == PrintItems(vs.tail) + ([']'] + x) && t[1..] == PrintItems(ws.tail) + ([']'] + y);
      ItemsUnique(vs.tail, ws.tail, x, y);
    }
  }

  lemma ObjectStarts(fields: List<Field>, x: string)
    ensures (PrintFields(fields) + (['}'] + x))[0] == if fields.Nil? then '}' else '"'
  {
    if fields.Cons? {
      FieldsSplit(fields, x);
      assert Quote(fields.head.key)[0] == '"';
    }
  }

  lemma {:induction false} ObjectsUnique(fs: List<Field>, gs: List<Field>, x: string, y: string)
    requires ReadableFields(fs) && ReadableFields(gs)
    requires PrintFields(fs) + (['}'] + x) == PrintFields(gs) + (['}'] + y)
    ensures fs == gs && x == y
    decreases fs, 1
  {
    ObjectStarts(fs, x);
    ObjectStarts(gs, y);
    if fs.Nil? {
      assert x == (PrintFields(fs) + (['}'] + x))[1..];
      assert y == (PrintFields(gs) + (['}'] + y))[1..];
    } else {
      FieldsUnique(fs, gs, x, y);
    }
  }

  lemma {:induction false} FieldsUnique(fs: List<Field>, gs: List<Field>, x: string, y: string)
    requires fs.Cons? && gs.Cons? && ReadableFields(fs) && ReadableFields(gs)
    requires PrintFields(fs) + (['}'] + x) == PrintFields(gs) + (['}'] + y)
    ensures fs == gs && x == y
    decreases fs, 0
  {
    FieldsSplit(fs, x);
    FieldsSplit(gs, y);
    var s, t := FieldsTail(fs.tail, x), FieldsTail(gs.tail, y);
    var p, q := Print(fs.head.value) + s, Print(gs.head.value) + t;
    QuoteUnique(fs.head.key, gs.head.key, [':'] + p, [':'] + q);
    assert p == ([':'] + p)[1..] && q == ([':'] + q)[1..];
    PrintUnique(fs.head.value, gs.head.value, s, t);
    assert s[0] == t[0];
    if fs.tail.Nil? {
      assert x == s[1..] && y == t[1..];
    } else {
      assert s[1..] == PrintFields(fs.tail) + (['}'] + x) && t[1..] == PrintFields(gs.tail) + (['}'] + y);
      FieldsUnique(fs.tail, gs.tail, x, y);
    }
  }
}
