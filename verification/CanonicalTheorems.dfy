/**
 What the serialized text of a value says about the value: everything but key order and
 undefined fields, and nothing but that exactly when no two keys tie.
 */
module CanonicalTheorems {
  import opened Common
  import opened BaseUnit
  import opened JsonText
  import opened CanonicalJson

  // ----- forms are readable -----

  lemma PlaceReadable(le: Order, f: Field, fields: List<Field>)
    ensures ReadableFields(Place(le, f, fields)) <==> ReadableFields(Cons(f, fields))
  {
  }

  lemma {:induction false} SortReadable(le: Order, fields: List<Field>)
    ensures ReadableFields(Sort(le, fields)) <==> ReadableFields(fields)
  {
    if fields.Cons? {
      SortReadable(le, fields.tail);
      PlaceReadable(le, fields.head, Sort(le, fields.tail));
    }
  }

  lemma SelectReadable(indexes: bool, fields: List<Field>)
    requires ReadableFields(fields)
    ensures ReadableFields(Select(indexes, fields))
  {
  }

  lemma ConcatReadable(a: List<Field>, b: List<Field>)
    requires ReadableFields(a) && ReadableFields(b)
    ensures ReadableFields(Concat(a, b))
  {
  }

  lemma ArrangeReadable(style: Style, le: Order, fields: List<Field>)
    requires ReadableFields(fields)
    ensures ReadableFields(Arrange(style, le, fields))
  {
    var sorted := Sort(le, fields);
    SortReadable(le, fields);
    SelectReadable(true, sorted);
    SelectReadable(false, sorted);
    SortReadable(NumericOrder(), Select(true, sorted));
    ConcatReadable(Sort(NumericOrder(), Select(true, sorted)), Select(false, sorted));
  }

  lemma {:induction false} FormReadable(style: Style, le: Order, v: Json)
    requires IsValue(v)
    ensures Readable(Form(style, le, v))
    ensures Form(style, le, v).Undefined? <==> v.Undefined?
    decreases v
  {
    match v
    case Arr(items) =>
      FormItemsReadable(style, le, items);
    case Obj(fields) =>
      FormFieldsReadable(style, le, fields);
      ArrangeReadable(style, le, FormFields(style, le, fields));
    case _ =>
  }

  lemma {:induction false} FormItemsReadable(style: Style, le: Order, items: List<Json>)
    requires AreValues(items)
    ensures ReadableItems(FormItems(style, le, items))
    ensures FormItems(style, le, items) == Cons(Undefined, Nil) ==> items == Cons(Undefined, Nil)
    decreases items
  {
    if items.Cons? {
      FormReadable(style, le, items.head);
      FormItemsReadable(style, le, items.tail);
    }
  }

  lemma {:induction false} FormFieldsReadable(style: Style, le: Order, fields: List<Field>)
    requires AreFields(fields)
    ensures ReadableFields(FormFields(style, le, fields))
    decreases fields
  {
    if fields.Cons? {
      FormReadable(style, le, fields.head.value);
      FormFieldsReadable(style, le, fields.tail);
    }
  }

  // ----- forms keep meaning -----

  lemma FormLookup(style: Style, le: Order, fields: List<Field>, k: string)
    requires Distinct(fields)
    ensures Lookup(FormFields(style, le, fields), k) ==
      if Lookup(fields, k).Some? && !Lookup(fields, k).value.Undefined? then
        Some(Form(style, le, Lookup(fields, k).value))
      else None
  {
  }

  lemma {:induction false} FormDistinct(style: Style, le: Order, fields: List<Field>)
    requires Distinct(fields)
    ensures Distinct(FormFields(style, le, fields))
  {
    if fields.Cons? {
      FormDistinct(style, le, fields.tail);
      FormLookup(style, le, fields.tail, fields.head.key);
    }
  }

  lemma MeanLookup(style: Style, fields: List<Field>, k: string)
    requires Distinct(fields)
    ensures k in MeanFields(style, fields) <==> Lookup(fields, k).Some? && !Lookup(fields, k).value.Undefined?
    ensures k in MeanFields(style, fields) ==> MeanFields(style, fields)[k] == Mean(style, Lookup(fields, k).value)
  {
  }

  lemma {:induction false} FormKeepsMeaning(style: Style, le: Order, v: Json)
    requires IsValue(v)
    ensures Mean(style, Form(style, le, v)) == Mean(style, v)
    decreases v
  {
    match v
    case Arr(items) =>
      FormItemsKeepMeaning(style, le, items);
      FormItemsReadable(style, le, items);
    case Obj(fields) =>
      var formed := FormFields(style, le, fields);
      FormFieldsReadable(style, le, fields);
      FormDistinct(style, le, fields);
      ArrangeLookup(style, le, formed);
      ArrangeDistinct(style, le, formed);
      forall k
        ensures k in MeanFields(style, Arrange(style, le, formed)) <==> k in MeanFields(style, fields)
        ensures k in MeanFields(style, fields) ==>
          MeanFields(style, Arrange(style, le, formed))[k] == MeanFields(style, fields)[k]
      {
        MeanLookup(style, Arrange(style, le, formed), k);
        MeanLookup(style, fields, k);
        FormLookup(style, le, fields, k);
        if Lookup(fields, k).Some? {
          FieldFormKeepsMeaning(style, le, fields, k);
        }
      }
      assert MeanFields(style, Arrange(style, le, formed)) == MeanFields(style, fields);
    case _ =>
  }

  lemma {:induction false} FieldFormKeepsMeaning(style: Style, le: Order, fields: List<Field>, k: string)
    requires AreFields(fields) && Lookup(fields, k).Some?
    ensures IsValue(Lookup(fields, k).value)
    ensures Mean(style, Form(style, le, Lookup(fields, k).value)) == Mean(style, Lookup(fields, k).value)
    ensures Form(style, le, Lookup(fields, k).value).Undefined? <==> Lookup(fields, k).value.Undefined?
    decreases fields
  {
    if fields.head.key == k {
      FormKeepsMeaning(style, le, fields.head.value);
      FormReadable(style, le, fields.head.value);
    } else {
      FieldFormKeepsMeaning(style, le, fields.tail, k);
    }
  }

  lemma {:induction false} FormItemsKeepMeaning(style: Style, le: Order, items: List<Json>)
    requires AreValues(items)
    ensures MeanItems(style, FormItems(style, le, items)) == MeanItems(style, items)
    decreases items
  {
    if items.Cons? {
      FormKeepsMeaning(style, le, items.head);
      FormItemsKeepMeaning(style, le, items.tail);
    }
  }

  lemma {:induction false} ConcatDistinct(a: List<Field>, b: List<Field>)
    requires Distinct(a) && Distinct(b) && forall k :: Lookup(a, k).None? || Lookup(b, k).None?
    ensures Distinct(Concat(a, b))
  {
    if a.Cons? {
      assert Lookup(a, a.head.key).Some?;
      forall k ensures Lookup(a.tail, k).None? || Lookup(b, k).None? {
        assert Lookup(a.tail, k).Some? ==> Lookup(a, k).Some?;
      }
      ConcatDistinct(a.tail, b);
      ConcatLookup(a.tail, b, a.head.key);
    }
  }

  lemma ArrangeDistinct(style: Style, le: Order, fields: List<Field>)
    requires Distinct(fields)
    ensures Distinct(Arrange(style, le, fields))
  {
    SortLookup(le, fields);
    if style.Audit? {
      var sorted := Sort(le, fields);
      SelectDistinct(true, sorted);
      SelectDistinct(false, sorted);
      SortLookup(NumericOrder(), Select(true, sorted));
      forall k ensures Lookup(Sort(NumericOrder(), Select(true, sorted)), k).None?
        || Lookup(Select(false, sorted), k).None?
      {
        SelectLookup(true, sorted, k);
        SelectLookup(false, sorted, k);
      }
      ConcatDistinct(Sort(NumericOrder(), Select(true, sorted)), Select(false, sorted));
    }
  }

  // ----- text determines meaning -----

  /** What a serializer outputs; None where the audit serializer throws. */
  function Text(style: Style, le: Order, v: Json): Option<string> {
    if style.Audit? then CanonicalAuditJson(le, v) else Some(StableStringify(le, v))
  }

  lemma TextIsForm(style: Style, le: Order, v: Json)
    requires Text(style, le, v).Some?
    ensures Text(style, le, v).value == Print(Form(style, le, v))
  {
    if style.Audit? {
      NormalizeIsForm(le, v);
      SettlePrints(Normalize(le, v));
    } else {
      StableText(le, v);
    }
  }

  /**
   Two values with the same text are the same value up to key order and undefined fields:
   whatever the key comparison is, no other value can be passed off under the text.
   */
  lemma TextDeterminesMeaning(style: Style, le: Order, v: Json, w: Json)
    requires IsValue(v) && IsValue(w)
    requires Text(style, le, v).Some? && Text(style, le, v) == Text(style, le, w)
    ensures Mean(style, v) == Mean(style, w)
  {
    TextIsForm(style, le, v);
    TextIsForm(style, le, w);
    FormReadable(style, le, v);
    FormReadable(style, le, w);
    assert Print(Form(style, le, v)) + "" == Print(Form(style, le, w)) + "";
    PrintUnique(Form(style, le, v), Form(style, le, w), "", "");
    FormKeepsMeaning(style, le, v);
    FormKeepsMeaning(style, le, w);
  }

  // ----- meaning determines text, when no keys tie -----

  ghost predicate IsComparison(le: Order) {
    && (forall a, b :: le(a, b) || le(b, a))
    && (forall a, b, c :: le(a, b) && le(b, c) ==> le(a, c))
  }

  /** No two different keys compare equal; the audit log compares no index key this way. */
  ghost predicate NoTies(style: Style, le: Order) {
    forall a, b :: a != b && le(a, b) && le(b, a) ==> style.Audit? && (IsIndex(a) || IsIndex(b))
  }

  /** The order in which a serializer ends up writing keys. */
  predicate Precedes(style: Style, le: Order, a: string, b: string) {
    if style.Audit? && IsIndex(a) then !IsIndex(b) || IndexOf(a) <= IndexOf(b)
    else !(style.Audit? && IsIndex(b)) && le(a, b)
  }

  function WritingOrder(style: Style, le: Order): Order {
    (a, b) => Precedes(style, le, a, b)
  }

  predicate Before(order: Order, key: string, fields: List<Field>) {
    match fields
    case Nil => true
    case Cons(f, rest) => key != f.key && order(key, f.key) && Before(order, key, rest)
  }

  predicate Ascends(order: Order, fields: List<Field>) {
    match fields
    case Nil => true
    case Cons(f, rest) => Before(order, f.key, rest) && Ascends(order, rest)
  }

  lemma BeforeTransitive(le: Order, a: string, b: string, fields: List<Field>)
    requires IsComparison(le) && le(a, b) && Before(le, b, fields) && Lookup(fields, a).None?
    ensures Before(le, a, fields)
  {
  }

  lemma BeforePlace(le: Order, key: string, f: Field, fields: List<Field>)
    requires Before(le, key, fields) && key != f.key && le(key, f.key)
    ensures Before(le, key, Place(le, f, fields))
  {
  }

  lemma {:induction false} PlaceAscends(le: Order, f: Field, fields: List<Field>)
    requires IsComparison(le) && Ascends(le, fields) && Lookup(fields, f.key).None?
    ensures Ascends(le, Place(le, f, fields))
  {
    if fields.Cons? {
      if le(f.key, fields.head.key) {
        BeforeTransitive(le, f.key, fields.head.key, fields.tail);
      } else {
        PlaceAscends(le, f, fields.tail);
        BeforePlace(le, fields.head.key, f, fields.tail);
      }
    }
  }

  lemma {:induction false} SortAscends(le: Order, fields: List<Field>)
    requires IsComparison(le) && Distinct(fields)
    ensures Ascends(le, Sort(le, fields))
  {
    if fields.Cons? {
      SortAscends(le, fields.tail);
      SortLookup(le, fields.tail);
      PlaceAscends(le, fields.head, Sort(le, fields.tail));
    }
  }

  lemma BeforeSelect(order: Order, key: string, indexes: bool, fields: List<Field>)
    requires Before(order, key, fields)
    ensures Before(order, key, Select(indexes, fields))
  {
  }

  lemma {:induction false} SelectAscends(order: Order, indexes: bool, fields: List<Field>)
    requires Ascends(order, fields)
    ensures Ascends(order, Select(indexes, fields))
  {
    if fields.Cons? {
      SelectAscends(order, indexes, fields.tail);
      BeforeSelect(order, fields.head.key, indexes, fields.tail);
    }
  }

  predicate AllIndexes(indexes: bool, fields: List<Field>) {
    match fields
    case Nil => true
    case Cons(f, rest) => IsIndex(f.key) == indexes && AllIndexes(indexes, rest)
  }

  lemma SelectIndexes(indexes: bool, fields: List<Field>)
    ensures AllIndexes(indexes, Select(indexes, fields))
  {
  }

  lemma PlaceIndexes(le: Order, f: Field, fields: List<Field>, indexes: bool)
    requires AllIndexes(indexes, fields) && IsIndex(f.key) == indexes
    ensures AllIndexes(indexes, Place(le, f, fields))
  {
  }

  lemma {:induction false} SortIndexes(le: Order, fields: List<Field>, indexes: bool)
    requires AllIndexes(indexes, fields)
    ensures AllIndexes(indexes, Sort(le, fields))
  {
    if fields.Cons? {
      SortIndexes(le, fields.tail, indexes);
      PlaceIndexes(le, fields.head, Sort(le, fields.tail), indexes);
    }
  }

  lemma BeforeWriting(le: Order, key: string, fields: List<Field>)
    ensures !IsIndex(key) && AllIndexes(false, fields) && Before(le, key, fields) ==>
      Before(WritingOrder(Audit, le), key, fields)
    ensures IsIndex(key) && AllIndexes(true, fields) && Before(NumericOrder(), key, fields) ==>
      Before(WritingOrder(Audit, le), key, fields)
    ensures IsIndex(key) && AllIndexes(false, fields) ==> Before(WritingOrder(Audit, le), key, fields)
  {
  }

  lemma BeforeConcat(order: Order, key: string, a: List<Field>, b: List<Field>)
    ensures Before(order, key, Concat(a, b)) <==> Before(order, key, a) && Before(order, key, b)
  {
  }

  lemma {:induction false} ConcatAscends(le: Order, a: List<Field>, b: List<Field>)
    requires AllIndexes(true, a) && Ascends(NumericOrder(), a)
    requires AllIndexes(false, b) && Ascends(le, b)
    ensures Ascends(WritingOrder(Audit, le), Concat(a, b))
  {
    if a.Cons? {
      ConcatAscends(le, a.tail, b);
      BeforeWriting(le, a.head.key, a.tail);
      BeforeWriting(le, a.head.key, b);
      BeforeConcat(WritingOrder(Audit, le), a.head.key, a.tail, b);
    } else if b.Cons? {
      ConcatAscends(le, a, b.tail);
      BeforeWriting(le, b.head.key, b.tail);
    }
  }

  lemma AscendsStable(le: Order, fields: List<Field>)
    requires Ascends(le, fields)
    ensures Ascends(WritingOrder(Stable, le), fields)
  {
    if fields.Cons? {
      BeforeStable(le, fields.head.key, fields.tail);
      AscendsStable(le, fields.tail);
    }
  }

  lemma BeforeStable(le: Order, key: string, fields: List<Field>)
    requires Before(le, key, fields)
    ensures Before(WritingOrder(Stable, le), key, fields)
  {
  }

  /** An object's fields are written in ascending order. */
  lemma ArrangeAscends(style: Style, le: Order, fields: List<Field>)
    requires IsComparison(le) && Distinct(fields)
    ensures Ascends(WritingOrder(style, le), Arrange(style, le, fields))
  {
    var sorted := Sort(le, fields);
    SortAscends(le, fields);
    SortLookup(le, fields);
    if style.Stable? {
      AscendsStable(le, sorted);
    } else {
      var numbered := Select(true, sorted);
      SelectDistinct(true, sorted);
      SortAscends(NumericOrder(), numbered);
      SelectIndexes(true, sorted);
      SortIndexes(NumericOrder(), numbered, true);
      SelectAscends(le, false, sorted);
      SelectIndexes(false, sorted);
      ConcatAscends(le, Sort(NumericOrder(), numbered), Select(false, sorted));
    }
  }

  ghost predicate Antisymmetric(order: Order) {
    forall a, b :: order(a, b) && order(b, a) ==> a == b
  }

  lemma WritingAntisymmetric(style: Style, le: Order)
    requires NoTies(style, le)
    ensures Antisymmetric(WritingOrder(style, le))
  {
    forall a, b | Precedes(style, le, a, b) && Precedes(style, le, b, a) ensures a == b {
      if style.Audit? && IsIndex(a) && IsIndex(b) {
        PrintOfParse(a);
        PrintOfParse(b);
      }
    }
  }

  lemma BeforeFinds(order: Order, key: string, fields: List<Field>, k: string)
    requires Before(order, key, fields) && Lookup(fields, k).Some?
    ensures key != k && order(key, k)
  {
  }

  /** Ascending lists that hold the same fields are the same list. */
  lemma {:induction false} AscendingUnique(order: Order, fs: List<Field>, gs: List<Field>)
    requires Antisymmetric(order) && Ascends(order, fs) && Ascends(order, gs) && SameFields(fs, gs)
    ensures fs == gs
  {
    assert fs.Cons? ==> Lookup(gs, fs.head.key) == Lookup(fs, fs.head.key);
    assert gs.Cons? ==> Lookup(gs, gs.head.key) == Lookup(fs, gs.head.key);
    if fs.Nil? {
      assert gs.Nil?;
    } else {
      var a, b := fs.head.key, gs.head.key;
      assert Lookup(gs, a) == Lookup(fs, a) && Lookup(gs, b) == Lookup(fs, b);
      if a != b {
        BeforeFinds(order, a, fs.tail, b);
        BeforeFinds(order, b, gs.tail, a);
      }
      forall k ensures Lookup(fs.tail, k) == Lookup(gs.tail, k) {
        assert Lookup(gs, k) == Lookup(fs, k);
        if k == a && Lookup(fs.tail, k).Some? {
          BeforeFinds(order, a, fs.tail, k);
        }
        if k == a && Lookup(gs.tail, k).Some? {
          BeforeFinds(order, b, gs.tail, k);
        }
      }
      AscendingUnique(order, fs.tail, gs.tail);
    }
  }

  lemma {:induction false} NothingMeant(style: Style, le: Order, fields: List<Field>)
    requires MeanFields(style, fields) == map[]
    ensures FormFields(style, le, fields) == Nil
  {
    if fields.Cons? {
      assert fields.head.key in MeanFields(style, fields.tail)[fields.head.key := Mean(style, fields.head.value)];
      NothingMeant(style, le, fields.tail);
    }
  }

  lemma {:induction false} FormsAgree(style: Style, le: Order, v: Json, w: Json)
    requires IsComparison(le) && NoTies(style, le)
    requires IsValue(v) && IsValue(w) && Mean(style, v) == Mean(style, w)
    ensures Form(style, le, v) == Form(style, le, w)
    decreases v, 1
  {
    match v
    case Arr(items) => FormItemsAgree(style, le, items, w.items);
    case Obj(fields) => FormFieldsAgree(style, le, fields, if w.Obj? then w.fields else Nil);
    case Date(_) =>
      if w.Obj? {
        NothingMeant(style, le, w.fields);
        assert Arrange(style, le, Nil) == Nil;
      }
    case _ =>
  }

  lemma {:induction false} FormItemsAgree(style: Style, le: Order, vs: List<Json>, ws: List<Json>)
    requires IsComparison(le) && NoTies(style, le)
    requires AreValues(vs) && AreValues(ws)
    ensures MeanItems(style, vs) == MeanItems(style, ws) ==> FormItems(style, le, vs) == FormItems(style, le, ws)
    decreases vs
  {
    if MeanItems(style, vs) == MeanItems(style, ws) && vs.Cons? {
      FormsAgree(style, le, vs.head, ws.head);
      FormItemsAgree(style, le, vs.tail, ws.tail);
    }
  }

  lemma {:induction false} FormFieldsAgree(style: Style, le: Order, fs: List<Field>, gs: List<Field>)
    requires IsComparison(le) && NoTies(style, le)
    requires Distinct(fs) && AreFields(fs) && Distinct(gs) && AreFields(gs)
        && MeanFields(style, fs) == MeanFields(style, gs)
    ensures Arrange(style, le, FormFields(style, le, fs)) == Arrange(style, le, FormFields(style, le, gs))
    decreases fs, 1
  {
    var a, b := FormFields(style, le, fs), FormFields(style, le, gs);
    FormDistinct(style, le, fs);
    FormDistinct(style, le, gs);
    ArrangeLookup(style, le, a);
    ArrangeLookup(style, le, b);
    forall k ensures Lookup(a, k) == Lookup(b, k) {
      FormLookup(style, le, fs, k);
      FormLookup(style, le, gs, k);
      MeanLookup(style, fs, k);
      MeanLookup(style, gs, k);
      if k in MeanFields(style, fs) {
        FieldIsValue(gs, k);
        FieldAgrees(style, le, fs, Lookup(gs, k).value, k);
      }
    }
    forall k ensures Lookup(Arrange(style, le, a), k) == Lookup(Arrange(style, le, b), k) {
      assert Lookup(a, k) == Lookup(b, k);
      assert Lookup(Arrange(style, le, a), k) == Lookup(a, k);
      assert Lookup(Arrange(style, le, b), k) == Lookup(b, k);
    }
    ArrangeAscends(style, le, a);
    ArrangeAscends(style, le, b);
    WritingAntisymmetric(style, le);
    AscendingUnique(WritingOrder(style, le), Arrange(style, le, a), Arrange(style, le, b));
  }

  lemma FieldIsValue(fields: List<Field>, k: string)
    requires AreFields(fields) && Lookup(fields, k).Some?
    ensures IsValue(Lookup(fields, k).value)
  {
  }

  lemma {:induction false} FieldAgrees(style: Style, le: Order, fs: List<Field>, w: Json, k: string)
    requires IsComparison(le) && NoTies(style, le)
    requires AreFields(fs) && IsValue(w) && Lookup(fs, k).Some? && Mean(style, Lookup(fs, k).value) == Mean(style, w)
    ensures Form(style, le, Lookup(fs, k).value) == Form(style, le, w)
    decreases fs, 0
  {
    if fs.head.key == k {
      FormsAgree(style, le, fs.head.value, w);
    } else {
      FieldAgrees(style, le, fs.tail, w, k);
    }
  }

  /** One text for every way of writing a value down, given a comparison without ties. */
  lemma MeaningDeterminesText(style: Style, le: Order, v: Json, w: Json)
    requires IsComparison(le) && NoTies(style, le)
    requires IsValue(v) && IsValue(w) && Text(style, le, v).Some? && Text(style, le, w).Some?
    requires Mean(style, v) == Mean(style, w)
    ensures Text(style, le, v) == Text(style, le, w)
  {
    FormsAgree(style, le, v, w);
    TextIsForm(style, le, v);
    TextIsForm(style, le, w);
  }

  function Pair(a: string, b: string): Json {
    Obj(Cons(Field(a, Null), Cons(Field(b, Null), Nil)))
  }

  lemma PairFacts(style: Style, a: string, b: string)
    requires a != b
    ensures IsValue(Pair(a, b)) && Normalizable(Pair(a, b))
    ensures Mean(style, Pair(a, b)) == MObj(map[a := MNull, b := MNull])
  {
    var last := Cons(Field(b, Null), Nil);
    assert IsValue(Null) && Normalizable(Null) && AreFields(Nil) && NormalizableFields(Nil);
    assert Lookup(last, a).None? && Distinct(last) && AreFields(last) && NormalizableFields(last);
    assert MeanFields(style, Nil) == map[];
    assert MeanFields(style, last) == map[b := MNull];
    assert MeanFields(style, Cons(Field(a, Null), last)) == map[b := MNull][a := MNull];
  }

  lemma PairForm(style: Style, le: Order, a: string, b: string)
    requires le(a, b) && (style.Stable? || (!IsIndex(a) && !IsIndex(b)))
    ensures Form(style, le, Pair(a, b)) == Pair(a, b)
  {
    var last := Cons(Field(b, Null), Nil);
    var two := Cons(Field(a, Null), last);
    assert FormFields(style, le, last) == last;
    assert FormFields(style, le, two) == two;
    assert Sort(le, last) == last;
    assert Sort(le, two) == two;
    if style.Audit? {
      assert Select(true, last) == Nil && Select(false, last) == last;
      assert Select(true, two) == Nil && Select(false, two) == two;
    }
  }

  lemma TiedKeysDiffer(style: Style, le: Order, a: string, b: string)
    requires a != b && le(a, b) && le(b, a) && (style.Stable? || (!IsIndex(a) && !IsIndex(b)))
    ensures IsValue(Pair(a, b)) && IsValue(Pair(b, a)) && Mean(style, Pair(a, b)) == Mean(style, Pair(b, a))
    ensures Text(style, le, Pair(a, b)).Some? && Text(style, le, Pair(b, a)).Some?
    ensures Text(style, le, Pair(a, b)) != Text(style, le, Pair(b, a))
  {
    var v, w := Pair(a, b), Pair(b, a);
    PairFacts(style, a, b);
    PairFacts(style, b, a);
    assert map[a := MNull, b := MNull] == map[b := MNull, a := MNull];
    TextIsForm(style, le, v);
    TextIsForm(style, le, w);
    PairForm(style, le, a, b);
    PairForm(style, le, b, a);
    FormReadable(style, le, v);
    FormReadable(style, le, w);
    assert v != w;
    if Print(v) == Print(w) {
      assert Print(v) + "" == Print(w) + "";
      PrintUnique(v, w, "", "");
    }
  }

  /**
   A serializer ignores key order exactly if its comparison never ties two different keys
   that it is asked to order.
   */
  lemma IgnoresKeyOrderIff(style: Style, le: Order)
    requires IsComparison(le)
    ensures NoTies(style, le) <==>
      forall v, w ::
        IsValue(v) && IsValue(w) && Text(style, le, v).Some? && Text(style, le, w).Some?
          && Mean(style, v) == Mean(style, w)
        ==> Text(style, le, v) == Text(style, le, w)
  {
    if NoTies(style, le) {
      forall v, w
        | IsValue(v) && IsValue(w) && Text(style, le, v).Some? && Text(style, le, w).Some?
          && Mean(style, v) == Mean(style, w)
        ensures Text(style, le, v) == Text(style, le, w)
      {
        MeaningDeterminesText(style, le, v, w);
      }
    } else {
      var a, b :| a != b && le(a, b) && le(b, a) && !(style.Audit? && (IsIndex(a) || IsIndex(b)));
      TiedKeysDiffer(style, le, a, b);
    }
  }

  // ----- fingerprints -----

  /** `requestFingerprint`, for a request the serializer accepts. */
  function RequestFingerprint(digest: string -> string, le: Order, request: Json): Option<string> {
    var text := CanonicalAuditJson(le, request);
    if text.Some? then Some(digest(text.value)) else None
  }

  /** Two requests have one fingerprint exactly if they are the same request. */
  lemma FingerprintIdentifiesRequest(digest: string -> string, le: Order, v: Json, w: Json)
    requires forall a, b :: digest(a) == digest(b) ==> a == b
    requires IsComparison(le) && NoTies(Audit, le) && IsValue(v) && IsValue(w) && Normalizable(v) && Normalizable(w)
    ensures RequestFingerprint(digest, le, v) == RequestFingerprint(digest, le, w) <==> Mean(Audit, v) == Mean(Audit, w)
  {
    if Mean(Audit, v) == Mean(Audit, w) {
      MeaningDeterminesText(Audit, le, v, w);
    } else if RequestFingerprint(digest, le, v) == RequestFingerprint(digest, le, w) {
      TextDeterminesMeaning(Audit, le, v, w);
    }
  }
}
