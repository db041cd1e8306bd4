/**
 The two canonical serializers: `canonicalAuditJson`
 (src/infrastructure/mongodb/audit-service.ts) and `stableStringify`
 (src/infrastructure/queue/webhook-delivery-queue.ts). Both order keys with
 `localeCompare`, which is a parameter here: `le(a, b)` says that a does not compare after b.
 */
module CanonicalJson {
  import opened Common
  import opened BaseUnit
  import opened JsonText

  type Order = (string, string) -> bool

  // ----- inputs -----

  function Lookup(fields: List<Field>, key: string): Option<Json> {
    match fields
    case Nil => None
    case Cons(f, rest) => if f.key == key then Some(f.value) else Lookup(rest, key)
  }

  predicate Distinct(fields: List<Field>) {
    match fields
    case Nil => true
    case Cons(f, rest) => Lookup(rest, f.key).None? && Distinct(rest)
  }

  /** A JavaScript value: literals are numbers' own texts and an object's keys are distinct. */
  predicate IsValue(v: Json) {
    match v
    case Num(literal) => IsLiteral(literal)
    case Arr(items) => AreValues(items)
    case Obj(fields) => Distinct(fields) && AreFields(fields)
    case _ => true
  }

  predicate AreValues(items: List<Json>) {
    match items
    case Nil => true
    case Cons(v, rest) => IsValue(v) && AreValues(rest)
  }

  predicate AreFields(fields: List<Field>) {
    match fields
    case Nil => true
    case Cons(f, rest) => IsValue(f.value) && AreFields(rest)
  }

  // ----- ordering keys -----

  /** A stable insertion sort by key, as `Array.prototype.sort` orders. */
  function Place(le: Order, f: Field, sorted: List<Field>): List<Field> {
    match sorted
    case Nil => Cons(f, Nil)
    case Cons(g, rest) => if le(f.key, g.key) then Cons(f, sorted) else Cons(g, Place(le, f, rest))
  }

  function Sort(le: Order, fields: List<Field>): List<Field> {
    match fields
    case Nil => Nil
    case Cons(f, rest) => Place(le, f, Sort(le, rest))
  }

  /** An array-index key, which JavaScript enumerates before all other keys. */
  predicate IsIndex(key: string) {
    IsBaseUnitString(key) && DecimalValue(key) < 0xFFFF_FFFF
  }

  function IndexOf(key: string): nat {
    if IsIndex(key) then DecimalValue(key) else 0
  }

  function NumericOrder(): Order {
    (a, b) => IndexOf(a) <= IndexOf(b)
  }

  function Select(indexes: bool, fields: List<Field>): List<Field> {
    match fields
    case Nil => Nil
    case Cons(f, rest) => if IsIndex(f.key) == indexes then Cons(f, Select(indexes, rest)) else Select(indexes, rest)
  }

  function Concat(a: List<Field>, b: List<Field>): List<Field> {
    match a
    case Nil => b
    case Cons(f, rest) => Cons(f, Concat(rest, b))
  }

  /** The order in which an object built from these entries enumerates its own properties. */
  function OwnOrder(fields: List<Field>): List<Field> {
    Concat(Sort(NumericOrder(), Select(true, fields)), Select(false, fields))
  }

  // ----- the audit serializer -----

  /** False where `normalizeCanonical` throws: an undefined value outside an object. */
  predicate Normalizable(v: Json) {
    match v
    case Undefined => false
    case Arr(items) => NormalizableItems(items)
    case Obj(fields) => NormalizableFields(fields)
    case _ => true
  }

  predicate NormalizableItems(items: List<Json>) {
    match items
    case Nil => true
    case Cons(v, rest) => Normalizable(v) && NormalizableItems(rest)
  }

  predicate NormalizableFields(fields: List<Field>) {
    match fields
    case Nil => true
    case Cons(f, rest) => (f.value.Undefined? || Normalizable(f.value)) && NormalizableFields(rest)
  }

  function Normalize(le: Order, v: Json): Json {
    match v
    case Date(iso) => Str(iso)
    case Arr(items) => Arr(NormalizeItems(le, items))
    case Obj(fields) => Obj(OwnOrder(Sort(le, NormalizeFields(le, fields))))
    case _ => v
  }

  function NormalizeItems(le: Order, items: List<Json>): List<Json> {
    match items
    case Nil => Nil
    case Cons(v, rest) => Cons(Normalize(le, v), NormalizeItems(le, rest))
  }

  function NormalizeFields(le: Order, fields: List<Field>): List<Field> {
    match fields
    case Nil => Nil
    case Cons(f, rest) =>
      if f.value.Undefined? then NormalizeFields(le, rest)
      else Cons(Field(f.key, Normalize(le, f.value)), NormalizeFields(le, rest))
  }

  /** None stands for the TypeError. */
  function CanonicalAuditJson(le: Order, v: Json): Option<string> {
    if Normalizable(v) then Some(Print(Normalize(le, v))) else None
  }

  // ----- the webhook serializer -----

  /** The text of each defined field, still in insertion order, keyed for sorting. */
  datatype Part = Part(key: string, text: string)

  function PlacePart(le: Order, p: Part, sorted: List<Part>): List<Part> {
    match sorted
    case Nil => Cons(p, Nil)
    case Cons(q, rest) => if le(p.key, q.key) then Cons(p, sorted) else Cons(q, PlacePart(le, p, rest))
  }

  function SortParts(le: Order, parts: List<Part>): List<Part> {
    match parts
    case Nil => Nil
    case Cons(p, rest) => PlacePart(le, p, SortParts(le, rest))
  }

  function JoinParts(parts: List<Part>): string {
    match parts
    case Nil => ""
    case Cons(p, rest) => Quote(p.key) + [':'] + p.text + if rest.Nil? then "" else [','] + JoinParts(rest)
  }

  /** An undefined array slot joins as the empty string, and a date has no entries of its own. */
  function StableStringify(le: Order, v: Json): string {
    match v
    case Arr(items) => ['['] + JoinItems(le, items) + [']']
    case Obj(fields) => ['{'] + JoinParts(SortParts(le, Parts(le, fields))) + ['}']
    case Date(_) => ['{'] + ['}']
    case _ => Print(v)
  }

  function JoinItems(le: Order, items: List<Json>): string {
    match items
    case Nil => ""
    case Cons(v, rest) => StableStringify(le, v) + if rest.Nil? then "" else [','] + JoinItems(le, rest)
  }

  function Parts(le: Order, fields: List<Field>): List<Part> {
    match fields
    case Nil => Nil
    case Cons(f, rest) =>
      if f.value.Undefined? then Parts(le, rest)
      else Cons(Part(f.key, StableStringify(le, f.value)), Parts(le, rest))
  }

  // ----- what a value means to a serializer -----

  datatype Style = Audit | Stable

  /** Values with objects as maps, so without key order or undefined fields. */
  datatype Meaning =
    | MNull | MBool(b: bool) | MNum(literal: string) | MStr(s: string) | MSlot
    | MArr(items: List<Meaning>) | MObj(fields: map<string, Meaning>)

  /**
   A non-finite number means null to both. A date means its text to the audit log and an
   empty object to webhooks, to which an array of one empty slot means an empty array.
   */
  function Mean(style: Style, v: Json): Meaning {
    match v
    case Null => MNull
    case NonFinite => MNull
    case Bool(b) => MBool(b)
    case Num(literal) => MNum(literal)
    case Str(s) => MStr(s)
    case Undefined => MSlot
    case Date(iso) => if style.Audit? then MStr(iso) else MObj(map[])
    case Arr(items) => MArr(if items == Cons(Undefined, Nil) then Nil else MeanItems(style, items))
    case Obj(fields) => MObj(MeanFields(style, fields))
  }

  function MeanItems(style: Style, items: List<Json>): List<Meaning> {
    match items
    case Nil => Nil
    case Cons(v, rest) => Cons(Mean(style, v), MeanItems(style, rest))
  }

  function MeanFields(style: Style, fields: List<Field>): map<string, Meaning> {
    match fields
    case Nil => map[]
    case Cons(f, rest) =>
      if f.value.Undefined? then MeanFields(style, rest) else MeanFields(style, rest)[f.key := Mean(style, f.value)]
  }

  // ----- the readable form whose text a serializer prints -----

  function Arrange(style: Style, le: Order, fields: List<Field>): List<Field> {
    if style.Audit? then OwnOrder(Sort(le, fields)) else Sort(le, fields)
  }

  function Form(style: Style, le: Order, v: Json): Json {
    match v
    case NonFinite => Null
    case Date(iso) => if style.Audit? then Str(iso) else Obj(Nil)
    case Arr(items) => if items == Cons(Undefined, Nil) then Arr(Nil) else Arr(FormItems(style, le, items))
    case Obj(fields) => Obj(Arrange(style, le, FormFields(style, le, fields)))
    case _ => v
  }

  function FormItems(style: Style, le: Order, items: List<Json>): List<Json> {
    match items
    case Nil => Nil
    case Cons(v, rest) => Cons(Form(style, le, v), FormItems(style, le, rest))
  }

  function FormFields(style: Style, le: Order, fields: List<Field>): List<Field> {
    match fields
    case Nil => Nil
    case Cons(f, rest) =>
      if f.value.Undefined? then FormFields(style, le, rest)
      else Cons(Field(f.key, Form(style, le, f.value)), FormFields(style, le, rest))
  }

  // ----- the webhook text is the text of the form -----

  function PartsOf(fields: List<Field>): List<Part> {
    match fields
    case Nil => Nil
    case Cons(f, rest) => Cons(Part(f.key, Print(f.value)), PartsOf(rest))
  }

  lemma PlacePartsOf(le: Order, f: Field, fields: List<Field>)
    ensures PartsOf(Place(le, f, fields)) == PlacePart(le, Part(f.key, Print(f.value)), PartsOf(fields))
  {
  }

  lemma {:induction false} SortPartsOf(le: Order, fields: List<Field>)
    ensures PartsOf(Sort(le, fields)) == SortParts(le, PartsOf(fields))
  {
    if fields.Cons? {
      SortPartsOf(le, fields.tail);
      PlacePartsOf(le, fields.head, Sort(le, fields.tail));
    }
  }

  lemma {:induction false} JoinIsPrint(fields: List<Field>)
    ensures JoinParts(PartsOf(fields)) == PrintFields(fields)
  {
    if fields.Cons? {
      JoinIsPrint(fields.tail);
    }
  }

  lemma {:induction false} StableText(le: Order, v: Json)
    ensures StableStringify(le, v) == Print(Form(Stable, le, v))
    decreases v
  {
    match v
    case Arr(items) =>
      if items == Cons(Undefined, Nil) {
        assert JoinItems(le, items) == "" == PrintItems(Nil);
      } else {
        StableItems(le, items);
      }
    case Obj(fields) =>
      StableFields(le, fields);
      SortPartsOf(le, FormFields(Stable, le, fields));
      JoinIsPrint(Sort(le, FormFields(Stable, le, fields)));
    case Date(_) => assert PrintFields(Nil) == "";
    case _ =>
  }

  lemma {:induction false} StableItems(le: Order, items: List<Json>)
    ensures JoinItems(le, items) == PrintItems(FormItems(Stable, le, items))
    decreases items
  {
    if items.Cons? {
      StableText(le, items.head);
      StableItems(le, items.tail);
    }
  }

  lemma {:induction false} StableFields(le: Order, fields: List<Field>)
    ensures Parts(le, fields) == PartsOf(FormFields(Stable, le, fields))
    decreases fields
  {
    if fields.Cons? {
      if !fields.head.value.Undefined? {
        StableText(le, fields.head.value);
      }
      StableFields(le, fields.tail);
    }
  }

  // ----- the audit text is the text of the form -----

  /** Non-finite numbers as the null they print as. */
  function Settle(v: Json): Json {
    match v
    case NonFinite => Null
    case Arr(items) => Arr(SettleItems(items))
    case Obj(fields) => Obj(SettleFields(fields))
    case _ => v
  }

  function SettleItems(items: List<Json>): List<Json> {
    match items
    case Nil => Nil
    case Cons(v, rest) => Cons(Settle(v), SettleItems(rest))
  }

  function SettleFields(fields: List<Field>): List<Field> {
    match fields
    case Nil => Nil
    case Cons(f, rest) => Cons(Field(f.key, Settle(f.value)), SettleFields(rest))
  }

  lemma {:induction false} SettlePrints(v: Json)
    ensures Print(Settle(v)) == Print(v)
    decreases v
  {
    match v
    case Arr(items) => SettlePrintsItems(items);
    case Obj(fields) => SettlePrintsFields(fields);
    case _ =>
  }

  lemma {:induction false} SettlePrintsItems(items: List<Json>)
    ensures PrintItems(SettleItems(items)) == PrintItems(items)
    decreases items
  {
    if items.Cons? {
      SettlePrints(items.head);
      SettlePrintsItems(items.tail);
    }
  }

  lemma {:induction false} SettlePrintsFields(fields: List<Field>)
    ensures PrintFields(SettleFields(fields)) == PrintFields(fields)
    decreases fields
  {
    if fields.Cons? {
      SettlePrints(fields.head.value);
      SettlePrintsFields(fields.tail);
    }
  }

  lemma SettlePlace(le: Order, f: Field, fields: List<Field>)
    ensures SettleFields(Place(le, f, fields)) == Place(le, Field(f.key, Settle(f.value)), SettleFields(fields))
  {
  }

  lemma {:induction false} SettleSort(le: Order, fields: List<Field>)
    ensures SettleFields(Sort(le, fields)) == Sort(le, SettleFields(fields))
  {
    if fields.Cons? {
      SettleSort(le, fields.tail);
      SettlePlace(le, fields.head, Sort(le, fields.tail));
    }
  }

  lemma SettleSelect(indexes: bool, fields: List<Field>)
    ensures SettleFields(Select(indexes, fields)) == Select(indexes, SettleFields(fields))
  {
  }

  lemma SettleConcat(a: List<Field>, b: List<Field>)
    ensures SettleFields(Concat(a, b)) == Concat(SettleFields(a), SettleFields(b))
  {
  }

  lemma SettleArrange(le: Order, fields: List<Field>)
    ensures SettleFields(Arrange(Audit, le, fields)) == Arrange(Audit, le, SettleFields(fields))
  {
    var sorted := Sort(le, fields);
    SettleSort(le, fields);
    SettleSelect(true, sorted);
    SettleSelect(false, sorted);
    SettleSort(NumericOrder(), Select(true, sorted));
    SettleConcat(Sort(NumericOrder(), Select(true, sorted)), Select(false, sorted));
  }

  lemma {:induction false} NormalizeIsForm(le: Order, v: Json)
    requires Normalizable(v)
    ensures Settle(Normalize(le, v)) == Form(Audit, le, v)
    decreases v
  {
    match v
    case Arr(items) => NormalizeItemsIsForm(le, items);
    case Obj(fields) =>
      NormalizeFieldsIsForm(le, fields);
      SettleArrange(le, NormalizeFields(le, fields));
    case _ =>
  }

  lemma {:induction false} NormalizeItemsIsForm(le: Order, items: List<Json>)
    requires NormalizableItems(items)
    ensures SettleItems(NormalizeItems(le, items)) == FormItems(Audit, le, items)
    decreases items
  {
    if items.Cons? {
      NormalizeIsForm(le, items.head);
      NormalizeItemsIsForm(le, items.tail);
    }
  }

  lemma {:induction false} NormalizeFieldsIsForm(le: Order, fields: List<Field>)
    requires NormalizableFields(fields)
    ensures SettleFields(NormalizeFields(le, fields)) == FormFields(Audit, le, fields)
    decreases fields
  {
    if fields.Cons? {
      if !fields.head.value.Undefined? {
        NormalizeIsForm(le, fields.head.value);
      }
      NormalizeFieldsIsForm(le, fields.tail);
    }
  }

  // ----- fields by key -----

  ghost predicate SameFields(fs: List<Field>, gs: List<Field>) {
    forall k :: Lookup(fs, k) == Lookup(gs, k)
  }

  lemma PlaceLookup(le: Order, f: Field, fields: List<Field>, k: string)
    requires Lookup(fields, f.key).None?
    ensures Lookup(Place(le, f, fields), k) == if k == f.key then Some(f.value) else Lookup(fields, k)
  {
  }

  lemma PlaceDistinct(le: Order, f: Field, fields: List<Field>)
    requires Lookup(fields, f.key).None? && Distinct(fields)
    ensures Distinct(Place(le, f, fields))
  {
    if fields.Cons? {
      PlaceLookup(le, f, fields.tail, fields.head.key);
    }
  }

  lemma {:induction false} SortLookup(le: Order, fields: List<Field>)
    requires Distinct(fields)
    ensures SameFields(Sort(le, fields), fields) && Distinct(Sort(le, fields))
  {
    if fields.Cons? {
      SortLookup(le, fields.tail);
      PlaceDistinct(le, fields.head, Sort(le, fields.tail));
      forall k ensures Lookup(Sort(le, fields), k) == Lookup(fields, k) {
        PlaceLookup(le, fields.head, Sort(le, fields.tail), k);
      }
    }
  }

  lemma SelectLookup(indexes: bool, fields: List<Field>, k: string)
    ensures Lookup(Select(indexes, fields), k) == if IsIndex(k) == indexes then Lookup(fields, k) else None
  {
  }

  lemma {:induction false} SelectDistinct(indexes: bool, fields: List<Field>)
    requires Distinct(fields)
    ensures Distinct(Select(indexes, fields))
  {
    if fields.Cons? {
      SelectDistinct(indexes, fields.tail);
      SelectLookup(indexes, fields.tail, fields.head.key);
    }
  }

  lemma ConcatLookup(a: List<Field>, b: List<Field>, k: string)
    ensures Lookup(Concat(a, b), k) == if Lookup(a, k).Some? then Lookup(a, k) else Lookup(b, k)
  {
  }

  /** Arranging an object's fields moves them and does nothing else. */
  lemma ArrangeLookup(style: Style, le: Order, fields: List<Field>)
    requires Distinct(fields)
    ensures SameFields(Arrange(style, le, fields), fields)
  {
    SortLookup(le, fields);
    if style.Audit? {
      var sorted := Sort(le, fields);
      SelectDistinct(true, sorted);
      SortLookup(NumericOrder(), Select(true, sorted));
      forall k ensures Lookup(Arrange(style, le, fields), k) == Lookup(fields, k) {
        ConcatLookup(Sort(NumericOrder(), Select(true, sorted)), Select(false, sorted), k);
        SelectLookup(true, sorted, k);
        SelectLookup(false, sorted, k);
      }
    }
  }
}
