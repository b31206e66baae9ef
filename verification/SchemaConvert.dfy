/** Arrow to Iceberg schema conversion, which draws field ids from a module-level counter. */
module SchemaConvert {
  import opened Wrappers

  /** `Other`: a type for which none of the conversion's tests succeeds. */
  datatype Arrow =
    | Utf8 | LargeUtf8 | Bool | Int32 | Int64 | Float32 | Float64 | Date32 | Date64 | Bytes | LargeBytes
    | Decimal(precision: nat, scale: int)
    | Timestamp(tz: Option<string>)
    | List(value: Arrow)
    | LargeList(value: Arrow)
    | Struct(fields: seq<ArrowField>)
    | Other(name: string)
  datatype ArrowField = ArrowField(name: string, arrow: Arrow)

  datatype Iceberg =
    | StringType | BooleanType | IntegerType | LongType | FloatType | DoubleType | DateType | BinaryType
    | DecimalType(precision: nat, scale: int)
    | TimestampType | TimestamptzType
    | ListType(elementId: nat, element: Iceberg, elementRequired: bool)
    | StructType(fields: seq<NestedField>)
  datatype NestedField = NestedField(fieldId: nat, name: string, fieldType: Iceberg, required: bool)

  /** The result, None for the ValueError, and the counter afterwards. */
  datatype Outcome<T> = Outcome(result: Option<T>, id: nat)

  function Leaf(t: Arrow): Option<Iceberg>
    requires !t.List? && !t.LargeList? && !t.Struct?
  {
    match t
    case Utf8 | LargeUtf8 => Some(StringType)
    case Bool => Some(BooleanType)
    case Int32 => Some(IntegerType)
    case Int64 => Some(LongType)
    case Float32 => Some(FloatType)
    case Float64 => Some(DoubleType)
    case Date32 | Date64 => Some(DateType)
    case Bytes | LargeBytes => Some(BinaryType)
    case Decimal(precision, scale) => Some(DecimalType(precision, scale))
    case Timestamp(tz) => Some(if tz.Some? then TimestamptzType else TimestampType)
    case Other(_) => None
  }

  function Converted(t: Arrow, id: nat): Outcome<Iceberg>
    decreases t
  {
    match t
    case List(value) => ListOf(Converted(value, id))
    case LargeList(value) => ListOf(Converted(value, id))
    case Struct(fields) =>
      var o := ConvertedFields(fields, id);
      Outcome(if o.result.Some? then Some(StructType(o.result.value)) else None, o.id)
    case _ => Outcome(Leaf(t), id)
  }

  /** The element is converted before the list's own id is drawn. */
  function ListOf(element: Outcome<Iceberg>): Outcome<Iceberg> {
    if element.result.None? then element
    else Outcome(Some(ListType(element.id + 1, element.result.value, false)), element.id + 1)
  }

  /** Each field's id is drawn before its type is converted. */
  function ConvertedFields(fields: seq<ArrowField>, id: nat): Outcome<seq<NestedField>>
    decreases fields
  {
    if fields == [] then Outcome(Some([]), id)
    else
      var front := ConvertedFields(fields[..|fields| - 1], id);
      if front.result.None? then front
      else
        var last := fields[|fields| - 1];
        var o := Converted(last.arrow, front.id + 1);
        if o.result.None? then Outcome(None, o.id)
        else Outcome(Some(front.result.value + [NestedField(front.id + 1, last.name, o.result.value, false)]), o.id)
  }

  class Converter {
    var id: nat

    constructor () { id := 0; }

    method NextId() returns (r: nat)
      modifies this
      ensures r == id == old(id) + 1
    {
      id := id + 1;
      r := id;
    }

    method ConvertType(t: Arrow) returns (r: Option<Iceberg>)
      modifies this
      ensures Outcome(r, id) == Converted(t, old(id))
      decreases t, 0
    {
      match t
      case List(value) => r := ConvertList(value);
      case LargeList(value) => r := ConvertList(value);
      case Struct(fields) =>
        var nested := ConvertFields(fields);
        r := if nested.Some? then Some(StructType(nested.value)) else None;
      case _ => r := Leaf(t);
    }

    method ConvertList(value: Arrow) returns (r: Option<Iceberg>)
      modifies this
      ensures Outcome(r, id) == ListOf(Converted(value, old(id)))
      decreases value, 1
    {
      var element := ConvertType(value);
      if element.None? { return None; }
      var elementId := NextId();
      r := Some(ListType(elementId, element.value, false));
    }

    method ConvertFields(fields: seq<ArrowField>) returns (r: Option<seq<NestedField>>)
      modifies this
      ensures Outcome(r, id) == ConvertedFields(fields, old(id))
      decreases fields, 1
    {
      var converted: seq<NestedField> := [];
      for i := 0 to |fields|
        invariant Outcome(Some(converted), id) == ConvertedFields(fields[..i], old(id))
      {
        assert fields[..i + 1][..i] == fields[..i];
        var fieldId := NextId();
        var fieldType := ConvertType(fields[i].arrow);
        if fieldType.None? {
          StuckFrom(fields, i + 1, old(id));
          return None;
        }
        converted := converted + [NestedField(fieldId, fields[i].name, fieldType.value, false)];
      }
      assert fields[..|fields|] == fields;
      r := Some(converted);
    }

    /** Converts a whole schema; the counter starts over each time. */
    method ConvertSchema(fields: seq<ArrowField>) returns (r: Option<seq<NestedField>>)
      modifies this
      ensures Outcome(r, id) == ConvertedFields(fields, 0)
    {
      id := 0;
      r := ConvertFields(fields);
    }
  }

  /** Once a field has failed, the conversion stops there. */
  lemma {:induction false} StuckFrom(fields: seq<ArrowField>, k: nat, id: nat)
    requires k <= |fields| && ConvertedFields(fields[..k], id).result.None?
    ensures ConvertedFields(fields, id) == ConvertedFields(fields[..k], id)
    decreases |fields|
  {
    if k == |fields| {
      assert fields[..k] == fields;
    } else {
      var front := fields[..|fields| - 1];
      assert front[..k] == fields[..k];
      StuckFrom(front, k, id);
    }
  }

  // ---- when it succeeds, and what it yields ----

  predicate Supported(t: Arrow)
    decreases t
  {
    match t
    case List(value) => Supported(value)
    case LargeList(value) => Supported(value)
    case Struct(fields) => AllSupported(fields)
    case Other(_) => false
    case _ => true
  }

  predicate AllSupported(fields: seq<ArrowField>)
    decreases fields
  {
    forall f | f in fields :: Supported(f.arrow)
  }

  lemma AllSupportedSnoc(front: seq<ArrowField>, last: ArrowField)
    ensures AllSupported(front + [last]) <==> AllSupported(front) && Supported(last.arrow)
  {
  }

  /** `r` has the structure of `t`, leaf by leaf and name by name, with nothing required, whatever its ids. */
  predicate IsImage(t: Arrow, r: Iceberg)
    decreases t
  {
    match t
    case List(value) => r.ListType? && !r.elementRequired && IsImage(value, r.element)
    case LargeList(value) => r.ListType? && !r.elementRequired && IsImage(value, r.element)
    case Struct(fields) => r.StructType? && AreImages(fields, r.fields)
    case _ => Leaf(t) == Some(r)
  }

  predicate AreImages(fields: seq<ArrowField>, r: seq<NestedField>)
    decreases fields
  {
    |r| == |fields| && forall i | 0 <= i < |fields| :: IsImageField(fields[i], r[i])
  }

  predicate IsImageField(f: ArrowField, r: NestedField)
    decreases f
  {
    r.name == f.name && !r.required && IsImage(f.arrow, r.fieldType)
  }

  /** Erasing the ids. */
  function Erase(t: Iceberg): Iceberg
    decreases t
  {
    match t
    case ListType(_, element, required) => ListType(0, Erase(element), required)
    case StructType(fields) => StructType(EraseFields(fields))
    case _ => t
  }

  function EraseFields(fields: seq<NestedField>): seq<NestedField>
    decreases fields
  {
    if fields == [] then []
    else
      var last := fields[|fields| - 1];
      EraseFields(fields[..|fields| - 1]) + [NestedField(0, last.name, Erase(last.fieldType), last.required)]
  }

  /** A type has one image: two of them are equal once their ids are erased. */
  lemma {:induction false} ImageIsUnique(t: Arrow, r: Iceberg, r': Iceberg)
    requires IsImage(t, r) && IsImage(t, r')
    ensures Erase(r) == Erase(r')
    decreases t
  {
    match t
    case List(value) => ImageIsUnique(value, r.element, r'.element);
    case LargeList(value) => ImageIsUnique(value, r.element, r'.element);
    case Struct(fields) => ImagesAreUnique(fields, r.fields, r'.fields);
    case _ =>
  }

  lemma {:induction false} ImagesAreUnique(fields: seq<ArrowField>, r: seq<NestedField>, r': seq<NestedField>)
    requires AreImages(fields, r) && AreImages(fields, r')
    ensures EraseFields(r) == EraseFields(r')
    decreases fields
  {
    if fields != [] {
      var n := |fields| - 1;
      ImagesAreUnique(fields[..n], r[..n], r'[..n]);
      assert IsImageField(fields[n], r[n]) && IsImageField(fields[n], r'[n]);
      ImageIsUnique(fields[n].arrow, r[n].fieldType, r'[n].fieldType);
    }
  }

  lemma {:induction false} TypeImage(t: Arrow, id: nat)
    ensures Converted(t, id).result.Some? <==> Supported(t)
    ensures Supported(t) ==> IsImage(t, Converted(t, id).result.value)
    decreases t
  {
    match t
    case List(value) => TypeImage(value, id);
    case LargeList(value) => TypeImage(value, id);
    case Struct(fields) => FieldsImage(fields, id);
    case _ =>
  }

  lemma {:induction false} FieldsImage(fields: seq<ArrowField>, id: nat)
    ensures ConvertedFields(fields, id).result.Some? <==> AllSupported(fields)
    ensures AllSupported(fields) ==> AreImages(fields, ConvertedFields(fields, id).result.value)
    decreases fields
  {
    if fields != [] {
      var front, last := fields[..|fields| - 1], fields[|fields| - 1];
      FieldsImage(front, id);
      assert fields == front + [last];
      AllSupportedSnoc(front, last);
      TypeImage(last.arrow, ConvertedFields(front, id).id + 1);
    }
  }

  // ---- the ids ----

  /** All ids of a type, in the order they were drawn. */
  function Ids(t: Iceberg): seq<nat>
    decreases t
  {
    match t
    case ListType(id, element, _) => Ids(element) + [id]
    case StructType(fields) => FieldIds(fields)
    case _ => []
  }

  function FieldIds(fields: seq<NestedField>): seq<nat>
    decreases fields
  {
    if fields == [] then []
    else
      var last := fields[|fields| - 1];
      FieldIds(fields[..|fields| - 1]) + [last.fieldId] + Ids(last.fieldType)
  }

  /** `ids` is exactly low + 1, low + 2, ..., high. */
  predicate Consecutive(ids: seq<nat>, low: nat, high: nat) {
    low + |ids| == high && forall i | 0 <= i < |ids| :: ids[i] == low + 1 + i
  }

  lemma FieldIdsStep(front: seq<NestedField>, f: NestedField, low: nat, mid: nat, high: nat)
    requires Consecutive(FieldIds(front), low, mid) && f.fieldId == mid + 1
    requires Consecutive(Ids(f.fieldType), mid + 1, high)
    ensures Consecutive(FieldIds(front + [f]), low, high)
  {
  }

  lemma {:induction false} TypeIds(t: Arrow, id: nat)
    ensures Converted(t, id).result.Some? ==> Consecutive(Ids(Converted(t, id).result.value), id, Converted(t, id).id)
    decreases t
  {
    match t
    case List(value) => TypeIds(value, id);
    case LargeList(value) => TypeIds(value, id);
    case Struct(fields) => FieldsIds(fields, id);
    case _ =>
  }

  lemma {:induction false} FieldsIds(fields: seq<ArrowField>, id: nat)
    ensures var o := ConvertedFields(fields, id);
            o.result.Some? ==> Consecutive(FieldIds(o.result.value), id, o.id)
    decreases fields
  {
    if fields != [] {
      var last, before := fields[|fields| - 1], ConvertedFields(fields[..|fields| - 1], id);
      FieldsIds(fields[..|fields| - 1], id);
      TypeIds(last.arrow, before.id + 1);
      if ConvertedFields(fields, id).result.Some? {
        var o := Converted(last.arrow, before.id + 1);
        var field := NestedField(before.id + 1, last.name, o.result.value, false);
        FieldIdsStep(before.result.value, field, id, before.id, o.id);
      }
    }
  }

  /** Leaf by leaf: what each Arrow type becomes, and that nothing else is supported. */
  lemma LeafTypes(t: Arrow, id: nat)
    requires !t.List? && !t.LargeList? && !t.Struct?
    ensures Converted(t, id).id == id
    ensures Converted(t, id).result ==
            if t == Utf8 || t == LargeUtf8 then Some(StringType)
            else if t == Bool then Some(BooleanType)
            else if t == Int32 then Some(IntegerType)
            else if t == Int64 then Some(LongType)
            else if t == Float32 then Some(FloatType)
            else if t == Float64 then Some(DoubleType)
            else if t == Date32 || t == Date64 then Some(DateType)
            else if t == Bytes || t == LargeBytes then Some(BinaryType)
            else if t.Decimal? then Some(DecimalType(t.precision, t.scale))
            else if t.Timestamp? then Some(if t.tz == None then TimestampType else TimestamptzType)
            else None
  {
  }

  /** Everywhere inside, a list's id exceeds the ids of its element and a field's id is below those of its type. */
  predicate Nested(t: Iceberg)
    decreases t
  {
    match t
    case ListType(id, element, _) => Nested(element) && forall x | x in Ids(element) :: x < id
    case StructType(fields) => forall f | f in fields :: NestedIn(f)
    case _ => true
  }

  predicate NestedIn(f: NestedField)
    decreases f
  {
    Nested(f.fieldType) && forall x | x in Ids(f.fieldType) :: f.fieldId < x
  }

  lemma {:induction false} TypeNested(t: Arrow, id: nat)
    ensures Converted(t, id).result.Some? ==> Nested(Converted(t, id).result.value)
    decreases t
  {
    match t
    case List(value) => TypeNested(value, id); TypeIds(value, id);
    case LargeList(value) => TypeNested(value, id); TypeIds(value, id);
    case Struct(fields) => FieldsNested(fields, id);
    case _ =>
  }

  lemma {:induction false} FieldsNested(fields: seq<ArrowField>, id: nat)
    ensures var o := ConvertedFields(fields, id).result;
            o.Some? ==> forall f | f in o.value :: NestedIn(f)
    decreases fields
  {
    if fields != [] {
      var front, last := fields[..|fields| - 1], fields[|fields| - 1];
      FieldsNested(front, id);
      var n := ConvertedFields(front, id).id + 1;
      TypeNested(last.arrow, n);
      TypeIds(last.arrow, n);
    }
  }

  /**
   A schema converts exactly when all its leaf types are supported. The result is its structural image,
   its ids are exactly 1, 2, ..., n in the order of the fields, and they nest as `Nested` says.
   */
  lemma SchemaConverts(fields: seq<ArrowField>)
    ensures var o := ConvertedFields(fields, 0);
            && (o.result.Some? <==> AllSupported(fields))
            && (o.result.Some? ==>
                  && AreImages(fields, o.result.value)
                  && Consecutive(FieldIds(o.result.value), 0, o.id)
                  && (forall f | f in o.result.value :: NestedIn(f)))
  {
    FieldsImage(fields, 0);
    FieldsIds(fields, 0);
    FieldsNested(fields, 0);
  }
}
