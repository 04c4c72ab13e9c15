/** `SOCOrchestrator._to_plain`: the converter that turns a tree of models, enumerations and
    containers into plain data (dictionaries, lists and scalars) before it enters the graph. */
module PlainData {

  /** The values `_to_plain` meets. `VEnum` is an Enum member with its string value; `VModel`
      a Pydantic model with its fields in declaration order; `VDict` a dictionary as its
      (key, value) pairs in insertion order; tuples and sets are kept apart from lists
      because the converter treats them differently. */
  datatype Value =
    | VNone
    | VBool(b: bool)
    | VNum(n: real)
    | VStr(s: string)
    | VEnum(value: string)
    | VList(items: seq<Value>)
    | VTuple(items: seq<Value>)
    | VSet(items: seq<Value>)
    | VDict(pairs: seq<(Value, Value)>)
    | VModel(fields: seq<(string, Value)>)

  /** Plain data: only scalars, lists and dictionaries, all the way down. */
  predicate IsPlain(v: Value)
    decreases v
  {
    match v
    case VNone => true
    case VBool(_) => true
    case VNum(_) => true
    case VStr(_) => true
    case VEnum(_) => false
    case VList(items) => forall i :: 0 <= i < |items| ==> IsPlain(items[i])
    case VTuple(_) => false
    case VSet(_) => false
    case VDict(pairs) => forall i :: 0 <= i < |pairs| ==> IsPlain(pairs[i].0) && IsPlain(pairs[i].1)
    case VModel(_) => false
  }

  /** `_to_plain(obj)`: a model becomes the dictionary of its fields (what
      `json.loads(model.model_dump_json())`, or `model_dump()`, then conversion give), an
      enumeration member its value, dictionaries and lists are converted element by element,
      tuples and sets become lists, and anything else is returned as it is. */
  function ToPlain(v: Value): (r: Value)
    decreases v
  {
    match v
    case VModel(fields) =>
      VDict(seq(|fields|, i requires 0 <= i < |fields| => (VStr(fields[i].0), ToPlain(fields[i].1))))
    case VEnum(value) => VStr(value)
    case VDict(pairs) =>
      VDict(seq(|pairs|, i requires 0 <= i < |pairs| => (ToPlain(pairs[i].0), ToPlain(pairs[i].1))))
    case VList(items) => VList(ToPlainAll(items))
    case VTuple(items) => VList(ToPlainAll(items))
    case VSet(items) => VList(ToPlainAll(items))
    case _ => v
  }

  /** `[_to_plain(x) for x in items]`. */
  function ToPlainAll(items: seq<Value>): (r: seq<Value>)
    decreases items
  {
    seq(|items|, i requires 0 <= i < |items| => ToPlain(items[i]))
  }

  /** The shape of the conversion at the top level: enumerations become their value, a
      model a dictionary with one string-keyed entry per field, a dictionary one of the same
      size, and lists, tuples and sets a list of the same length; scalars are unchanged. */
  lemma ToPlainShape(v: Value)
    ensures v.VEnum? ==> ToPlain(v) == VStr(v.value)
    ensures v.VModel? ==> ToPlain(v).VDict? && |ToPlain(v).pairs| == |v.fields|
                          && forall i :: 0 <= i < |v.fields| ==> ToPlain(v).pairs[i].0 == VStr(v.fields[i].0)
    ensures v.VModel? ==> forall i :: 0 <= i < |v.fields| ==>
                            ToPlain(v).pairs[i] == (VStr(v.fields[i].0), ToPlain(v.fields[i].1))
    ensures v.VDict? ==> ToPlain(v).VDict? && |ToPlain(v).pairs| == |v.pairs|
    ensures v.VDict? ==> forall i :: 0 <= i < |v.pairs| ==>
                           ToPlain(v).pairs[i] == (ToPlain(v.pairs[i].0), ToPlain(v.pairs[i].1))
    ensures (v.VList? || v.VTuple? || v.VSet?) ==>
              ToPlain(v).VList? && |ToPlain(v).items| == |v.items|
              && forall i :: 0 <= i < |v.items| ==> ToPlain(v).items[i] == ToPlain(v.items[i])
    ensures (v.VNone? || v.VBool? || v.VNum? || v.VStr?) ==> ToPlain(v) == v
  {
  }

  /** The result is plain: no enumeration, model, tuple or set is left anywhere in it. */
  lemma {:induction false} ToPlainIsPlain(v: Value)
    ensures IsPlain(ToPlain(v))
    decreases v
  {
    match v
    case VModel(fields) =>
      forall i | 0 <= i < |fields| ensures IsPlain(ToPlain(fields[i].1)) {
        ToPlainIsPlain(fields[i].1);
      }
    case VDict(pairs) =>
      forall i | 0 <= i < |pairs|
        ensures IsPlain(ToPlain(pairs[i].0)) && IsPlain(ToPlain(pairs[i].1))
      {
        ToPlainIsPlain(pairs[i].0);
        ToPlainIsPlain(pairs[i].1);
      }
    case VList(items) => ItemsArePlain(items);
    case VTuple(items) => ItemsArePlain(items);
    case VSet(items) => ItemsArePlain(items);
    case _ =>
  }

  /** Every converted element of a container is plain. */
  lemma {:induction false} ItemsArePlain(items: seq<Value>)
    ensures forall i :: 0 <= i < |items| ==> IsPlain(ToPlainAll(items)[i])
    decreases items
  {
    forall i | 0 <= i < |items| ensures IsPlain(ToPlain(items[i])) {
      ToPlainIsPlain(items[i]);
    }
  }

  /** Plain data passes through the converter unchanged. */
  lemma {:induction false} PlainIsFixed(v: Value)
    requires IsPlain(v)
    ensures ToPlain(v) == v
    decreases v
  {
    match v
    case VList(items) =>
      forall i | 0 <= i < |items| ensures ToPlain(items[i]) == items[i] {
        PlainIsFixed(items[i]);
      }
      assert ToPlainAll(items) == items;
    case VDict(pairs) =>
      forall i | 0 <= i < |pairs| ensures ToPlain(pairs[i].0) == pairs[i].0 && ToPlain(pairs[i].1) == pairs[i].1 {
        PlainIsFixed(pairs[i].0);
        PlainIsFixed(pairs[i].1);
      }
      assert ToPlain(v).pairs == pairs;
    case _ =>
  }

  /** Converting twice is converting once. */
  lemma ToPlainIdempotent(v: Value)
    ensures ToPlain(ToPlain(v)) == ToPlain(v)
  {
    ToPlainIsPlain(v);
    PlainIsFixed(ToPlain(v));
  }
}
