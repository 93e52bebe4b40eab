/** `deepCloneWithDates`: a structural copy of a JavaScript value that rebuilds dates, arrays
    and plain objects and passes primitives through. */
module DeepClone {

  /** The JavaScript values the usage rows are made of. An object lists its own enumerable
      properties in order; a date is its millisecond timestamp. */
  datatype JsValue =
    | Null
    | Undefined
    | Bool(b: bool)
    | Num(n: real)
    | Str(s: string)
    | Date(time: int)
    | Arr(items: seq<JsValue>)
    | Obj(props: seq<Prop>)

  /** An own property of an object. */
  datatype Prop = Prop(key: string, value: JsValue)

  /** Primitives (null and non-objects) are returned as they are, a date becomes a new date
      with the same timestamp, an array is cloned item by item and an object property by
      property. */
  function DeepCloneWithDates(v: JsValue): JsValue
    decreases v
  {
    match v
    case Date(t) => Date(t)
    case Arr(items) => Arr(CloneItems(items))
    case Obj(props) => Obj(CloneProps(props))
    case _ => v
  }

  function CloneItems(items: seq<JsValue>): (r: seq<JsValue>)
    ensures |r| == |items|
    decreases items
  {
    if items == [] then []
    else [DeepCloneWithDates(items[0])] + CloneItems(items[1..])
  }

  function CloneProps(props: seq<Prop>): (r: seq<Prop>)
    ensures |r| == |props|
    decreases props
  {
    if props == [] then []
    else
      assert props[0] in props;
      [Prop(props[0].key, DeepCloneWithDates(props[0].value))] + CloneProps(props[1..])
  }

  /** The clone is equal to the original, field by field, dates included: restoring from a
      snapshot gives back exactly the rows that were saved. */
  lemma {:induction false} CloneEqual(v: JsValue)
    ensures DeepCloneWithDates(v) == v
    decreases v
  {
    match v
    case Arr(items) => CloneItemsEqual(items);
    case Obj(props) => ClonePropsEqual(props);
    case _ =>
  }

  lemma {:induction false} CloneItemsEqual(items: seq<JsValue>)
    ensures CloneItems(items) == items
    decreases items
  {
    if items != [] {
      CloneEqual(items[0]);
      CloneItemsEqual(items[1..]);
      assert [items[0]] + items[1..] == items;
    }
  }

  lemma {:induction false} ClonePropsEqual(props: seq<Prop>)
    ensures CloneProps(props) == props
    decreases props
  {
    if props != [] {
      assert props[0] in props;
      CloneEqual(props[0].value);
      ClonePropsEqual(props[1..]);
      assert [props[0]] + props[1..] == props;
    }
  }
}
