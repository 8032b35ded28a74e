/** The JavaScript values that element construction handles, and the element
    record itself: `{ type, props: { ...props, children } }`.

    An element is stored with its `children` list apart from the other
    properties; `PropsObject` puts them back together into the `props`
    object a JavaScript caller observes. */
module JsValues {

  /** An optional argument: `None` is `null` or an omitted argument. */
  datatype Option<+T> = None | Some(value: T)

  /** A JavaScript value, as far as `createElement` can tell values apart.
      Numbers are kept as reals; arrays, plain objects and elements are the
      three kinds of object. */
  datatype Value =
    | Undefined
    | Null
    | Bool(b: bool)
    | Num(n: real)
    | Str(s: string)
    | Fn(name: string)
    | Arr(items: seq<Value>)
    | Record(fields: map<string, Value>)
    | Elem(e: Element)

  /** An immutable tree node. `props` holds every property except
      `children`, which lives in its own field; see `Canonical`. */
  datatype Element = Element(elementType: string, props: map<string, Value>, children: seq<Value>)

  /** The name of the property under which an element's children are stored. */
  const ChildrenKey: string := "children"

  /** The result of JavaScript's `typeof` operator. */
  function TypeOf(v: Value): string
  {
    match v
    case Undefined => "undefined"
    case Null => "object"
    case Bool(_) => "boolean"
    case Num(_) => "number"
    case Str(_) => "string"
    case Fn(_) => "function"
    case Arr(_) => "object"
    case Record(_) => "object"
    case Elem(_) => "object"
  }

  /** `typeof v === 'object'`, which holds of `null` as well. */
  predicate IsObject(v: Value)
  {
    TypeOf(v) == "object"
  }

  /** True iff every entry of `cs` passes the `typeof === 'object'` test. */
  predicate AllObjects(cs: seq<Value>)
  {
    forall i :: 0 <= i < |cs| ==> IsObject(cs[i])
  }

  /** The `props` object of `e` as JavaScript sees it: the stored properties
      plus `children` holding the child list as an array. */
  function PropsObject(e: Element): map<string, Value>
  {
    e.props[ChildrenKey := Arr(e.children)]
  }

  /** True iff `e` keeps `children` only in its own field. Every element the
      builders return has this form, and on such elements `PropsObject` loses
      nothing (see `CanonicalUnique`). */
  predicate Canonical(e: Element)
  {
    ChildrenKey !in e.props
  }

  /** Two canonical elements with the same type that JavaScript sees as the
      same `props` object are the same element. */
  lemma CanonicalUnique(e1: Element, e2: Element)
    requires Canonical(e1) && Canonical(e2)
    requires e1.elementType == e2.elementType
    requires PropsObject(e1) == PropsObject(e2)
    ensures e1 == e2
  {
    assert e1.props == PropsObject(e1) - {ChildrenKey};
    assert e2.props == PropsObject(e2) - {ChildrenKey};
    assert Arr(e1.children) == PropsObject(e1)[ChildrenKey];
  }

  /** The object literal `{ type, props: { ...props, children } }` shared by
      both versions of `createElement`: the spread copies every key of a
      non-null `props`, then `children` overrides any `children` among them.
      Spreading `null` copies nothing. */
  function ElementLiteral(elementType: string, props: Option<map<string, Value>>, children: seq<Value>): (e: Element)
    ensures e.elementType == elementType
    ensures e.children == children
    ensures Canonical(e)
    ensures ChildrenKey in PropsObject(e) && PropsObject(e)[ChildrenKey] == Arr(children)
    ensures forall k :: k != ChildrenKey ==>
              (k in PropsObject(e) <==> props.Some? && k in props.value)
    ensures forall k :: k != ChildrenKey && props.Some? && k in props.value ==>
              PropsObject(e)[k] == props.value[k]
    ensures props.None? ==> PropsObject(e).Keys == {ChildrenKey}
  {
    var spread := if props.Some? then props.value else map[];
    Element(elementType, spread - {ChildrenKey}, children)
  }
}
