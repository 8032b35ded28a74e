/** The non-normalising element builder of `src/libraries/my-react.ts`,
    which `src/main.ts` and `src/index.ts` import: it stores the rest
    arguments as the child list exactly as given. */
module VerbatimReact {
  import opened JsValues

  /** `MyReact.createElement(type, props = null, ...children)`. */
  function CreateElement(elementType: string, props: Option<map<string, Value>>, children: seq<Value>): (r: Element)
    ensures r.elementType == elementType
    ensures Canonical(r)
    ensures |r.children| == |children|
    ensures forall i :: 0 <= i < |children| ==> r.children[i] == children[i]
    ensures PropsObject(r)[ChildrenKey] == Arr(children)
    ensures forall k :: k != ChildrenKey ==>
              (k in PropsObject(r) <==> props.Some? && k in props.value)
    ensures forall k :: k != ChildrenKey && props.Some? && k in props.value ==>
              PropsObject(r)[k] == props.value[k]
    ensures props.None? ==> PropsObject(r).Keys == {ChildrenKey}
  {
    ElementLiteral(elementType, props, children)
  }
}
