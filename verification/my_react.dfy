/** The normalising element builder of `src/my-react.ts`: every child whose `typeof` is not `'object'`
    is wrapped into a `TEXT_ELEMENT` node; object children (including `null`)
    are kept as they are. */
module MyReact {
  import opened JsValues

  /** The element type of text nodes. */
  const TextElementType: string := "TEXT_ELEMENT"

  /** The property of a text node that holds its raw value. */
  const NodeValueKey: string := "nodeValue"

  /** True iff `v` has exactly the shape `createTextElement` gives its results:
      a `TEXT_ELEMENT` with `nodeValue` as its only other property, holding a
      non-object, and no children. */
  predicate IsTextNode(v: Value)
  {
    && v.Elem?
    && v.e.elementType == TextElementType
    && v.e.props.Keys == {NodeValueKey}
    && v.e.children == []
    && !IsObject(v.e.props[NodeValueKey])
  }

  /** The raw value a text node was made from; any other value unchanged. */
  function TextValue(v: Value): (r: Value)
    ensures IsTextNode(v) ==> !IsObject(r)
    ensures !IsTextNode(v) ==> r == v
  {
    if IsTextNode(v) then v.e.props[NodeValueKey] else v
  }

  /** `MyReact.createTextElement(text)`. */
  function CreateTextElement(text: Value): (r: Element)
    ensures r.elementType == TextElementType
    ensures r.children == []
    ensures Canonical(r)
    ensures PropsObject(r) == map[NodeValueKey := text, ChildrenKey := Arr([])]
  {
    Element(TextElementType, map[NodeValueKey := text], [])
  }

  /** The callback given to `children.map`. */
  function NormalizeChild(child: Value): (r: Value)
    ensures IsObject(r)
    ensures IsObject(child) ==> r == child
    ensures !IsObject(child) ==> IsTextNode(r) && TextValue(r) == child
  {
    if TypeOf(child) == "object" then child else Elem(CreateTextElement(child))
  }

  /** `children.map(NormalizeChild)`: one output per input, in order. */
  function NormalizeChildren(children: seq<Value>): (r: seq<Value>)
    ensures |r| == |children|
    ensures forall i :: 0 <= i < |children| ==> r[i] == NormalizeChild(children[i])
    decreases |children|
  {
    if children == [] then []
    else [NormalizeChild(children[0])] + NormalizeChildren(children[1..])
  }

  /** `MyReact.createElement(type, props = null, ...children)`. */
  function CreateElement(elementType: string, props: Option<map<string, Value>>, children: seq<Value>): (r: Element)
    ensures r.elementType == elementType
    ensures Canonical(r)
    ensures |r.children| == |children|
    ensures forall i :: 0 <= i < |children| && IsObject(children[i]) ==>
              r.children[i] == children[i]
    ensures forall i :: 0 <= i < |children| && !IsObject(children[i]) ==>
              r.children[i] == Elem(CreateTextElement(children[i]))
    ensures AllObjects(r.children)
    ensures PropsObject(r)[ChildrenKey] == Arr(r.children)
    ensures forall k :: k != ChildrenKey ==>
              (k in PropsObject(r) <==> props.Some? && k in props.value)
    ensures forall k :: k != ChildrenKey && props.Some? && k in props.value ==>
              PropsObject(r)[k] == props.value[k]
    ensures props.None? ==> PropsObject(r).Keys == {ChildrenKey}
  {
    ElementLiteral(elementType, props, NormalizeChildren(children))
  }

  /** Undoes the wrapping: every text node goes back to its raw value. */
  function RecoverChildren(children: seq<Value>): (r: seq<Value>)
    ensures |r| == |children|
    ensures forall i :: 0 <= i < |children| ==> r[i] == TextValue(children[i])
    decreases |children|
  {
    if children == [] then []
    else [TextValue(children[0])] + RecoverChildren(children[1..])
  }

  /** True iff no entry of `cs` already has the shape of a text node. */
  predicate NoTextNodes(cs: seq<Value>)
  {
    forall i :: 0 <= i < |cs| ==> !IsTextNode(cs[i])
  }

  /** Normalising an already normalised list changes nothing. */
  lemma NormalizeIdempotent(children: seq<Value>)
    ensures NormalizeChildren(NormalizeChildren(children)) == NormalizeChildren(children)
  {
  }

  /** A child list is left unchanged exactly when every entry is an object. */
  lemma NormalizeFixedPoints(children: seq<Value>)
    ensures NormalizeChildren(children) == children <==> AllObjects(children)
  {
  }

  /** Mapping distributes over concatenation of the rest arguments. */
  lemma NormalizeAppend(a: seq<Value>, b: seq<Value>)
    ensures NormalizeChildren(a + b) == NormalizeChildren(a) + NormalizeChildren(b)
  {
    var l, r := NormalizeChildren(a + b), NormalizeChildren(a) + NormalizeChildren(b);
    forall i | 0 <= i < |a + b| ensures l[i] == r[i] {
      if i < |a| {
        assert (a + b)[i] == a[i];
      } else {
        assert (a + b)[i] == b[i - |a|];
      }
    }
  }

  /** Unwrapping the text nodes gives back the original children, provided
      none of them already looked like a text node. */
  lemma {:induction false} RecoverNormalize(children: seq<Value>)
    requires NoTextNodes(children)
    ensures RecoverChildren(NormalizeChildren(children)) == children
    decreases |children|
  {
    if children != [] {
      RecoverNormalize(children[1..]);
      var n := NormalizeChildren(children);
      assert n[1..] == NormalizeChildren(children[1..]);
      assert !IsTextNode(children[0]);
    }
  }

  /** Wrapping the unwrapped list of an all-object list gives it back. */
  lemma {:induction false} NormalizeRecover(children: seq<Value>)
    requires AllObjects(children)
    ensures NoTextNodes(RecoverChildren(children))
    ensures NormalizeChildren(RecoverChildren(children)) == children
    decreases |children|
  {
    if children != [] {
      assert AllObjects(children[1..]) by {
        forall i | 0 <= i < |children[1..]| ensures IsObject(children[1..][i]) {
          assert children[1..][i] == children[i + 1];
        }
      }
      NormalizeRecover(children[1..]);
      var r := RecoverChildren(children);
      assert r[1..] == RecoverChildren(children[1..]);
      var c := children[0];
      assert IsObject(c);
      if IsTextNode(c) {
        assert c.e == CreateTextElement(c.e.props[NodeValueKey]);
      }
      assert !IsTextNode(r[0]);
    }
  }

  /** Passing an element's children to `createElement` again (with any type
      and props) yields the same child list. */
  lemma CreateElementIdempotent(t: string, p: Option<map<string, Value>>, children: seq<Value>,
                                t': string, p': Option<map<string, Value>>)
    ensures CreateElement(t', p', CreateElement(t, p, children).children).children
         == CreateElement(t, p, children).children
  {
  }
}
