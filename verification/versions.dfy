/** How the two element builders relate, and the demo tree of `src/index.ts`
    built with each. */
module Versions {
  import opened JsValues
  import MyReact
  import VerbatimReact

  /** The builders agree on type and props; the normalising one is the
      non-normalising one applied to the normalised child list, and the two
      give the same element exactly when every child is already an object. */
  lemma BuildersAgree(t: string, p: Option<map<string, Value>>, children: seq<Value>)
    ensures MyReact.CreateElement(t, p, children).elementType == VerbatimReact.CreateElement(t, p, children).elementType
    ensures MyReact.CreateElement(t, p, children).props == VerbatimReact.CreateElement(t, p, children).props
    ensures MyReact.CreateElement(t, p, children)
         == VerbatimReact.CreateElement(t, p, MyReact.NormalizeChildren(children))
    ensures MyReact.CreateElement(t, p, children) == VerbatimReact.CreateElement(t, p, children)
        <==> AllObjects(children)
  {
  }

  /** The tree `src/index.ts` builds:
      `createElement('div', {id: 'foo'}, createElement('a', null, 'bar'), createElement('b'))`.
      The non-normalising builder keeps `'bar'` as a raw string child; the
      normalising one wraps it into a text node. Both keep `id` and add
      `children`. */
  lemma DemoTree()
    ensures
      var a := VerbatimReact.CreateElement("a", None, [Str("bar")]);
      var b := VerbatimReact.CreateElement("b", None, []);
      var div := VerbatimReact.CreateElement("div", Some(map["id" := Str("foo")]), [Elem(a), Elem(b)]);
      && PropsObject(div).Keys == {"id", ChildrenKey}
      && PropsObject(div)["id"] == Str("foo")
      && div.children == [Elem(a), Elem(b)]
      && a.children == [Str("bar")]
      && PropsObject(b) == map[ChildrenKey := Arr([])]
    ensures
      var a := MyReact.CreateElement("a", None, [Str("bar")]);
      var b := MyReact.CreateElement("b", None, []);
      var div := MyReact.CreateElement("div", Some(map["id" := Str("foo")]), [Elem(a), Elem(b)]);
      && PropsObject(div).Keys == {"id", ChildrenKey}
      && PropsObject(div)["id"] == Str("foo")
      && div.children == [Elem(a), Elem(b)]
      && a.children == [Elem(Element("TEXT_ELEMENT", map["nodeValue" := Str("bar")], []))]
      && PropsObject(b) == map[ChildrenKey := Arr([])]
  {
  }
}
