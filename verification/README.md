# MyReact element construction, in Dafny

MyReact is a small React-like UI library written in TypeScript. Its element
API builds immutable tree nodes of the form `{ type, props: { ...props, children } }`.
There are two versions of `MyReact.createElement`:

- `src/my-react.ts` holds the normalising builder. It normalises children: a child
  whose `typeof` is `'object'` is kept as is. This includes `null` and arrays.
  Every other child (string, number, boolean, `undefined`, function) is
  wrapped by `createTextElement` into a `TEXT_ELEMENT` node. That node holds
  the raw value as `nodeValue` and has no children.
- `src/libraries/my-react.ts` holds the non-normalising builder, which
  `src/index.ts` and `src/main.ts` import. It stores the rest arguments as
  the children, unchanged.

The model consists of four modules:

- `JsValues` (`js_values.dfy`) is the data model. `Value` is a JavaScript value
  with `TypeOf` playing the role of `typeof`. `Element` is a tree node. Its
  field is named `elementType` because `type` is a Dafny keyword. `props`
  holds every property except `children`, which lives in its own `seq`.
  `PropsObject` puts the two back together into the `props` object that
  JavaScript sees. An element in this form is called `Canonical`. Every
  element the builders return is canonical, and `PropsObject` is injective
  on canonical elements of one type. `ElementLiteral` is the object literal both builders
  return.
- `VerbatimReact` (`verbatim_react.dfy`) is the non-normalising builder.
- `MyReact` (`my_react.dfy`) is the normalising builder and text elements. It
  also has `TextValue`/`RecoverChildren`, which undo the wrapping, and the
  lemmas about normalisation.
- `Versions` (`versions.dfy`) relates the two builders and states the demo
  tree of `src/index.ts`.

The `props` argument is an `Option`: `None` stands for an omitted argument and
for an explicit `null`. Spreading `null` copies no keys, and the default
parameter turns an omitted argument into `null`.

## Model

| member | source | states |
|---|---|---|
| JsValues.ElementLiteral | src/libraries/my-react.ts:3-9 | the result has the given type and children and is canonical. Its props object maps every key `k != "children"` of a non-null `props` to the same value and holds no other such keys. `children` always maps to the child list, overriding a caller-supplied `props.children`. With `props` null, the only key is `children`. |
| JsValues.CanonicalUnique | src/my-react.ts:1-7 | two canonical elements with the same type whose `props` objects, as JavaScript sees them, are equal are the same element. The split of `props` into stored properties and a child list therefore loses nothing. |
| VerbatimReact.CreateElement | src/libraries/my-react.ts:2-10 | the type is the `type` argument. The children are the rest arguments with the same length, order and values, and nothing is wrapped. Props are merged with `children` overriding, as above. |
| MyReact.CreateTextElement | src/my-react.ts:25-33 | a text element has type `TEXT_ELEMENT` and no children. Its props object is exactly `{ nodeValue: text, children: [] }`, with no other keys. |
| MyReact.TextValue | src/my-react.ts:28-30 | reading back a text node's `nodeValue` gives a non-object. Any value that is not a text node is returned unchanged. |
| MyReact.NormalizeChild | src/my-react.ts:20 | the mapped child is always an object. An object child (including `null`) is returned unchanged. A non-object child becomes a text node whose `nodeValue` reads back as that child. |
| MyReact.NormalizeChildren | src/my-react.ts:19-21 | the output has one entry per input child. The i-th output is the normalised i-th input, so order is kept. |
| MyReact.CreateElement | src/my-react.ts:10-24 | the type is the `type` argument. The child list has the same length as the rest arguments. Object children appear unchanged at the same position, and each non-object child `c` becomes exactly `createTextElement(c)`. Every resulting child is an object. Props are merged with `children` overriding, and only `children` is present when `props` is null. |
| MyReact.NormalizeIdempotent | src/my-react.ts:19-20 | normalising an already normalised child list leaves it unchanged. |
| MyReact.NormalizeFixedPoints | src/my-react.ts:20 | normalisation leaves a child list unchanged if and only if every child is an object. |
| MyReact.NormalizeAppend | src/my-react.ts:13-21 | normalising the concatenation of two child lists is the concatenation of their normalisations. The per-child mapping does not depend on neighbours. |
| MyReact.RecoverChildren | src/my-react.ts:19-32 | the inverse of the mapping, used by the round-trip lemmas. It gives one output per input, in order, and each text node is replaced by its `nodeValue`. |
| MyReact.RecoverNormalize | src/my-react.ts:19-32 | unwrapping the text nodes of a normalised list gives back the original children, provided none of them already had the exact shape of a text node. Wrapping therefore loses no information. |
| MyReact.NormalizeRecover | src/my-react.ts:19-32 | for a list of objects, unwrapping yields a list without text-node-shaped entries, and normalising that list gives back the original. |
| MyReact.CreateElementIdempotent | src/my-react.ts:10-24 | passing an element's children to `createElement` again, with any type and props, gives back the same child list. |
| Versions.BuildersAgree | src/my-react.ts:15-23 | the two builders agree on type and props. The normalising builder equals the non-normalising builder applied to the normalised children. The two give equal elements if and only if every child is an object. |
| Versions.DemoTree | src/index.ts:3-8 | on the demo tree, the non-normalising builder keeps `'bar'` as a raw string child while the normalising one wraps it in a `TEXT_ELEMENT`. Both keep `id: 'foo'` next to `children`, and `b` has only an empty `children`. |

## Left out

- `MyReact.render` (src/my-react.ts:34) has an empty body, so there is nothing to model beyond "does nothing".
- `src/main.ts` is left out. It does a DOM lookup, throws a startup error and defines a demo `Counter` component. It calls `MyReact.useState` and `MyReactDOM.render`, which neither `src/my-react.ts` nor `src/libraries/my-react.ts` defines.
- `src/index.ts` writes `JSON.stringify` output to the console. That I/O is left out, and so is the key order of the printed object (`Value` maps are unordered). Only the tree it builds is modelled, in `Versions.DemoTree`.
- `src/libraries/logger.ts` only logs to the console, which is I/O.
- The fiber reconciler, diffing, commit phase, work loop and hook state are left out because none of them is implemented in the source files of this model.
- JavaScript's dynamic typing is reduced to the `Value` variants. Numbers are reals, with no NaN, infinities or bigint. Symbols are not modelled. An element is its own variant rather than a plain record with `type` and `props` keys. Both are objects to `typeof`, so normalisation treats them alike.
- `props` arguments that are not objects are not modelled. In the untyped non-normalising builder, spreading a string would copy its characters as keys. The model takes `props` as a map or null.
- The type argument is a string, as both sources declare it. Function-component types, as `src/main.ts` uses them, are not modelled.
- `IsTextNode` and the round-trip lemmas look at an element as stored. A caller-built `Elem` whose stored `props` also holds a `children` key is not canonical. It is a second encoding of a JavaScript object that has a canonical encoding, and `IsTextNode` does not recognise such a value even when its `props` object is a text node's. The builders never produce such values (`ElementLiteral`, `CreateTextElement` and both `CreateElement` functions ensure `Canonical`).
