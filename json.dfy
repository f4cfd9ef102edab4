/** `undefined`/`null` versus a present value. */
module Optional {
  datatype Option<+T> = None | Some(value: T)
}

/** JSON objects as the handlers and the components see them: a map from key to a
    scalar field, JavaScript's truthiness, and the object spread `{ ...a, ...b }`. */
module Json {
  import opened Optional

  /** A scalar JSON value. Nested arrays and objects inside a profile or a day's
      content are not part of this model. */
  datatype Field = FNull | FBool(b: bool) | FNum(n: int) | FStr(s: string)

  /** A JSON object. A key that is absent reads as `undefined`. */
  type Fields = map<string, Field>

  /** JavaScript truthiness of a field: `null`, `false`, `0` and `''` are falsy. */
  predicate Truthy(f: Field) {
    match f
    case FNull => false
    case FBool(b) => b
    case FNum(n) => n != 0
    case FStr(s) => s != ""
  }

  /** `obj?.[key]`, with `undefined` as None. */
  function Lookup(obj: Fields, key: string): (r: Option<Field>)
    ensures r.Some? <==> key in obj
    ensures r.Some? ==> r.value == obj[key]
  {
    if key in obj then Some(obj[key]) else None
  }

  /** `obj?.[key] || fallback`: the stored field when it is truthy, else the fallback. */
  function FieldOr(obj: Fields, key: string, fallback: Field): (r: Field)
    ensures key in obj && Truthy(obj[key]) ==> r == obj[key]
    ensures !(key in obj && Truthy(obj[key])) ==> r == fallback
  {
    if key in obj && Truthy(obj[key]) then obj[key] else fallback
  }

  /** The object spread `{ ...base, ...over }`: every key of `over` wins, every other
      key of `base` is kept. */
  function Merge(base: Fields, over: Fields): Fields {
    base + over
  }

  /** What `{ ...base, ...over }` promises, key by key. */
  lemma MergeKeys(base: Fields, over: Fields)
    ensures Merge(base, over).Keys == base.Keys + over.Keys
    ensures forall k :: k in over ==> Merge(base, over)[k] == over[k]
    ensures forall k :: k in base && k !in over ==> Merge(base, over)[k] == base[k]
  {
  }

  /** Two successive spreads equal one spread of their union, later keys winning:
      two partial updates of a day's content may be folded into one. */
  lemma MergeAssociative(a: Fields, b: Fields, c: Fields)
    ensures Merge(Merge(a, b), c) == Merge(a, Merge(b, c))
  {
  }
}
