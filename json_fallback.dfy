/**
 `CustomJSONEncoder.default`: the replacement `json.dumps` uses for a value
 it cannot serialise natively. Python's `hasattr` probing becomes an
 explicit record of what the object offers; the payloads (the result of
 calling `to_dict()`, the `__dict__` mapping, the text of `str(o)`) are
 opaque type parameters.
 */
module JsonFallback {

  datatype Option<T> = None | Some(value: T)

  /** What a non-serialisable object offers: the result of `o.to_dict()`
      when it has a `to_dict` attribute, its `__dict__` when it has one,
      and the text `str(o)` that every object has. */
  datatype PyObject<D, A> = PyObject(toDict: Option<D>, attrs: Option<A>, text: string)

  /** The value `default` returns, tagged by the branch that produced it. */
  datatype Replacement<D, A> = FromToDict(d: D) | FromAttrs(a: A) | FromStr(s: string)

  /** Every replacement the object could supply, in the order the encoder
      prefers them; the textual one is always available, so the list is
      never empty. */
  function Candidates<D, A>(o: PyObject<D, A>): (cs: seq<Replacement<D, A>>)
    ensures |cs| == 1 + (if o.toDict.Some? then 1 else 0) + (if o.attrs.Some? then 1 else 0)
    ensures forall i :: 0 <= i < |cs| - 1 ==> !cs[i].FromStr?
    ensures cs[|cs| - 1] == FromStr(o.text)
    ensures o.toDict.Some? ==> cs[0] == FromToDict(o.toDict.value)
    ensures o.attrs.Some? ==> |cs| >= 2 && cs[|cs| - 2] == FromAttrs(o.attrs.value)
    ensures o.toDict.None? ==> forall i :: 0 <= i < |cs| ==> !cs[i].FromToDict?
    ensures o.attrs.None? ==> forall i :: 0 <= i < |cs| ==> !cs[i].FromAttrs?
  {
    match (o.toDict, o.attrs)
    case (Some(d), Some(a)) => [FromToDict(d), FromAttrs(a), FromStr(o.text)]
    case (Some(d), None) => [FromToDict(d), FromStr(o.text)]
    case (None, Some(a)) => [FromAttrs(a), FromStr(o.text)]
    case (None, None) => [FromStr(o.text)]
  }

  /** `CustomJSONEncoder.default(o)`: `to_dict()` first, then `__dict__`,
      then `str(o)`. */
  function Default<D, A>(o: PyObject<D, A>): (r: Replacement<D, A>)
    ensures r.FromToDict? <==> o.toDict.Some?
    ensures r.FromAttrs? <==> o.toDict.None? && o.attrs.Some?
    ensures r.FromStr? <==> o.toDict.None? && o.attrs.None?
    ensures r.FromToDict? ==> r.d == o.toDict.value
    ensures r.FromAttrs? ==> r.a == o.attrs.value
    ensures r.FromStr? ==> r.s == o.text
  {
    if o.toDict.Some? then FromToDict(o.toDict.value)
    else if o.attrs.Some? then FromAttrs(o.attrs.value)
    else FromStr(o.text)
  }

  /** The encoder takes the most preferred replacement on offer. */
  lemma DefaultIsFirstCandidate<D, A>(o: PyObject<D, A>)
    ensures Default(o) == Candidates(o)[0]
  {
  }

  /** `to_dict` wins even when `__dict__` is also present. */
  lemma ToDictBeatsAttrs<D, A>(d: D, a: A, text: string)
    ensures Default(PyObject(Some(d), Some(a), text)) == FromToDict(d)
  {
  }
}
