/** The text of a context, read by the grammar of JSON, says what the context denotes. */
module ContextRoundTrip {
  import opened CodeUnits
  import opened CanonicalContext
  import opened JsonReader
  import opened JsonRoundTrip

  /** What a text is read as is denoted by the value. */
  ghost predicate Tells(h: Heap, v: Val, text: Text) {
    Parse(text).Some? && Denotes(h, v, Parse(text).value)
  }

  lemma StringifyTells(h: Heap, v: Val)
    requires Stringify(h, v).Prints?
    ensures Tells(h, v, Stringify(h, v).text)
  {
    ShowIsRead(Resolve(h, v, {}).tree);
    ResolvedIsDenoted(h, v, {});
  }

  /** The canonical text of a context. */
  lemma CanonicalTells(h: Heap, v: Val)
    requires Canonicalize(h, v).Prints?
    ensures Tells(h, v, Canonicalize(h, v).text)
  {
    StringifyTells(h, v);
  }

  /** And what the code generator slices out of the text of `{ v: value }`. */
  lemma SliceTells(h: Heap, id: Id, value: Val)
    requires id !in h && value != Ref(id) && forall k :: k in h ==> Ref(id) !in Kids(h[k])
    requires Canonicalize(Wrapped(h, id, value), Ref(id)).Prints?
    ensures var whole := Canonicalize(Wrapped(h, id, value), Ref(id)).text;
            |whole| >= 6 && Tells(h, value, whole[5..|whole| - 1])
  {
    SliceIsTheValue(h, id, value);
    StringifyTells(h, value);
  }
}
