/** Classification of the `source` prop into the component's internal
    source: a sized descriptor object passed through, a bare URI string
    wrapped as `{uri}`, or a numeric local-asset handle. */
module SourceNormalisation {
  import opened Js

  /** The internal source: an object descriptor, or a local-asset handle. */
  datatype InternalSource = Described(obj: ImageObject) | LocalAsset(handle: real)

  /** What classifying a source can come to, as the code is written:
      a source is accepted, rejected (nothing is rendered), or reading its
      fields raises a TypeError. */
  datatype Classification = Accepted(src: InternalSource) | Rejected | Throws

  /** An object carrying a truthy `uri`, `width` and `height`. */
  predicate SizedDescriptor(o: ImageObject) {
    TruthyText(o.uri) && TruthyNumber(o.width) && TruthyNumber(o.height)
  }

  /** One of the three shapes the component accepts. */
  predicate AcceptedShape(source: JsValue) {
    (source.Object? && SizedDescriptor(source.obj)) || source.Text? || source.Number?
  }

  /** Every internal source that classification produces carries a `uri`
      field when it is an object. */
  predicate HasUri(src: InternalSource) {
    src.Described? ==> src.obj.uri.Some?
  }

  /** The wrapping of a bare URI string. */
  function UriOnly(s: string): (o: ImageObject) {
    ImageObject(Some(s), None, None)
  }

  /** The classification exactly as written: `typeof null` is "object", so a
      null source reaches the field test and reading `uri` of null throws. */
  function ClassifyAsWritten(source: JsValue): (c: Classification)
    ensures c.Throws? <==> source.Null?
    ensures c.Rejected? <==> !source.Null? && !AcceptedShape(source)
  {
    if TypeOf(source) == "object" then
      match source
      case Null => Throws
      case Object(o) =>
        if SizedDescriptor(o) then Accepted(Described(o))
        // the string and number tests that follow are false for an object
        else Rejected
    else if TypeOf(source) == "string" then
      Accepted(Described(UriOnly(source.s)))
    else if TypeOf(source) == "number" then
      Accepted(LocalAsset(source.n))
    else
      Rejected
  }

  /** The classification with a null source rejected like every other
      unrecognised one, so that it renders nothing instead of throwing. */
  function Normalise(source: JsValue): (r: Option<InternalSource>)
    ensures r.Some? <==> AcceptedShape(source)
    ensures r.Some? ==> HasUri(r.value)
  {
    if source.Object? && SizedDescriptor(source.obj) then
      Some(Described(source.obj))
    else if TypeOf(source) == "string" then
      Some(Described(UriOnly(source.s)))
    else if TypeOf(source) == "number" then
      Some(LocalAsset(source.n))
    else
      None
  }

  /** Apart from null, the corrected classification agrees with the one as
      written: it accepts the same sources with the same result and rejects
      the rest. */
  lemma NormaliseAgreesExceptNull(source: JsValue)
    requires !source.Null?
    ensures ClassifyAsWritten(source) ==
            (match Normalise(source)
             case Some(src) => Accepted(src)
             case None => Rejected)
  {
  }

  /** The input that shows the difference: a null source throws as written
      and is rejected once corrected. */
  lemma NullSourceThrows()
    ensures ClassifyAsWritten(Null) == Throws
    ensures Normalise(Null) == None
  {
  }

  /** Sources that are not a fully sized object, a string or a number are
      rejected: an object with only a `uri`, one whose `width` is 0, one
      whose `uri` is "", and undefined, booleans and functions. */
  lemma RejectedSources(u: string, w: real, h: real, b: bool)
    ensures Normalise(Object(ImageObject(Some(u), None, None))) == None
    ensures Normalise(Object(ImageObject(Some(u), Some(0.0), Some(h)))) == None
    ensures Normalise(Object(ImageObject(Some(""), Some(w), Some(h)))) == None
    ensures Normalise(Undefined) == None
    ensures Normalise(Boolean(b)) == None
    ensures Normalise(Function) == None
  {
  }

  /** Accepted sources: a string `s`, even the empty one, becomes `{uri: s}`
      with no dimensions; a number, 0 included, and a fully sized object
      pass through unchanged. */
  lemma AcceptedSources(s: string, n: real, o: ImageObject)
    ensures Normalise(Text(s)) == Some(Described(ImageObject(Some(s), None, None)))
    ensures Normalise(Number(n)) == Some(LocalAsset(n))
    ensures SizedDescriptor(o) ==> Normalise(Object(o)) == Some(Described(o))
  {
  }
}
