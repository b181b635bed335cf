/**
 * The spoke version (v1) of the User resource and its conversion to and from
 * the hub (v2): the stash/recover side channel in the annotation map
 * (`MarshalData`, `UnmarshalData`) and the two conversion entry points
 * (`User.ConvertTo`, `User.ConvertFrom`).
 *
 * Each operation that changes objects is a method whose postcondition ties
 * the new state to a function on values (`Stash`, `Recover`, `ConvertToHub`,
 * `ConvertFromHub`); the properties of the conversion are proved about those
 * functions.
 */
module ApiV1 {
  import opened Wrappers
  import opened Metav1
  import opened Serialization
  import ApiV2

  /** The reserved annotation key under which the hub snapshot is kept. */
  const DataAnnotation := "info.gov.in/conversion-data"

  /** v1 `UserSpec`: the fields both versions share, and the passport number alone. */
  datatype UserSpec = UserSpec(shared: seq<ApiV2.Field>, passportNumber: string)

  /** The zero value of `UserSpec`. */
  const ZeroSpec := UserSpec([], "")

  /**
   * What the conversion calls but does not define: the generated
   * `autoConvert_*_UserSpec` functions, which map the directly shared fields
   * and may fail, and the unstructured/JSON encoders.
   */
  datatype Scheme = Scheme(
    autoToHub: seq<ApiV2.Field> -> Result<seq<ApiV2.Field>>,
    autoToSpoke: seq<ApiV2.Field> -> Result<seq<ApiV2.Field>>,
    codec: Codec)

  /**
   * `Convert_v2_UserSpec_To_v1_UserSpec`: the generated conversion of the
   * shared fields of `source` into `out`. The passport has no peer field, so
   * `out.passportNumber` is left as it was.
   */
  function ConvertSpecToSpoke(s: Scheme, source: ApiV2.UserSpec, out: UserSpec): (r: Result<UserSpec>)
    ensures r.Success? <==> s.autoToSpoke(source.shared).Success?
    ensures r.Success? ==> r.value.shared == s.autoToSpoke(source.shared).value
    ensures r.Success? ==> r.value.passportNumber == out.passportNumber
    ensures r.Failure? ==> r.error == s.autoToSpoke(source.shared).error
  {
    match s.autoToSpoke(source.shared)
    case Failure(e) => Failure(e)
    case Success(shared) => Success(out.(shared := shared))
  }

  /**
   * `Convert_v1_UserSpec_To_v2_UserSpec`: the generated conversion of the
   * shared fields of `source` into `out`; `out.passportDetail` is left as it was.
   */
  function ConvertSpecToHub(s: Scheme, source: UserSpec, out: ApiV2.UserSpec): (r: Result<ApiV2.UserSpec>)
    ensures r.Success? <==> s.autoToHub(source.shared).Success?
    ensures r.Success? ==> r.value.shared == s.autoToHub(source.shared).value
    ensures r.Success? ==> r.value.passportDetail == out.passportDetail
    ensures r.Failure? ==> r.error == s.autoToHub(source.shared).error
  {
    match s.autoToHub(source.shared)
    case Failure(e) => Failure(e)
    case Success(shared) => Success(out.(shared := shared))
  }

  /**
   * The annotation map `MarshalData` leaves on its destination, given the
   * source hub's annotations and spec and the destination's annotations:
   * the stored text is the encoding of the source with its metadata removed,
   * every other key keeps its value, and a nil map becomes a map holding
   * that key alone. Fails with the converter's or the encoder's error.
   */
  function Stash(c: Codec, srcAnnotations: Option<map<string, string>>, srcSpec: ApiV2.UserSpec,
                 dstAnnotations: Option<map<string, string>>): (r: Result<map<string, string>>)
    ensures r.Success? <==>
      ToUnstructured(c, srcAnnotations, srcSpec).Success? && c.marshal(Document(None, srcSpec)).Success?
    ensures r.Success? ==>
      DataAnnotation in r.value && c.marshal(Document(None, srcSpec)) == Success(r.value[DataAnnotation])
    ensures r.Success? ==> forall k :: k != DataAnnotation ==>
      (k in r.value <==> k in Entries(dstAnnotations)) &&
      (k in r.value ==> r.value[k] == Entries(dstAnnotations)[k])
    ensures r.Failure? && ToUnstructured(c, srcAnnotations, srcSpec).Failure? ==>
      r.error == ToUnstructured(c, srcAnnotations, srcSpec).error
    ensures r.Failure? && ToUnstructured(c, srcAnnotations, srcSpec).Success? ==>
      r.error == c.marshal(Document(None, srcSpec)).error
  {
    match ToUnstructured(c, srcAnnotations, srcSpec)
    case Failure(e) => Failure(e)
    case Success(u) =>
      match c.marshal(WithoutMetadata(u))
      case Failure(e) => Failure(e)
      case Success(data) => Success(Entries(dstAnnotations)[DataAnnotation := data])
  }

  /** What `UnmarshalData` finds in a carrier's annotations. */
  datatype Recovery =
    | NotFound                                                    // the key is absent
    | Found(document: Document, remaining: map<string, string>)   // decoded; the map without the key
    | Corrupt(error: string)                                      // present but undecodable

  /**
   * The outcome of `UnmarshalData` on a carrier's annotations: absent key,
   * nothing found; undecodable value, the decoder's error; otherwise the
   * decoded document, and the map with exactly the reserved key removed.
   */
  function Recover(c: Codec, annotations: Option<map<string, string>>): (r: Recovery)
    ensures r.NotFound? <==> DataAnnotation !in Entries(annotations)
    ensures r.Corrupt? <==>
      DataAnnotation in Entries(annotations) && c.unmarshal(Entries(annotations)[DataAnnotation]).Failure?
    ensures r.Corrupt? ==> r.error == c.unmarshal(Entries(annotations)[DataAnnotation]).error
    ensures r.Found? ==>
      annotations.Some? && DataAnnotation in annotations.value &&
      c.unmarshal(annotations.value[DataAnnotation]) == Success(r.document)
    ensures r.Found? ==> DataAnnotation !in r.remaining && forall k :: k != DataAnnotation ==>
      (k in r.remaining <==> k in annotations.value) &&
      (k in r.remaining ==> r.remaining[k] == annotations.value[k])
  {
    if annotations.None? || DataAnnotation !in annotations.value then NotFound
    else match c.unmarshal(annotations.value[DataAnnotation])
      case Failure(e) => Corrupt(e)
      case Success(d) => Found(d, annotations.value - {DataAnnotation})
  }

  /** A converted spec, and the contents of the annotation map the call wrote to. */
  datatype Converted<T> = Converted(spec: T, annotations: Option<map<string, string>>)

  /**
   * `User.ConvertTo` on values: the source spoke's annotations and spec, and
   * the destination hub's spec before the call. The shared fields come from
   * the generated conversion. With a stash, the passport is the recovered
   * one in full, its number included, and the key is consumed; without, it
   * is the spoke's number with every other passport field at its zero value
   * and the map is untouched. A conversion or decoding error aborts.
   */
  function ConvertToHub(s: Scheme, annotations: Option<map<string, string>>, src: UserSpec,
                        dst: ApiV2.UserSpec): (r: Result<Converted<ApiV2.UserSpec>>)
    ensures r.Success? <==>
      s.autoToHub(src.shared).Success? &&
      (DataAnnotation in Entries(annotations) ==> s.codec.unmarshal(Entries(annotations)[DataAnnotation]).Success?)
    ensures r.Success? ==> r.value.spec.shared == s.autoToHub(src.shared).value
    ensures r.Success? && DataAnnotation in Entries(annotations) ==>
      r.value.spec.passportDetail == s.codec.unmarshal(Entries(annotations)[DataAnnotation]).value.spec.passportDetail &&
      r.value.annotations.Some? && r.value.annotations.value == annotations.value - {DataAnnotation}
    ensures r.Success? && DataAnnotation !in Entries(annotations) ==>
      r.value.spec.passportDetail == ApiV2.PassportDetail(src.passportNumber, []) &&
      r.value.annotations == annotations
    ensures r.Failure? ==>
      r.error == (if s.autoToHub(src.shared).Failure? then s.autoToHub(src.shared).error
                  else s.codec.unmarshal(Entries(annotations)[DataAnnotation]).error)
  {
    match ConvertSpecToHub(s, src, dst)
    case Failure(e) => Failure(e)
    case Success(hub) =>
      match Recover(s.codec, annotations)
      case Corrupt(e) => Failure(e)
      case Found(d, remaining) =>
        Success(Converted(hub.(passportDetail := d.spec.passportDetail), Some(remaining)))
      case NotFound =>
        Success(Converted(hub.(passportDetail := ApiV2.PassportDetail(src.passportNumber, [])), annotations))
  }

  /**
   * `User.ConvertFrom` on values: the source hub's annotations and spec, and
   * the destination spoke's spec before the call. The destination shares the
   * hub's annotation map (the generated conversion copies the metadata), so
   * the stash is written into that map. The passport number is the hub's;
   * a conversion or stash error aborts before it is set.
   */
  function ConvertFromHub(s: Scheme, annotations: Option<map<string, string>>, src: ApiV2.UserSpec,
                          dst: UserSpec): (r: Result<Converted<UserSpec>>)
    ensures r.Success? <==>
      s.autoToSpoke(src.shared).Success? && Stash(s.codec, annotations, src, annotations).Success?
    ensures r.Success? ==>
      r.value.spec.passportNumber == src.passportDetail.passportNumber &&
      r.value.spec.shared == s.autoToSpoke(src.shared).value
    ensures r.Success? ==> r.value.annotations == Some(Stash(s.codec, annotations, src, annotations).value)
    ensures r.Failure? ==>
      r.error == (if s.autoToSpoke(src.shared).Failure? then s.autoToSpoke(src.shared).error
                  else Stash(s.codec, annotations, src, annotations).error)
  {
    match ConvertSpecToSpoke(s, src, dst)
    case Failure(e) => Failure(e)
    case Success(spoke) =>
      match Stash(s.codec, annotations, src, annotations)
      case Failure(e) => Failure(e)
      case Success(m) => Success(Converted(spoke.(passportNumber := src.passportDetail.passportNumber), Some(m)))
  }

  /**
   * `MarshalData(src, dst)`: stores the encoded, metadata-free source under
   * the reserved key of the destination's annotation map, creating the map
   * when it is nil and writing into it in place when it is not. On error the
   * destination is untouched.
   */
  method MarshalData(c: Codec, src: ApiV2.User, dst: User) returns (err: Option<string>)
    modifies dst, dst.annotations
    ensures dst.spec == old(dst.spec)
    ensures var r := Stash(c, old(Contents(src.annotations)), src.spec, old(Contents(dst.annotations)));
      && (err.None? <==> r.Success?)
      && (r.Failure? ==> err == Some(r.error) && dst.annotations == old(dst.annotations) &&
                         Contents(dst.annotations) == old(Contents(dst.annotations)))
      && (r.Success? ==> Contents(dst.annotations) == Some(r.value))
    ensures err.None? && old(dst.annotations) != null ==> dst.annotations == old(dst.annotations)
    ensures err.None? && old(dst.annotations) == null ==> fresh(dst.annotations)
  {
    var u := ToUnstructured(c, Contents(src.annotations), src.spec);
    if u.Failure? {
      return Some(u.error);
    }
    var data := c.marshal(WithoutMetadata(u.value));
    if data.Failure? {
      return Some(data.error);
    }
    var annotations := dst.annotations;
    if annotations == null {
      annotations := new AnnotationMap(map[]);
    }
    annotations.entries := annotations.entries[DataAnnotation := data.value];
    dst.annotations := annotations;
    return None;
  }

  /**
   * `UnmarshalData(from, to)`: a consuming read of the reserved key. Absent:
   * `(false, nil)` and nothing changes. Undecodable: `(false, err)` and the
   * key stays. Decoded: `(true, nil)`, the document is written into `to`,
   * and exactly the reserved key is deleted from `from`'s map in place.
   */
  method UnmarshalData(c: Codec, from: User, to: ApiV2.User) returns (ok: bool, err: Option<string>)
    modifies from.annotations, to
    ensures match Recover(c, old(Contents(from.annotations)))
      case NotFound =>
        !ok && err.None? && unchanged(to) && Contents(from.annotations) == old(Contents(from.annotations))
      case Corrupt(e) =>
        !ok && err == Some(e) && Contents(from.annotations) == old(Contents(from.annotations))
      case Found(d, remaining) =>
        && ok && err.None?
        && Contents(from.annotations) == Some(remaining)
        && to.spec == d.spec
        && (d.metadata.Some? && d.metadata.value.annotations.Some? ==>
              fresh(to.annotations) && Contents(to.annotations) == d.metadata.value.annotations)
        && (d.metadata.None? || d.metadata.value.annotations.None? ==> to.annotations == old(to.annotations))
  {
    var annotations := from.annotations;
    if annotations == null || DataAnnotation !in annotations.entries {
      return false, None;
    }
    var decoded := c.unmarshal(annotations.entries[DataAnnotation]);
    if decoded.Failure? {
      return false, Some(decoded.error);
    }
    var d := decoded.value;
    to.spec := d.spec;
    if d.metadata.Some? && d.metadata.value.annotations.Some? {
      to.annotations := new AnnotationMap(d.metadata.value.annotations.value);
    }
    annotations.entries := annotations.entries - {DataAnnotation};
    return true, None;
  }

  /** v1 `User`: its annotation map (nil when `annotations` is null) and its spec. */
  class User {
    var annotations: AnnotationMap?
    var spec: UserSpec

    /** `&v1.User{}`. */
    constructor ()
      ensures annotations == null && spec == ZeroSpec
    {
      annotations := null;
      spec := ZeroSpec;
    }

    /**
     * `(src *User) ConvertTo(dst)`: spoke to hub. The destination takes this
     * object's metadata, so it shares this object's annotation map; its spec
     * is `ConvertToHub` of this object; a recovered stash is consumed from the
     * shared map, and any error leaves the map's contents as they were.
     */
    method ConvertTo(s: Scheme, dst: ApiV2.User) returns (err: Option<string>)
      modifies dst, annotations
      ensures dst.annotations == annotations
      ensures var r := ConvertToHub(s, old(Contents(annotations)), spec, old(dst.spec));
        && (err.None? <==> r.Success?)
        && (r.Success? ==> dst.spec == r.value.spec && Contents(annotations) == r.value.annotations)
        && (r.Failure? ==> err == Some(r.error) && Contents(annotations) == old(Contents(annotations)))
    {
      // The generated Convert_v1_User_To_v2_User: metadata first, then the spec.
      dst.annotations := annotations;
      var hub := ConvertSpecToHub(s, spec, dst.spec);
      if hub.Failure? {
        return Some(hub.error);
      }
      dst.spec := hub.value;
      var restored := new ApiV2.User();
      var ok, e := UnmarshalData(s.codec, this, restored);
      if e.Some? {
        return e;
      }
      if ok {
        dst.spec := dst.spec.(passportDetail := restored.spec.passportDetail);
      } else {
        dst.spec := dst.spec.(passportDetail := ApiV2.PassportDetail(spec.passportNumber, []));
      }
      return None;
    }

    /**
     * `(dst *User) ConvertFrom(src)`: hub to spoke. This object takes the
     * hub's metadata, so it shares the hub's annotation map when the hub has
     * one (and then the hub sees the stash too) and gets a fresh map holding
     * only the stash when the hub has none. Its spec and map contents are
     * `ConvertFromHub` of the hub; on error the passport number is not set
     * and the map's contents are as they were.
     */
    method ConvertFrom(s: Scheme, src: ApiV2.User) returns (err: Option<string>)
      modifies this, src.annotations
      ensures var r := ConvertFromHub(s, old(Contents(src.annotations)), src.spec, old(spec));
        && (err.None? <==> r.Success?)
        && (r.Success? ==> spec == r.value.spec && Contents(annotations) == r.value.annotations)
        && (r.Failure? ==> err == Some(r.error) && spec.passportNumber == old(spec.passportNumber) &&
                           annotations == src.annotations &&
                           Contents(annotations) == old(Contents(src.annotations)))
      ensures err.None? && src.annotations != null ==> annotations == src.annotations
      ensures err.None? && src.annotations == null ==> fresh(annotations)
    {
      // The generated Convert_v2_User_To_v1_User: metadata first, then the spec.
      annotations := src.annotations;
      var spoke := ConvertSpecToSpoke(s, src.spec, spec);
      if spoke.Failure? {
        return Some(spoke.error);
      }
      spec := spoke.value;
      var e := MarshalData(s.codec, src, this);
      if e.Some? {
        return e;
      }
      spec := spec.(passportNumber := src.spec.passportDetail.passportNumber);
      return None;
    }
  }
}
