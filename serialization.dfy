/**
 * The unstructured/JSON form of a hub object and the foreign encoders that
 * produce and read it, as parameters of the model.
 */
module Serialization {
  import opened Wrappers
  import ApiV2

  /** The `metadata` entry of an unstructured object, reduced to its annotations. */
  datatype ObjectMeta = ObjectMeta(annotations: Option<map<string, string>>)

  /** An unstructured hub object: its `metadata` entry, if any, and its `spec`. */
  datatype Document = Document(metadata: Option<ObjectMeta>, spec: ApiV2.UserSpec)

  /**
   * The library calls the conversion makes:
   * - unstructuredError: the error `runtime.DefaultUnstructuredConverter.ToUnstructured`
   *   reports for an object, if any;
   * - marshal: `json.Marshal` of an unstructured object;
   * - unmarshal: `json.Unmarshal` of a text into a hub object.
   */
  datatype Codec = Codec(
    unstructuredError: Document -> Option<string>,
    marshal: Document -> Result<string>,
    unmarshal: string -> Result<Document>)

  /** The encoders agree: whatever `marshal` writes, `unmarshal` reads back. */
  ghost predicate Lawful(c: Codec)
  {
    forall d: Document :: c.marshal(d).Success? ==> c.unmarshal(c.marshal(d).value) == Success(d)
  }

  /** `ToUnstructured`: the object with its metadata, or the converter's error. */
  function ToUnstructured(c: Codec, annotations: Option<map<string, string>>, spec: ApiV2.UserSpec): (r: Result<Document>)
    ensures r.Success? ==> r.value.spec == spec && r.value.metadata == Some(ObjectMeta(annotations))
    ensures r.Failure? <==> c.unstructuredError(Document(Some(ObjectMeta(annotations)), spec)).Some?
    ensures r.Failure? ==> r.error == c.unstructuredError(Document(Some(ObjectMeta(annotations)), spec)).value
  {
    var d := Document(Some(ObjectMeta(annotations)), spec);
    match c.unstructuredError(d)
    case Some(e) => Failure(e)
    case None => Success(d)
  }

  /** `delete(u, "metadata")`: the document keeps its spec and loses every annotation. */
  function WithoutMetadata(d: Document): (r: Document)
    ensures r.metadata.None? && r.spec == d.spec
  {
    d.(metadata := None)
  }
}
