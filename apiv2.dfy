/** The hub version (v2) of the User resource. */
module ApiV2 {
  import opened Metav1

  /** A named scalar field of a spec, e.g. `name` or a passport's `issuedBy`. */
  datatype Field = Field(name: string, value: string)

  /**
   * The composite passport of the hub: the number the spoke also has, and
   * every other passport field, which the spoke cannot express.
   */
  datatype PassportDetail = PassportDetail(passportNumber: string, extra: seq<Field>)

  /** v2 `UserSpec`: the fields both versions share, and the passport. */
  datatype UserSpec = UserSpec(shared: seq<Field>, passportDetail: PassportDetail)

  /** The zero value of `UserSpec`, as in `&v2.User{}`. */
  const ZeroSpec := UserSpec([], PassportDetail("", []))

  /** v2 `User`: its annotation map (nil when `annotations` is null) and its spec. */
  class User {
    var annotations: AnnotationMap?
    var spec: UserSpec

    /** `&v2.User{}`. */
    constructor ()
      ensures annotations == null && spec == ZeroSpec
    {
      annotations := null;
      spec := ZeroSpec;
    }
  }
}
