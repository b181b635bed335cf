# v1 <-> v2 User conversion with a stash in the annotations

This project models the conversion of the `User` resource between its spoke
version v1 and its hub version v2, and proves properties of that model in
Dafny. The hub holds a composite `PassportDetail`. The spoke holds only the
scalar `PassportNumber`.

The conversion keeps what the spoke cannot express in a side channel. When
a hub is converted to the spoke (`ConvertFrom`), the hub is encoded without
its metadata. The text is stored under the annotation key
`info.gov.in/conversion-data` (`DataAnnotation`). When a spoke is converted
to the hub (`ConvertTo`), that key is read once and then deleted
(`UnmarshalData`). The recovered `PassportDetail` is used as it is. Without
a stash, the passport is rebuilt from the spoke's number alone.

Layout:

- `wrappers.dfy`: `Option`, and `Result` with a Go error message.
- `metav1.dfy`: the annotation map, held by reference as Go maps are
  (`AnnotationMap`, with `null` standing for a nil map).
- `apiv2.dfy`: the hub `User`, `UserSpec` and `PassportDetail`.
- `serialization.dfy`: the unstructured document, and the encoders as
  parameters (`Codec`). `Lawful` is the law that decoding undoes encoding.
- `textcodec.dfy`: a concrete text encoder and decoder, proved `Lawful`.
- `apiv1_conversion.dfy`: the spoke `User`, `MarshalData`, `UnmarshalData`,
  `ConvertTo` and `ConvertFrom`. Each state-changing method is specified by a
  function on values (`Stash`, `Recover`, `ConvertToHub`, `ConvertFromHub`).
- `conversion_laws.dfy`: the round-trip law and the other properties, proved
  about those functions, plus one client of the methods.

Library calls and generated code are parameters of the model (`Scheme`):

- `runtime.DefaultUnstructuredConverter.ToUnstructured`;
- `json.Marshal` and `json.Unmarshal`;
- the generated `autoConvert_*_UserSpec` functions.

The round-trip properties assume `Lawful(codec)`: whatever the encoder
writes, the decoder reads back. `TextCodec.TextIsLawful` shows that a concrete
encoder of metadata-free documents meets this law. Those are the only
documents `Stash` encodes.

The generated `Convert_v1_User_To_v2_User` and `Convert_v2_User_To_v1_User`
are modelled as conversion-gen writes them. They copy `ObjectMeta` first,
then convert the spec. Copying `ObjectMeta` shares the annotation map
between source and destination. So `ConvertFrom` writes the stash into the
hub's own map when the hub has one. The delete in `ConvertTo` is also seen
by the destination hub.

Two behaviours of the code are worth knowing:

- With a stash present, `ConvertTo` takes the recovered `PassportDetail` in
  full, its number included (api/v1/conversion.go:25-27). A spoke-side edit
  of `PassportNumber` is therefore lost while a stash exists.
  `ConversionLaws.StashOverridesSpokeEdit` proves this.
- A stash failure makes `ConvertFrom` return the error
  (api/v1/conversion.go:46-48).

## Model

| member | source | states |
|---|---|---|
| `ApiV2.User.constructor` | api/v1/conversion.go:18 | `&v2.User{}`: nil annotation map and the zero spec |
| `ApiV1.ConvertSpecToSpoke` | api/v1/conversion.go:55-57 | the generated spec conversion succeeds exactly when the shared-field conversion does, and returns its error otherwise; on success the shared fields are that conversion's output and the destination's passport number is left for the caller |
| `ApiV1.ConvertSpecToHub` | api/v1/conversion.go:59-61 | the generated spec conversion succeeds exactly when the shared-field conversion does, and returns its error otherwise; on success the shared fields are that conversion's output and the destination's `PassportDetail` is left for the caller |
| `Serialization.ToUnstructured` | api/v1/conversion.go:68-71 | the unstructured form keeps the spec and the metadata, or fails with the converter's error |
| `Serialization.WithoutMetadata` | api/v1/conversion.go:72 | deleting `metadata` keeps the spec and drops every annotation |
| `ApiV1.Stash` | api/v1/conversion.go:65-84 | on success the reserved key holds the encoding of the source with no metadata; every other key of the destination keeps its value; a nil map becomes a map holding just that key; it fails exactly when the converter or the encoder fails, with that error |
| `ApiV1.MarshalData` | api/v1/conversion.go:67-85 | the destination's map contents become `Stash` of the source; the existing map is written in place, a nil map is replaced by a fresh one; on error the destination's map and its contents are untouched; the spec never changes |
| `ApiV1.Recover` | api/v1/conversion.go:88-100 | absent key (or nil map): not found; undecodable value: the decoder's error; otherwise the decoded document, and the map with exactly the reserved key removed |
| `ApiV1.UnmarshalData` | api/v1/conversion.go:88-100 | absent key: `(false, nil)`, target and map unchanged; undecodable: `(false, err)` and the key stays; decoded: `(true, nil)`, the target holds the document and only the reserved key is deleted from the carrier's map, in place |
| `ApiV1.ConvertToHub` | api/v1/conversion.go:13-36 | succeeds exactly when the shared-field conversion succeeds and any stash decodes, and otherwise fails with that conversion's error or else the decoder's error; with a stash the passport is the recovered one in full and the key is consumed; without one it is the spoke's number with the other passport fields at zero, and the map is unchanged |
| `ApiV1.User.ConvertTo` | api/v1/conversion.go:13-36 | the destination shares the source's annotation map; its spec and the map's contents are `ConvertToHub` of the source; on error the error is returned and the map's contents are unchanged |
| `ApiV1.ConvertFromHub` | api/v1/conversion.go:39-53 | succeeds exactly when the shared-field conversion and the stash succeed, and otherwise fails with that conversion's error or else the stash's error; then the spoke's number is the hub's passport number, and the map is the hub's map with the stash of the hub |
| `ApiV1.User.ConvertFrom` | api/v1/conversion.go:39-53 | this object takes the hub's annotation map, or a fresh one when the hub has none; its spec and map contents are `ConvertFromHub` of the hub; on error the passport number is not set and the map's contents are unchanged |
| `TextCodec.TextIsLawful` | api/v1/conversion.go:74-77 | the concrete text encoder meets the law that decoding an encoding gives the document back |
| `TextCodec.UnmarshalOnlyAcceptsEncodings` | api/v1/conversion.go:94-96 | the concrete decoder accepts a text only if it is the encoding of what it decodes to, so it fails on every other text, the empty value included; it is stricter than JSON, which also reads `{}` |
| `ConversionLaws.StashIsMetadataFree` | api/v1/conversion.go:65-72 | the stored snapshot decodes to the hub's spec with no metadata, so it can never nest an earlier stash |
| `ConversionLaws.StashIgnoresHubAnnotations` | api/v1/conversion.go:68-74 | two hubs with the same spec store the same text, whatever their annotations hold |
| `ConversionLaws.RecoverIsOneShot` | api/v1/conversion.go:94-99 | after a successful read, reading the same carrier again finds nothing |
| `ConversionLaws.StashThenRecover` | api/v1/conversion.go:67-99 | stashing and then recovering on one map yields the hub's spec and the original map without the key |
| `ConversionLaws.RoundTrip` | api/v1/conversion.go:13-53 | hub to spoke and back reproduces the hub's `PassportDetail` exactly, and clears the key from the map; the way back fails only if the shared-field conversion does |
| `ConversionLaws.WholeRecordRoundTrip` | api/v1/conversion.go:13-53 | when the generated shared-field conversion back undoes the one forward, hub to spoke and back gives the whole hub spec back and leaves the hub's map without the key |
| `ConversionLaws.StashOverridesSpokeEdit` | api/v1/conversion.go:25-27 | with a stash present, an edited spoke passport number does not reach the hub |
| `ConversionLaws.NoStashFallback` | api/v1/conversion.go:28-33 | without the key, conversion to the hub succeeds with the passport rebuilt from the spoke's number alone |
| `ConversionLaws.RoundTripsPreserve` | api/v1/conversion.go:13-53 | after any number of round trips the passport is the original one and the map is the original without the key, so the stash never accumulates |
| `ConversionLaws.PassportScenario` | api/v1/conversion.go:13-53 | worked case: passport P123 issued by X survives the round trip; an edit to P999 in between is lost to the stash |
| `ConversionLaws.RoundTripThroughSpoke` | api/v1/conversion.go:13-99 | running the methods hub to fresh spoke to fresh hub returns the passport in full, leaves the key in no map, and a second `UnmarshalData` on the spoke returns not found (`foundAgain` is false) |

## Left out

- The generated `autoConvert_*` functions (called at api/v1/conversion.go:15, 41, 56 and 60) are generated code that this model does not include. They are parameters of `Scheme` that map the shared fields and may fail. The generated `User` conversions are modelled as copying `ObjectMeta` and then calling the spec wrappers.
- `Status` and `TypeMeta` of both versions are not modelled.
- The Go files that define the v1 and v2 types are not modelled. The model assumes that the two specs share every field except `PassportNumber` (v1) and `PassportDetail` (v2). It also assumes that the passport's fields other than the number form the opaque list `extra`, which is empty at the zero value.
- `ObjectMeta` is reduced to its annotations. Names, namespaces, owner references and the rest are not modelled.
- `ToUnstructured`, `json.Marshal` and `json.Unmarshal` are library calls. They are parameters (`Codec`). Their agreement is the hypothesis `Lawful`, which `TextCodec` shows can be met.
- The type assertions `dstRaw.(*v2.User)` and `srcRaw.(*v2.User)` and their panics are not modelled. The methods take the hub type directly.
- `MarshalData` and `UnmarshalData` accept any object in Go. Here they take the types of their only callers: hub to spoke for `MarshalData`, spoke to hub for `UnmarshalData`.
- ApiV1.UnmarshalData: states nothing about the target after a decode error, because `json.Unmarshal` may already have filled part of it.
- ApiV1.UnmarshalData: a decoded document replaces the target's spec, and its annotations if it carries any. `json.Unmarshal` merges into the existing value instead. The two agree when the target is zero-valued, as at the only call site (api/v1/conversion.go:18).
- Webhook registration, storage, transport and concurrency are not modelled. The code has no concurrency, and calls on one object are serialised by the caller.
