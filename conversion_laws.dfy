/**
 * Properties of the v1<->v2 User conversion, proved about the value-level
 * functions that the conversion methods are specified by, and one client of
 * the methods themselves.
 */
module ConversionLaws {
  import opened Wrappers
  import opened Metav1
  import opened Serialization
  import ApiV2
  import opened ApiV1
  import TextCodec

  /** The stored snapshot decodes to the hub's spec with no metadata, so it never nests an earlier stash. */
  lemma StashIsMetadataFree(c: Codec, srcAnnotations: Option<map<string, string>>, srcSpec: ApiV2.UserSpec,
                            dstAnnotations: Option<map<string, string>>)
    requires Lawful(c)
    requires Stash(c, srcAnnotations, srcSpec, dstAnnotations).Success?
    ensures var m := Stash(c, srcAnnotations, srcSpec, dstAnnotations).value;
      c.unmarshal(m[DataAnnotation]) == Success(Document(None, srcSpec))
  {
  }

  /**
   * The stored text does not depend on the hub's annotations: hubs with the
   * same spec stash the same text whatever their annotation maps hold,
   * including an earlier stash.
   */
  lemma StashIgnoresHubAnnotations(c: Codec, a1: Option<map<string, string>>, a2: Option<map<string, string>>,
                                   srcSpec: ApiV2.UserSpec, d1: Option<map<string, string>>,
                                   d2: Option<map<string, string>>)
    requires Stash(c, a1, srcSpec, d1).Success? && Stash(c, a2, srcSpec, d2).Success?
    ensures Stash(c, a1, srcSpec, d1).value[DataAnnotation] == Stash(c, a2, srcSpec, d2).value[DataAnnotation]
  {
  }

  /** Recovery is one-shot: after a successful read, the same carrier yields nothing. */
  lemma RecoverIsOneShot(c: Codec, annotations: Option<map<string, string>>)
    requires Recover(c, annotations).Found?
    ensures Recover(c, Some(Recover(c, annotations).remaining)) == NotFound
  {
  }

  /** Stashing then recovering on the same map gives the hub's spec back and the map as it was without the key. */
  lemma StashThenRecover(c: Codec, srcAnnotations: Option<map<string, string>>, srcSpec: ApiV2.UserSpec,
                         dstAnnotations: Option<map<string, string>>)
    requires Lawful(c)
    requires Stash(c, srcAnnotations, srcSpec, dstAnnotations).Success?
    ensures var m := Stash(c, srcAnnotations, srcSpec, dstAnnotations).value;
      Recover(c, Some(m)) == Found(Document(None, srcSpec), Entries(dstAnnotations) - {DataAnnotation})
  {
  }

  /**
   * The round-trip law: converting a hub to the spoke and back reproduces the
   * hub's passport in full, and leaves the shared annotation map as the hub's
   * own map without the reserved key. The way back fails only if the
   * generated conversion of the shared fields does.
   */
  lemma RoundTrip(s: Scheme, annotations: Option<map<string, string>>, hub: ApiV2.UserSpec,
                  spoke0: UserSpec, hub0: ApiV2.UserSpec)
    requires Lawful(s.codec)
    requires ConvertFromHub(s, annotations, hub, spoke0).Success?
    ensures var v := ConvertFromHub(s, annotations, hub, spoke0).value;
      var back := ConvertToHub(s, v.annotations, v.spec, hub0);
      && (back.Success? <==> s.autoToHub(v.spec.shared).Success?)
      && (back.Success? ==>
            back.value.spec.passportDetail == hub.passportDetail &&
            back.value.annotations == Some(Entries(annotations) - {DataAnnotation}))
  {
    StashThenRecover(s.codec, annotations, hub, annotations);
  }

  /**
   * The round-trip law for the whole record: when the generated conversion
   * back undoes the generated conversion forward, hub to spoke and back
   * gives the hub's spec back exactly, and the map ends as the hub's own map
   * without the reserved key.
   */
  lemma WholeRecordRoundTrip(s: Scheme, annotations: Option<map<string, string>>, hub: ApiV2.UserSpec,
                             spoke0: UserSpec, hub0: ApiV2.UserSpec)
    requires Lawful(s.codec)
    requires forall x :: s.autoToSpoke(x).Success? ==> s.autoToHub(s.autoToSpoke(x).value) == Success(x)
    requires ConvertFromHub(s, annotations, hub, spoke0).Success?
    ensures var v := ConvertFromHub(s, annotations, hub, spoke0).value;
      ConvertToHub(s, v.annotations, v.spec, hub0) ==
        Success(Converted(hub, Some(Entries(annotations) - {DataAnnotation})))
  {
    RoundTrip(s, annotations, hub, spoke0, hub0);
  }

  /**
   * While a stash is present, an edit of the spoke's passport number is not
   * carried to the hub: the recovered passport wins, number included.
   */
  lemma StashOverridesSpokeEdit(s: Scheme, annotations: Option<map<string, string>>, hub: ApiV2.UserSpec,
                                spoke0: UserSpec, hub0: ApiV2.UserSpec, edited: string)
    requires Lawful(s.codec)
    requires ConvertFromHub(s, annotations, hub, spoke0).Success?
    ensures var v := ConvertFromHub(s, annotations, hub, spoke0).value;
      var back := ConvertToHub(s, v.annotations, v.spec.(passportNumber := edited), hub0);
      back.Success? ==> back.value.spec.passportDetail == hub.passportDetail
  {
  }

  /** Without a stash the hub passport is rebuilt from the spoke's number alone, whatever the hub held before. */
  lemma NoStashFallback(s: Scheme, annotations: Option<map<string, string>>, spoke: UserSpec, hub0: ApiV2.UserSpec)
    requires DataAnnotation !in Entries(annotations)
    requires s.autoToHub(spoke.shared).Success?
    ensures ConvertToHub(s, annotations, spoke, hub0) ==
      Success(Converted(ApiV2.UserSpec(s.autoToHub(spoke.shared).value, ApiV2.PassportDetail(spoke.passportNumber, [])),
                        annotations))
  {
  }

  /**
   * `n` successive round trips hub -> spoke -> hub, each into zero-valued
   * destinations and through one annotation map, as a server does that keeps
   * the hub and serves the spoke.
   */
  function RoundTrips(s: Scheme, n: nat, annotations: Option<map<string, string>>, hub: ApiV2.UserSpec)
    : (r: Result<Converted<ApiV2.UserSpec>>)
  {
    if n == 0 then Success(Converted(hub, annotations))
    else match RoundTrips(s, n - 1, annotations, hub)
      case Failure(e) => Failure(e)
      case Success(cur) =>
        match ConvertFromHub(s, cur.annotations, cur.spec, ApiV1.ZeroSpec)
        case Failure(e) => Failure(e)
        case Success(spoke) => ConvertToHub(s, spoke.annotations, spoke.spec, ApiV2.ZeroSpec)
  }

  /**
   * However many round trips occur, the passport is the original one and
   * the annotation map is the original map without the reserved key: the
   * stash never accumulates.
   */
  lemma {:induction false} RoundTripsPreserve(s: Scheme, n: nat, annotations: Option<map<string, string>>,
                                              hub: ApiV2.UserSpec)
    requires Lawful(s.codec)
    ensures RoundTrips(s, n, annotations, hub).Success? ==>
      RoundTrips(s, n, annotations, hub).value.spec.passportDetail == hub.passportDetail
    ensures RoundTrips(s, n, annotations, hub).Success? && n > 0 ==>
      RoundTrips(s, n, annotations, hub).value.annotations == Some(Entries(annotations) - {DataAnnotation})
  {
    if n > 0 {
      RoundTripsPreserve(s, n - 1, annotations, hub);
      var prev := RoundTrips(s, n - 1, annotations, hub);
      if prev.Success? {
        var cur := prev.value;
        if ConvertFromHub(s, cur.annotations, cur.spec, ApiV1.ZeroSpec).Success? {
          RoundTrip(s, cur.annotations, cur.spec, ApiV1.ZeroSpec, ApiV2.ZeroSpec);
          assert Entries(cur.annotations) - {DataAnnotation} == Entries(annotations) - {DataAnnotation};
        }
      }
    }
  }

  /** Generated conversions that copy the shared fields unchanged. */
  const Identity := Scheme(f => Success(f), f => Success(f), TextCodec.Text)

  /**
   * A worked case with the text codec: the hub {name u1, passport P123
   * issued by X} goes to the spoke {name u1, number P123} with a stash, and
   * back to the same passport with the key cleared; an edit of the spoke's
   * number to P999 before the way back is lost to the stash.
   */
  lemma PassportScenario()
    ensures var hub := ApiV2.UserSpec([ApiV2.Field("name", "u1")],
                                      ApiV2.PassportDetail("P123", [ApiV2.Field("issuedBy", "X")]));
      var v := ConvertFromHub(Identity, None, hub, ApiV1.ZeroSpec);
      && v.Success?
      && v.value.spec == UserSpec([ApiV2.Field("name", "u1")], "P123")
      && DataAnnotation in Entries(v.value.annotations)
      && ConvertToHub(Identity, v.value.annotations, v.value.spec, ApiV2.ZeroSpec)
           == Success(Converted(hub, Some(map[])))
      && ConvertToHub(Identity, v.value.annotations, v.value.spec.(passportNumber := "P999"), ApiV2.ZeroSpec)
           == Success(Converted(hub, Some(map[])))
  {
    TextCodec.TextIsLawful();
    var hub := ApiV2.UserSpec([ApiV2.Field("name", "u1")],
                              ApiV2.PassportDetail("P123", [ApiV2.Field("issuedBy", "X")]));
    TextCodec.SpecRoundTrip(hub);
    RoundTrip(Identity, None, hub, ApiV1.ZeroSpec, ApiV2.ZeroSpec);
    StashOverridesSpokeEdit(Identity, None, hub, ApiV1.ZeroSpec, ApiV2.ZeroSpec, "P999");
  }

  /**
   * A client of the methods: convert a hub into a fresh spoke and that into a
   * fresh hub. The passport comes back in full, the reserved key is left in
   * no map, and a second read of the spoke's stash finds nothing.
   */
  method RoundTripThroughSpoke(s: Scheme, hub: ApiV2.User)
    returns (back: ApiV2.User, err: Option<string>, foundAgain: bool)
    requires Lawful(s.codec)
    modifies hub.annotations
    ensures err.None? ==> !foundAgain
    ensures err.None? ==> back.spec.passportDetail == hub.spec.passportDetail
    ensures err.None? ==> DataAnnotation !in Entries(Contents(back.annotations))
    ensures err.None? ==> DataAnnotation !in Entries(Contents(hub.annotations))
  {
    back := new ApiV2.User();
    foundAgain := false;
    var spoke := new ApiV1.User();
    err := spoke.ConvertFrom(s, hub);
    if err.Some? {
      return;
    }
    err := spoke.ConvertTo(s, back);
    if err.Some? {
      return;
    }
    var again := new ApiV2.User();
    var e;
    foundAgain, e := UnmarshalData(s.codec, spoke, again);
  }
}
