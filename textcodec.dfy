/**
 * A concrete text encoding of metadata-free hub documents, standing for
 * `json.Marshal`/`json.Unmarshal`: strings are written as quoted literals
 * with `"` and `\` escaped, field lists as `[ name value ... ]`, a spec as
 * `{ shared number extra }`. It refuses documents that carry metadata.
 * It is proved `Lawful`, so a concrete encoder of metadata-free documents,
 * the only ones the stash encodes, meets the law the conversion relies on.
 * Its decoder is proved to reject every text that is not such an encoding.
 * It is stricter than JSON: `{}`, say, which JSON reads as a zero object,
 * is rejected.
 */
module TextCodec {
  import opened Wrappers
  import opened Serialization
  import opened ApiV2

  /** The escaped characters of a string literal, without its quotes. */
  function QuoteBody(s: string): (r: string)
  {
    if s == [] then []
    else (if s[0] == '"' || s[0] == '\\' then ['\\', s[0]] else [s[0]]) + QuoteBody(s[1..])
  }

  /** A string literal. */
  function Quote(s: string): (r: string)
  {
    ['"'] + QuoteBody(s) + ['"']
  }

  /** Reads the rest of a string literal up to its closing quote; yields the string and what follows. */
  function UnquoteBody(t: string): (r: Result<(string, string)>)
    ensures r.Success? ==> |r.value.1| < |t|
  {
    if t == [] then Failure("unterminated string")
    else if t[0] == '"' then Success(([], t[1..]))
    else if t[0] == '\\' then
      if |t| < 2 || (t[1] != '"' && t[1] != '\\') then Failure("invalid escape")
      else match UnquoteBody(t[2..])
        case Failure(e) => Failure(e)
        case Success((s, rest)) => Success(([t[1]] + s, rest))
    else match UnquoteBody(t[1..])
      case Failure(e) => Failure(e)
      case Success((s, rest)) => Success(([t[0]] + s, rest))
  }

  /** Reads a string literal at the head of `t`. */
  function Unquote(t: string): (r: Result<(string, string)>)
    ensures r.Success? ==> |r.value.1| < |t|
  {
    if t == [] || t[0] != '"' then Failure("expected a string")
    else UnquoteBody(t[1..])
  }

  /** The items of a field list followed by its closing bracket. */
  function EncodeItems(fs: seq<Field>): (r: string)
  {
    if fs == [] then "]" else Quote(fs[0].name) + Quote(fs[0].value) + EncodeItems(fs[1..])
  }

  function EncodeFields(fs: seq<Field>): (r: string)
  {
    "[" + EncodeItems(fs)
  }

  /** Reads field items up to and including the closing bracket. */
  function DecodeItems(t: string): (r: Result<(seq<Field>, string)>)
    ensures r.Success? ==> |r.value.1| < |t|
    decreases |t|
  {
    if t == [] then Failure("unterminated list")
    else if t[0] == ']' then Success(([], t[1..]))
    else match Unquote(t)
      case Failure(e) => Failure(e)
      case Success((name, t1)) =>
        match Unquote(t1)
        case Failure(e) => Failure(e)
        case Success((value, t2)) =>
          match DecodeItems(t2)
          case Failure(e) => Failure(e)
          case Success((fs, t3)) => Success(([Field(name, value)] + fs, t3))
  }

  function DecodeFields(t: string): (r: Result<(seq<Field>, string)>)
    ensures r.Success? ==> |r.value.1| < |t|
  {
    if t == [] || t[0] != '[' then Failure("expected a list") else DecodeItems(t[1..])
  }

  /** The encoding of a spec. */
  function EncodeSpec(spec: UserSpec): (r: string)
  {
    "{" + EncodeFields(spec.shared) + Quote(spec.passportDetail.passportNumber)
      + EncodeFields(spec.passportDetail.extra) + "}"
  }

  /** Encodes a document; refuses one that still carries metadata. */
  function Marshal(d: Document): (r: Result<string>)
    ensures r.Success? <==> d.metadata.None?
  {
    if d.metadata.Some? then Failure("metadata is not encoded") else Success(EncodeSpec(d.spec))
  }

  /** Decodes a whole text into a metadata-free document, or fails. */
  function Unmarshal(t: string): (r: Result<Document>)
    ensures r.Success? ==> r.value.metadata.None?
  {
    if t == [] || t[0] != '{' then Failure("expected an object")
    else match DecodeFields(t[1..])
      case Failure(e) => Failure(e)
      case Success((shared, t1)) =>
        match Unquote(t1)
        case Failure(e) => Failure(e)
        case Success((number, t2)) =>
          match DecodeFields(t2)
          case Failure(e) => Failure(e)
          case Success((extra, t3)) =>
            if t3 != "}" then Failure("trailing data")
            else Success(Document(None, UserSpec(shared, PassportDetail(number, extra))))
  }

  /** The codec: the converter never fails, the encoder is `Marshal`, the decoder `Unmarshal`. */
  const Text := Codec(d => None, Marshal, Unmarshal)

  lemma {:induction false} QuoteBodyRoundTrip(s: string, rest: string)
    ensures UnquoteBody(QuoteBody(s) + ['"'] + rest) == Success((s, rest))
  {
    var t := QuoteBody(s) + ['"'] + rest;
    if s == [] {
      assert t == ['"'] + rest;
    } else {
      QuoteBodyRoundTrip(s[1..], rest);
      var tail := QuoteBody(s[1..]) + ['"'] + rest;
      assert [s[0]] + s[1..] == s;
      if s[0] == '"' || s[0] == '\\' {
        assert t == ['\\', s[0]] + tail;
        assert t[2..] == tail;
      } else {
        assert t == [s[0]] + tail;
        assert t[1..] == tail;
      }
    }
  }

  lemma QuoteRoundTrip(s: string, rest: string)
    ensures Unquote(Quote(s) + rest) == Success((s, rest))
  {
    var t := Quote(s) + rest;
    assert t[1..] == QuoteBody(s) + ['"'] + rest;
    QuoteBodyRoundTrip(s, rest);
  }

  lemma {:induction false} ItemsRoundTrip(fs: seq<Field>, rest: string)
    ensures DecodeItems(EncodeItems(fs) + rest) == Success((fs, rest))
  {
    var t := EncodeItems(fs) + rest;
    if fs == [] {
      assert t == "]" + rest;
    } else {
      var f := fs[0];
      var t2 := EncodeItems(fs[1..]) + rest;
      var t1 := Quote(f.value) + t2;
      assert t == Quote(f.name) + t1;
      QuoteRoundTrip(f.name, t1);
      QuoteRoundTrip(f.value, t2);
      ItemsRoundTrip(fs[1..], rest);
      assert [f] + fs[1..] == fs;
    }
  }

  lemma FieldsRoundTrip(fs: seq<Field>, rest: string)
    ensures DecodeFields(EncodeFields(fs) + rest) == Success((fs, rest))
  {
    var t := EncodeFields(fs) + rest;
    assert t[1..] == EncodeItems(fs) + rest;
    ItemsRoundTrip(fs, rest);
  }

  /** Decoding an encoded spec gives the document back. */
  lemma SpecRoundTrip(spec: UserSpec)
    ensures Unmarshal(EncodeSpec(spec)) == Success(Document(None, spec))
  {
    var t3 := "}";
    var t2 := EncodeFields(spec.passportDetail.extra) + t3;
    var t1 := Quote(spec.passportDetail.passportNumber) + t2;
    var t := EncodeSpec(spec);
    assert t[1..] == EncodeFields(spec.shared) + t1;
    FieldsRoundTrip(spec.shared, t1);
    QuoteRoundTrip(spec.passportDetail.passportNumber, t2);
    FieldsRoundTrip(spec.passportDetail.extra, t3);
  }

  /** The text codec meets the law the conversion relies on. */
  lemma TextIsLawful()
    ensures Lawful(Text)
  {
    forall d: Document | Text.marshal(d).Success?
      ensures Text.unmarshal(Text.marshal(d).value) == Success(d)
    {
      SpecRoundTrip(d.spec);
    }
  }

  lemma {:induction false} UnquoteBodyCanonical(t: string)
    requires UnquoteBody(t).Success?
    ensures t == QuoteBody(UnquoteBody(t).value.0) + ['"'] + UnquoteBody(t).value.1
  {
    if t[0] == '"' {
      assert t == ['"'] + t[1..];
    } else if t[0] == '\\' {
      UnquoteBodyCanonical(t[2..]);
      assert t == ['\\', t[1]] + t[2..];
    } else {
      UnquoteBodyCanonical(t[1..]);
      assert t == [t[0]] + t[1..];
    }
  }

  lemma UnquoteCanonical(t: string)
    requires Unquote(t).Success?
    ensures t == Quote(Unquote(t).value.0) + Unquote(t).value.1
  {
    UnquoteBodyCanonical(t[1..]);
    assert t == ['"'] + t[1..];
  }

  lemma {:induction false} ItemsCanonical(t: string)
    requires DecodeItems(t).Success?
    ensures t == EncodeItems(DecodeItems(t).value.0) + DecodeItems(t).value.1
    decreases |t|
  {
    if t[0] == ']' {
      assert t == "]" + t[1..];
    } else {
      UnquoteCanonical(t);
      var t1 := Unquote(t).value.1;
      UnquoteCanonical(t1);
      var t2 := Unquote(t1).value.1;
      ItemsCanonical(t2);
      var fs := DecodeItems(t).value.0;
      assert fs[1..] == DecodeItems(t2).value.0;
    }
  }

  lemma FieldsCanonical(t: string)
    requires DecodeFields(t).Success?
    ensures t == EncodeFields(DecodeFields(t).value.0) + DecodeFields(t).value.1
  {
    ItemsCanonical(t[1..]);
    assert t == "[" + t[1..];
  }

  /**
   * The decoder accepts exactly the encodings: every text it decodes is the
   * encoding of what it decodes to, so any other text, the empty annotation
   * value included, is rejected.
   */
  lemma UnmarshalOnlyAcceptsEncodings(t: string)
    ensures Unmarshal(t).Success? ==> t == EncodeSpec(Unmarshal(t).value.spec)
    ensures Unmarshal("").Failure?
  {
    if Unmarshal(t).Success? {
      var t1 := DecodeFields(t[1..]).value.1;
      var t2 := Unquote(t1).value.1;
      FieldsCanonical(t[1..]);
      UnquoteCanonical(t1);
      FieldsCanonical(t2);
      assert t == "{" + t[1..];
    }
  }
}
