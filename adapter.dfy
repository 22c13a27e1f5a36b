/**
 * A benchmark target: a named encode/decode pair around one serialization
 * library, plus the two fields the harness writes on it, `skip` and `encoded`.
 *
 * The libraries themselves are not modelled: `encode` and `decode` are
 * arbitrary total functions that either return a value or throw. A decoded
 * value is seen only as far as the harness looks at it: whether it is truthy,
 * and, if so, its `string` property when that is a primitive string.
 */
module Adapter {
  import opened Workload

  datatype Option<T> = None | Some(value: T)

  newtype byte = x: int | 0 <= x < 256

  /** What an encoder returns: a JavaScript string or a byte array. */
  datatype Payload = Text(text: string) | Bytes(bytes: seq<byte>)

  /** A call that either returns a value or throws an error with a message. */
  datatype Outcome<T> = Returned(value: T) | Threw(message: string)

  /** A decoded value: falsy, or truthy with its `string` property (None when absent or not a string). */
  datatype Decoded = Falsy | Truthy(stringField: Option<string>)

  /** Why a target is skipped. */
  datatype Failure =
    | EncodeThrew(message: string)
    | DecodeThrew(message: string)
    | NotDecoded        // assert.ok(decoded) failed
    | StringMismatch    // assert.strictEqual(decoded.string, sampleData.string) failed
    | SizeNotPrintable  // the size report threw: a text payload of length 0 has no byteLength

  datatype Verdict = Verified(payload: Payload) | Rejected(failure: Failure)

  /**
   * The number the size report prints, `encoded.length || encoded.byteLength`:
   * a string's length when it is non-zero, and otherwise its `byteLength`, which
   * a string does not have (None: `undefined.toString()` throws). A byte array's
   * length, or its byteLength when that is 0, which is the same number.
   */
  function ReportedSize(p: Payload): (r: Option<nat>)
    ensures p.Bytes? ==> r == Some(|p.bytes|)
    ensures p.Text? ==> (r.Some? <==> |p.text| > 0)
    ensures p.Text? && |p.text| > 0 ==> r == Some(|p.text|)
    ensures r.Some? ==> r.value > 0 || p.Bytes?
  {
    match p
    case Text(t) => if |t| > 0 then Some(|t|) else None
    case Bytes(b) => Some(|b|)
  }

  /** Whether the size report runs without throwing: for every payload but the empty string. */
  predicate SizePrintable(p: Payload): (b: bool)
    ensures b <==> p != Text([])
  {
    ReportedSize(p).Some?
  }

  /**
   * The oracle's acceptance rule: encoding returns a payload whose size can be
   * reported and which decodes to a truthy value whose `string` property is
   * exactly the sample's text. Nothing else about the decoded value is checked.
   */
  ghost predicate RoundTripsText(encode: Sample -> Outcome<Payload>, decode: Payload -> Outcome<Decoded>, data: Sample) {
    exists p: Payload {:trigger decode(p)} ::
      encode(data) == Returned(p) && SizePrintable(p) && decode(p) == Returned(Truthy(Some(data.str)))
  }

  /** The body of the verification `try` block, as a verdict. */
  function Verify(encode: Sample -> Outcome<Payload>, decode: Payload -> Outcome<Decoded>, data: Sample): (v: Verdict)
    ensures v.Verified? <==> RoundTripsText(encode, decode, data)
    ensures v.Verified? ==> encode(data) == Returned(v.payload)
    ensures encode(data).Threw? ==> v == Rejected(EncodeThrew(encode(data).message))
    ensures encode(data).Returned? && decode(encode(data).value).Threw? ==>
      v == Rejected(DecodeThrew(decode(encode(data).value).message))
    ensures encode(data).Returned? && decode(encode(data).value) == Returned(Falsy) ==> v == Rejected(NotDecoded)
    ensures v == Rejected(StringMismatch) <==>
      encode(data).Returned? && decode(encode(data).value).Returned? &&
      decode(encode(data).value).value.Truthy? && decode(encode(data).value).value.stringField != Some(data.str)
    ensures v == Rejected(SizeNotPrintable) <==>
      encode(data) == Returned(Text([])) && decode(Text([])) == Returned(Truthy(Some(data.str)))
  {
    match encode(data)
    case Threw(m) => Rejected(EncodeThrew(m))
    case Returned(p) =>
      match decode(p)
      case Threw(m) => Rejected(DecodeThrew(m))
      case Returned(Falsy) => Rejected(NotDecoded)
      case Returned(Truthy(s)) =>
        if s != Some(data.str) then Rejected(StringMismatch)
        else if !SizePrintable(p) then Rejected(SizeNotPrintable)
        else Verified(p)
  }

  class Target {
    const name: string
    const encode: Sample -> Outcome<Payload>
    const decode: Payload -> Outcome<Decoded>
    /** Set once verification fails; the property is absent (falsy) until then. */
    var skip: bool
    /** The payload of the last successful verification; absent until then. */
    var encoded: Option<Payload>

    /** An entry of the target list: a name and two adapter functions, no `skip`, no `encoded`. */
    constructor (name: string, encode: Sample -> Outcome<Payload>, decode: Payload -> Outcome<Decoded>)
      ensures this.name == name && this.encode == encode && this.decode == decode
      ensures !skip && encoded == None
    {
      this.name := name;
      this.encode := encode;
      this.decode := decode;
      skip := false;
      encoded := None;
    }

    predicate Passes(data: Sample) {
      Verify(encode, decode, data).Verified?
    }

    function PayloadFor(data: Sample): (p: Payload)
      requires Passes(data)
      ensures encode(data) == Returned(p)
    {
      Verify(encode, decode, data).payload
    }

    /**
     * One iteration of the verification loop for this target: on success the
     * payload is stored in `encoded`; on any failure `skip` is set and
     * `encoded` keeps its previous value. `skip` is never cleared.
     */
    method VerifyWith(data: Sample)
      modifies this
      ensures skip == (old(skip) || !Passes(data))
      ensures encoded == if Passes(data) then Some(PayloadFor(data)) else old(encoded)
    {
      var enc := encode(data);
      if enc.Threw? {
        skip := true;
        return;
      }
      var dec := decode(enc.value);
      if dec.Threw? || dec.value.Falsy? {
        skip := true;
        return;
      }
      if dec.value.stringField != Some(data.str) {
        skip := true;
        return;
      }
      if !SizePrintable(enc.value) {
        skip := true;
        return;
      }
      encoded := Some(enc.value);
    }
  }

  /**
   * A target whose decoder gives back the sample's text from a non-empty payload
   * passes, whatever it does with every other field.
   */
  lemma TextRoundTripPasses(t: Target, data: Sample, p: Payload)
    requires t.encode(data) == Returned(p) && SizePrintable(p)
    requires t.decode(p) == Returned(Truthy(Some(data.str)))
    ensures t.Passes(data) && t.PayloadFor(data) == p
  {
    assert RoundTripsText(t.encode, t.decode, data);
  }

  /**
   * A target is skipped at a tier exactly when encoding throws, decoding throws,
   * the decoded value is falsy, its `string` property differs from the sample's,
   * or the size report throws on an empty text payload.
   */
  lemma SkipCauses(t: Target, data: Sample)
    ensures !t.Passes(data) <==>
      || t.encode(data).Threw?
      || t.decode(t.encode(data).value).Threw?
      || t.decode(t.encode(data).value).value == Falsy
      || t.decode(t.encode(data).value).value.stringField != Some(data.str)
      || !SizePrintable(t.encode(data).value)
  {
  }
}
