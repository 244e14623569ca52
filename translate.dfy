/**
 * The `/translate` endpoint of server/main.py: two guards in a fixed order, the
 * choice of generator and labels, and the mapping of every failure inside the
 * `try` block to status 500. What the endpoint calls into (reading the upload,
 * `Image.open`, running the network, PNG encoding and base64) is given as the
 * results of those calls.
 */
module TranslateEndpoint {
  import opened Wrappers

  /** The two loaded networks: `G_AB` (normal to pneumonia) and `G_BA` (the reverse). */
  datatype GeneratorId = GAB | GBA

  /** What the endpoint answers: the JSON body on success, or the `HTTPException` it raises. */
  datatype Response =
    | Translated(message: string, imageData: string)
    | HttpError(statusCode: nat, detail: string)

  const NormalToPneumonia: string := "normal_to_pneumonia"
  const PneumoniaToNormal: string := "pneumonia_to_normal"

  /** The generator chosen for a translation and the labels used in its message. */
  datatype Direction = Direction(generator: GeneratorId, sourceType: string, targetType: string)

  predicate IsKnownType(translationType: string) {
    translationType in [NormalToPneumonia, PneumoniaToNormal]
  }

  /** The `if`/`else` inside the `try`: anything but "normal_to_pneumonia" takes the `else`. */
  function SelectDirection(translationType: string): (d: Direction)
    ensures d.sourceType != d.targetType
    ensures d.generator == GAB <==> translationType == NormalToPneumonia
    ensures d.generator == GAB ==> d.sourceType == "normal" && d.targetType == "pneumonia"
    ensures d.generator == GBA ==> d.sourceType == "pneumonia" && d.targetType == "normal"
  {
    if translationType == NormalToPneumonia then Direction(GAB, "normal", "pneumonia")
    else Direction(GBA, "pneumonia", "normal")
  }

  /** `f"Translated {source_type} to {target_type}"`: the labels stand in fixed positions. */
  function SuccessMessage(d: Direction): (m: string)
    ensures |m| == 15 + |d.sourceType| + |d.targetType|
    ensures m[..11] == "Translated "
    ensures m[11..11 + |d.sourceType|] == d.sourceType
    ensures m[11 + |d.sourceType|..15 + |d.sourceType|] == " to "
    ensures m[|m| - |d.targetType|..] == d.targetType
  {
    "Translated " + d.sourceType + " to " + d.targetType
  }

  /**
   * `translate_image`. `gAbLoaded` and `gBaLoaded` say whether the globals are set;
   * `decoded` is the outcome of `await file.read()` and `Image.open`; `run` is the
   * outcome of `generate_from_image` with the chosen network followed by PNG saving
   * and base64 encoding. A failure carries the text of its exception.
   */
  function TranslateImage<Image>(
    gAbLoaded: bool, gBaLoaded: bool, translationType: string,
    decoded: Result<Image, string>,
    run: (GeneratorId, Image) -> Result<string, string>): (r: Response)
    ensures r.HttpError? && r.statusCode == 503 <==> !(gAbLoaded && gBaLoaded)
    ensures r.HttpError? && r.statusCode == 400 <==>
      gAbLoaded && gBaLoaded && !IsKnownType(translationType)
    ensures r.HttpError? ==> r.statusCode in {400, 500, 503}
    ensures r.Translated? <==>
      && gAbLoaded && gBaLoaded && IsKnownType(translationType)
      && decoded.Success?
      && run(SelectDirection(translationType).generator, decoded.value).Success?
    ensures r.Translated? ==>
      && r.message == SuccessMessage(SelectDirection(translationType))
      && r.imageData == run(SelectDirection(translationType).generator, decoded.value).value
  {
    if !gAbLoaded || !gBaLoaded then
      HttpError(503, "Models not loaded yet")
    else if !IsKnownType(translationType) then
      HttpError(400, "Invalid translation type")
    else
      match decoded
      case Failure(e) => HttpError(500, "Error: " + e)
      case Success(image) =>
        var d := SelectDirection(translationType);
        match run(d.generator, image)
        case Failure(e) => HttpError(500, "Error: " + e)
        case Success(encoded) => Translated(SuccessMessage(d), encoded)
  }

  // ---------------------------------------------------------------------------
  // Lemmas

  /** With a network missing the answer is 503 whatever the type or the upload. */
  lemma UnloadedCheckedFirst<Image>(
    gAbLoaded: bool, gBaLoaded: bool, translationType: string,
    decoded: Result<Image, string>, run: (GeneratorId, Image) -> Result<string, string>)
    requires !gAbLoaded || !gBaLoaded
    ensures TranslateImage(gAbLoaded, gBaLoaded, translationType, decoded, run)
         == HttpError(503, "Models not loaded yet")
  {
  }

  /** With both loaded, an unknown type is 400 before the upload is read. */
  lemma UnknownTypeRejected<Image>(
    translationType: string,
    decoded: Result<Image, string>, run: (GeneratorId, Image) -> Result<string, string>)
    requires !IsKnownType(translationType)
    ensures TranslateImage(true, true, translationType, decoded, run)
         == HttpError(400, "Invalid translation type")
  {
  }

  /**
   * Once both guards pass, a failure while reading, decoding, translating or
   * encoding is reported as 500 with the exception's text, never as 400 or 503.
   */
  lemma FailureInsideTryIs500<Image>(
    translationType: string,
    decoded: Result<Image, string>, run: (GeneratorId, Image) -> Result<string, string>)
    requires IsKnownType(translationType)
    ensures var r := TranslateImage(true, true, translationType, decoded, run);
      && (decoded.Failure? ==> r == HttpError(500, "Error: " + decoded.error))
      && (decoded.Success? && run(SelectDirection(translationType).generator, decoded.value).Failure? ==>
            r == HttpError(500, "Error: " + run(SelectDirection(translationType).generator, decoded.value).error))
  {
  }

  /** "normal_to_pneumonia" runs `G_AB` and reports "Translated normal to pneumonia". */
  lemma NormalToPneumoniaUsesGAB<Image>(image: Image, run: (GeneratorId, Image) -> Result<string, string>)
    requires run(GAB, image).Success?
    ensures TranslateImage(true, true, NormalToPneumonia, Success(image), run)
         == Translated("Translated normal to pneumonia", run(GAB, image).value)
  {
    assert SuccessMessage(Direction(GAB, "normal", "pneumonia")) == "Translated normal to pneumonia";
  }

  /** "pneumonia_to_normal" runs `G_BA` and reports "Translated pneumonia to normal". */
  lemma PneumoniaToNormalUsesGBA<Image>(image: Image, run: (GeneratorId, Image) -> Result<string, string>)
    requires run(GBA, image).Success?
    ensures TranslateImage(true, true, PneumoniaToNormal, Success(image), run)
         == Translated("Translated pneumonia to normal", run(GBA, image).value)
  {
    assert SuccessMessage(Direction(GBA, "pneumonia", "normal")) == "Translated pneumonia to normal";
  }

  /**
   * The success message names the direction: the two known types give different
   * messages, so a client can tell from the message which network ran.
   */
  lemma MessageIdentifiesDirection(t1: string, t2: string)
    requires IsKnownType(t1) && IsKnownType(t2) && t1 != t2
    ensures SuccessMessage(SelectDirection(t1)) != SuccessMessage(SelectDirection(t2))
  {
    var m1, m2 := SuccessMessage(SelectDirection(t1)), SuccessMessage(SelectDirection(t2));
    assert m1[11] != m2[11];
  }
}
