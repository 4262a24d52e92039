/**
 * The request-parameter validator of the QR endpoints: three optional inputs are
 * given their defaults, the type is lowercased, then size and type are checked in
 * that order and the first failure is reported as one fixed message.
 */
module Validator {
  import opened Ascii

  /** Kotlin's Int, the type of the `size` query parameter. */
  newtype int32 = x: int | -0x8000_0000 <= x < 0x8000_0000

  datatype Option<T> = None | Some(value: T)

  /** Kotlin's elvis operator `o ?: default`. */
  function GetOr<T>(o: Option<T>, default: T): T
  {
    match o
    case Some(v) => v
    case None => default
  }

  /** The validated request record. */
  datatype QrParams = QrParams(size: int32, imageType: string, contents: string)

  /** The validator's pair of (record, error), exactly one side present. */
  datatype ParseResult = Ok(params: QrParams) | Err(message: string)

  const DefaultSize: int32 := 250
  const MinSize: int32 := 100
  const MaxSize: int32 := 1000
  const DefaultType: string := "png"
  const DefaultContents: string := ""
  const AllowedTypes: set<string> := {"png", "jpeg"}

  const SizeError: string := "Invalid 'size' parameter. Allowed range is 100..1000."
  const TypeError: string := "Invalid 'type' parameter. Allowed values are 'png' or 'jpeg'."

  predicate SizeInRange(s: int32) { MinSize <= s <= MaxSize }

  /** What every record the validator hands out satisfies. */
  predicate ValidParams(p: QrParams)
  {
    SizeInRange(p.size) && p.imageType in AllowedTypes
  }

  /** parseParams: defaults, then the size check, then the lowercased type check. */
  function ParseParams(size: Option<int32>, imageType: Option<string>, contents: Option<string>): (r: ParseResult)
    ensures r.Ok? ==> ValidParams(r.params)
    ensures r.Err? ==> r.message == SizeError || r.message == TypeError
  {
    var finalSize := GetOr(size, DefaultSize);
    if !SizeInRange(finalSize) then
      Err(SizeError)
    else
      var finalType := Lowercase(GetOr(imageType, DefaultType));
      if finalType !in AllowedTypes then
        Err(TypeError)
      else
        Ok(QrParams(finalSize, finalType, GetOr(contents, DefaultContents)))
  }

  // ---------------------------------------------------------------------------
  // A reference reading of the validator: fill in the defaults, normalise the
  // type, and accept exactly the records that are valid.
  // ---------------------------------------------------------------------------

  function Normalized(size: Option<int32>, imageType: Option<string>, contents: Option<string>): QrParams
  {
    QrParams(GetOr(size, DefaultSize), Lowercase(GetOr(imageType, DefaultType)), GetOr(contents, DefaultContents))
  }

  lemma MessagesDistinct()
    ensures SizeError != TypeError
  {
    assert |SizeError| != |TypeError|;
  }

  lemma LowercaseOfAllowed()
    ensures Lowercase("png") == "png" && Lowercase("jpeg") == "jpeg"
    ensures Lowercase("PNG") == "png" && Lowercase("JpEg") == "jpeg"
  {
    LowercaseFixesLower("png");
    LowercaseFixesLower("jpeg");
    assert Lowercase("PNG") == "png";
    assert Lowercase("JpEg") == "jpeg";
  }

  /** The validator accepts exactly the normalised records that are valid, and returns that record. */
  lemma ParseIsNormalizeThenValidate(size: Option<int32>, imageType: Option<string>, contents: Option<string>)
    ensures ParseParams(size, imageType, contents).Ok? <==> ValidParams(Normalized(size, imageType, contents))
    ensures ParseParams(size, imageType, contents).Ok? ==> ParseParams(size, imageType, contents).params == Normalized(size, imageType, contents)
  {
  }

  /** An absent size becomes 250, and 250 passes the range check. */
  lemma AbsentSizeIsDefault(imageType: Option<string>, contents: Option<string>)
    ensures SizeInRange(DefaultSize)
    ensures ParseParams(None, imageType, contents) == ParseParams(Some(250), imageType, contents)
    ensures ParseParams(None, imageType, contents) != Err(SizeError)
    ensures ParseParams(None, imageType, contents).Ok? ==> ParseParams(None, imageType, contents).params.size == 250
  {
    MessagesDistinct();
  }

  /** The size check fails exactly outside 100..1000, both ends included, with the fixed size message. */
  lemma SizeCheckIff(s: int32, imageType: Option<string>, contents: Option<string>)
    ensures ParseParams(Some(s), imageType, contents) == Err(SizeError) <==> !(100 <= s <= 1000)
  {
    MessagesDistinct();
  }

  /** Size is checked before type: an out-of-range size wins over any type, valid or not. */
  lemma SizeCheckedFirst(size: Option<int32>, imageType: Option<string>, contents: Option<string>)
    requires !SizeInRange(GetOr(size, DefaultSize))
    ensures ParseParams(size, imageType, contents) == Err(SizeError)
  {
  }

  /** With an acceptable size, the type check fails exactly when the lowercased type is not allowed. */
  lemma TypeCheckIff(size: Option<int32>, imageType: Option<string>, contents: Option<string>)
    requires SizeInRange(GetOr(size, DefaultSize))
    ensures ParseParams(size, imageType, contents) == Err(TypeError)
        <==> Lowercase(GetOr(imageType, DefaultType)) !in AllowedTypes
  {
  }

  /** The type check is case-insensitive: a type is accepted or refused as its lowercase form is. */
  lemma TypeCaseInsensitive(size: Option<int32>, t: string, contents: Option<string>)
    ensures ParseParams(size, Some(t), contents) == ParseParams(size, Some(Lowercase(t)), contents)
  {
    LowercaseIdempotent(t);
  }

  /** An absent type becomes "png"; upper- and mixed-case spellings are stored lowercased. */
  lemma TypeDefaultsAndCase(size: Option<int32>, contents: Option<string>)
    requires SizeInRange(GetOr(size, DefaultSize))
    ensures ParseParams(size, None, contents) == Ok(QrParams(GetOr(size, DefaultSize), "png", GetOr(contents, "")))
    ensures ParseParams(size, Some("PNG"), contents) == Ok(QrParams(GetOr(size, DefaultSize), "png", GetOr(contents, "")))
    ensures ParseParams(size, Some("JpEg"), contents) == Ok(QrParams(GetOr(size, DefaultSize), "jpeg", GetOr(contents, "")))
  {
    LowercaseOfAllowed();
  }

  /** Contents are never the reason for a rejection, and present contents are stored unchanged. */
  lemma ContentsPassThrough(size: Option<int32>, imageType: Option<string>, c1: Option<string>, c2: Option<string>)
    ensures ParseParams(size, imageType, c1).Ok? <==> ParseParams(size, imageType, c2).Ok?
    ensures ParseParams(size, imageType, c1).Err? ==> ParseParams(size, imageType, c1) == ParseParams(size, imageType, c2)
    ensures ParseParams(size, imageType, c1).Ok? ==> ParseParams(size, imageType, c1).params.contents == GetOr(c1, "")
  {
  }

  /**
   * Every valid record is reproduced by the validator from its own fields, so
   * validating an accepted request's record again gives back the same record.
   */
  lemma ValidParamsRoundTrip(p: QrParams)
    requires ValidParams(p)
    ensures ParseParams(Some(p.size), Some(p.imageType), Some(p.contents)) == Ok(p)
  {
    LowercaseOfAllowed();
  }

  lemma ParseIdempotent(size: Option<int32>, imageType: Option<string>, contents: Option<string>)
    requires ParseParams(size, imageType, contents).Ok?
    ensures var p := ParseParams(size, imageType, contents).params;
            ParseParams(Some(p.size), Some(p.imageType), Some(p.contents)) == Ok(p)
  {
    ValidParamsRoundTrip(ParseParams(size, imageType, contents).params);
  }

  /** The type is accepted exactly when it equals "png" or "jpeg" up to case. */
  lemma TypeAcceptedIffIgnoreCase(t: string)
    ensures Lowercase(t) in AllowedTypes <==> EqualsIgnoreCase(t, "png") || EqualsIgnoreCase(t, "jpeg")
  {
    LowercaseOfAllowed();
    LowercaseEqualIffEqualsIgnoreCase(t, "png");
    LowercaseEqualIffEqualsIgnoreCase(t, "jpeg");
  }

  /** The sample requests of the service's documented behaviour. */
  lemma SampleRequests()
    ensures ParseParams(None, None, None) == Ok(QrParams(250, "png", ""))
    ensures ParseParams(Some(50), None, None) == Err(SizeError)
    ensures ParseParams(None, Some("bmp"), None) == Err(TypeError)
    ensures ParseParams(Some(300), Some("jpeg"), Some("hello")) == Ok(QrParams(300, "jpeg", "hello"))
  {
    LowercaseOfAllowed();
    assert Lowercase("bmp") == "bmp" by { LowercaseFixesLower("bmp"); }
  }
}
