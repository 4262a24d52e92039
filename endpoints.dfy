/**
 * The decisions the two image endpoints make around the validator: which status
 * and body a request gets, which media type an image is sent with, and under
 * which file name `/qr/save` stores it. The QR encoder and the filesystem are
 * operations of the environment that may fail; they are passed in as functions.
 */
module Endpoints {
  import opened Validator

  newtype uint8 = x: int | 0 <= x < 256

  type Bytes = seq<uint8>

  /**
   * Outcome of an environment operation. A failure carries the exception's
   * message, which on the JVM may be absent.
   */
  datatype Outcome<T> = Success(value: T) | Failure(message: Option<string>)

  /** Kotlin's string template renders an absent message as "null". */
  function MessageText(m: Option<string>): string
  {
    GetOr(m, "null")
  }

  datatype HttpStatus = HttpOk | BadRequest | InternalServerError
  {
    function Code(): int
    {
      match this
      case HttpOk => 200
      case BadRequest => 400
      case InternalServerError => 500
    }
  }

  datatype MediaType = ImagePng | ImageJpeg | TextPlain
  {
    function Name(): string
    {
      match this
      case ImagePng => "image/png"
      case ImageJpeg => "image/jpeg"
      case TextPlain => "text/plain"
    }
  }

  /** The body of a `/qr` response: image bytes, or a message sent as plain text. */
  datatype Body = Image(bytes: Bytes) | Text(text: string)

  datatype QrResponse = QrResponse(status: HttpStatus, contentType: MediaType, body: Body)

  /** `/qr/save` always answers in plain text. */
  datatype SaveResponse = SaveResponse(status: HttpStatus, body: string)

  /** The filesystem operations `/qr/save` performs, in order. */
  datatype FsOp = CreateDirectories(dir: string) | WriteFile(path: string, bytes: Bytes)

  datatype SaveOutcome = SaveOutcome(response: SaveResponse, ops: seq<FsOp>)

  /** The environment of `/qr/save`: encoder, directory creation, file write. */
  datatype SaveEnv = SaveEnv(
    encode: QrParams -> Outcome<Bytes>,
    createDirectories: string -> Outcome<()>,
    write: (string, Bytes) -> Outcome<()>)

  const GenerateFailurePrefix: string := "Failed to generate QR code: "
  const SaveFailurePrefix: string := "Failed to save QR code: "
  const SavedPrefix: string := "Saved QR code to "
  const SaveSubdirectory: string := "qr"

  /** The media type an image is returned with. */
  function MediaTypeFor(p: QrParams): (m: MediaType)
    ensures m != TextPlain
    ensures ValidParams(p) ==> m.Name() == "image/" + p.imageType
  {
    if p.imageType == "png" then ImagePng else ImageJpeg
  }

  /** The extension of the saved file. */
  function Extension(p: QrParams): (ext: string)
    ensures ext in AllowedTypes
    ensures ValidParams(p) ==> ext == p.imageType
  {
    if p.imageType == "png" then "png" else "jpeg"
  }

  /** The saved file's name, `qr_<timestamp>.<ext>`. */
  function FileName(timestamp: string, ext: string): string
  {
    "qr_" + timestamp + "." + ext
  }

  /** Resolving a name against a directory path, with '/' as separator. */
  function JoinPath(dir: string, name: string): (r: string)
    ensures |r| >= |name| && r[|r| - |name|..] == name
    ensures r[..|r| - |name|] == dir || r[..|r| - |name|] == dir + "/"
    ensures dir != [] ==> r[|r| - |name| - 1] == '/'
    ensures dir == [] ==> r == name
    ensures dir != [] && dir[|dir| - 1] == '/' ==> r[..|r| - |name|] == dir
  {
    if dir == [] then name
    else if dir[|dir| - 1] == '/' then dir + name
    else dir + "/" + name
  }

  /** badRequest: status 400, the message as a plain-text body. */
  function BadRequestResponse(message: string): QrResponse
  {
    QrResponse(BadRequest, TextPlain, Text(message))
  }

  /** The `/qr` endpoint. */
  function Qr(size: Option<int32>, imageType: Option<string>, contents: Option<string>,
              encode: QrParams -> Outcome<Bytes>): (r: QrResponse)
    ensures r.status == HttpOk || r.status == BadRequest
    ensures r.status == HttpOk <==> r.body.Image?
    ensures r.status == HttpOk <==> r.contentType != TextPlain
    ensures r.status == BadRequest && ParseParams(size, imageType, contents).Ok? ==>
              |r.body.text| >= |GenerateFailurePrefix| && r.body.text[..|GenerateFailurePrefix|] == GenerateFailurePrefix
  {
    match ParseParams(size, imageType, contents)
    case Err(msg) => BadRequestResponse(msg)
    case Ok(p) =>
      match encode(p)
      case Success(bytes) => QrResponse(HttpOk, MediaTypeFor(p), Image(bytes))
      case Failure(m) => BadRequestResponse(GenerateFailurePrefix + MessageText(m))
  }

  /** The `catch` arm of `/qr/save`: status 500 and the failure's message, after the operations already performed. */
  function SaveFailed(m: Option<string>, ops: seq<FsOp>): SaveOutcome
  {
    SaveOutcome(SaveResponse(InternalServerError, SaveFailurePrefix + MessageText(m)), ops)
  }

  /** The `/qr/save` endpoint, given the temporary directory and the formatted timestamp. */
  function QrSave(size: Option<int32>, imageType: Option<string>, contents: Option<string>,
                  tmpDir: string, timestamp: string, env: SaveEnv): (r: SaveOutcome)
    ensures r.response.status == BadRequest <==> ParseParams(size, imageType, contents).Err?
    ensures r.response.status == BadRequest ==> r.ops == []
    ensures r.response.status == HttpOk ==>
              |r.ops| == 2 && r.ops[1].WriteFile? && r.response.body == SavedPrefix + r.ops[1].path
  {
    match ParseParams(size, imageType, contents)
    case Err(msg) => SaveOutcome(SaveResponse(BadRequest, msg), [])
    case Ok(p) =>
      match env.encode(p)
      case Failure(m) => SaveFailed(m, [])
      case Success(bytes) =>
        var dir := JoinPath(tmpDir, SaveSubdirectory);
        match env.createDirectories(dir)
        case Failure(m) => SaveFailed(m, [CreateDirectories(dir)])
        case Success(_) =>
          var path := JoinPath(dir, FileName(timestamp, Extension(p)));
          var ops := [CreateDirectories(dir), WriteFile(path, bytes)];
          match env.write(path, bytes)
          case Failure(m) => SaveFailed(m, ops)
          case Success(_) => SaveOutcome(SaveResponse(HttpOk, SavedPrefix + path), ops)
  }

  /** The path `/qr/save` writes a validated request's image to. */
  function SavePath(tmpDir: string, timestamp: string, p: QrParams): string
  {
    JoinPath(JoinPath(tmpDir, SaveSubdirectory), FileName(timestamp, p.imageType))
  }

  // ---------------------------------------------------------------------------
  // Media type, extension, file name
  // ---------------------------------------------------------------------------

  /** A validated image is sent as PNG exactly when its type is "png", and as JPEG exactly when it is "jpeg". */
  lemma MediaTypeMatchesFormat(p: QrParams)
    requires ValidParams(p)
    ensures MediaTypeFor(p) == ImagePng <==> p.imageType == "png"
    ensures MediaTypeFor(p) == ImageJpeg <==> p.imageType == "jpeg"
  {
  }

  /** With timestamps of one fixed width, distinct timestamps give distinct file names. */
  lemma FileNameInjective(t1: string, t2: string, e1: string, e2: string)
    requires |t1| == |t2|
    requires FileName(t1, e1) == FileName(t2, e2)
    ensures t1 == t2 && e1 == e2
  {
    var n := FileName(t1, e1);
    assert n[3..3 + |t1|] == t1 && n[3..3 + |t2|] == t2;
    assert n[3 + |t1|..] == "." + e1 && n[3 + |t2|..] == "." + e2;
    assert ("." + e1)[1..] == e1;
    assert ("." + e2)[1..] == e2;
  }

  // ---------------------------------------------------------------------------
  // `/qr`
  // ---------------------------------------------------------------------------

  /** A validation error is a 400 with the validator's message, and the encoder is not consulted. */
  lemma QrValidationError(size: Option<int32>, imageType: Option<string>, contents: Option<string>,
                          e1: QrParams -> Outcome<Bytes>, e2: QrParams -> Outcome<Bytes>)
    requires ParseParams(size, imageType, contents).Err?
    ensures Qr(size, imageType, contents, e1)
         == QrResponse(BadRequest, TextPlain, Text(ParseParams(size, imageType, contents).message))
    ensures Qr(size, imageType, contents, e1) == Qr(size, imageType, contents, e2)
  {
  }

  /** An encoder failure on a valid request is a 400 saying the code could not be generated. */
  lemma QrEncoderFailure(size: Option<int32>, imageType: Option<string>, contents: Option<string>,
                         encode: QrParams -> Outcome<Bytes>)
    requires ParseParams(size, imageType, contents).Ok?
    requires encode(ParseParams(size, imageType, contents).params).Failure?
    ensures var m := encode(ParseParams(size, imageType, contents).params).message;
            Qr(size, imageType, contents, encode)
            == QrResponse(BadRequest, TextPlain, Text("Failed to generate QR code: " + MessageText(m)))
  {
  }

  /**
   * `/qr` answers 200 exactly when the request validates and the encoder succeeds;
   * then the body is the encoder's bytes under the media type of the requested
   * format. Otherwise it answers 400 with a plain-text message; never 500.
   */
  lemma QrSuccessIff(size: Option<int32>, imageType: Option<string>, contents: Option<string>,
                     encode: QrParams -> Outcome<Bytes>)
    ensures var r := Qr(size, imageType, contents, encode);
            var v := ParseParams(size, imageType, contents);
            && (r.status == HttpOk <==> v.Ok? && encode(v.params).Success?)
            && (r.status == HttpOk ==>
                  r.body == Image(encode(v.params).value)
                  && r.contentType.Name() == "image/" + v.params.imageType)
            && (r.status != HttpOk ==> r.status.Code() == 400 && r.contentType == TextPlain && r.body.Text?)
  {
    var v := ParseParams(size, imageType, contents);
    if v.Ok? {
      MediaTypeMatchesFormat(v.params);
    }
  }

  // ---------------------------------------------------------------------------
  // `/qr/save`
  // ---------------------------------------------------------------------------

  /** A validation error is a 400 with the validator's message, and nothing touches the filesystem. */
  lemma SaveValidationError(size: Option<int32>, imageType: Option<string>, contents: Option<string>,
                            tmpDir: string, timestamp: string, env: SaveEnv)
    requires ParseParams(size, imageType, contents).Err?
    ensures QrSave(size, imageType, contents, tmpDir, timestamp, env).response
         == SaveResponse(BadRequest, ParseParams(size, imageType, contents).message)
    ensures QrSave(size, imageType, contents, tmpDir, timestamp, env).ops == []
  {
  }

  /** An encoder failure is a 500, and the save writes nothing: no partial file. */
  lemma SaveEncoderFailure(size: Option<int32>, imageType: Option<string>, contents: Option<string>,
                           tmpDir: string, timestamp: string, env: SaveEnv)
    requires ParseParams(size, imageType, contents).Ok?
    requires env.encode(ParseParams(size, imageType, contents).params).Failure?
    ensures var m := env.encode(ParseParams(size, imageType, contents).params).message;
            QrSave(size, imageType, contents, tmpDir, timestamp, env)
            == SaveOutcome(SaveResponse(InternalServerError, "Failed to save QR code: " + MessageText(m)), [])
  {
  }

  /**
   * After validation, `/qr/save` either answers 200 with "Saved QR code to " and
   * the path it wrote, or 500 with "Failed to save QR code: " and a message.
   * It answers 200 exactly when encoding, directory creation and the write all
   * succeed; the path is the `qr` subdirectory of the temporary directory joined
   * with `qr_<timestamp>.<type>`.
   */
  lemma SaveStatusAndBody(size: Option<int32>, imageType: Option<string>, contents: Option<string>,
                          tmpDir: string, timestamp: string, env: SaveEnv)
    requires ParseParams(size, imageType, contents).Ok?
    ensures var p := ParseParams(size, imageType, contents).params;
            var r := QrSave(size, imageType, contents, tmpDir, timestamp, env).response;
            var dir := JoinPath(tmpDir, "qr");
            var path := SavePath(tmpDir, timestamp, p);
            && (r.status == HttpOk <==>
                  && env.encode(p).Success?
                  && env.createDirectories(dir).Success?
                  && env.write(path, env.encode(p).value).Success?)
            && (r.status == HttpOk ==> r.body == "Saved QR code to " + path)
            && (r.status != HttpOk ==>
                  r.status.Code() == 500
                  && |r.body| >= |SaveFailurePrefix|
                  && r.body[..|SaveFailurePrefix|] == "Failed to save QR code: ")
    ensures var p := ParseParams(size, imageType, contents).params;
            var dir := JoinPath(tmpDir, "qr");
            env.encode(p).Success? && env.createDirectories(dir).Failure? ==>
              QrSave(size, imageType, contents, tmpDir, timestamp, env)
              == SaveOutcome(SaveResponse(InternalServerError,
                               SaveFailurePrefix + MessageText(env.createDirectories(dir).message)),
                             [CreateDirectories(dir)])
    ensures var p := ParseParams(size, imageType, contents).params;
            var dir := JoinPath(tmpDir, "qr");
            var path := SavePath(tmpDir, timestamp, p);
            env.encode(p).Success? && env.createDirectories(dir).Success?
            && env.write(path, env.encode(p).value).Failure? ==>
              QrSave(size, imageType, contents, tmpDir, timestamp, env).response
              == SaveResponse(InternalServerError,
                              SaveFailurePrefix + MessageText(env.write(path, env.encode(p).value).message))
  {
  }

  /**
   * The filesystem is touched in order: the directory is created first, and a file
   * is written only after it, at the save path, holding exactly the encoder's bytes.
   */
  lemma SaveWritesEncodedBytes(size: Option<int32>, imageType: Option<string>, contents: Option<string>,
                               tmpDir: string, timestamp: string, env: SaveEnv)
    ensures var ops := QrSave(size, imageType, contents, tmpDir, timestamp, env).ops;
            && |ops| <= 2
            && (|ops| > 0 ==> ops[0] == CreateDirectories(JoinPath(tmpDir, "qr")))
            && (|ops| == 2 ==>
                  var v := ParseParams(size, imageType, contents);
                  && v.Ok?
                  && env.encode(v.params).Success?
                  && ops[1] == WriteFile(SavePath(tmpDir, timestamp, v.params), env.encode(v.params).value))
    ensures var ops := QrSave(size, imageType, contents, tmpDir, timestamp, env).ops;
            var v := ParseParams(size, imageType, contents);
            && (v.Ok? && env.encode(v.params).Success? ==> |ops| > 0)
            && (v.Ok? && env.encode(v.params).Success? && env.createDirectories(JoinPath(tmpDir, "qr")).Success? ==>
                  ops == [CreateDirectories(JoinPath(tmpDir, "qr")),
                          WriteFile(SavePath(tmpDir, timestamp, v.params), env.encode(v.params).value)])
  {
  }

  /**
   * The file name resolves only to the second: two saves of the same type with
   * the same timestamp write to the same path, the later one replacing the file.
   */
  lemma SameTimestampSamePath(s1: Option<int32>, t1: Option<string>, c1: Option<string>,
                              s2: Option<int32>, t2: Option<string>, c2: Option<string>,
                              tmpDir: string, timestamp: string, env1: SaveEnv, env2: SaveEnv)
    requires ParseParams(s1, t1, c1).Ok? && ParseParams(s2, t2, c2).Ok?
    requires ParseParams(s1, t1, c1).params.imageType == ParseParams(s2, t2, c2).params.imageType
    requires env1.encode(ParseParams(s1, t1, c1).params).Success? && env1.createDirectories(JoinPath(tmpDir, "qr")).Success?
    requires env2.encode(ParseParams(s2, t2, c2).params).Success? && env2.createDirectories(JoinPath(tmpDir, "qr")).Success?
    ensures var ops1 := QrSave(s1, t1, c1, tmpDir, timestamp, env1).ops;
            var ops2 := QrSave(s2, t2, c2, tmpDir, timestamp, env2).ops;
            |ops1| == 2 && |ops2| == 2 && ops1[1].WriteFile? && ops2[1].WriteFile? && ops1[1].path == ops2[1].path
  {
    SaveWritesEncodedBytes(s1, t1, c1, tmpDir, timestamp, env1);
    SaveWritesEncodedBytes(s2, t2, c2, tmpDir, timestamp, env2);
  }

  /** The saved file sits directly inside the `qr` subdirectory: that directory, one "/", then `qr_<timestamp>.<type>`. */
  lemma SavePathShape(tmpDir: string, timestamp: string, p: QrParams)
    ensures SavePath(tmpDir, timestamp, p) == JoinPath(tmpDir, "qr") + "/" + FileName(timestamp, p.imageType)
  {
  }

  /** The service's documented sample requests, answered by `/qr`. */
  lemma QrSampleRequests(encode: QrParams -> Outcome<Bytes>)
    ensures Qr(Some(50), None, None, encode)
         == QrResponse(BadRequest, TextPlain, Text("Invalid 'size' parameter. Allowed range is 100..1000."))
    ensures Qr(None, Some("bmp"), None, encode)
         == QrResponse(BadRequest, TextPlain, Text("Invalid 'type' parameter. Allowed values are 'png' or 'jpeg'."))
    ensures encode(QrParams(300, "jpeg", "hello")).Success? ==>
              Qr(Some(300), Some("jpeg"), Some("hello"), encode).status == HttpOk
              && Qr(Some(300), Some("jpeg"), Some("hello"), encode).contentType.Name() == "image/jpeg"
  {
    SampleRequests();
  }
}
