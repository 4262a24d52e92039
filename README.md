# QR code service: request validation and endpoint decisions

This project models the logic of a small HTTP service that renders QR codes.
The service has two image endpoints. `GET /qr` returns the image. `GET /qr/save`
writes the image to a file and returns a confirmation. Both endpoints take three
optional query parameters: `size`, `type` and `contents`.

The service owns three things, and this project models all three:

- **The validator** (`parseParams`). It fills in the defaults: 250 for the size,
  `"png"` for the type and the empty string for the contents. It lowercases the
  type. Then it checks the size against `100..1000` and the type against
  `{"png", "jpeg"}`, in that order. It answers with either a validated record or
  exactly one of two fixed messages.
  Module `Validator` models it. `ParseResult` is the tagged form of the source's
  `Pair<QrParams?, String?>`: by construction, exactly one side is present.
- **The endpoint decisions.** This covers the media type of an image, the
  extension and the name `qr_<timestamp>.<ext>` of the saved file, and the map
  from validation result and encoder or filesystem outcome to an HTTP status
  and body. Module `Endpoints` models it.
- **Lowercasing** of the requested type. Module `Ascii` models it as ASCII case
  mapping.

The QR encoder, directory creation and the file write are operations of the
environment that may fail. They are passed in as functions returning an
`Outcome`. A failure carries the exception's message. Kotlin renders an absent
(`null`) message as `"null"`. The temporary directory and the formatted
timestamp are inputs of `QrSave`. `QrSave` returns the response together with the
ordered list of filesystem operations the endpoint performs. This is what lets
the model state that nothing is written when encoding fails, and that the only
file written holds exactly the encoder's bytes.

The timestamp in the file name has a resolution of one second
(QrController.kt:71). So two saves of the same type in the same clock second
write to the same path, and the later write replaces the earlier file.
`Endpoints.SameTimestampSamePath` states this. The timestamp comes from
`LocalDateTime.now()` and carries no zone offset. So when a daylight-saving
change turns the clock back, two saves an hour apart can also get equal
timestamps.

## Model

| member | source | states |
|---|---|---|
| `Ascii.LowerChar` | src/main/kotlin/com/example/qrservice/QrController.kt:93 | the result is never upper case; a non-letter or lower-case character is unchanged; an upper-case letter becomes the same letter in lower case |
| `Ascii.Lowercase` | src/main/kotlin/com/example/qrservice/QrController.kt:93 | lowercasing keeps the length and maps each character independently |
| `Ascii.LowerCharEqualIff` | src/main/kotlin/com/example/qrservice/QrController.kt:93-95 | two characters lowercase to the same character if and only if they are equal, or both are letters at the same place in the alphabet |
| `Ascii.LowercaseHasNoUpper` | src/main/kotlin/com/example/qrservice/QrController.kt:93 | a lowercased string contains no upper-case letter |
| `Ascii.LowercaseFixesLower` | src/main/kotlin/com/example/qrservice/QrController.kt:93 | a string without upper-case letters is its own lowercase |
| `Ascii.LowercaseIdempotent` | src/main/kotlin/com/example/qrservice/QrController.kt:93 | lowercasing twice is the same as lowercasing once |
| `Ascii.LowercaseEqualIffEqualsIgnoreCase` | src/main/kotlin/com/example/qrservice/QrController.kt:93-95 | two strings have equal lowercase forms if and only if they are equal up to case |
| `Validator.GetOr` | src/main/kotlin/com/example/qrservice/QrController.kt:88-99 | the elvis default `o ?: d`: the present value, else the default; no contract of its own, described by `AbsentSizeIsDefault`, `TypeDefaultsAndCase` and `ContentsPassThrough` |
| `Validator.ParseParams` | src/main/kotlin/com/example/qrservice/QrController.kt:87-101 | every accepted record has size in 100..1000 and type in {png, jpeg}; every rejection carries one of the two fixed messages |
| `Validator.ParseIsNormalizeThenValidate` | src/main/kotlin/com/example/qrservice/QrController.kt:87-101 | the validator accepts if and only if the record built from the defaults and the lowercased type is valid, and then it returns that record |
| `Validator.Normalized` | src/main/kotlin/com/example/qrservice/QrController.kt:88-99 | the record built from the defaults and the lowercased type before any check; no contract of its own, described by `ParseIsNormalizeThenValidate` |
| `Validator.MessagesDistinct` | src/main/kotlin/com/example/qrservice/QrController.kt:90-96 | the size message and the type message are different strings |
| `Validator.LowercaseOfAllowed` | src/main/kotlin/com/example/qrservice/QrController.kt:93-95 | lowercasing leaves "png" and "jpeg" unchanged and maps "PNG" to "png" and "JpEg" to "jpeg" |
| `Validator.AbsentSizeIsDefault` | src/main/kotlin/com/example/qrservice/QrController.kt:88-89 | an absent size behaves as size 250; 250 passes the range check; an accepted record then has size 250 |
| `Validator.SizeCheckIff` | src/main/kotlin/com/example/qrservice/QrController.kt:88-91 | the result is exactly the size message if and only if the size lies outside 100..1000, with both ends allowed |
| `Validator.SizeCheckedFirst` | src/main/kotlin/com/example/qrservice/QrController.kt:88-97 | an out-of-range size gives the size message whatever the type is, including an invalid type |
| `Validator.TypeCheckIff` | src/main/kotlin/com/example/qrservice/QrController.kt:93-97 | when the size passes, the result is exactly the type message if and only if the lowercased type (default "png") is not in {png, jpeg} |
| `Validator.TypeCaseInsensitive` | src/main/kotlin/com/example/qrservice/QrController.kt:93 | a type and its lowercase form get the same result |
| `Validator.TypeDefaultsAndCase` | src/main/kotlin/com/example/qrservice/QrController.kt:93-100 | when the size passes, an absent type is stored as "png", "PNG" is stored as "png" and "JpEg" as "jpeg" |
| `Validator.TypeAcceptedIffIgnoreCase` | src/main/kotlin/com/example/qrservice/QrController.kt:93-97 | a type is accepted if and only if it equals "png" or "jpeg" up to case |
| `Validator.ContentsPassThrough` | src/main/kotlin/com/example/qrservice/QrController.kt:99-100 | contents never decide acceptance; a rejection does not depend on them; an accepted record holds the given contents unchanged, or "" when they are absent |
| `Validator.ValidParamsRoundTrip` | src/main/kotlin/com/example/qrservice/QrController.kt:85-101 | validating the fields of any valid record returns that same record |
| `Validator.ParseIdempotent` | src/main/kotlin/com/example/qrservice/QrController.kt:87-101 | validating an accepted record's fields a second time accepts them and returns the same record |
| `Validator.SampleRequests` | src/main/kotlin/com/example/qrservice/QrController.kt:87-101 | no parameters gives (250, "png", ""); size 50 gives the size message; type "bmp" gives the type message; (300, "jpeg", "hello") is accepted unchanged |
| `Endpoints.MessageText` | src/main/kotlin/com/example/qrservice/QrController.kt:50-80 | an exception message as a string template renders it: the message, or "null" when absent; no contract of its own, described by `QrEncoderFailure`, `SaveEncoderFailure` and `SaveStatusAndBody` |
| `Endpoints.BadRequestResponse` | src/main/kotlin/com/example/qrservice/QrController.kt:111-117 | `badRequest`: status 400, media type text/plain, the message as body; no contract of its own, described by `QrValidationError` and `QrEncoderFailure` |
| `Endpoints.MediaTypeFor` | src/main/kotlin/com/example/qrservice/QrController.kt:45 | the media type of an image is never text/plain, and for a validated record it is "image/" + type |
| `Endpoints.Extension` | src/main/kotlin/com/example/qrservice/QrController.kt:72 | the extension is always "png" or "jpeg", and for a validated record it equals the type |
| `Endpoints.FileName` | src/main/kotlin/com/example/qrservice/QrController.kt:73 | `qr_<timestamp>.<ext>`; no contract of its own, described by `FileNameInjective` and `SavePathShape` |
| `Endpoints.Qr` | src/main/kotlin/com/example/qrservice/QrController.kt:32-52 | `qr`: the status is 200 or 400, never 500; the status is 200 exactly when the body is image bytes, and exactly when the media type is not text/plain; a 400 after successful validation carries a body starting with "Failed to generate QR code: " |
| `Endpoints.QrSave` | src/main/kotlin/com/example/qrservice/QrController.kt:55-82 | `qrSave`: the status is 400 exactly when validation fails, and then nothing touches the filesystem; a 200 means two operations were performed, the second a file write, and the body is "Saved QR code to " + the written path |
| `Endpoints.SaveFailed` | src/main/kotlin/com/example/qrservice/QrController.kt:79-80 | the `catch` arm of `qrSave`: status 500 with "Failed to save QR code: " + the message; no contract of its own, described by `SaveEncoderFailure` and `SaveStatusAndBody` |
| `Endpoints.JoinPath` | src/main/kotlin/com/example/qrservice/QrController.kt:68-74 | the resolved path ends with the name; an empty directory gives the bare name (a relative path); a directory already ending in "/" is followed directly by the name, with no second separator; any other directory is followed by exactly one "/" and then the name, so the name is always a separate path component |
| `Endpoints.MediaTypeMatchesFormat` | src/main/kotlin/com/example/qrservice/QrController.kt:45 | for a validated record, the media type is image/png exactly when the type is "png" and image/jpeg exactly when it is "jpeg" |
| `Endpoints.FileNameInjective` | src/main/kotlin/com/example/qrservice/QrController.kt:71-73 | for timestamps of one fixed width, equal file names imply equal timestamps and equal extensions |
| `Endpoints.QrValidationError` | src/main/kotlin/com/example/qrservice/QrController.kt:38-39 | on `/qr`, a validation error gives 400 with the validator's message as a plain-text body, and the encoder has no influence on the response |
| `Endpoints.QrEncoderFailure` | src/main/kotlin/com/example/qrservice/QrController.kt:41-51 | on `/qr`, an encoder failure gives 400 with the body "Failed to generate QR code: " + message |
| `Endpoints.QrSuccessIff` | src/main/kotlin/com/example/qrservice/QrController.kt:38-51 | `/qr` gives 200 if and only if validation passes and the encoder succeeds, and then the body is the encoder's bytes sent as "image/" + type; any other answer is a 400 with a plain-text body, never a 500 |
| `Endpoints.SaveValidationError` | src/main/kotlin/com/example/qrservice/QrController.kt:61-62 | on `/qr/save`, a validation error gives 400 with the validator's message, and no filesystem operation happens |
| `Endpoints.SaveEncoderFailure` | src/main/kotlin/com/example/qrservice/QrController.kt:64-81 | on `/qr/save`, an encoder failure gives 500 with "Failed to save QR code: " + message, and nothing is created or written |
| `Endpoints.SaveStatusAndBody` | src/main/kotlin/com/example/qrservice/QrController.kt:61-81 | after validation, `/qr/save` gives 200 if and only if encoding, directory creation and the write all succeed, with the body "Saved QR code to " + path; any other answer is a 500 whose body starts with "Failed to save QR code: "; a failed directory creation gives exactly that prefix + its message, with only the directory operation performed; a failed write gives exactly that prefix + the write's message |
| `Endpoints.SaveWritesEncodedBytes` | src/main/kotlin/com/example/qrservice/QrController.kt:64-76 | there are at most two filesystem operations; the first creates the `qr` subdirectory of the temporary directory; a write happens only for a validated request whose encoding succeeded, after the directory operation, at the save path, with exactly the encoder's bytes; conversely, once encoding succeeds the directory operation is performed, and once directory creation also succeeds the operations are exactly that creation followed by that write |
| `Endpoints.SameTimestampSamePath` | src/main/kotlin/com/example/qrservice/QrController.kt:71-76 | two successful saves of the same type with the same timestamp write to the same path, whatever their size and contents |
| `Endpoints.SavePathShape` | src/main/kotlin/com/example/qrservice/QrController.kt:68-74 | the save path is the `qr` subdirectory of the temporary directory, then "/", then `qr_<timestamp>.<type>`: the file sits directly inside that subdirectory |
| `Endpoints.QrSampleRequests` | src/main/kotlin/com/example/qrservice/QrController.kt:32-51 | `/qr?size=50` and `/qr?type=bmp` give 400 with the exact messages; `/qr?contents=hello&size=300&type=jpeg` gives 200 with image/jpeg whenever the encoder succeeds |

## Left out

- QR symbology and rasterisation (ZXing `QRCodeWriter.encode` and `MatrixToImageWriter.writeToStream`, `generateQrBytes`): these are foreign library calls. The model takes them as a possibly-failing function from the validated record to bytes. So determinism, the `size × size` pixel size and a decode round trip are not modelled.
- The clock and `DateTimeFormatter` (`yyyyMMdd_HHmmss`): the timestamp is an input string. `FileNameInjective` only assumes that timestamps have one fixed width.
- `System.getProperty("java.io.tmpdir")`, `Files.createDirectories` and `Files.write`: the directory is an input, and the two filesystem calls are possibly-failing functions. A missing `java.io.tmpdir` property is not modelled.
- `JoinPath`: it models `Path.resolve` and `Paths.get` on POSIX paths only. It adds a "/" unless the directory is empty or already ends with one. It does not collapse repeated separators.
- `Ascii.Lowercase`: it models Kotlin's `lowercase()` on ASCII letters only. Full Unicode case mapping can change a string's length, for example U+0130. For the accepted values nothing changes: no non-ASCII character lowercases to any letter of "png" or "jpeg", so both mappings accept the same types.
- Query-string conversion of `size` into Kotlin `Int`: a non-numeric or out-of-range value is refused by the web framework before the controller runs. The model starts from an optional 32-bit integer.
- Spring plumbing is not modelled: `ResponseEntity` and `HttpHeaders` construction, the `Content-Length` header, and the UTF-8 conversion of `badRequest` messages. The `/qr` body of an error response is modelled as its text with media type `text/plain`.
- The `/health` endpoint returns a constant string. Application bootstrap (`QrCodeServiceApplication.kt`) and the build configuration are also not modelled.
- Concurrent requests are independent and share no state. The model treats each request as one function call.
