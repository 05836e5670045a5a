# Banana image-generation plugin: a Dafny model

This project models the core of a Dify plugin that exposes Gemini image
generation as a tool. It covers two pieces:

- **The provider's credential guard** (`BananaProvider._validate_credentials`).
  It raises `ValueError("Gemini API Key is required")` when `gemini_api_key` is
  absent or empty.
- **The tool** (`GenerateImageTool`). `_invoke` reads five parameters with
  defaults and refuses to run without an `api_key` credential. It then calls
  `_call_api` and yields exactly one message: a PNG blob, or a failure text.
  `_call_api` builds the request (URL, headers, JSON body) and posts it. A
  status other than 200 becomes an error. Otherwise it searches the JSON reply
  for the first part of the first candidate that carries `inlineData`, and
  base64-decodes that part's `data`.

Modules:

- `Results`: `Option` and `Result`.
- `Json`: the parsed JSON value (dict, list, str, int, float, bool, None).
  It also defines the Python operators the tool applies to that value: `in`,
  `[key]`, `len`, `[0]` and substring tests. Each operator raises what Python
  raises when the value has the wrong kind. So a reply of an unexpected shape
  fails here the way it fails in Python.
- `Decimal`: Python's `str(int)`, used for width, height and status code. A
  parser beside it proves the rendering loses nothing.
- `BananaProvider`: the credential guard.
- `GenerateImage`: parameters, request building, reply handling, extraction
  and the `Invoke` method.
- `GenerateImageProofs`: lemmas about the request, the search over parts, the
  extraction, the status check and the two credential checks.

The HTTP server and the base64 decoder are parameters of the model
(`Server`, `Base64Decoder`). `Invoke` returns the list of requests it sent,
as well as the messages it yielded. "No HTTP call" is therefore stated as
`sent == []`.

The tool takes width and height directly, as parameters defaulting to 1024.
It sends them unchanged in the request text and the blob metadata. It yields
no progress message, and an empty prompt is sent as it is.

## Model

| member | source | states |
|---|---|---|
| `BananaProvider.ValidateCredentials` | provider/banana.py:5-10 | passes exactly when `gemini_api_key` is present and non-empty; otherwise fails with `ValueError` carrying the fixed text "Gemini API Key is required" |
| `BananaProvider.OnlyGeminiKeyMatters` | provider/banana.py:9 | two credential maps that agree on `gemini_api_key` get the same verdict, whatever their other keys |
| `Decimal.IntToString` | tools/generate_image.py:87 | `str(n)` is non-empty, starts with '-' exactly for negatives, otherwise holds only digits, and has no leading zero (after the sign) unless it is "0" |
| `Decimal.IntToStringRoundTrip` | tools/generate_image.py:87 | parsing the text of an integer gives back that integer |
| `Decimal.IntToStringInjective` | tools/generate_image.py:110 | different integers (e.g. status codes) have different texts |
| `GenerateImage.ReadSettings` | tools/generate_image.py:28-32 | each parameter is the given value when present; otherwise prompt "", width 1024, height 1024, model "gemini-2.0-flash-exp-image-generation", quality "2k" |
| `GenerateImage.BuildRequest` | tools/generate_image.py:98-104 | the model can be read back from the URL; the headers are exactly `Content-Type: application/json` and `x-goog-api-key` equal to the API key |
| `GenerateImage.Invoke` | tools/generate_image.py:16-56 | exactly one message every time; at most one request. With `api_key` absent or empty: no request and the fixed missing-key text. Otherwise: the request built from the defaulted parameters; a PNG blob carrying the bytes and the unchanged width and height when `_call_api` succeeds; otherwise a text with the failure prefix and the error's text, and no blob |
| `GenerateImageProofs.PromptTextEmbeds` | tools/generate_image.py:87 | the instruction text contains the prompt, the width, the height and the quality |
| `GenerateImageProofs.PromptTextDeterminesSize` | tools/generate_image.py:87 | for a fixed prompt and quality, equal instruction texts imply equal width and height |
| `GenerateImageProofs.RequestBodyShape` | tools/generate_image.py:82-95 | read with Python's operators, the body has one content with one part whose `text` is the instruction text, and `responseModalities` is `["Text", "Image"]` |
| `GenerateImageProofs.DecodeInlineOk` | tools/generate_image.py:120-123 | decoding a part succeeds exactly when it is a dict whose `inlineData` dict has a `data` string that the decoder accepts; it never reports "no image data" |
| `GenerateImageProofs.ScanPartsFirstMatch` | tools/generate_image.py:119-123 | the first part having `inlineData` decides the result; parts after it are not looked at |
| `GenerateImageProofs.ScanPartsNoImage` | tools/generate_image.py:119-125 | the search ends in "no image data" exactly when every part answers `"inlineData" in part` with False |
| `GenerateImageProofs.ScanPartsAppend` | tools/generate_image.py:119-125 | appending parts keeps any decision already reached; with no decision, the appended parts decide |
| `GenerateImageProofs.ScanPartsOk` | tools/generate_image.py:119-123 | the search returns an image exactly when some part is the first with `inlineData` and its `data` decodes to that image |
| `GenerateImageProofs.ScanCharsNoImage` | tools/generate_image.py:119-120 | when `parts` is a string, the loop visits one-character strings and ends in "no image data" |
| `GenerateImageProofs.ExtractOkHasShape` | tools/generate_image.py:116-125 | extraction succeeds only on a reply whose path `candidates[0].content.parts` goes through a dict, a non-empty list, a dict, a dict and a list |
| `GenerateImageProofs.ExtractOkIff` | tools/generate_image.py:116-125 | extraction yields an image exactly when that path exists and the first part with `inlineData` decodes to the image; every other reply fails |
| `GenerateImageProofs.ExtractNoImageDataCases` | tools/generate_image.py:116-125 | "no image data" when `candidates` is missing or empty, when the first candidate has no `content`, when the content has no `parts`, or when no part has `inlineData` |
| `GenerateImageProofs.ExtractIgnoresLaterCandidates` | tools/generate_image.py:116-117 | candidates after the first do not change the result |
| `GenerateImageProofs.ExtractIgnoresLaterParts` | tools/generate_image.py:119-123 | parts after the first one with `inlineData` do not change the result |
| `GenerateImageProofs.StatusCheckComesFirst` | tools/generate_image.py:109-113 | a status other than 200 fails with an API-request error whose text contains the status code and the body; what the body would parse to makes no difference |
| `GenerateImageProofs.CredentialChecksAreSeparate` | tools/generate_image.py:35-37 | the tool's `api_key` and the provider's `gemini_api_key` are independent: either check can pass while the other refuses |

`ValidateCredentials` is a function, so it has no side effects. Calling it
again on the same credentials gives the same outcome; no lemma is needed for
that.

## Left out

- The HTTP POST (`requests.post`) is the `Server` parameter. Timeouts,
  retries and the JSON encoding of the body on the wire are not modelled. The
  body is modelled as a JSON value, not as text.
- Parsing the reply (`response.json()`) is not modelled. `HttpOutcome`
  carries the parsed value or the parser's error text.
- `base64.b64decode` is the `Base64Decoder` parameter. Its leniency rules are
  not modelled. A `data` value that is not a string raises TypeError, as in
  Python.
- The host framework (`Tool`, `ToolProvider`, message constructors,
  `self.runtime.credentials`) is not modelled. Messages are the `Message`
  datatype, and credentials are a map from strings to strings. Credential
  values that are not strings (such as None) are not modelled.
- Tool parameter values are taken as typed: a parameter is either absent
  (`None` in `ToolParameters`) or present with a string or integer value. A
  key present with a null value, which `dict.get` returns as None and the
  f-strings render as "None", is not modelled.
- The `int(...)` conversion of width and height is not modelled. It sits
  outside the `try`. Width and height are taken as integers.
- `_invoke`'s `user_id`, `conversation_id`, `app_id` and `message_id` are
  unused by the code and left out.
- `GenerateImage.Describe`: Python's TypeError messages are replaced by the
  fixed text "TypeError", and IndexError by "index out of range". Python's
  exact wording depends on the interpreter version.
- A JSON float is kept as a decimal mantissa and exponent. Its value is never
  used by the tool.
- A JSON object is a map, so the order of its keys is lost. The tool only
  iterates over keys when `parts` is a dict. In that case the outcome does not
  depend on the order: TypeError if some key contains "inlineData", otherwise
  "no image data".
