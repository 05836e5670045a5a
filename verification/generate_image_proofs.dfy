/** Properties of the image-generation tool: what the request carries,
    how the reply is searched, and which replies fail. */
module GenerateImageProofs {
  import opened Results
  import opened Json
  import opened Decimal
  import opened GenerateImage
  import BananaProvider

  // ---------------------------------------------------------------------
  // The request

  /** The instruction text carries the prompt, the width, the height and
      the quality unchanged. */
  lemma PromptTextEmbeds(prompt: string, width: int, height: int, quality: string)
    ensures var t := PromptText(prompt, width, height, quality);
      && IsSubstring(prompt, t) && IsSubstring(IntToString(width), t)
      && IsSubstring(IntToString(height), t) && IsSubstring(quality, t)
  {
    EvenPiecesEmbedded(PromptLead, prompt, SizeLead, IntToString(width), "x", IntToString(height), QualityLead, quality);
  }

  /** Each of the pieces 2, 4, 6 and 8 occurs in the concatenation of eight. */
  lemma EvenPiecesEmbedded(s1: string, s2: string, s3: string, s4: string, s5: string, s6: string, s7: string, s8: string)
    ensures var t := s1 + s2 + s3 + s4 + s5 + s6 + s7 + s8;
      && IsSubstring(s2, t) && IsSubstring(s4, t) && IsSubstring(s6, t) && IsSubstring(s8, t)
  {
    var t := s1 + s2 + s3 + s4 + s5 + s6 + s7 + s8;
    SubstringOfConcat(s2, s1, s3 + s4 + s5 + s6 + s7 + s8);
    assert t == s1 + s2 + (s3 + s4 + s5 + s6 + s7 + s8);
    SubstringOfConcat(s4, s1 + s2 + s3, s5 + s6 + s7 + s8);
    assert t == (s1 + s2 + s3) + s4 + (s5 + s6 + s7 + s8);
    SubstringOfConcat(s6, s1 + s2 + s3 + s4 + s5, s7 + s8);
    assert t == (s1 + s2 + s3 + s4 + s5) + s6 + (s7 + s8);
    SubstringOfConcat(s8, s1 + s2 + s3 + s4 + s5 + s6 + s7, []);
    assert t == (s1 + s2 + s3 + s4 + s5 + s6 + s7) + s8 + [];
  }

  lemma XAtLeftLength(a: string, b: string, c: string, d: string)
    requires a + "x" + b == c + "x" + d
    requires |a| < |c|
    ensures c[|a|] == 'x'
  {
    var s := a + "x" + b;
    assert s[|a|] == 'x';
    assert s[|a|] == (c + "x" + d)[|a|];
  }

  /** Splitting at the first 'x' is unambiguous when the left halves hold none. */
  lemma {:induction false} SplitAtX(a: string, b: string, c: string, d: string)
    requires 'x' !in a && 'x' !in c
    requires a + "x" + b == c + "x" + d
    ensures a == c && b == d
  {
    var s := a + "x" + b;
    if |a| < |c| {
      XAtLeftLength(a, b, c, d);
      assert false;
    } else if |c| < |a| {
      XAtLeftLength(c, d, a, b);
      assert false;
    }
    assert a == s[..|a|] == c;
    assert b == s[|a| + 1..] == d;
  }

  lemma NoXInIntToString(n: int)
    ensures 'x' !in IntToString(n)
  {
  }

  lemma PromptTextSplit(prompt: string, width: int, height: int, quality: string)
    ensures PromptText(prompt, width, height, quality)
            == (PromptLead + prompt + SizeLead) + (IntToString(width) + "x" + IntToString(height)) + (QualityLead + quality)
  {
  }

  lemma CancelAround(l: string, m1: string, m2: string, r: string)
    requires l + m1 + r == l + m2 + r
    ensures m1 == m2
  {
    var s := l + m1 + r;
    assert m1 == s[|l|..|l| + |m1|];
    assert m2 == s[|l|..|l| + |m2|];
  }

  /** For a given prompt and quality, the request text determines the width
      and the height: nothing is lost on the way into the request. */
  lemma PromptTextDeterminesSize(prompt: string, quality: string, w1: int, h1: int, w2: int, h2: int)
    requires PromptText(prompt, w1, h1, quality) == PromptText(prompt, w2, h2, quality)
    ensures w1 == w2 && h1 == h2
  {
    PromptTextSplit(prompt, w1, h1, quality);
    PromptTextSplit(prompt, w2, h2, quality);
    CancelAround(PromptLead + prompt + SizeLead,
                 IntToString(w1) + "x" + IntToString(h1),
                 IntToString(w2) + "x" + IntToString(h2),
                 QualityLead + quality);
    NoXInIntToString(w1);
    NoXInIntToString(w2);
    SplitAtX(IntToString(w1), IntToString(h1), IntToString(w2), IntToString(h2));
    IntToStringInjective(w1, w2);
    IntToStringInjective(h1, h2);
  }

  /** Read back with Python's own operators, the body holds one content
      with one text part carrying the instruction text, and asks for the
      "Text" and "Image" response modalities. */
  lemma RequestBodyShape(prompt: string, width: int, height: int, model: string, apiKey: string, quality: string)
    ensures var body := BuildRequest(prompt, width, height, model, apiKey, quality).body;
      && body.JObject? && body.members.Keys == {"contents", "generationConfig"}
      && GetItem(body, "contents").Ok? && Len(GetItem(body, "contents").value) == Ok(1)
      && var content := First(GetItem(body, "contents").value);
      && content.Ok? && GetItem(content.value, "parts").Ok?
      && var parts := GetItem(content.value, "parts").value;
      && Len(parts) == Ok(1) && First(parts).Ok?
      && GetItem(First(parts).value, "text") == Ok(JString(PromptText(prompt, width, height, quality)))
      && GetItem(body, "generationConfig").Ok?
      && GetItem(GetItem(body, "generationConfig").value, "responseModalities")
         == Ok(JArray([JString("Text"), JString("Image")]))
  {
  }

  // ---------------------------------------------------------------------
  // The loop over the parts

  /** `part` is a dict whose "inlineData" dict has a "data" string that
      decodes to `image`. */
  ghost predicate InlineImage(part: Json, image: Bytes, decode: Base64Decoder) {
    && part.JObject? && "inlineData" in part.members
    && var inline := part.members["inlineData"];
    && inline.JObject? && "data" in inline.members
    && var data := inline.members["data"];
    && data.JString? && decode(data.s) == Ok(image)
  }

  /** Part `k` is the first one that has "inlineData", and it yields `image`. */
  ghost predicate ImageAt(parts: seq<Json>, k: int, image: Bytes, decode: Base64Decoder) {
    && 0 <= k < |parts|
    && (forall j :: 0 <= j < k ==> LacksInline(parts[j]))
    && InlineImage(parts[k], image, decode)
  }

  lemma DecodeInlineOk(part: Json, image: Bytes, decode: Base64Decoder)
    ensures DecodeInline(part, decode) == Ok(image) <==> InlineImage(part, image, decode)
    ensures DecodeInline(part, decode) != Err(NoImageData)
  {
  }

  /** The first part having "inlineData" decides the outcome; the parts
      after it are never looked at. */
  lemma {:induction false} ScanPartsFirstMatch(parts: seq<Json>, k: int, decode: Base64Decoder)
    requires 0 <= k < |parts|
    requires forall j :: 0 <= j < k ==> LacksInline(parts[j])
    requires HasInline(parts[k])
    ensures ScanParts(parts, decode) == DecodeInline(parts[k], decode)
  {
    if k > 0 {
      assert LacksInline(parts[0]);
      ScanPartsFirstMatch(parts[1..], k - 1, decode);
    }
  }

  /** The loop ends in "no image data" exactly when every part answers
      `"inlineData" in part` with False. */
  lemma {:induction false} ScanPartsNoImage(parts: seq<Json>, decode: Base64Decoder)
    ensures ScanParts(parts, decode) == Err(NoImageData)
            <==> forall j :: 0 <= j < |parts| ==> LacksInline(parts[j])
  {
    if parts != [] {
      ScanPartsNoImage(parts[1..], decode);
      DecodeInlineOk(parts[0], [], decode);
      if forall j :: 0 <= j < |parts[1..]| ==> LacksInline(parts[1..][j]) {
        if LacksInline(parts[0]) {
          forall j | 0 <= j < |parts| ensures LacksInline(parts[j]) {
            if j > 0 { assert parts[j] == parts[1..][j - 1]; }
          }
        }
      }
    }
  }

  /** Appending parts changes nothing once a decision has been reached,
      and otherwise hands the decision to the appended parts. */
  lemma {:induction false} ScanPartsAppend(p: seq<Json>, q: seq<Json>, decode: Base64Decoder)
    ensures ScanParts(p + q, decode)
            == if ScanParts(p, decode) == Err(NoImageData) then ScanParts(q, decode) else ScanParts(p, decode)
  {
    if p == [] {
      assert p + q == q;
    } else {
      assert (p + q)[0] == p[0];
      assert (p + q)[1..] == p[1..] + q;
      ScanPartsAppend(p[1..], q, decode);
    }
  }

  /** The loop yields an image exactly when some part is the first with
      "inlineData" and decodes to that image. */
  lemma {:induction false} ScanPartsOk(parts: seq<Json>, image: Bytes, decode: Base64Decoder)
    ensures ScanParts(parts, decode) == Ok(image) <==> exists k :: ImageAt(parts, k, image, decode)
  {
    if exists k :: ImageAt(parts, k, image, decode) {
      var k :| ImageAt(parts, k, image, decode);
      ScanPartsFirstMatch(parts, k, decode);
      DecodeInlineOk(parts[k], image, decode);
    }
    if ScanParts(parts, decode) == Ok(image) {
      assert parts != [];
      match In("inlineData", parts[0])
      case Err(_) =>
      case Ok(true) =>
        DecodeInlineOk(parts[0], image, decode);
        assert ImageAt(parts, 0, image, decode);
      case Ok(false) =>
        ScanPartsOk(parts[1..], image, decode);
        var k :| ImageAt(parts[1..], k, image, decode);
        forall j | 0 <= j < k + 1 ensures LacksInline(parts[j]) {
          if j > 0 { assert parts[j] == parts[1..][j - 1]; }
        }
        assert ImageAt(parts, k + 1, image, decode);
    }
  }

  /** Iterating a string visits one-character strings, none of which can
      contain "inlineData". */
  lemma ScanCharsNoImage(s: string, decode: Base64Decoder)
    ensures ScanParts(Chars(s), decode) == Err(NoImageData)
  {
    var cs := Chars(s);
    forall j | 0 <= j < |cs| ensures LacksInline(cs[j]) {
      NoSubstringOfShorter("inlineData", [s[j]]);
    }
    ScanPartsNoImage(cs, decode);
  }

  // ---------------------------------------------------------------------
  // The extraction

  /** `candidates[0].content.parts` when every step is a dict or a list of
      the expected kind. */
  function FirstCandidateParts(result: Json): Option<seq<Json>> {
    if && result.JObject? && "candidates" in result.members
       && var candidates := result.members["candidates"];
       && candidates.JArray? && candidates.items != []
       && var candidate := candidates.items[0];
       && candidate.JObject? && "content" in candidate.members
       && var content := candidate.members["content"];
       && content.JObject? && "parts" in content.members
       && content.members["parts"].JArray?
    then Some(result.members["candidates"].items[0].members["content"].members["parts"].items)
    else None
  }

  /** Extraction yields an image exactly when the reply has the shape
      `{"candidates": [{"content": {"parts": [...]}}, ...]}` and the first
      part having "inlineData" carries a "data" string that decodes to it;
      every other shape fails. */
  lemma ExtractOkIff(result: Json, image: Bytes, decode: Base64Decoder)
    ensures Extract(result, decode) == Ok(image)
            <==> FirstCandidateParts(result).Some?
                 && exists k :: ImageAt(FirstCandidateParts(result).value, k, image, decode)
  {
    var fcp := FirstCandidateParts(result);
    if fcp.Some? {
      var content := result.members["candidates"].items[0].members["content"];
      assert Extract(result, decode) == ScanIterable(content.members["parts"], decode);
      ScanPartsOk(fcp.value, image, decode);
    } else if Extract(result, decode) == Ok(image) {
      ExtractOkHasShape(result, image, decode);
    }
  }

  lemma ExtractOkHasShape(result: Json, image: Bytes, decode: Base64Decoder)
    requires Extract(result, decode) == Ok(image)
    ensures FirstCandidateParts(result).Some?
  {
    OneCharacterLacksContent();
    AllCharsNoImage(decode);
    assert result.JObject? && "candidates" in result.members;
    var candidates := result.members["candidates"];
    assert candidates.JArray? && candidates.items != [];
    var candidate := candidates.items[0];
    assert candidate.JObject? && "content" in candidate.members;
    var content := candidate.members["content"];
    assert content.JObject? && "parts" in content.members;
  }

  lemma OneCharacterLacksContent()
    ensures forall c: char :: !IsSubstring("content", [c])
  {
    forall c: char ensures !IsSubstring("content", [c]) {
      NoSubstringOfShorter("content", [c]);
    }
  }

  lemma AllCharsNoImage(decode: Base64Decoder)
    ensures forall s :: ScanParts(Chars(s), decode) == Err(NoImageData)
  {
    forall s ensures ScanParts(Chars(s), decode) == Err(NoImageData) {
      ScanCharsNoImage(s, decode);
    }
  }

  /** Each way the reply can miss the expected structure is reported as
      "no image data". */
  lemma ExtractNoImageDataCases(members: map<string, Json>, decode: Base64Decoder)
    ensures "candidates" !in members ==> Extract(JObject(members), decode) == Err(NoImageData)
    ensures "candidates" in members && members["candidates"] == JArray([])
            ==> Extract(JObject(members), decode) == Err(NoImageData)
    ensures "candidates" in members && members["candidates"].JArray? && members["candidates"].items != []
            && members["candidates"].items[0].JObject?
            && "content" !in members["candidates"].items[0].members
            ==> Extract(JObject(members), decode) == Err(NoImageData)
    ensures "candidates" in members && members["candidates"].JArray? && members["candidates"].items != []
            && members["candidates"].items[0].JObject?
            && "content" in members["candidates"].items[0].members
            && members["candidates"].items[0].members["content"].JObject?
            && "parts" !in members["candidates"].items[0].members["content"].members
            ==> Extract(JObject(members), decode) == Err(NoImageData)
    ensures FirstCandidateParts(JObject(members)).Some?
            && (forall j :: 0 <= j < |FirstCandidateParts(JObject(members)).value|
                  ==> LacksInline(FirstCandidateParts(JObject(members)).value[j]))
            ==> Extract(JObject(members), decode) == Err(NoImageData)
  {
    var fcp := FirstCandidateParts(JObject(members));
    if fcp.Some? {
      ScanPartsNoImage(fcp.value, decode);
    }
  }

  /** Only the first candidate is consulted. */
  lemma ExtractIgnoresLaterCandidates(members: map<string, Json>, first: Json, rest: seq<Json>, decode: Base64Decoder)
    ensures Extract(JObject(members["candidates" := JArray([first] + rest)]), decode)
            == Extract(JObject(members["candidates" := JArray([first])]), decode)
  {
  }

  /** Within the first candidate, parts after the first one carrying
      "inlineData" are ignored. */
  lemma ExtractIgnoresLaterParts(parts: seq<Json>, k: int, more: seq<Json>, decode: Base64Decoder)
    requires 0 <= k < |parts|
    requires forall j :: 0 <= j < k ==> LacksInline(parts[j])
    requires HasInline(parts[k])
    ensures ScanParts(parts[..k + 1] + more, decode) == DecodeInline(parts[k], decode)
  {
    var p := parts[..k + 1];
    ScanPartsFirstMatch(p, k, decode);
    ScanPartsAppend(p, more, decode);
    DecodeInlineOk(parts[k], [], decode);
  }

  // ---------------------------------------------------------------------
  // The status check

  /** A status other than 200 fails with an error whose text holds the
      status code and the body, whatever the body would have parsed to. */
  lemma StatusCheckComesFirst(status: int, text: string, json1: Result<Json, string>, json2: Result<Json, string>, decode: Base64Decoder)
    requires status != 200
    ensures var r := HandleResponse(HttpResponse(status, text, json1), decode);
      && r == HandleResponse(HttpResponse(status, text, json2), decode)
      && r.Err? && r.error.ApiRequestFailed?
      && IsSubstring(IntToString(status), Describe(r.error))
      && IsSubstring(text, Describe(r.error))
  {
    var code := IntToString(status);
    var d := ApiFailurePrefix + code + " - " + text;
    SubstringOfConcat(code, ApiFailurePrefix, " - " + text);
    assert d == ApiFailurePrefix + code + (" - " + text);
    SubstringOfConcat(text, ApiFailurePrefix + code + " - ", "");
    assert d == (ApiFailurePrefix + code + " - ") + text + "";
  }

  // ---------------------------------------------------------------------
  // Credentials

  /** The tool reads `api_key` while the provider checks `gemini_api_key`:
      each check can pass while the other refuses. */
  lemma CredentialChecksAreSeparate()
    ensures var onlyGemini := map[BananaProvider.GeminiApiKey := "k"];
      BananaProvider.ValidateCredentials(onlyGemini).Pass? && ApiKey(onlyGemini) == ""
    ensures var onlyTool := map[ApiKeyCredential := "k"];
      BananaProvider.ValidateCredentials(onlyTool).Fail? && ApiKey(onlyTool) == "k"
  {
  }
}
