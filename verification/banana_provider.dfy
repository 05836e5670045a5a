/** The plugin's credential guard (`BananaProvider._validate_credentials`):
    the host calls it before the plugin is activated, and it refuses any
    configuration whose `gemini_api_key` is missing or empty. */
module BananaProvider {

  const GeminiApiKey := "gemini_api_key"
  const MissingKeyMessage := "Gemini API Key is required"

  /** The exception the guard raises. */
  datatype ValidationError = ValueError(message: string)

  /** Returning normally, or raising. */
  datatype Validation = Pass | Fail(error: ValidationError)

  /** Python's truthiness of `credentials.get(key)` for string values:
      falsy when the key is absent (None) or maps to the empty string. */
  predicate HasTruthy(credentials: map<string, string>, key: string) {
    key in credentials && credentials[key] != ""
  }

  /** Raises `ValueError("Gemini API Key is required")` exactly when
      `gemini_api_key` is absent or empty; no other key is consulted. */
  function ValidateCredentials(credentials: map<string, string>): (r: Validation)
    ensures r.Pass? <==> GeminiApiKey in credentials && credentials[GeminiApiKey] != ""
    ensures r.Fail? ==> r.error == ValueError(MissingKeyMessage)
  {
    if !HasTruthy(credentials, GeminiApiKey) then Fail(ValueError(MissingKeyMessage)) else Pass
  }

  /** Two credential sets that agree on `gemini_api_key` are judged alike,
      whatever else they hold. */
  lemma OnlyGeminiKeyMatters(c1: map<string, string>, c2: map<string, string>)
    requires (GeminiApiKey in c1) == (GeminiApiKey in c2)
    requires GeminiApiKey in c1 ==> c1[GeminiApiKey] == c2[GeminiApiKey]
    ensures ValidateCredentials(c1) == ValidateCredentials(c2)
  {
  }
}
