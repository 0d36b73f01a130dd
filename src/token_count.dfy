/**
 * TokenCounter: a tiktoken encoding when one could be loaded, otherwise the
 * len(text) // 4 estimate. The tiktoken encoding itself is an oracle giving the
 * length of the token sequence of a text.
 */
module TokenCount {
  import opened Wrappers

  /** The token-sequence length of one tiktoken encoding. */
  type Encoding = string -> nat

  const DefaultEncoding: string := "cl100k_base"

  /** _initialize_encoder: the encoding name chosen for a model, and whether a warning is logged. */
  function EncodingFor(modelName: string): (r: (string, bool))
    ensures r.0 == DefaultEncoding
    ensures r.1 <==> !("gpt-4" <= modelName || "gpt-3.5" <= modelName || "o" <= modelName)
  {
    if "gpt-4" <= modelName || "gpt-3.5" <= modelName then (DefaultEncoding, false)
    else if "o" <= modelName then (DefaultEncoding, false)
    else (DefaultEncoding, true)
  }

  /**
   * A token counter: the model it was built for and the encoding that could be
   * loaded, if any (tiktoken.get_encoding can fail, leaving no encoder).
   */
  datatype Counter = Counter(modelName: string, encoder: Option<Encoding>)

  /** _approx_tokens: len(text) // 4. */
  function ApproxTokens(text: string): (n: nat)
    ensures 4 * n <= |text| < 4 * n + 4
  {
    |text| / 4
  }

  /** count_tokens: 0 for the empty text, else the encoder's count or the estimate. */
  function CountTokens(c: Counter, text: string): (n: nat)
    ensures text == "" ==> n == 0
    ensures c.encoder.None? ==> 4 * n <= |text| < 4 * n + 4
  {
    if text == "" then 0
    else match c.encoder
      case Some(enc) => enc(text)
      case None => ApproxTokens(text)
  }

  /** The estimate of a concatenation is at least the sum of the parts' estimates. */
  lemma {:induction false} ApproxTokensSuperadditive(a: string, b: string)
    ensures ApproxTokens(a) + ApproxTokens(b) <= ApproxTokens(a + b)
  {
  }
}
