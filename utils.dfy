/** The string helpers of the shared utility module: capitalising a word,
    shortening a sentence, and the symbol of a currency code. */
module Utils {
  import JsString

  /** `returnCapitalize(text)`: the empty string stays empty; otherwise the
      first character is upper-cased and the rest lower-cased. */
  function ReturnCapitalize(text: string): (r: string)
    ensures |r| == |text|
    ensures text != "" ==> r[0] == JsString.UpperChar(text[0])
    ensures forall i | 1 <= i < |text| :: r[i] == JsString.LowerChar(text[i])
  {
    if text == "" then "" else [JsString.UpperChar(text[0])] + JsString.ToLower(text[1..])
  }

  /** Capitalising twice is capitalising once. */
  lemma CapitalizeIdempotent(text: string)
    ensures ReturnCapitalize(ReturnCapitalize(text)) == ReturnCapitalize(text)
  {
    var r := ReturnCapitalize(text);
    var rr := ReturnCapitalize(r);
    if text != "" {
      assert JsString.UpperChar(JsString.UpperChar(text[0])) == JsString.UpperChar(text[0]);
      forall i | 1 <= i < |text| ensures rr[i] == r[i] {
        assert JsString.LowerChar(JsString.LowerChar(text[i])) == JsString.LowerChar(text[i]);
      }
    }
  }

  /** The marker appended to a shortened sentence. */
  const Ellipsis: string := "..."

  /** `truncateSentence(str, char)`: a string longer than `limit` keeps its
      first `limit` characters (none for a negative limit, as `substring`
      clamps it) followed by "..."; any other string is returned as is. */
  function TruncateSentence(s: string, limit: int): (r: string)
    ensures |s| <= limit ==> r == s
    ensures |s| > limit ==> |r| == (if limit < 0 then 0 else limit) + |Ellipsis|
    ensures |s| > limit ==> r[..|r| - |Ellipsis|] == s[..|r| - |Ellipsis|] && r[|r| - |Ellipsis|..] == Ellipsis
  {
    if |s| > limit then
      var keep := if limit < 0 then 0 else limit;
      s[..keep] + Ellipsis
    else s
  }

  /** For a non-negative limit a shortened sentence is not shortened again:
      its length is already past the limit, and its first `limit`
      characters are the same ones. */
  lemma TruncateIdempotent(s: string, limit: nat)
    ensures TruncateSentence(TruncateSentence(s, limit), limit) == TruncateSentence(s, limit)
  {
    var r := TruncateSentence(s, limit);
    if |s| > limit {
      assert r[..limit] == s[..limit];
    }
  }

  /** The fixed symbol table of `getCurrencySymbol`. */
  const CurrencySymbols: map<string, string> := map[
    "USD" := "$",
    "EUR" := "€",
    "GBP" := "£",
    "INR" := "₹",
    "AED" := "د.إ"]

  /** `getCurrencySymbol(code)`: the symbol of a known code, otherwise the
      code itself. */
  function CurrencySymbol(code: string): (r: string)
    ensures code in CurrencySymbols ==> r == CurrencySymbols[code]
    ensures code !in CurrencySymbols ==> r == code
  {
    if code in CurrencySymbols && CurrencySymbols[code] != "" then CurrencySymbols[code] else code
  }

  /** A code is replaced exactly when it is one of the five known ones: no
      symbol is itself a code. */
  lemma SymbolChangesOnlyKnownCodes(code: string)
    ensures CurrencySymbol(code) != code <==> code in CurrencySymbols
  {
    if code in CurrencySymbols {
      assert code == "USD" || code == "EUR" || code == "GBP" || code == "INR" || code == "AED";
    }
  }
}
