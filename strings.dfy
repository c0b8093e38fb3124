/** Rust's `str::trim_matches('"')`: every leading and every trailing double quote is removed. */
module Strings {

  const Quote: char := '"'

  function TrimStartQuotes(s: string): (r: string)
    ensures |r| <= |s| && r == s[|s| - |r|..]
    ensures forall k :: 0 <= k < |s| - |r| ==> s[k] == Quote
    ensures r == [] || r[0] != Quote
  {
    if |s| > 0 && s[0] == Quote then TrimStartQuotes(s[1..]) else s
  }

  function TrimEndQuotes(s: string): (r: string)
    ensures |r| <= |s| && r == s[..|r|]
    ensures forall k :: |r| <= k < |s| ==> s[k] == Quote
    ensures r == [] || r[|r| - 1] != Quote
  {
    if |s| > 0 && s[|s| - 1] == Quote then TrimEndQuotes(s[..|s| - 1]) else s
  }

  /** `r` is the piece of `s` starting at `i`, and everything around it in `s` is quotes. */
  predicate QuotesAround(s: string, i: int, r: string) {
    && 0 <= i <= |s| - |r|
    && r == s[i..i + |r|]
    && (forall k :: 0 <= k < i ==> s[k] == Quote)
    && (forall k :: i + |r| <= k < |s| ==> s[k] == Quote)
  }

  /**
   * The result is the middle part of `s` that neither starts nor ends with a quote,
   * and everything cut off on either side is quotes.
   */
  function TrimQuotes(s: string): (r: string)
    ensures exists i :: QuotesAround(s, i, r)
    ensures r == [] || (r[0] != Quote && r[|r| - 1] != Quote)
  {
    var front := TrimStartQuotes(s);
    var r := TrimEndQuotes(front);
    var i := |s| - |front|;
    assert QuotesAround(s, i, r);
    r
  }

  /** Trimming a second time changes nothing. */
  lemma TrimQuotesIdempotent(s: string)
    ensures TrimQuotes(TrimQuotes(s)) == TrimQuotes(s)
  {
    var t := TrimQuotes(s);
    NoQuotesAtEnds(t);
  }

  /** A string that neither starts nor ends with a quote is left as it is. */
  lemma NoQuotesAtEnds(t: string)
    requires t == [] || (t[0] != Quote && t[|t| - 1] != Quote)
    ensures TrimQuotes(t) == t
  {
  }
}
