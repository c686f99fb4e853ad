/**
 * Ticker normalisation: the form field is passed through `str.upper()` and
 * then `str.strip()` before it is used as a portfolio key.
 */
module Tickers {

  /** The characters `str.isspace()` accepts, which `str.strip()` with no argument removes. */
  predicate IsSpace(c: char)
  {
    || c == ' '
    || ('\t' <= c <= '\r')
    || ('\U{1C}' <= c <= '\U{1F}')
    || c == '\U{85}'
    || c == '\U{A0}'
    || c == '\U{1680}'
    || ('\U{2000}' <= c <= '\U{200A}')
    || c == '\U{2028}'
    || c == '\U{2029}'
    || c == '\U{202F}'
    || c == '\U{205F}'
    || c == '\U{3000}'
  }

  predicate IsLower(c: char)
  {
    'a' <= c <= 'z'
  }

  predicate AllSpace(s: string)
  {
    forall i :: 0 <= i < |s| ==> IsSpace(s[i])
  }

  predicate NoLower(s: string)
  {
    forall i :: 0 <= i < |s| ==> !IsLower(s[i])
  }

  /** Neither the first nor the last character is whitespace. */
  predicate Bare(s: string)
  {
    s == [] || (!IsSpace(s[0]) && !IsSpace(s[|s| - 1]))
  }

  /** What a normalised ticker looks like: already upper case and already trimmed. */
  predicate IsNormalized(s: string)
  {
    NoLower(s) && Bare(s)
  }

  /** `str.upper()` on one character (ASCII letters only). */
  function UpperChar(c: char): (u: char)
    ensures !IsLower(u)
    ensures IsSpace(u) == IsSpace(c)
    ensures IsLower(c) ==> u as int == c as int - 32
    ensures !IsLower(c) ==> u == c
  {
    if IsLower(c) then (c as int - 32) as char else c
  }

  /** `str.upper()`: every character mapped through UpperChar, nothing else changed. */
  function Upper(s: string): (r: string)
    ensures |r| == |s|
    ensures forall i :: 0 <= i < |s| ==> r[i] == UpperChar(s[i])
    ensures NoLower(r)
  {
    seq(|s|, i requires 0 <= i < |s| => UpperChar(s[i]))
  }

  /** Upper case is a fixed point of `str.upper()`. */
  lemma UpperOfNoLower(s: string)
    requires NoLower(s)
    ensures Upper(s) == s
  {
  }

  /** How many whitespace characters `s` starts with. */
  function LeadingSpace(s: string): (n: nat)
    ensures n <= |s|
    ensures AllSpace(s[..n])
    ensures n == |s| || !IsSpace(s[n])
  {
    if |s| > 0 && IsSpace(s[0]) then
      var n := 1 + LeadingSpace(s[1..]);
      assert forall k :: 0 < k < n ==> s[k] == s[1..][k - 1];
      n
    else 0
  }

  /** How many whitespace characters `s` ends with. */
  function TrailingSpace(s: string): (n: nat)
    ensures n <= |s|
    ensures AllSpace(s[|s| - n..])
    ensures n == |s| || !IsSpace(s[|s| - 1 - n])
  {
    if |s| > 0 && IsSpace(s[|s| - 1]) then
      var n := 1 + TrailingSpace(s[..|s| - 1]);
      assert forall k :: |s| - n <= k < |s| - 1 ==> s[k] == s[..|s| - 1][k];
      n
    else 0
  }

  /**
   * `str.strip()`: the result is the piece of `s` between its leading and its
   * trailing whitespace, and it neither starts nor ends with whitespace.
   */
  function Strip(s: string): (r: string)
    ensures Bare(r)
    ensures var i := LeadingSpace(s);
      i + |r| <= |s| && r == s[i..i + |r|] && AllSpace(s[..i]) && AllSpace(s[i + |r|..])
  {
    var i := LeadingSpace(s);
    var rest := s[i..];
    var n := TrailingSpace(rest);
    var r := rest[..|rest| - n];
    assert r == s[i..i + |r|];
    assert s[i + |r|..] == rest[|rest| - n..];
    assert r != [] ==> r[0] == s[i] && r[|r| - 1] == rest[|rest| - 1 - n];
    r
  }

  /** A string that is already trimmed is what `str.strip()` returns for it. */
  lemma StripOfBare(s: string)
    requires Bare(s)
    ensures Strip(s) == s
  {
  }

  /** Trimming removes characters only, so it cannot introduce a lower-case letter. */
  lemma StripKeepsNoLower(s: string)
    requires NoLower(s)
    ensures NoLower(Strip(s))
  {
  }

  /** Upper-casing keeps whitespace where it is, so a run of it in `Upper(raw)` is one in `raw`. */
  lemma SpaceThroughUpper(raw: string, u: string, lo: nat, hi: nat)
    requires u == Upper(raw)
    requires lo <= hi <= |raw|
    requires AllSpace(u[lo..hi])
    ensures AllSpace(raw[lo..hi])
  {
    forall k | 0 <= k < hi - lo ensures IsSpace(raw[lo..hi][k]) {
      assert u[lo..hi][k] == u[lo + k] == UpperChar(raw[lo + k]);
    }
  }

  /** A slice of `Upper(raw)` is the upper-cased slice of `raw` at the same place. */
  lemma MiddleThroughUpper(raw: string, u: string, t: string, i: nat)
    requires u == Upper(raw)
    requires i + |t| <= |u| && t == u[i..i + |t|]
    ensures forall k :: 0 <= k < |t| ==> t[k] == UpperChar(raw[i + k])
  {
    forall k | 0 <= k < |t| ensures t[k] == UpperChar(raw[i + k]) {
      assert u[i..i + |t|][k] == u[i + k];
    }
  }

  /** Where the stripped, upper-cased text sits in the raw input. */
  lemma UpperedMiddle(raw: string)
    ensures var t := Strip(Upper(raw));
      var i := LeadingSpace(Upper(raw));
      && i + |t| <= |raw|
      && AllSpace(raw[..i])
      && AllSpace(raw[i + |t|..])
      && forall k :: 0 <= k < |t| ==> t[k] == UpperChar(raw[i + k])
  {
    var u := Upper(raw);
    var t := Strip(u);
    var i := LeadingSpace(u);
    assert u[..i] == u[0..i] && raw[..i] == raw[0..i];
    SpaceThroughUpper(raw, u, 0, i);
    assert u[i + |t|..] == u[i + |t|..|u|] && raw[i + |t|..] == raw[i + |t|..|raw|];
    SpaceThroughUpper(raw, u, i + |t|, |raw|);
    MiddleThroughUpper(raw, u, t, i);
  }

  /**
   * `request.form["ticker"].upper().strip()`: the upper-cased middle of `raw`,
   * between a leading and a trailing run of whitespace.
   */
  function Normalize(raw: string): (t: string)
    ensures IsNormalized(t)
    ensures |t| <= |raw|
    ensures var i := LeadingSpace(Upper(raw));
      && i + |t| <= |raw|
      && AllSpace(raw[..i])
      && AllSpace(raw[i + |t|..])
      && forall k :: 0 <= k < |t| ==> t[k] == UpperChar(raw[i + k])
  {
    var u := Upper(raw);
    StripKeepsNoLower(u);
    UpperedMiddle(raw);
    Strip(u)
  }

  /** Normalised tickers are exactly the fixed points of Normalize. */
  lemma NormalizedIffFixed(t: string)
    ensures IsNormalized(t) <==> Normalize(t) == t
  {
  }

  /** Normalising twice is normalising once. */
  lemma NormalizeIdempotent(raw: string)
    ensures Normalize(Normalize(raw)) == Normalize(raw)
  {
  }

  /** A lower-case ticker typed with surrounding blanks becomes the stored key. */
  lemma NormalizeExample()
    ensures Normalize(" aapl\n") == "AAPL"
  {
    var u := Upper(" aapl\n");
    assert u == " AAPL\n";
    assert LeadingSpace(u) == 1;
    assert TrailingSpace(u[1..]) == 1;
  }
}
