/**
 * The title clean-up applied when a generated title arrives
 * (`data.response.trim().replace(/["']/g, '')`), written over `string`.
 */
module Text {

  /** The code points JavaScript's `trim` removes: WhiteSpace and LineTerminator. */
  predicate IsWhitespace(c: char)
  {
    || c == '\t' || c == '\U{000B}' || c == '\U{000C}' || c == ' '
    || c == '\U{00A0}' || c == '\U{FEFF}' || c == '\U{1680}'
    || ('\U{2000}' <= c <= '\U{200A}')
    || c == '\U{202F}' || c == '\U{205F}' || c == '\U{3000}'
    || c == '\n' || c == '\r' || c == '\U{2028}' || c == '\U{2029}'
  }

  /** The characters matched by the character class `["']`. */
  predicate IsQuote(c: char)
  {
    c == '"' || c == '\''
  }

  predicate QuoteFree(s: string)
  {
    forall i :: 0 <= i < |s| ==> !IsQuote(s[i])
  }

  /** `sub` occurs in `s` starting at position `i`. */
  predicate OccursAt(s: string, sub: string, i: nat)
  {
    i + |sub| <= |s| && s[i..i + |sub|] == sub
  }

  /** `sub` occurs in `s` as a contiguous run of characters. */
  predicate Contains(s: string, sub: string)
  {
    exists i: nat | i <= |s| :: OccursAt(s, sub, i)
  }

  /** Length of the longest whitespace prefix. */
  function LeadingWhitespace(s: string): (n: nat)
    ensures n <= |s|
    ensures forall k :: 0 <= k < n ==> IsWhitespace(s[k])
    ensures n < |s| ==> !IsWhitespace(s[n])
  {
    if s != [] && IsWhitespace(s[0]) then 1 + LeadingWhitespace(s[1..]) else 0
  }

  /** Where the longest whitespace suffix starts. */
  function TrailingStart(s: string): (n: nat)
    ensures n <= |s|
    ensures forall k :: n <= k < |s| ==> IsWhitespace(s[k])
    ensures 0 < n ==> !IsWhitespace(s[n - 1])
  {
    if s != [] && IsWhitespace(s[|s| - 1]) then TrailingStart(s[..|s| - 1]) else |s|
  }

  /**
   * `String.prototype.trim`: the result is the slice of `s` between its
   * whitespace prefix and its whitespace suffix, and it neither starts nor
   * ends with whitespace, so both removed runs are maximal.
   */
  function Trim(s: string): (r: string)
    ensures var i := LeadingWhitespace(s);
      && i + |r| <= |s|
      && r == s[i..i + |r|]
      && (forall k :: 0 <= k < i ==> IsWhitespace(s[k]))
      && (forall k :: i + |r| <= k < |s| ==> IsWhitespace(s[k]))
    ensures r != [] ==> !IsWhitespace(r[0]) && !IsWhitespace(r[|r| - 1])
  {
    var i, j := LeadingWhitespace(s), TrailingStart(s);
    if j <= i then [] else s[i..j]
  }

  /** Trimming twice is trimming once. */
  lemma TrimIdempotent(s: string)
    ensures Trim(Trim(s)) == Trim(s)
  {
    var t := Trim(s);
    if t != [] {
      assert LeadingWhitespace(t) == 0;
      assert TrailingStart(t) == |t|;
    }
  }

  /** `replace(/["']/g, '')`: every quote character removed, nothing else touched. */
  function RemoveQuotes(s: string): (r: string)
    ensures |r| <= |s|
    ensures QuoteFree(r)
    ensures QuoteFree(s) ==> r == s
  {
    if s == [] then []
    else (if IsQuote(s[0]) then [] else [s[0]]) + RemoveQuotes(s[1..])
  }

  /** The title actually stored: trimmed first, quotes removed second. */
  function SanitizeTitle(text: string): (r: string)
    ensures QuoteFree(r)
    ensures |r| <= |text|
  {
    RemoveQuotes(Trim(text))
  }

  /** Quote removal works character by character: it distributes over concatenation. */
  lemma {:induction false} RemoveQuotesDistributes(a: string, b: string)
    ensures RemoveQuotes(a + b) == RemoveQuotes(a) + RemoveQuotes(b)
  {
    if a == [] {
      assert a + b == b;
    } else {
      var head := if IsQuote(a[0]) then [] else [a[0]];
      assert (a + b)[0] == a[0];
      assert (a + b)[1..] == a[1..] + b;
      calc {
        RemoveQuotes(a + b);
        head + RemoveQuotes(a[1..] + b);
        { RemoveQuotesDistributes(a[1..], b); }
        head + (RemoveQuotes(a[1..]) + RemoveQuotes(b));
        (head + RemoveQuotes(a[1..])) + RemoveQuotes(b);
        RemoveQuotes(a) + RemoveQuotes(b);
      }
    }
  }

  /** Every non-quote character survives as often as it occurred; no quote survives. */
  lemma {:induction false} RemoveQuotesCounts(s: string, c: char)
    ensures multiset(RemoveQuotes(s))[c] == if IsQuote(c) then 0 else multiset(s)[c]
  {
    if s != [] {
      RemoveQuotesCounts(s[1..], c);
      assert s == [s[0]] + s[1..];
      assert multiset(s) == multiset{s[0]} + multiset(s[1..]);
    }
  }

  /** A title that is already trimmed and quote-free is stored unchanged. */
  lemma SanitizeKeepsCleanTitle(text: string)
    requires QuoteFree(text)
    requires text != [] ==> !IsWhitespace(text[0]) && !IsWhitespace(text[|text| - 1])
    ensures SanitizeTitle(text) == text
  {
    if text != [] {
      assert LeadingWhitespace(text) == 0;
      assert TrailingStart(text) == |text|;
    }
  }

  /**
   * Because quotes are removed after trimming, whitespace that sat inside
   * the quotes is exposed: the stored title can start with a space.
   */
  lemma SanitizeExposesInnerSpace()
    ensures SanitizeTitle("\" Hi\"") == " Hi"
  {
    var q := ['"', ' ', 'H', 'i', '"'];
    assert q == "\" Hi\"";
    assert !IsWhitespace('"');
    assert LeadingWhitespace(q) == 0;
    assert TrailingStart(q) == |q|;
    assert RemoveQuotes(['"']) == [];
    assert RemoveQuotes(['i', '"']) == ['i'];
    assert RemoveQuotes(['H', 'i', '"']) == ['H', 'i'];
    assert RemoveQuotes([' ', 'H', 'i', '"']) == [' ', 'H', 'i'];
  }

  /** Cleaning a stored title a second time can change it again. */
  lemma SanitizeNotIdempotent()
    ensures SanitizeTitle(SanitizeTitle("\" Hi\"")) == "Hi" != SanitizeTitle("\" Hi\"")
  {
    SanitizeExposesInnerSpace();
    var h := [' ', 'H', 'i'];
    assert h == " Hi";
    assert IsWhitespace(' ') && !IsWhitespace('H') && !IsWhitespace('i');
    assert LeadingWhitespace(h) == 1 + LeadingWhitespace(['H', 'i']) == 1;
    assert TrailingStart(h) == 3;
    assert h[1..3] == ['H', 'i'];
    assert RemoveQuotes(['H', 'i']) == ['H', 'i'];
  }
}
