/**
 * The two functions of Python's `urllib.parse` that the accessor uses:
 * `urljoin` (relative reference resolution, section 5.2 of RFC 3986),
 * restricted to the two shapes of call the accessor makes, and
 * `urlencode` (application/x-www-form-urlencoded serialisation, section
 * 5.2 of the WHATWG URL Standard) over an abstract per-component escaper.
 */
module UrlParse {
  import opened PyValues

  /**
   * What the model leaves abstract: `repr` is Python's `str()` of a list or
   * a dict, `quote` is `quote_plus` (percent-escaping of one key or value).
   */
  datatype Codec = Codec(repr: Json -> string, quote: string -> string)

  /** `str(v)`, also what an f-string inserts for `{v}`. */
  function Render(v: Json, c: Codec): string {
    Str(v, c.repr)
  }

  // ---------------------------------------------------------------------
  // urljoin

  /** Printable ASCII other than the space: nothing that urlsplit strips or checks. */
  predicate UrlChar(ch: char) {
    ' ' < ch <= '~'
  }

  /**
   * A relative reference made of one path segment: no scheme, authority,
   * `;` parameters (which `urlparse` splits off), query, fragment or dot segment.
   */
  predicate PlainSegment(m: string) {
    && m != "" && m != "." && m != ".."
    && (forall k :: 0 <= k < |m| ==> UrlChar(m[k]) && m[k] !in "/?#:;")
  }

  /**
   * Authority and path of a base URL whose path is a directory without
   * empty or dot segments; no brackets, so `urlsplit` never reads an IPv6 host.
   */
  predicate DirectoryRest(r: string) {
    && |r| >= 2
    && r[0] != '/'
    && r[|r| - 1] == '/'
    && (forall k :: 0 <= k < |r| ==> UrlChar(r[k]) && r[k] !in "?#[]")
    && (forall k :: 0 <= k < |r| - 1 ==> r[k] == '/' ==> r[k + 1] != '/' && r[k + 1] != '.')
  }

  /** An absolute http(s) URL ending with '/', with no query, fragment, empty or dot segments. */
  predicate DirectoryBase(s: string) {
    || (|s| > 8 && s[..8] == "https://" && DirectoryRest(s[8..]))
    || (|s| > 7 && s[..7] == "http://" && DirectoryRest(s[7..]))
  }

  /** The calls of `urljoin(base, url)` the model covers. */
  predicate Joinable(base: Json, url: string) {
    url == "" || (PlainSegment(url) && base.JStr? && DirectoryBase(base.s))
  }

  /**
   * `urljoin(base, url)`: a falsy base gives `url`; an empty `url` gives
   * `base` itself, whatever its type; a plain segment is appended to a
   * base whose path ends with '/'.
   */
  function UrlJoin(base: Json, url: string): Json
    requires Joinable(base, url)
  {
    if Falsy(base) then JStr(url)
    else if url == "" then base
    else JStr(base.s + url)
  }

  // ---------------------------------------------------------------------
  // urlencode

  /** One `key=value` component; keys are strings, values go through `str()`. */
  function EncodePair(p: (string, Json), c: Codec): string {
    c.quote(p.0) + "=" + c.quote(Render(p.1, c))
  }

  /** `urlencode(d)`: the components of the dict's items in order, joined by '&'. */
  function UrlEncode(e: Entries, c: Codec): (r: string)
    ensures r == "" <==> |e| == 0
    decreases |e|
  {
    if |e| == 0 then ""
    else if |e| == 1 then EncodePair(e[0], c)
    else EncodePair(e[0], c) + "&" + UrlEncode(e[1..], c)
  }

  /** The escaped (key, value) pairs, in the dict's order: what a reader of the query recovers. */
  function EncodedPairs(e: Entries, c: Codec): seq<(string, string)>
    decreases |e|
  {
    if e == [] then [] else [(c.quote(e[0].0), c.quote(Render(e[0].1, c)))] + EncodedPairs(e[1..], c)
  }

  /** `quote_plus` escapes '&' and '=', so neither appears in an escaped key or value. */
  ghost predicate SeparatorFree(c: Codec) {
    forall s :: '&' !in c.quote(s) && '=' !in c.quote(s)
  }

  // ---------------------------------------------------------------------
  // Reading a query string back (the reference the serialiser is checked against)

  function IndexOf(s: string, ch: char): (i: nat)
    requires ch in s
    ensures i < |s| && s[i] == ch && ch !in s[..i]
    decreases |s|
  {
    if s[0] == ch then 0
    else
      var j := IndexOf(s[1..], ch);
      assert s[..j + 1] == [s[0]] + s[1..][..j];
      j + 1
  }

  /** The pieces of `s` between occurrences of `sep`. */
  function Split(s: string, sep: char): seq<string>
    decreases |s|
  {
    if sep in s then
      var i := IndexOf(s, sep);
      [s[..i]] + Split(s[i + 1..], sep)
    else [s]
  }

  /** A `key=value` component split at its first '='. */
  function SplitPair(s: string): (string, string) {
    if '=' in s then
      var i := IndexOf(s, '=');
      (s[..i], s[i + 1..])
    else (s, "")
  }

  function SplitPairs(parts: seq<string>): seq<(string, string)>
    decreases |parts|
  {
    if parts == [] then [] else [SplitPair(parts[0])] + SplitPairs(parts[1..])
  }

  function ParseQuery(q: string): seq<(string, string)> {
    if q == "" then [] else SplitPairs(Split(q, '&'))
  }

  lemma SplitAt(a: string, sep: char, b: string)
    requires sep !in a
    ensures Split(a + [sep] + b, sep) == [a] + Split(b, sep)
  {
    var s := a + [sep] + b;
    assert s[|a|] == sep;
    var i := IndexOf(s, sep);
    assert s[..i] == a;
    assert s[i + 1..] == b;
  }

  lemma SplitPairAt(a: string, b: string)
    requires '=' !in a
    ensures SplitPair(a + "=" + b) == (a, b)
  {
    var s := a + "=" + b;
    assert s[|a|] == '=';
    var i := IndexOf(s, '=');
    assert s[..i] == a;
    assert s[i + 1..] == b;
  }

  lemma {:induction false} SplitUrlEncode(e: Entries, c: Codec)
    requires SeparatorFree(c) && |e| >= 1
    ensures SplitPairs(Split(UrlEncode(e, c), '&')) == EncodedPairs(e, c)
    decreases |e|
  {
    var k, v := c.quote(e[0].0), c.quote(Render(e[0].1, c));
    assert '&' !in k && '&' !in v && '=' !in k;
    var first := k + "=" + v;
    assert '&' !in first;
    SplitPairAt(k, v);
    if |e| == 1 {
      assert Split(first, '&') == [first];
    } else {
      SplitAt(first, '&', UrlEncode(e[1..], c));
      assert UrlEncode(e, c) == first + "&" + UrlEncode(e[1..], c);
      SplitUrlEncode(e[1..], c);
    }
  }

  /**
   * The serialised query reads back, component by component, as the
   * escaped items of the dict in the dict's order: `urlencode` adds,
   * drops and reorders nothing.
   */
  lemma ParseUrlEncode(e: Entries, c: Codec)
    requires SeparatorFree(c)
    ensures ParseQuery(UrlEncode(e, c)) == EncodedPairs(e, c)
  {
    if |e| >= 1 {
      SplitUrlEncode(e, c);
      assert '=' in EncodePair(e[0], c);
    }
  }

  lemma {:induction false} EncodedPairsAppend(e: Entries, p: (string, Json), c: Codec)
    ensures EncodedPairs(e + [p], c) == EncodedPairs(e, c) + [(c.quote(p.0), c.quote(Render(p.1, c)))]
    decreases |e|
  {
    if e == [] {
      assert e + [p] == [p];
    } else {
      assert (e + [p])[1..] == e[1..] + [p];
      EncodedPairsAppend(e[1..], p, c);
    }
  }

  lemma {:induction false} EncodedPairsAt(e: Entries, c: Codec)
    ensures |EncodedPairs(e, c)| == |e|
    ensures forall i :: 0 <= i < |e| ==> EncodedPairs(e, c)[i] == (c.quote(e[i].0), c.quote(Render(e[i].1, c)))
    decreases |e|
  {
    if e != [] {
      EncodedPairsAt(e[1..], c);
    }
  }
}
