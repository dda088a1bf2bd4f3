/**
 * The request target of a search: `getHackerNewsUrl(value, page)` interpolates the raw
 * query text and the page number into a fixed Algolia search endpoint, with a fixed page
 * size of 100 hits. A parser is given beside it as an independent partner: it recovers
 * `(value, page)` from a target, which shows that the pair fully determines the request.
 */
module HackerNewsUrl {
  import opened Wrappers

  const Endpoint: string := "https://hn.algolia.com/api/v1/search?query="
  const PageParam: string := "&page="
  const HitsPerPage: nat := 100
  const HitsPerPageParam: string := "&hitsPerPage=100"

  predicate IsDigit(c: char) { '0' <= c <= '9' }

  function DigitChar(d: nat): (c: char)
    requires d < 10
    ensures IsDigit(c)
  {
    (48 + d) as char
  }

  function DigitValue(c: char): (d: nat)
    requires IsDigit(c)
    ensures d < 10 && DigitChar(d) == c
  {
    c as int - 48
  }

  predicate AllDigits(s: string) { forall i :: 0 <= i < |s| ==> IsDigit(s[i]) }

  /** The decimal form JavaScript prints for a non-negative integer: no sign, no leading zero. */
  predicate IsCanonicalDecimal(s: string) {
    |s| > 0 && AllDigits(s) && (s[0] == '0' ==> |s| == 1)
  }

  /** `${page}` for a non-negative integer page. */
  function NatToString(n: nat): (s: string)
    ensures IsCanonicalDecimal(s)
    ensures s[0] == '0' <==> n == 0
    decreases n
  {
    if n < 10 then [DigitChar(n)] else NatToString(n / 10) + [DigitChar(n % 10)]
  }

  /** The value of a string of decimal digits, most significant digit first. */
  function DecimalValue(s: string): nat
    requires AllDigits(s)
  {
    if |s| == 0 then 0 else DecimalValue(s[..|s| - 1]) * 10 + DigitValue(s[|s| - 1])
  }

  /** The request target built from the query text (interpolated raw) and the page. */
  function GetHackerNewsUrl(value: string, page: nat): string {
    Endpoint + value + PageParam + NatToString(page) + HitsPerPageParam
  }

  /** Position of the last occurrence of `c` in `s`. */
  function LastIndexOf(s: string, c: char): (r: Option<nat>)
    ensures r.Some? ==> r.value < |s| && s[r.value] == c
    ensures r.Some? ==> forall j :: r.value < j < |s| ==> s[j] != c
    ensures r.None? ==> forall j :: 0 <= j < |s| ==> s[j] != c
  {
    if |s| == 0 then None
    else if s[|s| - 1] == c then Some(|s| - 1)
    else LastIndexOf(s[..|s| - 1], c)
  }

  /**
   * Recovers `(value, page)` from a request target: strips the fixed endpoint and the fixed
   * page-size parameter, then splits what is left with `ParseQuery`.
   */
  function ParseUrl(url: string): Option<(string, nat)> {
    if |url| < |Endpoint| + |HitsPerPageParam|
       || url[..|Endpoint|] != Endpoint
       || url[|url| - |HitsPerPageParam|..] != HitsPerPageParam
    then None
    else ParseQuery(url[|Endpoint|..|url| - |HitsPerPageParam|])
  }

  /**
   * Splits `<value>&page=<digits>`: the page is the canonical decimal after the last `&`,
   * everything before that `&` is the query text (which may itself contain `&`).
   */
  function ParseQuery(middle: string): Option<(string, nat)> {
    match LastIndexOf(middle, '&')
    case None => None
    case Some(i) =>
      var tail := middle[i..];
      if |tail| < |PageParam| || tail[..|PageParam|] != PageParam then None
      else
        var digits := tail[|PageParam|..];
        if IsCanonicalDecimal(digits) then Some((middle[..i], DecimalValue(digits))) else None
  }

  lemma {:induction false} DecimalValueOfNatToString(n: nat)
    ensures DecimalValue(NatToString(n)) == n
    decreases n
  {
    var s := NatToString(n);
    if n >= 10 {
      DecimalValueOfNatToString(n / 10);
      assert s[..|s| - 1] == NatToString(n / 10);
    }
  }

  lemma {:induction false} DecimalValuePositive(s: string)
    requires |s| > 0 && AllDigits(s) && s[0] != '0'
    ensures DecimalValue(s) > 0
    decreases |s|
  {
    if |s| > 1 {
      DecimalValuePositive(s[..|s| - 1]);
    }
  }

  lemma {:induction false} NatToStringOfDecimalValue(s: string)
    requires IsCanonicalDecimal(s)
    ensures NatToString(DecimalValue(s)) == s
    decreases |s|
  {
    if |s| > 1 {
      var prefix := s[..|s| - 1];
      DecimalValuePositive(prefix);
      NatToStringOfDecimalValue(prefix);
      assert s == prefix + [s[|s| - 1]];
    }
  }

  lemma {:induction false} LastIndexOfSplit(prefix: string, suffix: string, c: char)
    requires forall j :: 0 <= j < |suffix| ==> suffix[j] != c
    ensures LastIndexOf(prefix + [c] + suffix, c) == Some(|prefix|)
    decreases |suffix|
  {
    var s := prefix + [c] + suffix;
    if |suffix| > 0 {
      var shorter := suffix[..|suffix| - 1];
      assert s[|s| - 1] == suffix[|suffix| - 1];
      assert s[..|s| - 1] == prefix + [c] + shorter;
      LastIndexOfSplit(prefix, shorter, c);
    }
  }

  lemma ParseQueryOfPair(value: string, page: nat)
    ensures ParseQuery(value + PageParam + NatToString(page)) == Some((value, page))
  {
    var digits := NatToString(page);
    var rest := "page=" + digits;
    assert forall j :: 0 <= j < |rest| ==> rest[j] != '&' by {
      forall j | 0 <= j < |rest| ensures rest[j] != '&' {
        if j >= 5 {
          assert rest[j] == digits[j - 5];
        }
      }
    }
    var middle := value + PageParam + digits;
    assert middle == value + ['&'] + rest;
    LastIndexOfSplit(value, rest, '&');
    var i := |value|;
    assert middle[i..] == PageParam + digits;
    assert middle[..i] == value;
    DecimalValueOfNatToString(page);
  }

  /** Parsing a request target gives back the query text and the page it was built from. */
  lemma ParseUrlOfGetHackerNewsUrl(value: string, page: nat)
    ensures ParseUrl(GetHackerNewsUrl(value, page)) == Some((value, page))
  {
    var url := GetHackerNewsUrl(value, page);
    var middle := value + PageParam + NatToString(page);
    assert url == Endpoint + middle + HitsPerPageParam;
    assert url[..|Endpoint|] == Endpoint;
    assert url[|url| - |HitsPerPageParam|..] == HitsPerPageParam;
    assert url[|Endpoint|..|url| - |HitsPerPageParam|] == middle;
    ParseQueryOfPair(value, page);
  }

  lemma ParseQuerySound(middle: string)
    requires ParseQuery(middle).Some?
    ensures middle == ParseQuery(middle).value.0 + PageParam + NatToString(ParseQuery(middle).value.1)
  {
    var i := LastIndexOf(middle, '&').value;
    var tail := middle[i..];
    var digits := tail[|PageParam|..];
    NatToStringOfDecimalValue(digits);
    assert tail == PageParam + digits;
    assert middle == middle[..i] + tail;
  }

  /** Every target the parser accepts is exactly the one built from what it returns. */
  lemma GetHackerNewsUrlOfParseUrl(url: string)
    requires ParseUrl(url).Some?
    ensures GetHackerNewsUrl(ParseUrl(url).value.0, ParseUrl(url).value.1) == url
  {
    var middle := url[|Endpoint|..|url| - |HitsPerPageParam|];
    assert ParseQuery(middle) == ParseUrl(url);
    ParseQuerySound(middle);
    var value, page := ParseUrl(url).value.0, ParseUrl(url).value.1;
    assert url == url[..|Endpoint|] + middle + url[|url| - |HitsPerPageParam|..];
    assert GetHackerNewsUrl(value, page) == Endpoint + middle + HitsPerPageParam;
  }

  /** The pair (query text, page) fully determines the request target, and conversely. */
  lemma GetHackerNewsUrlInjective(v1: string, p1: nat, v2: string, p2: nat)
    requires GetHackerNewsUrl(v1, p1) == GetHackerNewsUrl(v2, p2)
    ensures v1 == v2 && p1 == p2
  {
    ParseUrlOfGetHackerNewsUrl(v1, p1);
    ParseUrlOfGetHackerNewsUrl(v2, p2);
  }

  /** Every target asks the fixed endpoint for the fixed page size of 100 hits. */
  lemma GetHackerNewsUrlShape(value: string, page: nat)
    ensures var url := GetHackerNewsUrl(value, page);
      |url| >= |Endpoint| + |HitsPerPageParam|
      && url[..|Endpoint|] == Endpoint
      && url[|url| - |HitsPerPageParam|..] == HitsPerPageParam
      && HitsPerPageParam == "&hitsPerPage=" + NatToString(HitsPerPage)
  {
    var url := GetHackerNewsUrl(value, page);
    assert url == Endpoint + (value + PageParam + NatToString(page)) + HitsPerPageParam;
    assert NatToString(HitsPerPage) == NatToString(10) + [DigitChar(0)];
    assert NatToString(10) == NatToString(1) + [DigitChar(0)];
  }
}
