/**
 * The URLs `run` generates: page `i` of the listing is fetched from
 * `${URL}?start=${i * PAGE_SIZE}`.
 */
module UrlGeneration {
  import opened Wrappers

  predicate IsDigit(c: char) {
    '0' <= c <= '9'
  }

  predicate AllDigits(s: string) {
    forall i :: 0 <= i < |s| ==> IsDigit(s[i])
  }

  function DigitChar(d: nat): (c: char)
    requires d < 10
    ensures IsDigit(c) && c as int - '0' as int == d
  {
    ('0' as int + d) as char
  }

  function DigitValue(c: char): nat
    requires IsDigit(c)
  {
    c as int - '0' as int
  }

  /**
   * How a template literal prints a non-negative integer: its decimal digits,
   * most significant first, with no leading zero.
   */
  function Decimal(n: nat): (s: string)
    ensures |s| >= 1 && AllDigits(s)
    ensures |s| > 1 ==> s[0] != '0'
  {
    if n < 10 then [DigitChar(n)] else Decimal(n / 10) + [DigitChar(n % 10)]
  }

  /** The number a string of decimal digits denotes. */
  function DecimalValue(s: string): nat
    requires AllDigits(s)
  {
    if s == [] then 0 else 10 * DecimalValue(s[..|s| - 1]) + DigitValue(s[|s| - 1])
  }

  /** Reading back what `Decimal` prints gives the number printed. */
  lemma {:induction false} DecimalRoundTrip(n: nat)
    ensures DecimalValue(Decimal(n)) == n
  {
    if n >= 10 {
      var s := Decimal(n);
      assert s[..|s| - 1] == Decimal(n / 10);
      DecimalRoundTrip(n / 10);
    }
  }

  /** The query that `run` appends to the base URL. */
  const StartQuery: string := "?start="

  /** The URL of page `i`. */
  function PageUrl(base: string, pageSize: nat, i: nat): string {
    base + StartQuery + Decimal(i * pageSize)
  }

  /**
   * Reads the start offset back from a URL of the base: `None` when the URL
   * is not the base followed by `?start=` and decimal digits.
   */
  function StartOf(base: string, url: string): (r: Option<nat>)
    ensures r.Some? ==> |url| > |base + StartQuery| && url[..|base + StartQuery|] == base + StartQuery
  {
    var prefix := base + StartQuery;
    if |url| > |prefix| && url[..|prefix|] == prefix && AllDigits(url[|prefix|..])
    then Some(DecimalValue(url[|prefix|..]))
    else None
  }

  /** A page URL carries its start offset: `StartOf` reads back `i * pageSize`. */
  lemma PageUrlRoundTrip(base: string, pageSize: nat, i: nat)
    ensures StartOf(base, PageUrl(base, pageSize, i)) == Some(i * pageSize)
  {
    var prefix := base + StartQuery;
    var url := PageUrl(base, pageSize, i);
    assert url == prefix + Decimal(i * pageSize);
    assert url[..|prefix|] == prefix && url[|prefix|..] == Decimal(i * pageSize);
    DecimalRoundTrip(i * pageSize);
  }

  /** `Array(pageCount).fill("").map((_, i) => ...)`: the URLs of pages 0 to pageCount - 1, in order. */
  function PageUrls(base: string, pageSize: nat, pageCount: nat): seq<string> {
    seq(pageCount, i requires 0 <= i < pageCount => PageUrl(base, pageSize, i))
  }

  /** With a positive page size no URL is generated twice, so no page is fetched twice. */
  lemma PageUrlsDistinct(base: string, pageSize: nat, pageCount: nat)
    requires pageSize > 0
    ensures |PageUrls(base, pageSize, pageCount)| == pageCount
    ensures forall i, j :: 0 <= i < j < pageCount ==>
      PageUrls(base, pageSize, pageCount)[i] != PageUrls(base, pageSize, pageCount)[j]
  {
    var urls := PageUrls(base, pageSize, pageCount);
    forall i, j | 0 <= i < j < pageCount
      ensures urls[i] != urls[j]
    {
      assert urls[i] == PageUrl(base, pageSize, i) && urls[j] == PageUrl(base, pageSize, j);
      PageUrlRoundTrip(base, pageSize, i);
      PageUrlRoundTrip(base, pageSize, j);
      OffsetsIncrease(i, j, pageSize);
    }
  }

  lemma OffsetsIncrease(i: nat, j: nat, pageSize: nat)
    requires i < j && pageSize > 0
    ensures i * pageSize < j * pageSize
  {
    assert j * pageSize == i * pageSize + (j - i) * pageSize;
  }
}
