/** The `page` / `per_page` validation and the offset computation shared by
    internal/handler/tiger.go and internal/handler/sighting.go.

    As written, the offset `(page - 1) * perPage` is Go `int` arithmetic and
    wraps around for large pages; the handlers of this model use the exact
    offset instead (see `PageOffset`). */
module Paging {
  import opened Wrappers
  import opened Decimal
  import Ordering

  const InvalidPage: string := "Invalid page number"
  const InvalidPerPage: string := "Invalid per_page value"

  /** `r.URL.Query().Get(key)`: the first value given for the key, or "". */
  function QueryGet(query: map<string, seq<string>>, key: string): (v: string)
    ensures key !in query || query[key] == [] ==> v == ""
    ensures key in query && |query[key]| > 0 ==> v == query[key][0]
  {
    if key in query && |query[key]| > 0 then query[key][0] else ""
  }

  /** `strconv.Atoi(s)` succeeded with a positive number. */
  predicate PositiveInt(s: string) {
    Atoi(s).Some? && Atoi(s).value > 0
  }

  /** The validation both listings run: `page` first, then `per_page`, each a
      positive decimal int; the first failure names the parameter. */
  function ValidatePagination(pageStr: string, perPageStr: string): (r: Result<(int, int), string>)
    ensures r.Ok? <==> PositiveInt(pageStr) && PositiveInt(perPageStr)
    ensures r.Ok? ==> r.value == (Atoi(pageStr).value, Atoi(perPageStr).value)
    ensures r.Ok? ==> 1 <= r.value.0 <= MaxInt64 && 1 <= r.value.1 <= MaxInt64
    ensures !PositiveInt(pageStr) ==> r == Err(InvalidPage)
    ensures PositiveInt(pageStr) && !PositiveInt(perPageStr) ==> r == Err(InvalidPerPage)
  {
    var page := Atoi(pageStr);
    if page.None? || page.value <= 0 then
      Err(InvalidPage)
    else
      var perPage := Atoi(perPageStr);
      if perPage.None? || perPage.value <= 0 then Err(InvalidPerPage) else Ok((page.value, perPage.value))
  }

  /** Every positive 64-bit page and page size is accepted, spelled as `%d`
      prints them. */
  lemma ValidatePaginationAccepts(page: int, perPage: int)
    requires 1 <= page <= MaxInt64 && 1 <= perPage <= MaxInt64
    ensures ValidatePagination(IntToDecimal(page), IntToDecimal(perPage)) == Ok((page, perPage))
  {
    AtoiOfIntToDecimal(page);
    AtoiOfIntToDecimal(perPage);
  }

  /** The offset as the handlers compute it: Go's 64-bit `int` product. */
  function PageOffsetAsWritten(page: int, perPage: int): (offset: int)
    ensures MinInt64 <= offset <= MaxInt64
    ensures MinInt64 <= (page - 1) * perPage <= MaxInt64 ==> offset == (page - 1) * perPage
    ensures (offset - (page - 1) * perPage) % TwoTo64 == 0
  {
    WrapInt64((page - 1) * perPage)
  }

  /** The offset the handlers evidently mean: the rows on the pages before. */
  function PageOffset(page: int, perPage: int): (offset: int)
    requires page >= 1 && perPage >= 1
    ensures offset >= 0
    ensures offset % perPage == 0 && offset / perPage == page - 1
  {
    var offset := (page - 1) * perPage;
    assert offset / perPage == page - 1 by {
      MultipleDiv(page - 1, perPage);
    }
    offset
  }

  /** Wherever the product fits in 64 bits, the offset as written and the
      exact offset are the same number. */
  lemma OffsetsAgreeInRange(page: int, perPage: int)
    requires page >= 1 && perPage >= 1 && (page - 1) * perPage <= MaxInt64
    ensures PageOffsetAsWritten(page, perPage) == PageOffset(page, perPage)
  {
    assert 0 <= (page - 1) * perPage by {
      MultipleDiv(page - 1, perPage);
    }
  }

  lemma MultipleDiv(q: nat, d: int)
    requires d >= 1
    ensures (q * d) % d == 0 && (q * d) / d == q
  {
    var a := q * d;
    var q2, r2 := a / d, a % d;
    assert a == d * q2 + r2 && 0 <= r2 < d;
    assert d * (q - q2) == r2;
    if q2 < q {
      MulAtLeast(d, q - q2);
    }
  }

  lemma {:induction false} MulAtLeast(d: int, k: int)
    requires d >= 1 && k >= 1
    ensures d * k >= d
    decreases k
  {
    if k > 1 {
      MulAtLeast(d, k - 1);
      assert d * k == d * (k - 1) + d;
    }
  }

  /** Page `page` of the exact offsets is the window the first-pages tiling
      is made of, so consecutive pages neither skip nor repeat a row. */
  lemma {:induction false} ExactPagesTile<T>(s: seq<T>, perPage: int, k: nat)
    requires perPage >= 1
    ensures forall page | 1 <= page <= k ::
              Ordering.Window(s, PageOffset(page, perPage), perPage) == Ordering.Window(s, (page - 1) * perPage, perPage)
    ensures Ordering.FirstPages(s, perPage, k) == s[..Min(k * perPage, |s|)]
  {
    Ordering.PagesTileRows(s, perPage, k);
  }

  /** The page the wrap-around reaches: two accepted inputs whose offset comes
      out negative, which the query treats as no offset, so the listing serves
      the first page again instead of an empty one. */
  lemma {:induction false} OffsetWrapsNegative<T>(s: seq<T>)
    requires |s| <= MaxInt64
    ensures var page, perPage := 0x4000_0000_0000_0001, 2;
            ValidatePagination(IntToDecimal(page), IntToDecimal(perPage)) == Ok((page, perPage))
            && PageOffsetAsWritten(page, perPage) == MinInt64
            && Ordering.Window(s, PageOffsetAsWritten(page, perPage), perPage) == Ordering.Window(s, 0, perPage)
            && Ordering.Window(s, PageOffset(page, perPage), perPage) == []
  {
    var page, perPage := 0x4000_0000_0000_0001, 2;
    ValidatePaginationAccepts(page, perPage);
    assert (page - 1) * perPage == 0x8000_0000_0000_0000;
    assert PageOffsetAsWritten(page, perPage) == MinInt64;
  }
}
