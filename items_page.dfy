/** The list page of the frontend: its search text, page and page size, the
    last page of data it received, and the pager under the table. */
module ItemsPage {
  import opened Base
  import opened Text
  import opened ItemsSchema
  import opened ItemsApi

  /** `Math.max(1, Math.ceil(total / pageSize))`: the fewest pages, and at
      least one, that hold `total` items. */
  function TotalPages(total: int, pageSize: int): (n: int)
    requires pageSize >= 1
    ensures n >= 1
    ensures total <= n * pageSize
    ensures n == 1 || (n - 1) * pageSize < total
  {
    if total <= 0 then 1
    else
      var n := (total + pageSize - 1) / pageSize;
      assert n * pageSize <= total + pageSize - 1 < (n + 1) * pageSize;
      n
  }

  /** Multiplying by a positive factor keeps a strict order. */
  lemma LessTimes(a: int, b: int, c: int)
    requires c >= 1 && a * c < b * c
    ensures a < b
  {
    assert (b - a) * c == b * c - a * c;
  }

  /** No smaller number of pages holds all the items. */
  lemma TotalPagesIsLeast(total: int, pageSize: int, m: int)
    requires pageSize >= 1 && m >= 1 && total <= m * pageSize
    ensures TotalPages(total, pageSize) <= m
  {
    var n := TotalPages(total, pageSize);
    if n != 1 {
      LessTimes(n - 1, m, pageSize);
    }
  }

  /** The four buttons of the pager. */
  datatype PagerButton = FirstButton | PrevButton | NextButton | LastButton

  /** `disabled={page <= 1}` on first and prev, `disabled={page >= totalPages}`
      on next and last. */
  predicate Enabled(b: PagerButton, page: int, totalPages: int) {
    match b
    case FirstButton => !(page <= 1)
    case PrevButton => !(page <= 1)
    case NextButton => !(page >= totalPages)
    case LastButton => !(page >= totalPages)
  }

  /** The page a click asks for: 1, `p - 1`, `p + 1` or `totalPages`; a
      disabled button leaves the page alone. */
  function Step(b: PagerButton, page: int, totalPages: int): int {
    if !Enabled(b, page, totalPages) then page
    else
      match b
      case FirstButton => 1
      case PrevButton => page - 1
      case NextButton => page + 1
      case LastButton => totalPages
  }

  /** Every click keeps the page among the existing ones. */
  lemma StepStaysInRange(b: PagerButton, page: int, totalPages: int)
    requires 1 <= page <= totalPages
    ensures 1 <= Step(b, page, totalPages) <= totalPages
    ensures Enabled(b, page, totalPages) ==> Step(b, page, totalPages) != page
  {
  }

  /** On the first page only next and last work, on the last page only
      first and prev; with a single page none does. */
  lemma EnabledAtEnds(page: int, totalPages: int)
    requires 1 <= page <= totalPages
    ensures page == 1 ==> !Enabled(FirstButton, page, totalPages) && !Enabled(PrevButton, page, totalPages)
    ensures page == totalPages ==> !Enabled(NextButton, page, totalPages) && !Enabled(LastButton, page, totalPages)
    ensures 1 < page ==> Enabled(FirstButton, page, totalPages) && Enabled(PrevButton, page, totalPages)
    ensures page < totalPages ==> Enabled(NextButton, page, totalPages) && Enabled(LastButton, page, totalPages)
  {
  }

  /** The pager does not pull a page back into range when the total
      shrinks: with 21 items there are 3 pages, with 20 only 2, so a page 3
      that was shown before a delete stays 3, with next and last disabled
      and prev leading back to 2. */
  lemma DeleteCanStrandPage()
    ensures TotalPages(21, 10) == 3 && TotalPages(20, 10) == 2
    ensures !Enabled(NextButton, 3, 2) && !Enabled(LastButton, 3, 2)
    ensures Step(PrevButton, 3, 2) == 2
  {
  }

  /** The options of the page-size select. */
  const PageSizeOptions: seq<int> := [10, 20, 50, 100]

  /** Every option is a page size the server accepts. */
  lemma PageSizeOptionsAccepted()
    ensures forall i :: 0 <= i < |PageSizeOptions| ==> 1 <= PageSizeOptions[i] <= MaxPageSize
  {
  }

  /** The state of `ItemsPage` that decides what is requested and how the
      pager behaves. */
  class PageState {
    var q: string
    var page: int
    var pageSize: int
    var data: ItemPage

    /** The server always answers with a page size of at least 1. */
    ghost predicate Valid()
      reads this
    {
      data.pageSize >= 1
    }

    function PagesShown(): int
      reads this
      requires Valid()
    {
      TotalPages(data.total, data.pageSize)
    }

    constructor ()
      ensures Valid()
      ensures q == "" && page == 1 && pageSize == 10 && data == ItemPage([], 0, 1, 10)
    {
      q := "";
      page := 1;
      pageSize := 10;
      data := ItemPage([], 0, 1, 10);
    }

    /** What `load` asks `listItems` for. */
    function Request(): ListParams
      reads this
    {
      ListParams(Some(q), Some(page), Some(pageSize), None, None)
    }

    /** The `onClick` of a pager button. */
    method Click(b: PagerButton)
      requires Valid()
      modifies this
      ensures Valid() && PagesShown() == old(PagesShown())
      ensures page == Step(b, old(page), old(PagesShown()))
      ensures q == old(q) && pageSize == old(pageSize) && data == old(data)
      ensures old(1 <= page <= PagesShown()) ==> 1 <= page <= PagesShown()
    {
      var totalPages := TotalPages(data.total, data.pageSize);
      if Enabled(b, page, totalPages) {
        match b
        case FirstButton => page := 1;
        case PrevButton => page := page - 1;
        case NextButton => page := page + 1;
        case LastButton => page := totalPages;
      }
      if old(1 <= page <= PagesShown()) {
        StepStaysInRange(b, old(page), totalPages);
      }
    }

    /** Typing in the search box: new text, back to page 1. */
    method Search(text: string)
      modifies this
      ensures q == text && page == 1
      ensures pageSize == old(pageSize) && data == old(data)
    {
      q := text;
      page := 1;
    }

    /** Choosing option `i` of the page-size select: the option's value is
      `String(n)`, read back with `parseInt`; then back to page 1. */
    method ChoosePageSize(i: nat)
      requires i < |PageSizeOptions|
      modifies this
      ensures pageSize == PageSizeOptions[i] && page == 1
      ensures q == old(q) && data == old(data)
    {
      var value := IntToString(PageSizeOptions[i]);
      ParseIntText(PageSizeOptions[i]);
      var parsed := ParseInt(value);
      pageSize := parsed.value;
      page := 1;
    }

    /** After a successful create: back to page 1 with no search text. */
    method Created()
      modifies this
      ensures q == "" && page == 1
      ensures pageSize == old(pageSize) && data == old(data)
    {
      page := 1;
      q := "";
    }

    /** `setData(res)` after a successful load. */
    method Loaded(res: ItemPage)
      requires res.pageSize >= 1
      modifies this
      ensures Valid() && data == res
      ensures q == old(q) && page == old(page) && pageSize == old(pageSize)
    {
      data := res;
    }
  }

  /** The request `load` sends always carries the page and the page size as
      decimal text, and the search text only when it is not empty. */
  lemma RequestCarriesPage(q: string, page: int, pageSize: int)
    requires page >= 1 && pageSize >= 1
    ensures var ps := QueryParams(ListParams(Some(q), Some(page), Some(pageSize), None, None));
      && Names(ps) == (if q != "" then [Q] else []) + [Page, PageSize]
      && ParseInt(PagePart(ListParams(Some(q), Some(page), Some(pageSize), None, None))[0].value) == Some(page)
      && ParseInt(PageSizePart(ListParams(Some(q), Some(page), Some(pageSize), None, None))[0].value) == Some(pageSize)
  {
    var p := ListParams(Some(q), Some(page), Some(pageSize), None, None);
    QueryNames(p);
    QueryNumbersReadBack(p);
  }
}
