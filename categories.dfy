/** CategoriesUtils.kt: CategoriesViewModel.fetchCategories (Loading, then
    the settled result) and the arrows of CategoriesCarousel, which move the
    pager one page back or forward only when that page exists. */
module Categories {
  import opened Common
  import opened FetchStates

  datatype Category = Category(name: string, thumbnailHref: Option<string>, description: Option<string>)

  class CategoriesViewModel {
    var categoriesState: FetchState<Category>
    ghost var trace: seq<FetchState<Category>>

    constructor()
      ensures categoriesState == Loading && trace == [Loading]
    {
      categoriesState := Loading;
      trace := [Loading];
    }

    method FetchCategories(fetched: Fetched<ListResponse<Category>>)
      modifies this
      ensures categoriesState == Settle(DataOrEmpty(fetched))
      ensures trace == old(trace) + [Loading, categoriesState]
    {
      categoriesState := Loading;
      trace := trace + [Loading];
      var results := DataOrEmpty(fetched);
      categoriesState := if results != [] then Success(results) else Error(NoResults);
      trace := trace + [categoriesState];
    }
  }

  datatype Arrow = Previous | Next

  /** The page an arrow click leads to from `page` in a carousel of `size` pages. */
  function Step(page: int, size: nat, arrow: Arrow): int {
    match arrow
    case Previous => if page > 0 then page - 1 else page
    case Next => if page < size - 1 then page + 1 else page
  }

  /** The page after a run of clicks. */
  function Run(page: int, size: nat, clicks: seq<Arrow>): int
    decreases clicks
  {
    if clicks == [] then page else Run(Step(page, size, clicks[0]), size, clicks[1..])
  }

  /** A page the pager can show: [0, size-1], or 0 for an empty carousel. */
  predicate InRange(page: int, size: nat) {
    0 <= page && (size == 0 ==> page == 0) && (size > 0 ==> page < size)
  }

  /** One click moves at most one page, and only to an existing one. */
  lemma StepInRange(page: int, size: nat, arrow: Arrow)
    requires InRange(page, size)
    ensures InRange(Step(page, size, arrow), size)
    ensures -1 <= Step(page, size, arrow) - page <= 1
  {
  }

  /** Starting from a shown page (the pager starts at 0), no sequence of
      clicks leaves [0, size-1]. */
  lemma {:induction false} RunInRange(page: int, size: nat, clicks: seq<Arrow>)
    requires InRange(page, size)
    ensures InRange(Run(page, size, clicks), size)
    decreases clicks
  {
    if clicks != [] {
      StepInRange(page, size, clicks[0]);
      RunInRange(Step(page, size, clicks[0]), size, clicks[1..]);
    }
  }

  function Nexts(n: nat): (r: seq<Arrow>)
    ensures |r| == n && forall i :: 0 <= i < n ==> r[i] == Next
  {
    if n == 0 then [] else [Next] + Nexts(n - 1)
  }

  /** From the first page, n clicks on Next reach page n, stopping at the last one. */
  lemma {:induction false} NextsSaturate(page: nat, size: nat, n: nat)
    requires size > 0 && page < size
    ensures Run(page, size, Nexts(n)) == if page + n < size then page + n else size - 1
    decreases n
  {
    if n > 0 {
      NextsSaturate(Step(page, size, Next), size, n - 1);
    }
  }

  /** The pager of CategoriesCarousel: `rememberPagerState(initialPage = 0,
      pageCount = { categories.size })`. */
  class PagerState {
    const pageCount: nat
    var currentPage: int

    ghost predicate Valid() reads this {
      InRange(currentPage, pageCount)
    }

    constructor(pageCount: nat)
      ensures Valid() && this.pageCount == pageCount && currentPage == 0
    {
      this.pageCount := pageCount;
      currentPage := 0;
    }

    /** The left arrow. */
    method OnPrevious()
      requires Valid()
      modifies this
      ensures Valid()
      ensures currentPage == if old(currentPage) > 0 then old(currentPage) - 1 else old(currentPage)
      ensures currentPage == Step(old(currentPage), pageCount, Previous)
    {
      if currentPage > 0 {
        currentPage := currentPage - 1;
      }
    }

    /** The right arrow. */
    method OnNext()
      requires Valid()
      modifies this
      ensures Valid()
      ensures currentPage == if old(currentPage) < pageCount - 1 then old(currentPage) + 1 else old(currentPage)
      ensures currentPage == Step(old(currentPage), pageCount, Next)
    {
      if currentPage < pageCount - 1 {
        currentPage := currentPage + 1;
      }
    }
  }
}
