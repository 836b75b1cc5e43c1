/** What the two paging sources share: the library's load parameters and
    results, and the refresh-key rule both `getRefreshKey` overrides spell
    out identically. */
module Paging {
  import opened Int32
  import opened Optional

  /** `PagingSource.LoadParams<Int>`: the requested key (null on the first
      load) and the number of items wanted. */
  datatype LoadParams = LoadParams(key: Option<int32>, loadSize: int32)

  /** An exception thrown by the service call. */
  datatype Exception = Exception(description: string)

  /** What an abstract service call did: returned a list or threw. */
  datatype Outcome<T> = Returned(value: T) | Threw(exception: Exception)

  /** `PagingSource.LoadResult`: a page with its neighbour keys, or an error. */
  datatype LoadResult<T> =
    | Page(data: seq<T>, prevKey: Option<int32>, nextKey: Option<int32>)
    | Error(exception: Exception)

  /** The keys of the page `PagingState.closestPageToPosition` returns. */
  datatype PageKeys = PageKeys(prevKey: Option<int32>, nextKey: Option<int32>)

  /** `getRefreshKey`: no key without an anchor position; otherwise the key
      after the closest page's `prevKey`, else the key before its `nextKey`.
      `closestPage` stands for `state.closestPageToPosition`. */
  function RefreshKey(anchor: Option<int32>, closestPage: int32 -> Option<PageKeys>): (r: Option<int32>)
    ensures anchor.None? ==> r.None?
    ensures anchor.Some? && closestPage(anchor.value).Some? ==>
              var keys := closestPage(anchor.value).value;
              (keys.prevKey.Some? ==> r == Some(Plus(keys.prevKey.value, 1))) &&
              (keys.prevKey.None? && keys.nextKey.Some? ==> r == Some(Minus(keys.nextKey.value, 1))) &&
              (keys.prevKey.None? && keys.nextKey.None? ==> r.None?)
    ensures r.Some? ==> anchor.Some? && closestPage(anchor.value).Some?
  {
    match anchor
    case None => None
    case Some(position) =>
      var page := closestPage(position);
      if page.Some? && page.value.prevKey.Some? then Some(Plus(page.value.prevKey.value, 1))
      else if page.Some? && page.value.nextKey.Some? then Some(Minus(page.value.nextKey.value, 1))
      else None
  }

  /** A page whose keys name its neighbours refreshes to itself. */
  lemma {:induction false} RefreshFromNeighbours(anchor: int32, closestPage: int32 -> Option<PageKeys>, page: int32)
    requires closestPage(anchor).Some?
    requires var keys := closestPage(anchor).value;
             keys.prevKey == Some(Minus(page, 1)) || (keys.prevKey.None? && keys.nextKey == Some(Plus(page, 1)))
    ensures RefreshKey(Some(anchor), closestPage) == Some(page)
  {
    PlusMinusOne(page);
  }

  /** The keys a loaded page hands to the library. */
  function KeysOf<T>(result: LoadResult<T>): (k: Option<PageKeys>)
    ensures k.Some? <==> result.Page?
  {
    match result
    case Page(_, prevKey, nextKey) => Some(PageKeys(prevKey, nextKey))
    case Error(_) => None
  }
}

/** `ImagePagingSource`: Picsum pages numbered from 1. */
module ImagePaging {
  import opened Int32
  import opened Optional
  import opened Paging

  const StartingPageIndex: int32 := 1

  /** `params.key ?: STARTING_PAGE_INDEX`. */
  function PageOf(params: LoadParams): (page: int32)
    ensures params.key.None? ==> page == StartingPageIndex
    ensures params.key.Some? ==> page == params.key.value
  {
    params.key.OrElse(StartingPageIndex)
  }

  /** `load(params)`; `getImages` is the abstract service call, given the page
      and the limit. */
  function Load<T>(params: LoadParams, getImages: (int32, int32) -> Outcome<seq<T>>): (r: LoadResult<T>)
    ensures r.Error? <==> getImages(PageOf(params), params.loadSize).Threw?
    ensures r.Error? ==> r.exception == getImages(PageOf(params), params.loadSize).exception
    ensures r.Page? ==> r.data == getImages(PageOf(params), params.loadSize).value
    ensures r.Page? ==> (r.prevKey.None? <==> PageOf(params) == StartingPageIndex)
    ensures r.Page? && r.prevKey.Some? ==> r.prevKey.value == Minus(PageOf(params), 1)
    ensures r.Page? ==> (r.nextKey.None? <==> r.data == [])
    ensures r.Page? && r.nextKey.Some? ==> r.nextKey.value == Plus(PageOf(params), 1)
  {
    var page := PageOf(params);
    match getImages(page, params.loadSize)
    case Threw(e) => Error(e)
    case Returned(images) =>
      Page(images,
           if page == StartingPageIndex then None else Some(Minus(page, 1)),
           if images == [] then None else Some(Plus(page, 1)))
  }

  /** Refreshing from a loaded page lands on that same page, unless it is an
      empty first page, which carries no key at all. */
  lemma RefreshRecoversPage<T>(params: LoadParams, getImages: (int32, int32) -> Outcome<seq<T>>,
                               anchor: int32, closestPage: int32 -> Option<PageKeys>)
    requires Load(params, getImages).Page?
    requires PageOf(params) != StartingPageIndex || Load(params, getImages).data != []
    requires closestPage(anchor) == KeysOf(Load(params, getImages))
    ensures RefreshKey(Some(anchor), closestPage) == Some(PageOf(params))
  {
    RefreshFromNeighbours(anchor, closestPage, PageOf(params));
  }

  /** An empty first page leaves nothing to refresh from. */
  lemma EmptyFirstPageHasNoRefreshKey<T>(params: LoadParams, getImages: (int32, int32) -> Outcome<seq<T>>,
                                         anchor: int32, closestPage: int32 -> Option<PageKeys>)
    requires Load(params, getImages).Page?
    requires PageOf(params) == StartingPageIndex && Load(params, getImages).data == []
    requires closestPage(anchor) == KeysOf(Load(params, getImages))
    ensures RefreshKey(Some(anchor), closestPage).None?
  {
  }
}

/** `SpaceXPagingSource`: pages numbered from 0, turned into offsets. */
module SpaceXPaging {
  import opened Int32
  import opened Optional
  import opened Paging

  /** `params.key ?: 0`. */
  function PageOf(params: LoadParams): (page: int32)
    ensures params.key.None? ==> page == 0
    ensures params.key.Some? ==> page == params.key.value
  {
    params.key.OrElse(0)
  }

  /** `page * params.loadSize`, as a Kotlin Int. */
  function Offset(params: LoadParams): (offset: int32)
    ensures var exact := PageOf(params) as int * params.loadSize as int;
              MIN <= exact <= MAX ==> offset as int == exact
  {
    Times(PageOf(params), params.loadSize)
  }

  /** `load(params)`; `getLaunches` is the abstract client call, given the
      limit and the offset. */
  function Load<T>(params: LoadParams, getLaunches: (int32, int32) -> Outcome<seq<T>>): (r: LoadResult<T>)
    ensures r.Error? <==> getLaunches(params.loadSize, Offset(params)).Threw?
    ensures r.Error? ==> r.exception == getLaunches(params.loadSize, Offset(params)).exception
    ensures r.Page? ==> r.data == getLaunches(params.loadSize, Offset(params)).value
    ensures r.Page? ==> (r.prevKey.None? <==> PageOf(params) == 0)
    ensures r.Page? && r.prevKey.Some? ==> r.prevKey.value == Minus(PageOf(params), 1)
    ensures r.Page? ==> (r.nextKey.None? <==> r.data == [])
    ensures r.Page? && r.nextKey.Some? ==> r.nextKey.value == Plus(PageOf(params), 1)
  {
    var page := PageOf(params);
    match getLaunches(params.loadSize, Offset(params))
    case Threw(e) => Error(e)
    case Returned(launches) =>
      Page(launches,
           if page == 0 then None else Some(Minus(page, 1)),
           if launches == [] then None else Some(Plus(page, 1)))
  }

  /** The page after `p` asks for the window right after `p`'s: its offset
      is `p`'s offset plus the load size (as Kotlin Ints, so modulo 2^32). */
  lemma {:induction false} NextPageIsAdjacent(p: int32, loadSize: int32)
    ensures Offset(LoadParams(Some(Plus(p, 1)), loadSize)) == Plus(Offset(LoadParams(Some(p), loadSize)), loadSize)
  {
    var c := loadSize as int;
    var next := Plus(p, 1) as int;
    var here := Times(p, loadSize) as int;
    var product := p as int * c;
    assert (product - here) % MODULUS == 0;
    CongruentTimes(next, p as int + 1, c);
    assert (p as int + 1) * c == product + c;
    CongruentTrans(next * c, product + c, here + c);
    WrapCongruent(next * c, here + c);
  }

  /** Congruence modulo 2^32 is transitive. */
  lemma CongruentTrans(x: int, y: int, z: int)
    requires (x - y) % MODULUS == 0 && (y - z) % MODULUS == 0
    ensures (x - z) % MODULUS == 0
  {
    var i := (x - y) / MODULUS;
    assert x - y == i * MODULUS;
    ModShift(y - z, i);
  }

  /** Without overflow, the windows of two different pages do not overlap. */
  lemma WindowsDisjoint(p: int32, q: int32, loadSize: int32)
    requires 0 <= p < q && 0 < loadSize
    requires q as int * loadSize as int + loadSize as int <= MAX
    ensures Offset(LoadParams(Some(p), loadSize)) as int + loadSize as int <= Offset(LoadParams(Some(q), loadSize)) as int
  {
    assert p as int * loadSize as int <= q as int * loadSize as int;
    assert (p as int + 1) * loadSize as int <= q as int * loadSize as int;
  }

  /** Refreshing from a loaded page lands on that same page, unless it is an
      empty page 0, which carries no key at all. */
  lemma RefreshRecoversPage<T>(params: LoadParams, getLaunches: (int32, int32) -> Outcome<seq<T>>,
                               anchor: int32, closestPage: int32 -> Option<PageKeys>)
    requires Load(params, getLaunches).Page?
    requires PageOf(params) != 0 || Load(params, getLaunches).data != []
    requires closestPage(anchor) == KeysOf(Load(params, getLaunches))
    ensures RefreshKey(Some(anchor), closestPage) == Some(PageOf(params))
  {
    RefreshFromNeighbours(anchor, closestPage, PageOf(params));
  }
}
