/** Windowed pages over a fixed ranking: the offset and limit arithmetic in 64-bit integers, and a
    client that follows has_more. */
module HybridPaging {

  const MAX_INT := 0x7FFF_FFFF_FFFF_FFFF
  const TWO_64 := 0x1_0000_0000_0000_0000

  type Int64 = n: int | -MAX_INT - 1 <= n <= MAX_INT

  /** Addition as the machine does it. */
  function Add(a: Int64, b: Int64): Int64 {
    var sum := a + b;
    if sum > MAX_INT then sum - TWO_64 else if sum < -MAX_INT - 1 then sum + TWO_64 else sum
  }

  /** `Panicked`: the page's bounds were out of order, which ends the request. */
  datatype Response<T> = BadOffset | PastWindow | Panicked | Served(hits: seq<T>, hasMore: bool)

  /** page_size absent or below one means 20. */
  function PageSize(given: bool, value: Int64): (size: Int64)
    ensures size >= 1
  {
    if !given || value < 1 then 20 else value
  }

  /** handleSearch's clamp of the page to the window; a window of zero or less is none. */
  function Clamped(offset: Int64, size: Int64, window: Int64): Int64
    requires 0 <= offset && 1 <= size && (window > 0 ==> offset < window)
  {
    if window > 0 && Add(offset, size) > window then window - offset else size
  }

  function FetchLimit(offset: Int64, size: Int64, window: Int64): Int64 {
    var limit := Add(Add(offset, size), 1);
    if window > 0 && limit > window then window else limit
  }

  function Min(a: int, b: int): int {
    if a < b then a else b
  }

  /** A search with a limit returns that many first hits of the ranking; what a negative limit returns
      is up to the engine. */
  function Search<T>(ranking: seq<T>, limit: Int64, odd: seq<T>): seq<T> {
    if limit < 0 then odd else ranking[..Min(limit, |ranking|)]
  }

  /** The page of the hits; its end is a sum like the others. */
  function Page<T>(hits: seq<T>, offset: Int64, size: Int64): Response<T>
    requires 0 <= offset
  {
    var start := Min(offset, |hits|);
    var end := Min(Add(start, size), |hits|);
    if end < start then Panicked else Served(hits[start..end], end < |hits|)
  }

  function Handle<T>(ranking: seq<T>, odd: seq<T>, offset: Int64, given: bool, value: Int64, window: Int64): Response<T> {
    if offset < 0 then BadOffset
    else if window > 0 && offset >= window then PastWindow
    else
      var size := Clamped(offset, PageSize(given, value), window);
      if size < 1 then BadOffset
      else Page(Search(ranking, FetchLimit(offset, size, window), odd), offset, size)
  }

  /** What the window lets through of the ranking. */
  function Window<T>(ranking: seq<T>, window: Int64): seq<T> {
    if window > 0 then ranking[..Min(window, |ranking|)] else ranking
  }

  // ---- One page ----

  /** The sums stay inside 64 bits. */
  predicate Fits(offset: Int64, size: Int64, window: Int64) {
    if window > 0 then offset + size <= MAX_INT && Min(offset + size, window) < MAX_INT else offset + size < MAX_INT
  }

  /** The page of the window at an offset. */
  function Slice<T>(all: seq<T>, offset: nat, size: nat): seq<T> {
    all[Min(offset, |all|)..Min(offset + size, |all|)]
  }

  /** Main result, one page: while the sums fit, the answer is the window's slice at the offset, and
      has_more says whether the window goes on. */
  lemma PageIsSlice<T>(ranking: seq<T>, odd: seq<T>, offset: Int64, given: bool, value: Int64, window: Int64)
    requires 0 <= offset && (window > 0 ==> offset < window) && Fits(offset, PageSize(given, value), window)
    ensures var all, size := Window(ranking, window), PageSize(given, value);
      Handle(ranking, odd, offset, given, value, window) == Served(Slice(all, offset, size), offset + size < |all|)
  {
    var all, size := Window(ranking, window), PageSize(given, value);
    var clamped := Clamped(offset, size, window);
    var limit := FetchLimit(offset, clamped, window);
    var hits := Search(ranking, limit, odd);
    assert limit == (if window > 0 then Min(offset + clamped + 1, window) else offset + clamped + 1);
    assert hits == all[..Min(limit, |all|)];
    HitsSlice(hits, all, limit, offset, clamped, size);
  }

  /** Enough hits of the window to fill the page and see past it. */
  lemma HitsSlice<T>(hits: seq<T>, all: seq<T>, limit: nat, offset: Int64, clamped: Int64, size: Int64)
    requires 0 <= offset && 0 <= clamped && offset + clamped <= MAX_INT
    requires hits == all[..Min(limit, |all|)] && clamped <= size
    requires offset + clamped < limit || limit >= |all|
    requires clamped < size ==> offset + clamped >= |all|
    ensures Page(hits, offset, clamped) == Served(Slice(all, offset, size), offset + size < |all|)
  {
    var start := Min(offset, |hits|);
    var end := Min(start + clamped, |hits|);
    assert hits[start..end] == Slice(all, offset, size);
  }

  /** The limit handed to the search is the one meant exactly while the sums fit. */
  lemma LimitExactlyWhenFits(offset: Int64, size: Int64, window: Int64)
    requires 0 <= offset && 1 <= size && (window > 0 ==> offset < window)
    ensures Fits(offset, size, window) <==>
      FetchLimit(offset, Clamped(offset, size, window), window)
        == (if window > 0 then Min(offset + size + 1, window) else offset + size + 1)
  {
  }

  /** A request panics exactly when the start of its page and the page size do not add up to 64 bits:
      the clamp was skipped, the search given a negative limit, and the page ends before it starts. The
      start is the offset, or the number of hits that limit brought. */
  lemma PanicsExactly<T>(ranking: seq<T>, odd: seq<T>, offset: Int64, given: bool, value: Int64, window: Int64)
    ensures Handle(ranking, odd, offset, given, value, window).Panicked? <==>
      && 0 <= offset && (window > 0 ==> offset < window)
      && Min(offset, |odd|) + PageSize(given, value) > MAX_INT
  {
    var size := PageSize(given, value);
    if 0 <= offset && (window > 0 ==> offset < window) {
      var clamped := Clamped(offset, size, window);
      if offset + size > MAX_INT {
        assert clamped == size && FetchLimit(offset, size, window) < 0;
      } else {
        assert offset + clamped <= MAX_INT;
      }
    }
  }

  // ---- Following has_more ----

  /** No sum on the way leaves 64 bits. */
  predicate Roomy(total: nat, size: Int64, window: Int64) {
    total + size < MAX_INT && window + size < MAX_INT
  }

  /** A client from some offset on: take the page, and while there is more go one page further. */
  function Follow<T>(ranking: seq<T>, odd: seq<T>, offset: Int64, given: bool, value: Int64, window: Int64): seq<T>
    requires Roomy(|ranking|, PageSize(given, value), window)
    requires 0 <= offset < |Window(ranking, window)| || offset == 0
    decreases |ranking| - offset
  {
    PageIsSlice(ranking, odd, offset, given, value, window);
    var size := PageSize(given, value);
    var r := Handle(ranking, odd, offset, given, value, window);
    if r.hasMore then r.hits + Follow(ranking, odd, offset + size, given, value, window) else r.hits
  }

  lemma SlicesJoin<T>(all: seq<T>, offset: nat, size: nat)
    requires offset <= |all|
    ensures offset + size < |all| ==> Slice(all, offset, size) + all[offset + size..] == all[offset..]
    ensures offset + size >= |all| ==> Slice(all, offset, size) == all[offset..]
  {
  }

  /** Main result: following has_more from the start ends, asks for no offset outside the window, and
      puts the window's part of the ranking together again, nothing missing and nothing twice. */
  lemma {:induction false} FollowReassembles<T>(ranking: seq<T>, odd: seq<T>, offset: Int64, given: bool, value: Int64, window: Int64)
    requires Roomy(|ranking|, PageSize(given, value), window)
    requires 0 <= offset < |Window(ranking, window)| || offset == 0
    ensures Follow(ranking, odd, offset, given, value, window) == Window(ranking, window)[offset..]
    decreases |ranking| - offset
  {
    var all, size := Window(ranking, window), PageSize(given, value);
    PageIsSlice(ranking, odd, offset, given, value, window);
    SlicesJoin(all, offset, size);
    if offset + size < |all| {
      FollowReassembles(ranking, odd, offset + size, given, value, window);
    }
  }
}
