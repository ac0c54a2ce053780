/** The paginated blast listing: clamped page and limit, and pages that make up the whole list. */
module Paging {
  import opened Batches

  /** SELECT ... LIMIT limit OFFSET offset. */
  function Slice<T>(list: seq<T>, limit: nat, offset: nat): seq<T> {
    if offset >= |list| then [] else list[offset..Min(offset + limit, |list|)]
  }

  function Offset(p: int, limit: int): nat
    requires p >= 1 && limit >= 1
  {
    assert (p - 1) * limit >= 0;
    (p - 1) * limit
  }

  /** Page p, counted from 1. */
  function Page<T>(list: seq<T>, p: int, limit: int): seq<T>
    requires p >= 1 && limit >= 1
  {
    Slice(list, limit, Offset(p, limit))
  }

  function TotalPages(total: nat, limit: int): (pages: int)
    requires limit >= 1
  {
    (total + limit - 1) / limit
  }

  datatype Response<T> = Response(blasts: seq<T>, total: int, page: int, limit: int, totalPages: int)

  method ListEmailBlasts<T>(list: seq<T>, page: int, limit: int) returns (r: Response<T>)
    ensures 1 <= r.page && 1 <= r.limit <= 100
    ensures page >= 1 ==> r.page == page
    ensures page < 1 ==> r.page == 1
    ensures 1 <= limit <= 100 ==> r.limit == limit
    ensures limit < 1 ==> r.limit == 25
    ensures limit > 100 ==> r.limit == 100
    ensures r.blasts == Page(list, r.page, r.limit)
    ensures r.total == |list| && r.totalPages == TotalPages(|list|, r.limit)
  {
    hide Slice, Offset, TotalPages;
    var p, l := page, limit;
    if p <= 0 { p := 1; }
    if l <= 0 { l := 25; }
    if l > 100 { l := 100; }
    var blasts := Slice(list, l, Offset(p, l));
    var total := |list|;
    return Response(blasts, total, p, l, TotalPages(total, l));
  }

  /** The first n pages one after the other. */
  function Pages<T>(list: seq<T>, n: nat, limit: int): seq<T>
    requires limit >= 1
  {
    if n == 0 then [] else Pages(list, n - 1, limit) + Page(list, n, limit)
  }

  lemma OnePageMore<T>(list: seq<T>, n: nat, limit: int, offset: nat)
    requires n >= 1 && limit >= 1 && offset == (n - 1) * limit
    ensures n * limit == offset + limit
    ensures list[..Min(offset, |list|)] + Page(list, n, limit) == list[..Min(offset + limit, |list|)]
  {
    assert n * limit == offset + limit;
    assert Page(list, n, limit) == Slice(list, limit, offset);
  }

  lemma {:induction false} PagesArePrefix<T>(list: seq<T>, n: nat, limit: int)
    requires limit >= 1
    ensures n * limit >= 0
    ensures Pages(list, n, limit) == list[..Min(n * limit, |list|)]
  {
    if n > 0 {
      PagesArePrefix(list, n - 1, limit);
      OnePageMore(list, n, limit, (n - 1) * limit);
    }
  }

  /** Page p starts inside the list exactly when it is one of the total pages. */
  lemma PageStarts(total: nat, limit: int, p: int)
    requires limit >= 1 && p >= 1
    ensures (p - 1) * limit >= 0
    ensures p <= TotalPages(total, limit) <==> (p - 1) * limit < total
  {
    if total == 0 {
      BatchOf(limit - 1, limit, 0);
    } else {
      BatchBounds(total, limit, p - 1);
      var last := (total - 1) / limit;
      BatchOf(total - 1, limit, last);
      assert (last + 1) * limit == last * limit + limit;
      BatchOf(total + limit - 1, limit, last + 1);
    }
  }

  /** Main result: for every positive limit the pages 1 to TotalPages make up the whole list,
      each but the last has as many blasts as the limit, the last has some, and every later page
      is empty. */
  lemma PagesCover<T>(list: seq<T>, limit: int, p: int)
    requires limit >= 1 && p >= 1
    ensures TotalPages(|list|, limit) >= 0
    ensures Pages(list, TotalPages(|list|, limit), limit) == list
    ensures Page(list, p, limit) != [] <==> p <= TotalPages(|list|, limit)
    ensures |Page(list, p, limit)| <= limit
    ensures p < TotalPages(|list|, limit) ==> |Page(list, p, limit)| == limit
  {
    var pages := TotalPages(|list|, limit);
    PageStarts(|list|, limit, pages + 1);
    PagesArePrefix(list, pages, limit);
    assert list[..|list|] == list;
    PageStarts(|list|, limit, p);
    PageStarts(|list|, limit, p + 1);
    assert p * limit == (p - 1) * limit + limit;
  }
}
