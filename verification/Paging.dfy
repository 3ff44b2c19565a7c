/** Pages of an id list, as both the stream contract and the registry serve them. */
module Paging {
  import opened Soroban

  /** Upper bound on the page size a query accepts. */
  const MAX_PAGE_SIZE: U32 := 50

  /** The entries at positions offset, offset + 1, ... up to the capped limit. */
  function Page<T>(list: seq<T>, offset: nat, limit: nat): (page: seq<T>)
    ensures |page| <= MAX_PAGE_SIZE
  {
    list[Min(offset, |list|)..Min(offset + Min(limit, MAX_PAGE_SIZE), |list|)]
  }

  /** A page holds what was asked for, but never more than 50 entries nor more
      than there are from the offset on. */
  lemma PageLength<T>(list: seq<T>, offset: nat, limit: nat)
    ensures |Page(list, offset, limit)| == Min(Min(limit, 50), Max(|list| - offset, 0))
  {
  }

  /** Within the list a page is a slice from the offset, empty only at the end. */
  lemma PageIsSlice<T>(list: seq<T>, offset: nat, limit: nat)
    requires offset <= |list|
    requires limit >= 1
    ensures var page := Page(list, offset, limit);
            && offset + |page| <= |list|
            && page == list[offset..offset + |page|]
            && (page == [] <==> offset == |list|)
  {
  }

  /** A client that asks for the next page from where the last one ended. */
  function Walk<T>(list: seq<T>, offset: nat, limit: nat): seq<T>
    decreases |list| - offset
  {
    var page := Page(list, offset, limit);
    if page == [] then [] else page + Walk(list, offset + |page|, limit)
  }

  /** Such a walk, with any positive limit, ends having seen every entry once, in order. */
  lemma {:induction false} WalkIsComplete<T>(list: seq<T>, offset: nat, limit: nat)
    requires limit >= 1
    requires offset <= |list|
    ensures Walk(list, offset, limit) == list[offset..]
    decreases |list| - offset
  {
    var page := Page(list, offset, limit);
    if page == [] {
    } else {
      WalkIsComplete(list, offset + |page|, limit);
    }
  }

  /** A client that moves on by the limit it asked for, page after page. */
  function Stride<T>(list: seq<T>, offset: nat, limit: nat): seq<T>
    requires limit >= 1
    decreases |list| - offset
  {
    if offset >= |list| then [] else Page(list, offset, limit) + Stride(list, offset + limit, limit)
  }

  lemma {:induction false} StrideIsShort<T>(list: seq<T>, offset: nat, limit: nat)
    requires limit >= 1
    ensures |Stride(list, offset, limit)| <= |list| - Min(offset, |list|)
    ensures limit <= MAX_PAGE_SIZE ==> Stride(list, offset, limit) == list[Min(offset, |list|)..]
    decreases |list| - offset
  {
    if offset >= |list| {
    } else {
      StrideIsShort(list, offset + limit, limit);
    }
  }

  /** Moving on by the requested limit misses nothing exactly when the limit is
      within the cap of 50 or everything fits in one page. */
  lemma StrideIsCompleteIff<T>(list: seq<T>, limit: nat)
    requires limit >= 1
    ensures Stride(list, 0, limit) == list <==> limit <= 50 || |list| <= 50
  {
    StrideIsShort(list, 0, limit);
    if limit > MAX_PAGE_SIZE && |list| > 0 {
      StrideIsShort(list, limit, limit);
      var page := Page(list, 0, limit);
      assert Stride(list, 0, limit) == page + Stride(list, limit, limit);
      if |list| <= MAX_PAGE_SIZE {
        assert page == list;
        assert Stride(list, limit, limit) == [];
      }
    }
  }
}
