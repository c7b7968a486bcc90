/** Pages of an ordered list, and the chain a caller walks by following `next_offset`. */
module Paging {
  import opened Status

  const ISIZE_MAX: nat := 0x7FFF_FFFF_FFFF_FFFF
  const U32_MAX: nat := 0xFFFF_FFFF

  datatype Page<+T> = Page(offset: nat, total: nat, next: Option<nat>, items: seq<T>)

  function Min(a: nat, b: nat): nat { if a <= b then a else b }

  function PageOf<T>(list: seq<T>, offset: nat, limit: nat): (r: Result<Page<T>>)
    requires |list| <= USIZE_MAX
  {
    if offset > |list| then Err(INVALID_ARGUMENT)
    else
      var end := Min(SaturatingAdd(offset, limit), |list|);
      Ok(Page(offset, |list|, if end < |list| then Some(end) else None, list[offset..end]))
  }

  /** Saturation never shows: a page holds the next `limit` items, or all that are left, and says which. */
  lemma PageIsExact<T>(list: seq<T>, offset: nat, limit: nat)
    requires |list| <= USIZE_MAX
    ensures var r := PageOf(list, offset, limit);
      && (r.Ok? <==> offset <= |list|) && (r.Err? ==> r.code == INVALID_ARGUMENT)
      && (r.Ok? ==>
            var p := r.value;
            && p.offset == offset && p.total == |list|
            && p.items <= list[offset..] && |p.items| == (if limit <= |list| - offset then limit else |list| - offset)
            && (p.next == if offset + limit < |list| then Some(offset + limit) else None))
  {
    if offset <= |list| {
      var end := Min(SaturatingAdd(offset, limit), |list|);
      assert list[offset..end] == list[offset..][..end - offset];
    }
  }

  /** The installer adds without saturation; a Rust vector is too short for that to overflow. */
  lemma PlainSumFits<T>(list: seq<T>, offset: nat, limit: nat)
    requires |list| <= ISIZE_MAX && offset <= |list| && limit <= U32_MAX
    ensures offset + limit <= USIZE_MAX && SaturatingAdd(offset, limit) == offset + limit
  {
  }

  /**
   Request `k` asks for `limits[k]` items from where the last page said to go on, and is answered from
   `lists[k]`. The result is everything received and where the next request would start, if there is one.
   */
  function Walk<T>(lists: seq<seq<T>>, limits: seq<nat>, offset: nat): (seq<T>, Option<nat>)
    requires |lists| == |limits| && forall k :: 0 <= k < |lists| ==> |lists[k]| <= USIZE_MAX
    decreases |limits|
  {
    if limits == [] then ([], Some(offset))
    else
      var r := PageOf(lists[0], offset, limits[0]);
      if r.Err? || r.value.next.None? then (if r.Ok? then r.value.items else [], None)
      else
        var rest := Walk(lists[1..], limits[1..], r.value.next.value);
        (r.value.items + rest.0, rest.1)
  }

  /** Whatever the page sizes, the pages received so far are exactly the list up to the next offset. */
  lemma {:induction false} WalkCovers<T>(list: seq<T>, lists: seq<seq<T>>, limits: seq<nat>, offset: nat)
    requires |lists| == |limits| && offset <= |list| <= USIZE_MAX
    requires forall k :: 0 <= k < |lists| ==> lists[k] == list
    requires forall k :: 0 <= k < |limits| ==> limits[k] >= 1
    ensures var (got, next) := Walk(lists, limits, offset);
      && (next.None? ==> got == list[offset..])
      && (next.Some? ==> offset + |limits| <= next.value <= |list| && got == list[offset..next.value])
    decreases |limits|
  {
    if limits != [] {
      assert lists[0] == list;
      PageIsExact(list, offset, limits[0]);
      var p := PageOf(list, offset, limits[0]).value;
      if p.next.Some? {
        WalkCovers(list, lists[1..], limits[1..], p.next.value);
        assert list[offset..] == list[offset..p.next.value] + list[p.next.value..];
      }
    }
  }

  /** From offset 0 the walk ends after at most one request more than there are items, with the whole list. */
  lemma WalkEnds<T>(list: seq<T>, lists: seq<seq<T>>, limits: seq<nat>)
    requires |lists| == |limits| && |list| <= USIZE_MAX && |limits| > |list|
    requires forall k :: 0 <= k < |lists| ==> lists[k] == list
    requires forall k :: 0 <= k < |limits| ==> limits[k] >= 1
    ensures Walk(lists, limits, 0) == (list, None)
  {
    WalkCovers(list, lists, limits, 0);
  }
}
