/** Reading the policy contract: the paged lists, the normalisation and the fail-closed validation. */
module PolicySource {
  import opened Values

  const MONAD_TESTNET := 10143

  // ----- Paged lists

  /** One page read: the entries and the next cursor, or a read that throws. */
  datatype Page<T> = Page(entries: seq<T>, next: int) | Unreadable

  /** What a list of the contract answers.  Cursors only grow during one read, so a contract that changes
      its mind between pages is also a function of the cursor. */
  type PageReader<T> = (int, nat) -> Page<T>

  datatype Listing<T> = Listing(count: Option<int>, page: PageReader<T>)

  const PAGE_SIZE := 64

  function Limit(cursor: int, count: int): nat
    requires cursor < count
  {
    if PAGE_SIZE < count - cursor then PAGE_SIZE else count - cursor
  }

  function Remaining(cursor: int, count: int): nat {
    if cursor < count then count - cursor else 0
  }

  /** The concatenated pages from `cursor` on; None when a read throws or the cursor stalls. */
  function Paged<T>(page: PageReader<T>, cursor: int, count: int): Option<seq<T>>
    decreases Remaining(cursor, count)
  {
    if cursor >= count then Some([])
    else match page(cursor, Limit(cursor, count))
      case Unreadable => None
      case Page(entries, next) =>
        if next <= cursor then None
        else match Paged(page, next, count)
          case None => None
          case Some(rest) => Some(entries + rest)
  }

  /** The cursors at which pages are read. */
  function Cursors<T>(page: PageReader<T>, cursor: int, count: int): seq<int>
    decreases Remaining(cursor, count)
  {
    if cursor >= count then []
    else match page(cursor, Limit(cursor, count))
      case Unreadable => [cursor]
      case Page(_, next) => [cursor] + if next <= cursor then [] else Cursors(page, next, count)
  }

  /** Whatever the contract answers, at most `count` pages are read. */
  lemma {:induction false} AtMostCountReads<T>(page: PageReader<T>, cursor: int, count: int)
    ensures |Cursors(page, cursor, count)| <= Remaining(cursor, count)
    ensures forall c | c in Cursors(page, cursor, count) :: cursor <= c < count
    decreases Remaining(cursor, count)
  {
    if cursor < count {
      var p := page(cursor, Limit(cursor, count));
      if p.Page? && p.next > cursor { AtMostCountReads(page, p.next, count); }
    }
  }

  function Prefixed<T>(read: seq<T>, rest: Option<seq<T>>): Option<seq<T>> {
    match rest case None => None case Some(more) => Some(read + more)
  }

  lemma PrefixedParts<T>(read: seq<T>, entries: seq<T>, rest: Option<seq<T>>)
    ensures Prefixed([], rest) == rest
    ensures Prefixed(read + entries, rest) == Prefixed(read, Prefixed(entries, rest))
  {
    if rest.Some? {
      assert [] + rest.value == rest.value;
      assert read + entries + rest.value == read + (entries + rest.value);
    }
  }

  method ReadPaged<T>(listing: Listing<T>) returns (values: Option<seq<T>>, pages: nat)
    ensures listing.count.None? ==> values == None && pages == 0
    ensures listing.count.Some? ==>
              values == Paged(listing.page, 0, listing.count.value) &&
              pages == |Cursors(listing.page, 0, listing.count.value)| <= Remaining(0, listing.count.value)
  {
    pages := 0;
    if listing.count.None? {
      return None, 0;
    }
    var count := listing.count.value;
    AtMostCountReads(listing.page, 0, count);
    var read: seq<T> := [];
    var cursor := 0;
    PrefixedParts(read, read, Paged(listing.page, 0, count));
    while cursor < count
      invariant Paged(listing.page, 0, count) == Prefixed(read, Paged(listing.page, cursor, count))
      invariant |Cursors(listing.page, 0, count)| == pages + |Cursors(listing.page, cursor, count)|
      decreases Remaining(cursor, count)
    {
      var page := listing.page(cursor, Limit(cursor, count));
      pages := pages + 1;
      if page.Unreadable? {
        return None, pages;
      }
      ghost var before := read;
      read := read + page.entries;
      if page.next <= cursor {
        return None, pages;
      }
      PrefixedParts(before, page.entries, Paged(listing.page, page.next, count));
      cursor := page.next;
    }
    assert read + [] == read;
    values := Some(read);
  }

  // ----- Contiguous pages

  /** The contract serves `list`: every page read below `count` is a non-empty stretch of it that starts at
      the cursor, and the next cursor is where the page ends. */
  ghost predicate Serves<T(!new)>(page: PageReader<T>, list: seq<T>, count: int) {
    count <= |list| &&
    forall c | 0 <= c < count :: ServesAt(page, list, c, Limit(c, count))
  }

  ghost predicate ServesAt<T>(page: PageReader<T>, list: seq<T>, c: nat, limit: nat) {
    var p := page(c, limit);
    p.Page? && p.entries != [] && p.next == c + |p.entries| <= |list| && p.entries == list[c..p.next]
  }

  /** Where the last page ends. */
  function FinalCursor<T>(page: PageReader<T>, cursor: int, count: int): int
    decreases Remaining(cursor, count)
  {
    if cursor >= count then cursor
    else match page(cursor, Limit(cursor, count))
      case Unreadable => cursor
      case Page(_, next) => if next <= cursor then cursor else FinalCursor(page, next, count)
  }

  lemma {:induction false} PagedIsStretch<T(!new)>(page: PageReader<T>, list: seq<T>, cursor: int, count: int)
    requires Serves(page, list, count) && 0 <= cursor <= |list|
    ensures var last := FinalCursor(page, cursor, count);
            cursor <= last <= |list| && count <= last && Paged(page, cursor, count) == Some(list[cursor..last])
    decreases Remaining(cursor, count)
  {
    if cursor < count {
      assert ServesAt(page, list, cursor, Limit(cursor, count));
      var next := page(cursor, Limit(cursor, count)).next;
      PagedIsStretch(page, list, next, count);
      var last := FinalCursor(page, next, count);
      assert list[cursor..next] + list[next..last] == list[cursor..last];
    } else {
      assert list[cursor..cursor] == [];
    }
  }

  /** No page read holds more entries than were still missing. */
  ghost predicate NeverOversteps<T(!new)>(page: PageReader<T>, cursor: int, count: int) {
    forall c | c in Cursors(page, cursor, count) :: WithinAt(page, c, count)
  }

  predicate WithinAt<T>(page: PageReader<T>, c: int, count: int) {
    c < count && page(c, Limit(c, count)).Page? && |page(c, Limit(c, count)).entries| <= count - c
  }

  lemma {:induction false} FinalCursorIff<T(!new)>(page: PageReader<T>, list: seq<T>, cursor: int, count: int)
    requires Serves(page, list, count) && 0 <= cursor <= count
    ensures FinalCursor(page, cursor, count) == count <==> NeverOversteps(page, cursor, count)
    decreases Remaining(cursor, count)
  {
    if cursor < count {
      var p := page(cursor, Limit(cursor, count));
      assert ServesAt(page, list, cursor, Limit(cursor, count));
      assert Cursors(page, cursor, count) == [cursor] + Cursors(page, p.next, count);
      assert cursor in Cursors(page, cursor, count);
      if p.next <= count {
        FinalCursorIff(page, list, p.next, count);
        assert forall c :: c in Cursors(page, cursor, count) <==> c == cursor || c in Cursors(page, p.next, count);
      } else {
        assert !WithinAt(page, cursor, count);
      }
    }
  }

  /** Against a contract that serves contiguous pages the result is always a stretch of the list that starts
      at its first entry and covers the first `count`; it is exactly the first `count` entries if and only
      if no page holds more entries than were still missing. */
  lemma PagedExactIff<T(!new)>(page: PageReader<T>, list: seq<T>, count: nat)
    requires Serves(page, list, count)
    ensures exists last :: count <= last <= |list| && Paged(page, 0, count) == Some(list[..last])
    ensures Paged(page, 0, count) == Some(list[..count]) <==> NeverOversteps(page, 0, count)
  {
    PagedIsStretch(page, list, 0, count);
    FinalCursorIff(page, list, 0, count);
    var last := FinalCursor(page, 0, count);
    assert list[0..last] == list[..last];
    assert |list[..last]| == last && |list[..count]| == count;
  }

  /** Asked for the missing entries, but never for more than 64, the contract gives no more. */
  predicate HonestAt<T>(page: PageReader<T>, c: int, count: nat)
    requires c < count
  {
    var n := if count - c < 64 then count - c else 64;
    page(c, n).Page? && |page(c, n).entries| <= n
  }

  /** So a contract that respects the requested page size is read exactly. */
  lemma PagedHonest<T(!new)>(page: PageReader<T>, list: seq<T>, count: nat)
    requires Serves(page, list, count)
    requires forall c | 0 <= c < count :: HonestAt(page, c, count)
    ensures Paged(page, 0, count) == Some(list[..count])
  {
    AtMostCountReads(page, 0, count);
    forall c | c in Cursors(page, 0, count) ensures WithinAt(page, c, count) {
      assert ServesAt(page, list, c, Limit(c, count)) && HonestAt(page, c, count);
    }
    PagedExactIff(page, list, count);
  }

  /** A page that ignores the requested size makes the result longer than `count`. */
  lemma PagedOversteps()
    ensures var page: PageReader<int> := (c, n) => Page([7, 8], c + 2);
            Serves(page, [7, 8], 1) && Paged(page, 0, 1) == Some([7, 8])
  {
    var page: PageReader<int> := (c, n) => Page([7, 8], c + 2);
    assert ServesAt(page, [7, 8], 0, Limit(0, 1));
    assert Paged(page, 2, 1) == Some([]);
    assert [7, 8] + [] == [7, 8];
  }
}
