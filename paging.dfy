/** Cursor pagination as `sync_follows` does it: a first call without a cursor, then
    one call per non-zero `next_cursor`, stopping at the first page whose
    `next_cursor` is 0 or at the first error. */
module Paging {
  import opened Basics
  import opened Remote

  /** The pages fetched, the cursor passed to each call made (one more than the pages
      when the last call failed), and that failure. */
  datatype Fetched = Fetched(pages: seq<seq<int>>, cursors: seq<Option<int>>, failure: Option<string>)

  /** Following the cursors from a call made with `cursor`, answered by `replies[0]`,
      the next call by `replies[1]`, and so on. The contract is the whole paging
      protocol: every fetched page but the last continues with a non-zero cursor,
      each further call passes exactly that cursor, and the walk ends either at a
      page with cursor 0 or at the first call that fails. */
  function Fetch(replies: seq<Reply>, cursor: Option<int>): (f: Fetched)
    ensures |f.pages| <= |replies|
    ensures |f.cursors| == |f.pages| + (if f.failure.Some? then 1 else 0)
    ensures f.cursors != [] && f.cursors[0] == cursor
    ensures f.failure.None? ==> f.pages != [] && replies[|f.pages| - 1].Page? && replies[|f.pages| - 1].nextCursor == 0
    ensures f.failure.Some? ==>
              ReplyAt(replies, |f.pages|).Failed? && f.failure.value == ReplyAt(replies, |f.pages|).message
    decreases |replies|
  {
    if replies == [] then Fetched([], [cursor], Some(NoMoreReplies))
    else match replies[0]
      case Failed(m) => Fetched([], [cursor], Some(m))
      case Page(ids, next) =>
        if next == 0 then Fetched([ids], [cursor], None)
        else
          var rest := Fetch(replies[1..], Some(next));
          Fetched([ids] + rest.pages, [cursor] + rest.cursors, rest.failure)
  }

  /** The i-th call after the first passes the cursor of the page before it, which
      was not 0: paging goes on exactly while the cursor returned is non-zero. */
  lemma {:induction false} FetchCursorAt(replies: seq<Reply>, cursor: Option<int>, i: nat)
    requires 1 <= i < |Fetch(replies, cursor).cursors|
    ensures replies[i - 1].Page? && replies[i - 1].nextCursor != 0
    ensures Fetch(replies, cursor).cursors[i] == Some(replies[i - 1].nextCursor)
    decreases i
  {
    var next := replies[0].nextCursor;
    var rest := Fetch(replies[1..], Some(next));
    assert Fetch(replies, cursor).cursors == [cursor] + rest.cursors;
    if i > 1 {
      FetchCursorAt(replies[1..], Some(next), i - 1);
      assert replies[1..][i - 2] == replies[i - 1];
    }
  }

  /** The i-th page kept is the page of the i-th answer. */
  lemma {:induction false} FetchPageAt(replies: seq<Reply>, cursor: Option<int>, i: nat)
    requires i < |Fetch(replies, cursor).pages|
    ensures replies[i].Page? && replies[i].ids == Fetch(replies, cursor).pages[i]
    decreases i
  {
    if i > 0 {
      var rest := Fetch(replies[1..], Some(replies[0].nextCursor));
      assert Fetch(replies, cursor).pages == [replies[0].ids] + rest.pages;
      FetchPageAt(replies[1..], Some(replies[0].nextCursor), i - 1);
      assert replies[1..][i - 1] == replies[i];
    }
  }

  /** The ids of all pages together. */
  function AllIds(pages: seq<seq<int>>): set<int> {
    if pages == [] then {} else AllIds(pages[..|pages| - 1]) + Elems(pages[|pages| - 1])
  }

  /** `f` behind pages and cursors already walked. */
  function After(pages: seq<seq<int>>, cursors: seq<Option<int>>, f: Fetched): Fetched {
    Fetched(pages + f.pages, cursors + f.cursors, f.failure)
  }

  /** The walk from the i-th answer on, after its page: what is left of it starts one
      answer later, with the cursor that page returned. */
  lemma FetchStep(replies: seq<Reply>, i: nat, cursor: Option<int>, pages: seq<seq<int>>, cursors: seq<Option<int>>)
    requires i < |replies| && replies[i].Page? && replies[i].nextCursor != 0
    ensures After(pages, cursors, Fetch(replies[i..], cursor))
            == After(pages + [replies[i].ids], cursors + [cursor], Fetch(replies[i + 1..], Some(replies[i].nextCursor)))
  {
    assert replies[i..][0] == replies[i] && replies[i..][1..] == replies[i + 1..];
    var rest := Fetch(replies[i + 1..], Some(replies[i].nextCursor));
    assert pages + ([replies[i].ids] + rest.pages) == (pages + [replies[i].ids]) + rest.pages;
    assert cursors + ([cursor] + rest.cursors) == (cursors + [cursor]) + rest.cursors;
  }

  /** The walk from a failing answer on: that one call, and its failure. */
  lemma FetchFailedAt(replies: seq<Reply>, i: nat, cursor: Option<int>)
    requires i <= |replies| && ReplyAt(replies, i).Failed?
    ensures Fetch(replies[i..], cursor) == Fetched([], [cursor], Some(ReplyAt(replies, i).message))
  {
    if i < |replies| {
      assert replies[i..][0] == replies[i];
    }
  }

  /** The walk from a page with cursor 0 on: that one call and its page. */
  lemma FetchLastAt(replies: seq<Reply>, i: nat, cursor: Option<int>)
    requires i < |replies| && replies[i].Page? && replies[i].nextCursor == 0
    ensures Fetch(replies[i..], cursor) == Fetched([replies[i].ids], [cursor], None)
  {
    assert replies[i..][0] == replies[i];
  }

  /** One turn of the paging loop, at the i-th answer, in a walk from `cursor` that
      has so far gathered `pages` and called with `cursors`: a failure ends the walk
      there, a page with cursor 0 ends it with that page, and any other page lets it
      go on from the next answer with the cursor that page returned. */
  lemma PagingTurn(replies: seq<Reply>, cursor: Option<int>, i: nat, next: int,
                   pages: seq<seq<int>>, cursors: seq<Option<int>>)
    requires i <= |replies|
    requires Fetch(replies, cursor) == After(pages, cursors, Fetch(replies[i..], Some(next)))
    ensures var page := ReplyAt(replies, i);
            && (page.Failed? ==> Fetch(replies, cursor) == Fetched(pages, cursors + [Some(next)], Some(page.message)))
            && (page.Page? && page.nextCursor == 0 ==>
                  Fetch(replies, cursor) == Fetched(pages + [page.ids], cursors + [Some(next)], None))
            && (page.Page? && page.nextCursor != 0 ==>
                  i < |replies| && Fetch(replies, cursor)
                  == After(pages + [page.ids], cursors + [Some(next)], Fetch(replies[i + 1..], Some(page.nextCursor))))
  {
    var page := ReplyAt(replies, i);
    if page.Failed? {
      FetchFailedAt(replies, i, Some(next));
    } else if page.nextCursor == 0 {
      FetchLastAt(replies, i, Some(next));
    } else {
      FetchStep(replies, i, Some(next), pages, cursors);
    }
  }

  /** The walk from the first call, when its page is not the last. */
  lemma FetchFirst(replies: seq<Reply>, cursor: Option<int>)
    requires replies != [] && replies[0].Page? && replies[0].nextCursor != 0
    ensures var rest := Fetch(replies[1..], Some(replies[0].nextCursor));
            Fetch(replies, cursor) == Fetched([replies[0].ids] + rest.pages, [cursor] + rest.cursors, rest.failure)
  {
  }

  /** Adding one page to the union. */
  lemma AllIdsSnoc(pages: seq<seq<int>>, ids: seq<int>)
    ensures AllIds(pages + [ids]) == AllIds(pages) + Elems(ids)
  {
    assert (pages + [ids])[..|pages|] == pages;
  }

  /** Putting one page in front of the union. */
  lemma {:induction false} AllIdsCons(ids: seq<int>, pages: seq<seq<int>>)
    ensures AllIds([ids] + pages) == Elems(ids) + AllIds(pages)
    decreases |pages|
  {
    if pages == [] {
      assert [ids] + pages == [] + [ids];
      AllIdsSnoc([], ids);
    } else {
      var init := pages[..|pages| - 1];
      var last := pages[|pages| - 1];
      assert [ids] + pages == ([ids] + init) + [last];
      AllIdsSnoc([ids] + init, last);
      AllIdsCons(ids, init);
    }
  }

  /** Three pages with cursors 5, 9 and 0: three calls, the first without a cursor and
      the others with 5 and 9, and all three pages are kept. */
  lemma ThreePages(a: seq<int>, b: seq<int>, c: seq<int>)
    ensures Fetch([Page(a, 5), Page(b, 9), Page(c, 0)], None)
            == Fetched([a, b, c], [None, Some(5), Some(9)], None)
  {
    var replies := [Page(a, 5), Page(b, 9), Page(c, 0)];
    assert replies[1..] == [Page(b, 9), Page(c, 0)];
    assert replies[1..][1..] == [Page(c, 0)];
    assert Fetch(replies[1..][1..], Some(9)) == Fetched([c], [Some(9)], None);
    assert Fetch(replies[1..], Some(5)) == Fetched([b, c], [Some(5), Some(9)], None);
  }
}
