/** The page manager (src/components/modals/PageManagerModal.tsx): a list of
    page numbers that the user reorders and prunes, and that forwards each
    row's button to the page requests of its caller. The modal itself and
    what the caller does with a request are not modelled; the requests are
    recorded in order. */
module PageManagerModal {
  import opened Common

  /** The callbacks a row's buttons call. */
  datatype PageRequest =
    | MovePage(from: int, to: int)
    | RotatePage(page: int, degrees: int)
    | DeletePage(page: int)
    | AddBlankPageAfter(page: int)

  /** `Array.from({ length: totalPages }, (_, i) => i + 1)` */
  function InitialPages(totalPages: nat): (r: seq<int>)
    ensures |r| == totalPages
    ensures forall i :: 0 <= i < totalPages ==> r[i] == i + 1
  {
    seq(totalPages, i requires 0 <= i < totalPages => i + 1)
  }

  /** The initial pages are distinct and hold exactly 1..totalPages. */
  lemma InitialPagesDistinct(totalPages: nat)
    ensures NoDuplicates(InitialPages(totalPages))
    ensures forall p :: p in InitialPages(totalPages) <==> 1 <= p <= totalPages
  {
    var r := InitialPages(totalPages);
    forall p | 1 <= p <= totalPages ensures p in r {
      assert r[p - 1] == p;
    }
  }

  class PageList {
    var pages: seq<int>
    var requests: seq<PageRequest>

    /** The rows are keyed by page number, so the numbers are distinct. */
    predicate Valid()
      reads this
    {
      NoDuplicates(pages)
    }

    constructor (totalPages: nat)
      ensures pages == InitialPages(totalPages) && requests == [] && Valid()
    {
      pages := InitialPages(totalPages);
      requests := [];
      InitialPagesDistinct(totalPages);
    }

    /** Move up: the row swaps with the one above it, if there is one. */
    method MoveUp(index: nat)
      requires Valid() && index < |pages|
      modifies this
      ensures Valid() && multiset(pages) == multiset(old(pages))
      ensures index == 0 ==> pages == old(pages) && requests == old(requests)
      ensures index > 0 ==>
        && pages == Swapped(old(pages), index - 1, index)
        && requests == old(requests) + [MovePage(old(pages)[index], old(pages)[index - 1])]
    {
      if index > 0 {
        var pageNum := pages[index];
        var above := pages[index - 1];
        SwappedPermutes(pages, index - 1, index);
        pages := SwapCopy(pages, index - 1, index);
        requests := requests + [MovePage(pageNum, above)];
      }
    }

    /** Move down: the row swaps with the one below it, if there is one. */
    method MoveDown(index: nat)
      requires Valid() && index < |pages|
      modifies this
      ensures Valid() && multiset(pages) == multiset(old(pages))
      ensures index == |old(pages)| - 1 ==> pages == old(pages) && requests == old(requests)
      ensures index < |old(pages)| - 1 ==>
        && pages == Swapped(old(pages), index, index + 1)
        && requests == old(requests) + [MovePage(old(pages)[index], old(pages)[index + 1])]
    {
      if index < |pages| - 1 {
        var pageNum := pages[index];
        var below := pages[index + 1];
        SwappedPermutes(pages, index, index + 1);
        pages := SwapCopy(pages, index, index + 1);
        requests := requests + [MovePage(pageNum, below)];
      }
    }

    /** Rotate always asks for a quarter turn clockwise. */
    method Rotate(index: nat)
      requires index < |pages|
      modifies this
      ensures pages == old(pages) && requests == old(requests) + [RotatePage(old(pages)[index], 90)]
    {
      requests := requests + [RotatePage(pages[index], 90)];
    }

    /** Add blank asks for a page after this one. */
    method AddBlank(index: nat)
      requires index < |pages|
      modifies this
      ensures pages == old(pages) && requests == old(requests) + [AddBlankPageAfter(old(pages)[index])]
    {
      requests := requests + [AddBlankPageAfter(pages[index])];
    }

    /** Delete acts only while more than one page remains; it filters that
        page number out. */
    method Delete(index: nat)
      requires Valid() && index < |pages|
      modifies this
      ensures Valid()
      ensures |old(pages)| <= 1 ==> pages == old(pages) && requests == old(requests)
      ensures |old(pages)| > 1 ==>
        && pages == Without(old(pages), old(pages)[index])
        && |pages| == |old(pages)| - 1
        && requests == old(requests) + [DeletePage(old(pages)[index])]
    {
      if |pages| > 1 {
        var pageNum := pages[index];
        WithoutOnce(pages, pageNum);
        WithoutNoDuplicates(pages, pageNum);
        pages := Without(pages, pageNum);
        requests := requests + [DeletePage(pageNum)];
      }
    }
  }

  // ---------------------------------------------------------------------------
  // Properties

  /** Moving a row up and then moving it back down restores the list. */
  lemma UpThenDownRestores(pages: seq<int>, index: nat)
    requires 0 < index < |pages|
    ensures Swapped(Swapped(pages, index - 1, index), index - 1, index) == pages
  {
    SwappedPermutes(pages, index - 1, index);
  }

  /** Deleting never empties a list that had a page: a list of one page is
      kept, a longer one loses exactly the deleted number, keeping the
      others in order. */
  lemma {:induction false} DeleteKeepsRest(pages: seq<int>, index: nat)
    requires NoDuplicates(pages) && index < |pages| && |pages| > 1
    ensures var r := Without(pages, pages[index]);
      && r != [] && pages[index] !in r
      && r == pages[..index] + pages[index + 1..]
  {
    var v := pages[index];
    var pre, post := pages[..index], pages[index + 1..];
    assert pages == pre + [v] + post;
    assert v !in pre by {
      forall j | 0 <= j < |pre| ensures pre[j] != v {
        assert pre[j] == pages[j];
      }
    }
    assert v !in post by {
      forall j | 0 <= j < |post| ensures post[j] != v {
        assert post[j] == pages[index + 1 + j];
      }
    }
    WithoutSplit(pre, v, post);
  }

  /** Filtering out a value that occurs once, between pre and post, joins
      pre and post. */
  lemma WithoutSplit(pre: seq<int>, v: int, post: seq<int>)
    requires v !in pre && v !in post
    ensures Without(pre + [v] + post, v) == pre + post
  {
    WithoutAbsent(pre, v);
    WithoutAbsent(post, v);
    WithoutSelf(v);
    WithoutAppend(pre, [v], v);
    assert Without(pre + [v], v) == pre;
    WithoutAppend(pre + [v], post, v);
  }

  lemma WithoutSelf(v: int)
    ensures Without([v], v) == []
  {
    assert [v][1..] == [];
  }
}
