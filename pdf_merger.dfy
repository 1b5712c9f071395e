/** Page assembly (src/lib/pdfMerger.ts): merging documents, splitting by
    ranges, extracting, deleting, rotating and inserting blank pages. A
    document is its sequence of pages; loading and saving bytes is the
    identity here, and copying a page between documents keeps it as it is. */
module PdfMerger {
  import opened Common

  /** What is drawn on a page, opaque to the model. */
  datatype PageContent = BlankContent | SourceContent(ref: nat)

  datatype Page = Page(content: PageContent, angle: int, width: real, height: real)

  /** A loaded document whose page list pdf-lib changes in place. Page access
      and insertion check their index as pdf-lib does and fail otherwise. */
  class PdfDocument {
    var pages: seq<Page>

    /** PDFDocument.create() */
    constructor Create()
      ensures pages == []
    {
      pages := [];
    }

    /** PDFDocument.load(bytes) */
    constructor Load(source: seq<Page>)
      ensures pages == source
    {
      pages := source;
    }

    /** addPage(page): append at the end. */
    method AddPage(p: Page)
      modifies this
      ensures pages == old(pages) + [p]
    {
      pages := pages + [p];
    }

    /** getPage(index): index must lie in [0, pageCount - 1]. */
    method GetPage(index: int) returns (r: Result<Page>)
      ensures r.Ok? <==> 0 <= index < |pages|
      ensures r.Ok? ==> r.value == pages[index]
    {
      if 0 <= index < |pages| {
        r := Ok(pages[index]);
      } else {
        r := Err("index out of range");
      }
    }

    /** page.setRotation(angle) on the page at index. */
    method SetRotation(index: nat, angle: int)
      requires index < |pages|
      modifies this
      ensures |pages| == |old(pages)|
      ensures pages[index] == old(pages[index]).(angle := angle)
      ensures forall j :: 0 <= j < |pages| && j != index ==> pages[j] == old(pages[j])
    {
      pages := pages[index := pages[index].(angle := angle)];
    }

    /** insertPage(index, [width, height]): a blank, unrotated page; index
        must lie in [0, pageCount]. */
    method InsertPage(index: int, width: real, height: real) returns (r: Result<()>)
      modifies this
      ensures r.Ok? <==> 0 <= index <= |old(pages)|
      ensures r.Ok? ==> pages == old(pages[..index]) + [Page(BlankContent, 0, width, height)] + old(pages[index..])
      ensures r.Err? ==> pages == old(pages)
    {
      if 0 <= index <= |pages| {
        pages := pages[..index] + [Page(BlankContent, 0, width, height)] + pages[index..];
        r := Ok(());
      } else {
        r := Err("index out of range");
      }
    }
  }

  // ---------------------------------------------------------------------------
  // Reference definitions

  /** The pages of every document, documents in order, pages in order. */
  function Concat(docs: seq<seq<Page>>): seq<Page>
  {
    if docs == [] then [] else Concat(docs[..|docs| - 1]) + docs[|docs| - 1]
  }

  predicate InRange(n: int, indices: seq<int>)
  {
    forall j :: 0 <= j < |indices| ==> 0 <= indices[j] < n
  }

  /** The pages at the given indices, in the given order, repeats included. */
  function Pick(src: seq<Page>, indices: seq<int>): (r: seq<Page>)
    requires InRange(|src|, indices)
    ensures |r| == |indices|
    ensures forall j :: 0 <= j < |r| ==> r[j] == src[indices[j]]
  {
    seq(|indices|, j requires 0 <= j < |indices| => src[indices[j]])
  }

  /** Array.from({ length: end - start + 1 }, (_, i) => start + i): a
      negative length gives no indices at all. */
  function RangeIndices(start: int, end: int): (r: seq<int>)
    ensures |r| == if end < start then 0 else end - start + 1
    ensures forall i :: 0 <= i < |r| ==> r[i] == start + i
  {
    if end < start then [] else seq(end - start + 1, i => start + i)
  }

  /** getPageIndices().filter(i => !toDelete.includes(i)). */
  function KeepIndices(n: nat, toDelete: seq<int>): (r: seq<int>)
  {
    if n == 0 then []
    else KeepIndices(n - 1, toDelete) + (if n - 1 in toDelete then [] else [n - 1])
  }

  predicate StrictlyAscending(s: seq<int>)
  {
    forall i, j :: 0 <= i < j < |s| ==> s[i] < s[j]
  }

  /** The kept indices are exactly the unlisted ones below n, ascending. */
  lemma {:induction false} KeepIndicesSpec(n: nat, toDelete: seq<int>)
    ensures StrictlyAscending(KeepIndices(n, toDelete))
    ensures InRange(n, KeepIndices(n, toDelete))
    ensures forall i :: i in KeepIndices(n, toDelete) <==> 0 <= i < n && i !in toDelete
  {
    if n > 0 {
      KeepIndicesSpec(n - 1, toDelete);
    }
  }

  // ---------------------------------------------------------------------------
  // Operations

  /** mergePdfs: every page of every file, files in order. */
  method MergePdfs(files: seq<seq<Page>>) returns (merged: seq<Page>)
    ensures merged == Concat(files)
  {
    var mergedDoc := new PdfDocument.Create();
    var k := 0;
    while k < |files|
      invariant 0 <= k <= |files|
      invariant mergedDoc.pages == Concat(files[..k])
    {
      var srcDoc := new PdfDocument.Load(files[k]);
      var copied := srcDoc.pages;
      var j := 0;
      while j < |copied|
        invariant 0 <= j <= |copied|
        invariant mergedDoc.pages == Concat(files[..k]) + copied[..j]
      {
        mergedDoc.AddPage(copied[j]);
        j := j + 1;
      }
      assert files[..k + 1][..k] == files[..k];
      assert copied[..j] == copied;
      k := k + 1;
    }
    assert files[..k] == files;
    merged := mergedDoc.pages;
  }

  /** copyPages followed by addPage for each copy into a fresh document;
      copying fails on an index outside the source. */
  method CopyInto(src: seq<Page>, indices: seq<int>) returns (r: Result<seq<Page>>)
    ensures r.Ok? <==> InRange(|src|, indices)
    ensures r.Ok? ==> r.value == Pick(src, indices)
  {
    if !InRange(|src|, indices) {
      return Err("page index out of range");
    }
    var newDoc := new PdfDocument.Create();
    var j := 0;
    while j < |indices|
      invariant 0 <= j <= |indices|
      invariant newDoc.pages == Pick(src, indices[..j])
    {
      newDoc.AddPage(src[indices[j]]);
      j := j + 1;
    }
    assert indices[..j] == indices;
    r := Ok(newDoc.pages);
  }

  /** splitPdf: one document per range, in range order, holding pages start
      to end inclusive; any range reaching outside the source fails it all. */
  method SplitPdf(src: seq<Page>, ranges: seq<(int, int)>) returns (r: Result<seq<seq<Page>>>)
    ensures r.Ok? <==> forall k :: 0 <= k < |ranges| ==> InRange(|src|, RangeIndices(ranges[k].0, ranges[k].1))
    ensures r.Ok? ==> |r.value| == |ranges|
    ensures r.Ok? ==> forall k :: 0 <= k < |ranges| ==>
      InRange(|src|, RangeIndices(ranges[k].0, ranges[k].1)) &&
      r.value[k] == Pick(src, RangeIndices(ranges[k].0, ranges[k].1))
  {
    var results: seq<seq<Page>> := [];
    var k := 0;
    while k < |ranges|
      invariant 0 <= k <= |ranges|
      invariant |results| == k
      invariant forall m :: 0 <= m < k ==> InRange(|src|, RangeIndices(ranges[m].0, ranges[m].1))
      invariant forall m :: 0 <= m < k ==> results[m] == Pick(src, RangeIndices(ranges[m].0, ranges[m].1))
    {
      var (start, end) := ranges[k];
      var indices := RangeIndices(start, end);
      var copied := CopyInto(src, indices);
      if copied.Err? {
        return Err(copied.message);
      }
      results := results + [copied.value];
      k := k + 1;
    }
    r := Ok(results);
  }

  /** extractPages: src[i] for each listed i, in the listed order. */
  method ExtractPages(src: seq<Page>, pageIndices: seq<int>) returns (r: Result<seq<Page>>)
    ensures r.Ok? <==> InRange(|src|, pageIndices)
    ensures r.Ok? ==> |r.value| == |pageIndices|
    ensures r.Ok? ==> forall j :: 0 <= j < |pageIndices| ==> r.value[j] == src[pageIndices[j]]
  {
    r := CopyInto(src, pageIndices);
  }

  /** deletePages: the pages whose index is not listed, in their order. Listed
      indices outside the document are ignored, so it never fails. */
  method DeletePages(src: seq<Page>, toDelete: seq<int>) returns (kept: seq<Page>)
    ensures InRange(|src|, KeepIndices(|src|, toDelete))
    ensures kept == Pick(src, KeepIndices(|src|, toDelete))
  {
    KeepIndicesSpec(|src|, toDelete);
    var r := CopyInto(src, KeepIndices(|src|, toDelete));
    kept := r.value;
  }

  /** JavaScript's `a % 360`: truncating, so the sign follows a. */
  function AngleRem(a: int): (r: int)
    ensures a >= 0 ==> 0 <= r < 360
    ensures a < 0 ==> -360 < r <= 0
    ensures -360 < a < 360 ==> r == a
  {
    if a >= 0 then a % 360 else -((-a) % 360)
  }

  /** rotatePage: the target page's angle becomes (current + degrees) % 360
      with JavaScript's remainder; no other page changes. */
  method RotatePage(src: seq<Page>, pageIndex: int, degrees: int) returns (r: Result<seq<Page>>)
    ensures r.Ok? <==> 0 <= pageIndex < |src|
    ensures r.Ok? ==> |r.value| == |src|
    ensures r.Ok? ==> r.value[pageIndex] == src[pageIndex].(angle := AngleRem(src[pageIndex].angle + degrees))
    ensures r.Ok? ==> forall j :: 0 <= j < |src| && j != pageIndex ==> r.value[j] == src[j]
  {
    var doc := new PdfDocument.Load(src);
    var page := doc.GetPage(pageIndex);
    if page.Err? {
      return Err(page.message);
    }
    var current := page.value.angle;
    doc.SetRotation(pageIndex, AngleRem(current + degrees));
    r := Ok(doc.pages);
  }

  /** addBlankPage: a blank page sized like the reference page
      min(after, count - 1), inserted at after + 1. */
  method AddBlankPage(src: seq<Page>, afterPageIndex: int) returns (r: Result<seq<Page>>)
    ensures r.Ok? <==> 0 <= afterPageIndex < |src|
    ensures r.Ok? ==> (r.value == src[..afterPageIndex + 1]
      + [Page(BlankContent, 0, src[afterPageIndex].width, src[afterPageIndex].height)]
      + src[afterPageIndex + 1..])
  {
    var doc := new PdfDocument.Load(src);
    var refIndex := if afterPageIndex < |src| - 1 then afterPageIndex else |src| - 1;
    var refPage := doc.GetPage(refIndex);
    if refPage.Err? {
      return Err(refPage.message);
    }
    var inserted := doc.InsertPage(afterPageIndex + 1, refPage.value.width, refPage.value.height);
    if inserted.Err? {
      return Err(inserted.message);
    }
    r := Ok(doc.pages);
  }

  // ---------------------------------------------------------------------------
  // Properties

  /** Merging a split list of files is merging each part and joining them. */
  lemma {:induction false} ConcatSplit(docs: seq<seq<Page>>, k: nat)
    requires k <= |docs|
    ensures Concat(docs) == Concat(docs[..k]) + Concat(docs[k..])
    decreases |docs| - k
  {
    if k < |docs| {
      ConcatSplit(docs, k + 1);
      var n := |docs|;
      var tail := docs[k..];
      assert docs[..k + 1][..k] == docs[..k];
      assert Concat(docs[..k + 1]) == Concat(docs[..k]) + docs[k];
      ConcatCons(docs[k], docs[k + 1..]);
      assert tail == [docs[k]] + docs[k + 1..];
    } else {
      assert docs[..k] == docs;
    }
  }

  lemma {:induction false} ConcatCons(d: seq<Page>, rest: seq<seq<Page>>)
    ensures Concat([d] + rest) == d + Concat(rest)
    decreases |rest|
  {
    if rest != [] {
      var all := [d] + rest;
      assert all[..|all| - 1] == [d] + rest[..|rest| - 1];
      ConcatCons(d, rest[..|rest| - 1]);
    } else {
      assert [d] + rest == [d];
      assert [d][..0] == [];
    }
  }

  /** No input document has more pages than the merged one. */
  lemma {:induction false} ConcatPageCount(docs: seq<seq<Page>>, k: nat)
    requires k < |docs|
    ensures |Concat(docs)| >= |docs[k]|
    decreases |docs|
  {
    if k < |docs| - 1 {
      ConcatPageCount(docs[..|docs| - 1], k);
    }
  }

  /** Two strictly ascending lists with the same members are the same list. */
  lemma {:induction false} AscendingUnique(a: seq<int>, b: seq<int>)
    requires StrictlyAscending(a) && StrictlyAscending(b)
    requires forall x :: x in a <==> x in b
    ensures a == b
    decreases |a|
  {
    SameMembersBothEmpty(a, b);
    if a != [] {
      assert a[0] in a;
      assert b[0] in b;
      AscendingHeadLeast(a, b[0]);
      AscendingHeadLeast(b, a[0]);
      forall x ensures x in a[1..] <==> x in b[1..] {
        AscendingTail(a, x);
        AscendingTail(b, x);
      }
      AscendingUnique(a[1..], b[1..]);
      assert a == [a[0]] + a[1..];
      assert b == [b[0]] + b[1..];
    }
  }

  /** Lists with the same members are empty together. */
  lemma SameMembersBothEmpty(a: seq<int>, b: seq<int>)
    requires forall x :: x in a <==> x in b
    ensures a == [] <==> b == []
  {
    if a != [] {
      var x := a[0];
      assert x in a;
      assert x in b;
    }
    if b != [] {
      var x := b[0];
      assert x in b;
      assert x in a;
    }
  }

  /** The head of an ascending list is its least member. */
  lemma AscendingHeadLeast(a: seq<int>, x: int)
    requires StrictlyAscending(a) && x in a
    ensures a[0] <= x
  {
    var i :| 0 <= i < |a| && a[i] == x;
    if i > 0 {
      assert a[0] < a[i];
    }
  }

  /** The tail of an ascending list holds every member but the head. */
  lemma AscendingTail(a: seq<int>, x: int)
    requires StrictlyAscending(a) && a != []
    ensures x in a[1..] <==> x in a && x != a[0]
  {
    if x in a[1..] {
      var i :| 0 <= i < |a| - 1 && a[1..][i] == x;
      assert a[0] < a[i + 1];
    }
    if x in a && x != a[0] {
      var i :| 0 <= i < |a| && a[i] == x;
      assert a[1..][i - 1] == x;
    }
  }

  /** Extracting an ascending, repeat-free set of pages gives the same document
      as deleting every other page. */
  lemma ExtractIsDeleteComplement(src: seq<Page>, keep: seq<int>, toDelete: seq<int>)
    requires StrictlyAscending(keep) && InRange(|src|, keep)
    requires forall i :: 0 <= i < |src| ==> (i in toDelete <==> i !in keep)
    ensures InRange(|src|, KeepIndices(|src|, toDelete))
    ensures Pick(src, keep) == Pick(src, KeepIndices(|src|, toDelete))
  {
    KeepIndicesSpec(|src|, toDelete);
    AscendingUnique(keep, KeepIndices(|src|, toDelete));
  }

  /** Four quarter turns bring a page back to its angle in [0, 360). */
  lemma FourQuarterTurns(angle: int)
    requires 0 <= angle < 360
    ensures AngleRem(AngleRem(AngleRem(AngleRem(angle + 90) + 90) + 90) + 90) == angle
  {
    QuarterTurn(angle);
    var a1 := AngleRem(angle + 90);
    QuarterTurn(a1);
    var a2 := AngleRem(a1 + 90);
    QuarterTurn(a2);
    var a3 := AngleRem(a2 + 90);
    QuarterTurn(a3);
  }

  /** A quarter turn from an angle in [0, 360) wraps at 360. */
  lemma QuarterTurn(x: int)
    requires 0 <= x < 360
    ensures AngleRem(x + 90) == if x < 270 then x + 90 else x - 270
  {
    if x >= 270 {
      assert (x + 90) % 360 == x - 270;
    }
  }

  /** The remainder keeps the sign of the sum: -90 turned by -180 is -270,
      not 90 as with a floored remainder. */
  lemma NegativeAngleStaysNegative()
    ensures AngleRem(-90 + -180) == -270
  {
  }

  /** Deleting nothing keeps the document. */
  lemma DeleteNothing(src: seq<Page>)
    ensures InRange(|src|, KeepIndices(|src|, []))
    ensures Pick(src, KeepIndices(|src|, [])) == src
  {
    KeepEverything(|src|);
  }

  lemma {:induction false} KeepEverything(n: nat)
    ensures KeepIndices(n, []) == seq(n, i => i)
  {
    if n > 0 {
      KeepEverything(n - 1);
      assert seq(n, i => i) == seq(n - 1, i => i) + [n - 1];
    }
  }
}
