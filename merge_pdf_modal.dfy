/** The merge dialog's file list (src/components/modals/MergePdfModal.tsx):
    files picked by the user are kept in order, can be removed or moved up
    one place, and are handed to the merge once there are at least two. The
    file picker, the File objects' contents and the modal are not modelled;
    a file is its name, MIME type and size, and the merges handed on are
    recorded in order. */
module MergePdfModal {
  import opened Common

  datatype File = File(name: string, mimeType: string, size: nat)

  const PdfType := "application/pdf"

  /** `files.filter(f => f.type === 'application/pdf')` */
  function PdfFiles(fs: seq<File>): (r: seq<File>)
    ensures |r| <= |fs|
    ensures forall i :: 0 <= i < |r| ==> r[i].mimeType == PdfType && r[i] in fs
    ensures forall i :: 0 <= i < |fs| && fs[i].mimeType == PdfType ==> fs[i] in r
  {
    if fs == [] then []
    else
      var rest := PdfFiles(fs[1..]);
      assert forall i :: 1 <= i < |fs| ==> fs[i] == fs[1..][i - 1];
      (if fs[0].mimeType == PdfType then [fs[0]] else []) + rest
  }

  /** The PDFs of a selection keep the order they were selected in. */
  lemma {:induction false} PdfFilesInOrder(fs: seq<File>)
    ensures IsSubsequence(PdfFiles(fs), fs)
  {
    if fs != [] {
      PdfFilesInOrder(fs[1..]);
      if fs[0].mimeType == PdfType {
        assert PdfFiles(fs)[1..] == PdfFiles(fs[1..]);
      } else {
        assert PdfFiles(fs) == PdfFiles(fs[1..]);
        assert PdfFiles(fs) != [] ==> PdfFiles(fs)[0] != fs[0];
      }
    }
  }

  /** `prev.filter((_, i) => i !== index)`: an index outside the list
      matches nothing. */
  function RemoveAt(fs: seq<File>, index: int): (r: seq<File>)
    ensures 0 <= index < |fs| ==>
      && |r| == |fs| - 1
      && (forall k :: 0 <= k < index ==> r[k] == fs[k])
      && (forall k :: index <= k < |r| ==> r[k] == fs[k + 1])
    ensures !(0 <= index < |fs|) ==> r == fs
  {
    if 0 <= index < |fs| then fs[..index] + fs[index + 1..] else fs
  }

  class FileList {
    var files: seq<File>
    var isOpen: bool
    var merged: seq<seq<File>>

    constructor ()
      ensures files == [] && isOpen && merged == []
    {
      files := [];
      isOpen := true;
      merged := [];
    }

    /** addFiles: the PDFs of the selection (none when there is no
        selection) go after the files already listed. */
    method AddFiles(selection: Option<seq<File>>)
      modifies this
      ensures selection.None? ==> files == old(files)
      ensures selection.Some? ==> files == old(files) + PdfFiles(selection.value)
      ensures isOpen == old(isOpen) && merged == old(merged)
    {
      var picked := if selection.Some? then selection.value else [];
      files := files + PdfFiles(picked);
    }

    /** remove */
    method Remove(index: int)
      modifies this
      ensures files == RemoveAt(old(files), index)
      ensures isOpen == old(isOpen) && merged == old(merged)
    {
      files := RemoveAt(files, index);
    }

    /** moveUp: nothing for the first row; otherwise the row swaps with
        the one above. */
    method MoveUp(index: nat)
      requires index < |files|
      modifies this
      ensures index == 0 ==> files == old(files)
      ensures index > 0 ==> files == Swapped(old(files), index - 1, index)
      ensures multiset(files) == multiset(old(files))
      ensures isOpen == old(isOpen) && merged == old(merged)
    {
      if index == 0 {
        return;
      }
      SwappedPermutes(files, index - 1, index);
      files := SwapCopy(files, index - 1, index);
    }

    /** handleMerge: with at least two files they are handed on, the list
        is emptied and the dialog closes; otherwise nothing happens. */
    method HandleMerge()
      modifies this
      ensures |old(files)| >= 2 ==> merged == old(merged) + [old(files)] && files == [] && !isOpen
      ensures |old(files)| < 2 ==> files == old(files) && merged == old(merged) && isOpen == old(isOpen)
    {
      if |files| >= 2 {
        merged := merged + [files];
        files := [];
        isOpen := false;
      }
    }
  }

  // ---------------------------------------------------------------------------
  // Properties

  predicate AllPdf(fs: seq<File>)
  {
    forall i :: 0 <= i < |fs| ==> fs[i].mimeType == PdfType
  }

  /** Whatever is added, removed or moved, every listed file stays a PDF,
      so every merge handed on consists of PDFs only. */
  lemma ListStaysPdf(fs: seq<File>, selection: seq<File>, index: int, up: nat)
    requires AllPdf(fs)
    ensures AllPdf(fs + PdfFiles(selection))
    ensures AllPdf(RemoveAt(fs, index))
    ensures up < |fs| ==> AllPdf(Swapped(fs, if up == 0 then 0 else up - 1, up))
  {
    var added := fs + PdfFiles(selection);
    assert forall i :: |fs| <= i < |added| ==> added[i] == PdfFiles(selection)[i - |fs|];
  }

  /** Removal drops exactly the entry at that index. */
  lemma RemoveDropsOne(fs: seq<File>, index: int)
    requires 0 <= index < |fs|
    ensures multiset(RemoveAt(fs, index)) + multiset{fs[index]} == multiset(fs)
  {
    assert fs == fs[..index] + [fs[index]] + fs[index + 1..];
  }
}
