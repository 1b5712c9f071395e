/** The list of recently used signatures behind the signature modal
    (src/components/modals/SignatureModal.tsx): a localStorage slot holding
    a JSON array of data URLs, most recent first, at most five. The
    signature pad, the canvas and FileReader are not modelled; the pad is
    represented by whether it exists, whether it is empty and the data URL
    it would export. */
module SignatureModal {
  import opened Common

  const MaxSaved := 5

  /** The localStorage slot: no item, an item that is not valid JSON, or a
      stored array of data URLs. */
  datatype Slot = Missing | Corrupt | Stored(list: seq<string>)

  /** getSavedSignatures: the stored list, or [] when the slot is missing
      or its JSON does not parse. */
  function GetSavedSignatures(slot: Slot): (r: seq<string>)
    ensures !slot.Stored? ==> r == []
    ensures slot.Stored? ==> r == slot.list
  {
    match slot
    case Missing => []
    case Corrupt => []
    case Stored(list) => list
  }

  /** `xs.slice(0, n)` */
  function Prefix<T>(xs: seq<T>, n: nat): (r: seq<T>)
    ensures |r| == if |xs| <= n then |xs| else n
    ensures r == xs[..|r|]
  {
    if |xs| <= n then xs else xs[..n]
  }

  /** `[dataUrl, ...saved.filter(s => s !== dataUrl)].slice(0, 5)` */
  function MostRecent(saved: seq<string>, dataUrl: string): (r: seq<string>)
    ensures 1 <= |r| <= MaxSaved && r[0] == dataUrl
  {
    Prefix([dataUrl] + Without(saved, dataUrl), MaxSaved)
  }

  // ---------------------------------------------------------------------------
  // Properties of the most-recent list

  /** The new entry occurs once, at the front, and the others are the
      previous entries other than it, in their previous order, cut to four. */
  lemma MostRecentShape(saved: seq<string>, dataUrl: string)
    ensures var r := MostRecent(saved, dataUrl);
      && r[1..] == Prefix(Without(saved, dataUrl), MaxSaved - 1)
      && dataUrl !in r[1..]
      && multiset(r)[dataUrl] == 1
      && IsSubsequence(r[1..], saved)
  {
    var w := Without(saved, dataUrl);
    var r := MostRecent(saved, dataUrl);
    assert r[1..] == Prefix(w, MaxSaved - 1);
    WithoutMembers(saved, dataUrl);
    assert dataUrl !in r[1..];
    assert r == [dataUrl] + r[1..];
    assert multiset(r) == multiset{dataUrl} + multiset(r[1..]);
    WithoutIsSubsequence(saved, dataUrl);
    PrefixIsSubsequence(w, saved, MaxSaved - 1);
  }

  /** A prefix of a subsequence is a subsequence. */
  lemma {:induction false} PrefixIsSubsequence<T>(xs: seq<T>, ys: seq<T>, n: nat)
    requires IsSubsequence(xs, ys)
    ensures IsSubsequence(Prefix(xs, n), ys)
    decreases |ys|
  {
    var p := Prefix(xs, n);
    if p != [] && n > 0 {
      assert ys != [];
      if xs[0] == ys[0] {
        assert p[1..] == Prefix(xs[1..], n - 1);
        PrefixIsSubsequence(xs[1..], ys[1..], n - 1);
      } else {
        PrefixIsSubsequence(xs, ys[1..], n);
      }
    }
  }

  /** A duplicate-free list stays duplicate-free. */
  lemma MostRecentNoDuplicates(saved: seq<string>, dataUrl: string)
    requires NoDuplicates(saved)
    ensures NoDuplicates(MostRecent(saved, dataUrl))
  {
    var w := Without(saved, dataUrl);
    WithoutNoDuplicates(saved, dataUrl);
    WithoutMembers(saved, dataUrl);
    var full := [dataUrl] + w;
    assert NoDuplicates(full) by {
      forall i, j | 0 <= i < j < |full| ensures full[i] != full[j] {
        if i == 0 {
          assert full[j] == w[j - 1];
        } else {
          assert full[i] == w[i - 1] && full[j] == w[j - 1];
        }
      }
    }
  }

  /** Saving the same data URL twice in a row leaves the list as saving it
      once did. */
  lemma MostRecentIdempotent(saved: seq<string>, dataUrl: string)
    ensures MostRecent(MostRecent(saved, dataUrl), dataUrl) == MostRecent(saved, dataUrl)
  {
    var r := MostRecent(saved, dataUrl);
    MostRecentShape(saved, dataUrl);
    assert r == [dataUrl] + r[1..];
    WithoutAppend([dataUrl], r[1..], dataUrl);
    assert Without([dataUrl], dataUrl) == [];
    WithoutAbsent(r[1..], dataUrl);
    assert Without(r, dataUrl) == r[1..];
  }

  // ---------------------------------------------------------------------------
  // The modal

  /** The signature pad: its isEmpty() and its toDataURL('image/png'). */
  datatype Pad = Pad(isEmpty: bool, dataUrl: string)

  /** The slot in localStorage and what the modal hands to onConfirm. */
  class SignatureStore {
    var slot: Slot
    var confirmed: seq<string>

    constructor (initial: Slot)
      ensures slot == initial && confirmed == []
    {
      slot := initial;
      confirmed := [];
    }

    /** saveSignature: read the list, put the data URL in front, write the
        list back. `writeOk` is whether localStorage.setItem accepts the
        write; when it throws (a quota exceeded, say) the slot keeps what it
        held and the throw reaches the caller, which `ok` reports. */
    method SaveSignature(dataUrl: string, writeOk: bool) returns (ok: bool)
      modifies this
      ensures ok == writeOk
      ensures ok ==> slot == Stored(MostRecent(GetSavedSignatures(old(slot)), dataUrl))
      ensures !ok ==> slot == old(slot)
      ensures confirmed == old(confirmed)
    {
      var saved := GetSavedSignatures(slot);
      var updated := MostRecent(saved, dataUrl);
      if !writeOk {
        return false;
      }
      slot := Stored(updated);
      ok := true;
    }

    /** handleConfirmDraw: without a pad or with an empty one nothing is
        saved and nothing is confirmed; a save that throws ends the handler
        before onConfirm. */
    method ConfirmDraw(pad: Option<Pad>, writeOk: bool)
      modifies this
      ensures pad.None? || pad.value.isEmpty ==> slot == old(slot) && confirmed == old(confirmed)
      ensures pad.Some? && !pad.value.isEmpty && writeOk ==>
        && slot == Stored(MostRecent(GetSavedSignatures(old(slot)), pad.value.dataUrl))
        && confirmed == old(confirmed) + [pad.value.dataUrl]
      ensures !writeOk ==> slot == old(slot) && confirmed == old(confirmed)
    {
      if pad.None? || pad.value.isEmpty {
        return;
      }
      var ok := SaveSignature(pad.value.dataUrl, writeOk);
      if !ok {
        return;
      }
      confirmed := confirmed + [pad.value.dataUrl];
    }

    /** The upload's reader.onload: save, then confirm; a save that throws
        ends it before onConfirm. */
    method ConfirmUpload(dataUrl: string, writeOk: bool)
      modifies this
      ensures writeOk ==> slot == Stored(MostRecent(GetSavedSignatures(old(slot)), dataUrl))
      ensures writeOk ==> confirmed == old(confirmed) + [dataUrl]
      ensures !writeOk ==> slot == old(slot) && confirmed == old(confirmed)
    {
      var ok := SaveSignature(dataUrl, writeOk);
      if !ok {
        return;
      }
      confirmed := confirmed + [dataUrl];
    }

    /** handleSavedClick: confirms without touching the list. */
    method ConfirmSaved(dataUrl: string)
      modifies this
      ensures slot == old(slot) && confirmed == old(confirmed) + [dataUrl]
    {
      confirmed := confirmed + [dataUrl];
    }
  }
}
