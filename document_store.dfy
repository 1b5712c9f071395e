/** The saved-document store (src/lib/documentStore.ts): an IndexedDB object
    store keyed by the document's `id`, modelled as a map from id to
    document. Opening the database, transactions and their error callbacks
    are browser I/O and are not modelled; every operation completes. */
module DocumentStore {
  import opened Common
  import opened Types

  /** `auditLog.some(e => e.action === 'Digitally Signed')`. */
  function IsSigned(log: seq<AuditEntry>): (b: bool)
    ensures b <==> exists i :: 0 <= i < |log| && log[i].action == "Digitally Signed"
  {
    if log == [] then false
    else if log[0].action == "Digitally Signed" then true
    else
      var b := IsSigned(log[1..]);
      assert forall i :: 1 <= i < |log| ==> log[i] == log[1..][i - 1];
      b
  }

  /** The metadata getAllDocumentMeta lists for one document. */
  function Meta(d: SavedDocument): (m: DocumentMeta)
    ensures m.id == d.id && m.filename == d.filename && m.updatedAt == d.updatedAt
    ensures (m.thumbnail, m.createdAt, m.pageCount, m.fileSize) == (d.thumbnail, d.createdAt, d.pageCount, d.fileSize)
    ensures m.annotationCount == |d.annotations|
    ensures m.isSigned <==> exists i :: 0 <= i < |d.auditLog| && d.auditLog[i].action == "Digitally Signed"
  {
    DocumentMeta(d.id, d.filename, d.thumbnail, d.createdAt, d.updatedAt, d.pageCount,
                 d.fileSize, |d.annotations|, IsSigned(d.auditLog))
  }

  /** Newest first by the time `new Date(updatedAt).getTime()` gives. */
  predicate NewestFirst(ms: seq<DocumentMeta>, timeOf: string -> int)
  {
    forall p, q :: 0 <= p < q < |ms| ==> timeOf(ms[p].updatedAt) >= timeOf(ms[q].updatedAt)
  }

  /** `metas.sort((a, b) => time(b) - time(a))`, in place, by insertion. */
  method SortNewestFirst(a: array<DocumentMeta>, timeOf: string -> int)
    modifies a
    ensures NewestFirst(a[..], timeOf)
    ensures multiset(a[..]) == multiset(old(a[..]))
  {
    if a.Length == 0 {
      return;
    }
    var i := 1;
    while i < a.Length
      invariant 1 <= i <= a.Length
      invariant NewestFirst(a[..i], timeOf)
      invariant multiset(a[..]) == multiset(old(a[..]))
    {
      InsertNewest(a, i, timeOf);
      i := i + 1;
    }
    assert a[..a.Length] == a[..];
  }

  /** Moves a[i] left past the entries older than it, so that a[..i + 1]
      is newest first. */
  method InsertNewest(a: array<DocumentMeta>, i: nat, timeOf: string -> int)
    requires 1 <= i < a.Length
    requires NewestFirst(a[..i], timeOf)
    modifies a
    ensures NewestFirst(a[..i + 1], timeOf)
    ensures multiset(a[..]) == multiset(old(a[..]))
  {
    var j := i;
    while j > 0 && timeOf(a[j - 1].updatedAt) < timeOf(a[j].updatedAt)
      invariant 0 <= j <= i
      invariant multiset(a[..]) == multiset(old(a[..]))
      invariant forall p, q :: 0 <= p < q <= i && q != j ==>
                  timeOf(a[p].updatedAt) >= timeOf(a[q].updatedAt)
    {
      SwapKeepsMultiset(a, j - 1, j);
      j := j - 1;
    }
  }

  /** Swapping two entries keeps the array's elements. */
  method SwapKeepsMultiset(a: array<DocumentMeta>, x: nat, y: nat)
    requires x < y < a.Length
    modifies a
    ensures a[..] == old(a[..])[x := old(a[y])][y := old(a[x])]
    ensures multiset(a[..]) == multiset(old(a[..]))
  {
    a[x], a[y] := a[y], a[x];
  }

  /** The object store. Its key path is `id`: every document is stored
      under its own id. */
  class Store {
    var docs: map<string, SavedDocument>

    ghost predicate Valid()
      reads this
    {
      forall id :: id in docs ==> docs[id].id == id
    }

    constructor ()
      ensures docs == map[] && Valid()
    {
      docs := map[];
    }

    function Get(id: string): Option<SavedDocument>
      reads this
    {
      if id in docs then Some(docs[id]) else None
    }

    /** saveDocument: a put under the document's id. */
    method SaveDocument(doc: SavedDocument)
      requires Valid()
      modifies this
      ensures Valid()
      ensures docs == old(docs)[doc.id := doc]
      ensures Get(doc.id) == Some(doc)
      ensures forall other :: other != doc.id ==> Get(other) == old(Get(other))
    {
      docs := docs[doc.id := doc];
    }

    /** getDocument: the document stored under that id, if any. */
    method GetDocument(id: string) returns (r: Option<SavedDocument>)
      requires Valid()
      ensures r.Some? <==> id in docs
      ensures r.Some? ==> r.value == docs[id] && r.value.id == id
    {
      if id in docs {
        r := Some(docs[id]);
      } else {
        r := None;
      }
    }

    /** deleteDocument: exactly that id goes. */
    method DeleteDocument(id: string)
      requires Valid()
      modifies this
      ensures Valid()
      ensures docs == old(docs) - {id}
      ensures Get(id) == None
      ensures forall other :: other != id ==> Get(other) == old(Get(other))
    {
      docs := docs - {id};
    }

    /** renameDocument: nothing for a missing id; otherwise the filename and
        the update time `now` change and nothing else. */
    method RenameDocument(id: string, filename: string, now: string)
      requires Valid()
      modifies this
      ensures Valid()
      ensures id !in old(docs) ==> docs == old(docs)
      ensures id in old(docs) ==> docs == old(docs)[id := old(docs)[id].(filename := filename, updatedAt := now)]
    {
      var doc := GetDocument(id);
      if doc.None? {
        return;
      }
      var renamed := doc.value.(filename := filename, updatedAt := now);
      SaveDocument(renamed);
    }

    /** objectStore.getAll(): every stored document once. */
    method GetAll() returns (all: seq<SavedDocument>)
      requires Valid()
      ensures |all| == |docs|
      ensures forall k :: 0 <= k < |all| ==> all[k].id in docs && docs[all[k].id] == all[k]
      ensures forall id :: id in docs ==> docs[id] in all
      ensures forall p, q :: 0 <= p < q < |all| ==> all[p].id != all[q].id
    {
      all := [];
      var rest := docs.Keys;
      while rest != {}
        invariant rest <= docs.Keys
        invariant |all| + |rest| == |docs|
        invariant forall k :: 0 <= k < |all| ==> all[k].id in docs && docs[all[k].id] == all[k]
        invariant forall k :: 0 <= k < |all| ==> all[k].id !in rest
        invariant forall id :: id in docs && id !in rest ==> docs[id] in all
        invariant forall p, q :: 0 <= p < q < |all| ==> all[p].id != all[q].id
        decreases |rest|
      {
        var id :| id in rest;
        all := all + [docs[id]];
        rest := rest - {id};
      }
    }

    /** getAllDocumentMeta: one entry per stored document, projected by
        Meta and ordered newest first. */
    method GetAllDocumentMeta(timeOf: string -> int) returns (metas: seq<DocumentMeta>)
      requires Valid()
      ensures |metas| == |docs|
      ensures forall m :: m in metas ==> m.id in docs && m == Meta(docs[m.id])
      ensures forall id :: id in docs ==> Meta(docs[id]) in metas
      ensures NewestFirst(metas, timeOf)
    {
      var all := GetAll();
      var a := new DocumentMeta[|all|](i requires 0 <= i < |all| => Meta(all[i]));
      ghost var projected := a[..];
      SortNewestFirst(a, timeOf);
      metas := a[..];
      ProjectedMetas(docs, all, projected, metas);
    }
  }

  /** Projecting every stored document by Meta and reordering the result
      lists each document's metadata, and nothing else. */
  lemma ProjectedMetas(docs: map<string, SavedDocument>, all: seq<SavedDocument>,
                       projected: seq<DocumentMeta>, metas: seq<DocumentMeta>)
    requires forall k :: 0 <= k < |all| ==> all[k].id in docs && docs[all[k].id] == all[k]
    requires forall id :: id in docs ==> docs[id] in all
    requires |projected| == |all| && forall k :: 0 <= k < |all| ==> projected[k] == Meta(all[k])
    requires multiset(metas) == multiset(projected)
    ensures |metas| == |all|
    ensures forall m :: m in metas ==> m.id in docs && m == Meta(docs[m.id])
    ensures forall id :: id in docs ==> Meta(docs[id]) in metas
  {
    assert |metas| == |multiset(metas)| == |multiset(projected)| == |projected|;
    forall m | m in metas
      ensures m.id in docs && m == Meta(docs[m.id])
    {
      assert m in multiset(projected);
      var k :| 0 <= k < |projected| && projected[k] == m;
    }
    forall id | id in docs
      ensures Meta(docs[id]) in metas
    {
      var k :| 0 <= k < |all| && all[k] == docs[id];
      assert projected[k] in multiset(metas);
    }
  }

  /** A document that was once signed stays listed as signed whatever is
      appended to its audit log. */
  lemma SignedStaysSigned(log: seq<AuditEntry>, more: seq<AuditEntry>)
    requires IsSigned(log)
    ensures IsSigned(log + more)
  {
    var i :| 0 <= i < |log| && log[i].action == "Digitally Signed";
    assert (log + more)[i] == log[i];
  }
}
