/** The in-memory project store: a map from id to stored document that
    creation and deletion update in place. A JavaScript `Map` lists its
    values in insertion order, so the store keeps that order next to the
    map. Ids and timestamps come from the caller: the random id and the
    clock are parameters. */
module Storage {
  import opened Wrappers
  import opened Sequences
  import opened Schema

  /** No key is listed twice. */
  predicate Distinct(keys: seq<string>) {
    forall i, j :: 0 <= i < j < |keys| ==> keys[i] != keys[j]
  }

  /** The run one key contributes to the list of values: its document. */
  function EntryRun(documents: map<string, Document>): string -> seq<Document> {
    (k: string) => if k in documents then [documents[k]] else []
  }

  /** `Array.from(documents.values())`: the stored documents, in key order. */
  function ValuesOf(documents: map<string, Document>, order: seq<string>): seq<Document> {
    FlatMap(EntryRun(documents), order)
  }

  /** The run one document contributes to a user's list: itself, when it
      belongs to the user. */
  function OwnedRun(userId: string): Document -> seq<Document> {
    (d: Document) => if d.userId == Some(userId) then [d] else []
  }

  /** `docs.filter(doc => doc.userId === userId)`. */
  function OwnedBy(docs: seq<Document>, userId: string): seq<Document> {
    FlatMap(OwnedRun(userId), docs)
  }

  /** The run one key contributes when `id` is deleted: nothing for `id`
      itself, the key otherwise. */
  function DropRun(id: string): string -> seq<string> {
    (k: string) => if k == id then [] else [k]
  }

  /** The key order once `id` is deleted. */
  function Without(order: seq<string>, id: string): seq<string> {
    FlatMap(DropRun(id), order)
  }

  /** The document `createDocument` builds: the inserted fields, the new id
      and the same timestamp twice. */
  function NewDocument(insert: InsertDocument, id: string, now: string): (doc: Document)
    ensures doc.id == id && doc.createdAt == now && doc.updatedAt == doc.createdAt
    ensures doc.userId == insert.userId && doc.documentType == insert.documentType
      && doc.title == insert.title && doc.content == insert.content
  {
    Document(id, insert.userId, insert.documentType, insert.title, insert.content, now, now)
  }

  class MemStorage {
    var documents: map<string, Document>
    /** The keys of `documents` in the order they were first set. */
    var order: seq<string>

    /** The order lists every key once, and every document is stored under
        its own id. */
    ghost predicate Valid()
      reads this
    {
      (forall k :: k in order <==> k in documents)
      && Distinct(order)
      && (forall k :: k in documents ==> documents[k].id == k)
    }

    constructor()
      ensures Valid() && documents == map[] && order == []
    {
      documents := map[];
      order := [];
    }

    /** `getDocument`: the document stored under `id`, if any. */
    function GetDocument(id: string): (r: Option<Document>)
      reads this
      ensures r.None? <==> id !in documents
      ensures r.Some? ==> r.value == documents[id]
    {
      if id in documents then Some(documents[id]) else None
    }

    /** The stored documents in insertion order. */
    function Values(): seq<Document>
      reads this
    {
      ValuesOf(documents, order)
    }

    /** `getDocumentsByUserId`: the stored documents of one user, filtered
        one by one in insertion order. */
    method GetDocumentsByUserId(userId: string) returns (docs: seq<Document>)
      ensures docs == OwnedBy(Values(), userId)
    {
      var all := Values();
      docs := [];
      var i := 0;
      while i < |all|
        invariant 0 <= i <= |all|
        invariant docs == OwnedBy(all[..i], userId)
      {
        FlatMapSnoc(OwnedRun(userId), [], docs, all, i);
        if all[i].userId == Some(userId) {
          docs := docs + [all[i]];
        } else {
          assert OwnedRun(userId)(all[i]) == [];
          assert docs + [] == docs;
        }
        i := i + 1;
      }
      assert all[..i] == all;
    }

    /** `createDocument`: stores the new document under `id` and returns it.
        Setting a key already present replaces its document and keeps its
        place in the order. */
    method CreateDocument(insert: InsertDocument, id: string, now: string) returns (doc: Document)
      requires Valid()
      modifies this
      ensures Valid()
      ensures doc == NewDocument(insert, id, now)
      ensures documents == old(documents)[id := doc]
      ensures order == if id in old(documents) then old(order) else old(order) + [id]
      ensures GetDocument(id) == Some(doc)
      ensures forall k :: k != id ==> GetDocument(k) == old(GetDocument(k))
    {
      doc := NewDocument(insert, id, now);
      if id !in documents {
        order := order + [id];
      }
      documents := documents[id := doc];
    }

    /** `deleteDocument`: removes `id` and nothing else; an absent id
        changes nothing. */
    method DeleteDocument(id: string)
      requires Valid()
      modifies this
      ensures Valid()
      ensures documents == old(documents) - {id}
      ensures order == Without(old(order), id)
      ensures id !in old(documents) ==> documents == old(documents) && order == old(order)
      ensures GetDocument(id).None?
      ensures forall k :: k != id ==> GetDocument(k) == old(GetDocument(k))
    {
      WithoutMembers(order, id);
      WithoutDistinct(order, id);
      if id !in order {
        WithoutAbsent(order, id);
      }
      order := Without(order, id);
      documents := documents - {id};
    }
  }

  // ---------------------------------------------------------------------
  // Properties of the key order and of the filtered lists.
  // ---------------------------------------------------------------------

  /** Deleting keeps every other key and drops `id`. */
  lemma WithoutMembers(order: seq<string>, id: string)
    ensures forall k :: k in Without(order, id) <==> k in order && k != id
  {
    forall k ensures k in Without(order, id) <==> k in order && k != id {
      FlatMapMember(DropRun(id), order, k);
      if k in order && k != id {
        var i :| 0 <= i < |order| && order[i] == k;
        assert k in DropRun(id)(order[i]);
      }
    }
  }

  /** Deleting keeps the keys distinct. */
  lemma {:induction false} WithoutDistinct(order: seq<string>, id: string)
    requires Distinct(order)
    ensures Distinct(Without(order, id))
  {
    if order != [] {
      var init := order[..|order| - 1];
      var last := order[|order| - 1];
      assert Distinct(init);
      WithoutDistinct(init, id);
      WithoutMembers(init, id);
      assert last !in init;
    }
  }

  /** Deleting an absent key changes nothing. */
  lemma {:induction false} WithoutAbsent(order: seq<string>, id: string)
    requires id !in order
    ensures Without(order, id) == order
  {
    if order != [] {
      var init := order[..|order| - 1];
      WithoutAbsent(init, id);
      assert order == init + [order[|order| - 1]];
    }
  }

  /** The values list holds exactly the stored documents. */
  lemma ValuesMembers(documents: map<string, Document>, order: seq<string>, d: Document)
    requires forall k :: k in order <==> k in documents
    ensures d in ValuesOf(documents, order) <==> exists k :: k in documents && documents[k] == d
  {
    FlatMapMember(EntryRun(documents), order, d);
    if exists k :: k in documents && documents[k] == d {
      var k :| k in documents && documents[k] == d;
      var i :| 0 <= i < |order| && order[i] == k;
      assert d in EntryRun(documents)(order[i]);
    }
  }

  /** A user's list holds exactly the documents of the list that belong to
      the user. */
  lemma OwnedMembers(docs: seq<Document>, userId: string, d: Document)
    ensures d in OwnedBy(docs, userId) <==> d in docs && d.userId == Some(userId)
  {
    FlatMapMember(OwnedRun(userId), docs, d);
    if d in docs && d.userId == Some(userId) {
      var i :| 0 <= i < |docs| && docs[i] == d;
      assert d in OwnedRun(userId)(docs[i]);
    }
  }

  /** `getDocumentsByUserId(u)` returns exactly the stored documents whose
      owner is `u`. */
  lemma UserDocumentsExact(documents: map<string, Document>, order: seq<string>, userId: string, d: Document)
    requires forall k :: k in order <==> k in documents
    ensures d in OwnedBy(ValuesOf(documents, order), userId) <==>
      (exists k :: k in documents && documents[k] == d) && d.userId == Some(userId)
  {
    OwnedMembers(ValuesOf(documents, order), userId, d);
    ValuesMembers(documents, order, d);
  }

  /** Filtering keeps the insertion order: the documents of a list's first
      part come before those of its second part. */
  lemma OwnedInOrder(a: seq<Document>, b: seq<Document>, userId: string)
    ensures OwnedBy(a + b, userId) == OwnedBy(a, userId) + OwnedBy(b, userId)
  {
    FlatMapAppend(OwnedRun(userId), a, b);
  }
}
