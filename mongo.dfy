/** The document store behind the `Recorder` contract: `get_doc` (find by id) and `save_doc` (insert the
    document when no document with the record's id exists, otherwise `$set` its fields on the existing
    one). Each collection is a sequence of documents in insertion order. */
module Mongo {
  import opened Results
  import opened Bson
  import opened Records

  /** Collection name to the documents of that collection. */
  type Db = map<string, seq<Document>>

  /** Which storage calls of one operation the store rejects: none, every lookup, or every write. */
  datatype Fault = NoFault | LookupFault | WriteFault

  function IdOf(d: Document): Option<int> {
    AsInt(d, ID)
  }

  predicate HasId(d: Document, id: int) {
    IdOf(d) == Some(id)
  }

  /** The documents of a collection; a collection never written to is empty. */
  function Docs(db: Db, c: string): seq<Document> {
    if c in db then db[c] else []
  }

  /** The position of the first document whose "id" is `id`, as the filter `{ "id": id }` finds it. */
  function Find(docs: seq<Document>, id: int): (r: Option<nat>)
    ensures r.Some? ==> r.value < |docs|
  {
    if docs == [] then None
    else if HasId(docs[0], id) then Some(0)
    else match Find(docs[1..], id)
      case None => None
      case Some(i) => Some(i + 1)
  }

  /** A lookup finds the first document carrying the id, and finds nothing only when no document does. */
  lemma {:induction false} FindSpec(docs: seq<Document>, id: int)
    ensures var r := Find(docs, id);
      && (r.Some? ==> r.value < |docs| && HasId(docs[r.value], id))
      && (r.Some? ==> forall j :: 0 <= j < r.value ==> !HasId(docs[j], id))
      && (r.None? ==> forall j :: 0 <= j < |docs| ==> !HasId(docs[j], id))
    decreases |docs|
  {
    if docs != [] && !HasId(docs[0], id) {
      FindSpec(docs[1..], id);
      forall j | 1 <= j < |docs| ensures docs[j] == docs[1..][j - 1] {}
    }
  }

  function Lookup(db: Db, c: string, id: int): Option<Document> {
    match Find(Docs(db, c), id)
    case None => None
    case Some(i) => Some(Docs(db, c)[i])
  }

  /** `get_doc`: a document of collection `c` whose "id" is `id`, if there is one; a rejected lookup is a
      storage error. */
  function Get(db: Db, c: string, id: int, fault: Fault): (r: Result<Option<Document>>)
    ensures r.Fail? <==> fault == LookupFault
    ensures r.Ok? && r.value.Some? ==> r.value.value in Docs(db, c) && HasId(r.value.value, id)
    ensures r.Ok? && r.value.None? ==> forall d :: d in Docs(db, c) ==> !HasId(d, id)
  {
    FindSpec(Docs(db, c), id);
    if fault == LookupFault then Fail(StorageError) else Ok(Lookup(db, c, id))
  }

  /** Two documents carry the same id. */
  predicate SameId(a: Document, b: Document) {
    IdOf(a).Some? && IdOf(a) == IdOf(b)
  }

  /** No two documents of a collection share an id. */
  ghost predicate UniqueIds(docs: seq<Document>) {
    forall i, j {:trigger SameId(docs[i], docs[j])} :: 0 <= i < j < |docs| ==> !SameId(docs[i], docs[j])
  }

  ghost predicate ValidDb(db: Db) {
    forall c :: c in db ==> UniqueIds(db[c])
  }

  /** The number of documents whose "id" is `id`. */
  function Count(docs: seq<Document>, id: int): nat {
    if docs == [] then 0 else (if HasId(docs[0], id) then 1 else 0) + Count(docs[1..], id)
  }

  /** The store after saving document `doc` under id `id` in collection `c`: unchanged when the store
      rejects the lookup or the write; otherwise `doc` appended when no document has that id, or the
      first document with that id updated with `update`. */
  function Put(db: Db, c: string, id: int, doc: Document, update: Update, fault: Fault): Db {
    if fault != NoFault then db
    else
      var docs := Docs(db, c);
      match Find(docs, id)
      case None => db[c := docs + [doc]]
      case Some(i) => db[c := docs[i := ApplyUpdate(docs[i], update)]]
  }

  /** The store after `save_doc(rec)`: the record's document put under its collection and id, with its
      `$set` update for an existing document. */
  function Saved(db: Db, rec: Record, fault: Fault): Db {
    Put(db, rec.CollectionName(), rec.Id(), rec.ToDoc(), rec.ToDocUpdate(), fault)
  }

  lemma {:induction false} CountZero(docs: seq<Document>, id: int)
    requires forall j :: 0 <= j < |docs| ==> !HasId(docs[j], id)
    ensures Count(docs, id) == 0
    decreases |docs|
  {
    if docs != [] {
      CountZero(docs[1..], id);
    }
  }

  /** A collection without duplicate ids holds at most one document per id. */
  lemma {:induction false} UniqueCountAtMostOne(docs: seq<Document>, id: int)
    requires UniqueIds(docs)
    ensures Count(docs, id) <= 1
    decreases |docs|
  {
    if docs != [] {
      assert UniqueIds(docs[1..]) by {
        forall i, j | 0 <= i < j < |docs| - 1 ensures !SameId(docs[1..][i], docs[1..][j]) {
          assert docs[1..][i] == docs[i + 1] && docs[1..][j] == docs[j + 1];
          assert !SameId(docs[i + 1], docs[j + 1]);
        }
      }
      UniqueCountAtMostOne(docs[1..], id);
      if HasId(docs[0], id) {
        forall j | 0 <= j < |docs| - 1 ensures !HasId(docs[1..][j], id) {
          assert docs[1..][j] == docs[j + 1];
          assert !SameId(docs[0], docs[j + 1]);
        }
        CountZero(docs[1..], id);
      }
    }
  }

  /** A document that a lookup finds is counted. */
  lemma {:induction false} FoundCounted(docs: seq<Document>, id: int)
    requires Find(docs, id).Some?
    ensures Count(docs, id) >= 1
    decreases |docs|
  {
    FindSpec(docs, id);
    if !HasId(docs[0], id) {
      FoundCounted(docs[1..], id);
    }
  }

  /** Two collections whose documents carry the same ids, position by position, are searched alike. */
  lemma SameIdsSameFind(a: seq<Document>, b: seq<Document>, id: int)
    requires |a| == |b|
    requires forall k :: 0 <= k < |a| ==> IdOf(a[k]) == IdOf(b[k])
    ensures Find(a, id) == Find(b, id)
  {
    FindSpec(a, id);
    FindSpec(b, id);
    var fa, fb := Find(a, id), Find(b, id);
    if fa.Some? && fb.Some? {
      if fa.value < fb.value {
        assert HasId(b[fa.value], id);
      } else if fb.value < fa.value {
        assert HasId(a[fb.value], id);
      }
    } else if fa.Some? {
      assert HasId(b[fa.value], id);
    } else if fb.Some? {
      assert HasId(a[fb.value], id);
    }
  }

  /** Appending a document does not change where an earlier document is found, and a new id is found at
      the end. */
  lemma FindAppend(docs: seq<Document>, d: Document, id: int)
    ensures Find(docs, id).Some? ==> Find(docs + [d], id) == Find(docs, id)
    ensures Find(docs, id).None? && HasId(d, id) ==> Find(docs + [d], id) == Some(|docs|)
    ensures Find(docs, id).None? && !HasId(d, id) ==> Find(docs + [d], id) == None
  {
    var e := docs + [d];
    FindSpec(docs, id);
    FindSpec(e, id);
    assert forall j :: 0 <= j < |docs| ==> e[j] == docs[j];
    assert e[|docs|] == d;
  }

  /** `save_doc` keeps every collection free of duplicate ids: the document it appends carries an id that
      is absent, and the `$set` it applies rewrites the "id" field to the value it already had. */
  lemma SavedValid(db: Db, rec: Record, fault: Fault)
    requires ValidDb(db)
    ensures ValidDb(Saved(db, rec, fault))
  {
    if fault == NoFault {
      var c, id := rec.CollectionName(), rec.Id();
      var docs := Docs(db, c);
      assert UniqueIds(docs);
      FindSpec(docs, id);
      var r := Saved(db, rec, fault);
      match Find(docs, id)
      case None =>
        var e := docs + [rec.ToDoc()];
        assert r[c] == e;
        forall i, j | 0 <= i < j < |e| ensures !SameId(e[i], e[j]) {
          if j < |docs| {
            assert e[i] == docs[i] && e[j] == docs[j];
            assert !SameId(docs[i], docs[j]);
          } else {
            assert e[i] == docs[i] && !HasId(docs[i], id);
          }
        }
        assert UniqueIds(e);
      case Some(i) =>
        var e := docs[i := ApplyUpdate(docs[i], rec.ToDocUpdate())];
        assert r[c] == e;
        forall k, l | 0 <= k < l < |e| ensures !SameId(e[k], e[l]) {
          assert IdOf(e[k]) == IdOf(docs[k]) && IdOf(e[l]) == IdOf(docs[l]);
          assert !SameId(docs[k], docs[l]);
        }
        assert UniqueIds(e);
    }
  }

  /** After a successful `save_doc`, looking up the record's id finds a document holding every field of
      the record's document. */
  lemma SavedFound(db: Db, rec: Record)
    ensures var found := Lookup(Saved(db, rec, NoFault), rec.CollectionName(), rec.Id());
      && found.Some?
      && forall k :: k in rec.ToDoc() ==> k in found.value && found.value[k] == rec.ToDoc()[k]
  {
    var c, id := rec.CollectionName(), rec.Id();
    var docs := Docs(db, c);
    match Find(docs, id)
    case None =>
      FindAppend(docs, rec.ToDoc(), id);
    case Some(i) =>
      FindSpec(docs, id);
      var e := docs[i := ApplyUpdate(docs[i], rec.ToDocUpdate())];
      SameIdsSameFind(docs, e, id);
  }

  /** When no document carries the record's id, `save_doc` inserts the record's document: it is appended,
      and it is what a lookup then finds. */
  lemma SavedInsertsWhenAbsent(db: Db, rec: Record)
    requires Lookup(db, rec.CollectionName(), rec.Id()).None?
    ensures Docs(Saved(db, rec, NoFault), rec.CollectionName()) == Docs(db, rec.CollectionName()) + [rec.ToDoc()]
    ensures Lookup(Saved(db, rec, NoFault), rec.CollectionName(), rec.Id()) == Some(rec.ToDoc())
  {
    FindAppend(Docs(db, rec.CollectionName()), rec.ToDoc(), rec.Id());
  }

  /** When a document carries the record's id, `save_doc` inserts nothing: the collection keeps its size
      and the document found is the old one with the record's `$set` fields applied. */
  lemma SavedUpdatesWhenPresent(db: Db, rec: Record)
    requires Lookup(db, rec.CollectionName(), rec.Id()).Some?
    ensures |Docs(Saved(db, rec, NoFault), rec.CollectionName())| == |Docs(db, rec.CollectionName())|
    ensures Lookup(Saved(db, rec, NoFault), rec.CollectionName(), rec.Id())
         == Some(ApplyUpdate(Lookup(db, rec.CollectionName(), rec.Id()).value, rec.ToDocUpdate()))
  {
    var docs := Docs(db, rec.CollectionName());
    var i := Find(docs, rec.Id()).value;
    FindSpec(docs, rec.Id());
    SameIdsSameFind(docs, docs[i := ApplyUpdate(docs[i], rec.ToDocUpdate())], rec.Id());
  }

  /** `save_doc` changes what no lookup of another (collection, id) pair finds. */
  lemma SavedFrame(db: Db, rec: Record, fault: Fault, c: string, id: int)
    requires c != rec.CollectionName() || id != rec.Id()
    ensures Lookup(Saved(db, rec, fault), c, id) == Lookup(db, c, id)
  {
    if fault == NoFault && c == rec.CollectionName() {
      var docs := Docs(db, c);
      match Find(docs, rec.Id())
      case None =>
        FindAppend(docs, rec.ToDoc(), id);
        if Find(docs, id).Some? {
          assert (docs + [rec.ToDoc()])[Find(docs, id).value] == docs[Find(docs, id).value];
        }
      case Some(i) =>
        FindSpec(docs, rec.Id());
        FindSpec(docs, id);
        var e := docs[i := ApplyUpdate(docs[i], rec.ToDocUpdate())];
        SameIdsSameFind(docs, e, id);
    }
  }

  /** `save_doc` never makes a document disappear from a lookup. */
  lemma SavedKeepsPresent(db: Db, rec: Record, fault: Fault, c: string, id: int)
    requires Lookup(db, c, id).Some?
    ensures Lookup(Saved(db, rec, fault), c, id).Some?
  {
    if c == rec.CollectionName() && id == rec.Id() {
      if fault == NoFault {
        SavedFound(db, rec);
      }
    } else {
      SavedFrame(db, rec, fault, c, id);
    }
  }

  /** After a successful `save_doc`, a lookup finds a document for every id found before and for the
      record's own id. */
  lemma SavedStillFound(db: Db, rec: Record, c: string, id: int)
    requires Lookup(db, c, id).Some? || (c == rec.CollectionName() && id == rec.Id())
    ensures Lookup(Saved(db, rec, NoFault), c, id).Some?
  {
    if c == rec.CollectionName() && id == rec.Id() {
      SavedFound(db, rec);
    } else {
      SavedFrame(db, rec, NoFault, c, id);
    }
  }

  /** Saving the same record again changes nothing: `save_doc` is idempotent. */
  lemma SavedIdempotent(db: Db, rec: Record)
    ensures Saved(Saved(db, rec, NoFault), rec, NoFault) == Saved(db, rec, NoFault)
  {
    var c, id := rec.CollectionName(), rec.Id();
    var docs := Docs(db, c);
    FindSpec(docs, id);
    var e := match Find(docs, id)
      case None => docs + [rec.ToDoc()]
      case Some(i) => docs[i := ApplyUpdate(docs[i], rec.ToDocUpdate())];
    var db1 := db[c := e];
    assert Saved(db, rec, NoFault) == db1;
    assert Docs(db1, c) == e;
    var j: nat;
    if Find(docs, id).None? {
      FindAppend(docs, rec.ToDoc(), id);
      j := |docs|;
    } else {
      SameIdsSameFind(docs, e, id);
      j := Find(docs, id).value;
    }
    assert Find(e, id) == Some(j);
    ResetIsNoOp(e, j, rec.ToDocUpdate());
    assert db1[c := e] == db1;
  }

  /** Applying an update to a document that already holds its fields rewrites the collection unchanged. */
  lemma ResetIsNoOp(docs: seq<Document>, i: nat, u: Update)
    requires i < |docs|
    requires forall k :: k in u.fields ==> k in docs[i] && docs[i][k] == u.fields[k]
    ensures docs[i := ApplyUpdate(docs[i], u)] == docs
  {
    assert ApplyUpdate(docs[i], u) == docs[i];
  }

  /** Saving a record twice leaves exactly one document with its id in its collection. */
  lemma SaveTwiceOneDocument(db: Db, rec: Record)
    requires ValidDb(db)
    ensures Count(Docs(Saved(Saved(db, rec, NoFault), rec, NoFault), rec.CollectionName()), rec.Id()) == 1
  {
    var db1 := Saved(db, rec, NoFault);
    SavedIdempotent(db, rec);
    SavedValid(db, rec, NoFault);
    SavedFound(db, rec);
    var docs1 := Docs(db1, rec.CollectionName());
    assert UniqueIds(docs1);
    UniqueCountAtMostOne(docs1, rec.Id());
    FoundCounted(docs1, rec.Id());
  }

  /** The store's state, shared by every component that reads or writes documents. */
  class Store {
    var collections: Db

    ghost predicate Valid()
      reads this
    {
      ValidDb(collections)
    }

    constructor (initial: Db)
      requires ValidDb(initial)
      ensures Valid() && collections == initial
    {
      collections := initial;
    }

    /** `save_doc`: a lookup by the record's id, then `insert_one` of its document or `update_one` with
        its `$set` update. A rejected lookup returns its error before anything is written. */
    method SaveDoc(rec: Record, fault: Fault) returns (r: Result<()>)
      requires Valid()
      modifies this
      ensures Valid()
      ensures collections == Saved(old(collections), rec, fault)
      ensures r.Ok? <==> fault == NoFault
      ensures r.Fail? ==> collections == old(collections)
    {
      var c := rec.CollectionName();
      var existing := Get(collections, c, rec.Id(), fault);
      if existing.Fail? {
        return Fail(existing.failure);
      }
      if fault == WriteFault {
        // the store rejects the insert or the update: nothing is written
        return Fail(StorageError);
      }
      SavedValid(collections, rec, fault);
      var docs := Docs(collections, c);
      if existing.value.None? {
        collections := collections[c := docs + [rec.ToDoc()]];
      } else {
        var i := Find(docs, rec.Id()).value;
        collections := collections[c := docs[i := ApplyUpdate(docs[i], rec.ToDocUpdate())]];
      }
      return Ok(());
    }
  }
}
