/**
 * The keyed task store of `src/backend/db.js`: one module-level database that
 * holds documents under their `_id`. The database engine is not part of this
 * model; its documented contract is: a put overwrites, a get fails for a missing
 * id, a remove fails for a missing document, and a listing returns every live
 * document. Whether the backing medium can be reached is an input of each call.
 */
module Store {
  import opened Wrappers
  import opened Records

  datatype StoreError = NotFound(id: string) | Unreachable

  datatype Outcome = Done | Failed(error: StoreError)

  /** Every document is filed under its own `_id`: at most one record per id. */
  ghost predicate Keyed(docs: map<string, Doc>)
  {
    forall k :: k in docs ==> docs[k].id == k
  }

  /** The store after `put(doc)`: the document under its id, replaced wholesale. */
  function Put(docs: map<string, Doc>, doc: Doc, reachable: bool): (r: map<string, Doc>)
    ensures reachable ==> doc.id in r && r[doc.id] == doc && r.Keys == docs.Keys + {doc.id}
    ensures !reachable ==> r == docs
    ensures forall k :: k != doc.id ==> (k in r <==> k in docs)
    ensures forall k :: k in docs && k != doc.id ==> r[k] == docs[k]
    ensures Keyed(docs) ==> Keyed(r)
  {
    if reachable then docs[doc.id := doc] else docs
  }

  /** `get(id)`: the document filed under `id`, or the reason there is none. */
  function Get(docs: map<string, Doc>, id: string, reachable: bool): (r: Result<Doc, StoreError>)
    ensures r.Success? <==> reachable && id in docs
    ensures r.Success? ==> r.value == docs[id]
    ensures !reachable ==> r == Failure(Unreachable)
    ensures reachable && id !in docs ==> r == Failure(NotFound(id))
  {
    if !reachable then Failure(Unreachable)
    else if id in docs then Success(docs[id])
    else Failure(NotFound(id))
  }

  /** The outcome of a write or removal that needs the id to be live. */
  function LiveOutcome(docs: map<string, Doc>, id: string, reachable: bool): (r: Outcome)
    ensures r == Done <==> reachable && id in docs
  {
    if !reachable then Failed(Unreachable)
    else if id in docs then Done
    else Failed(NotFound(id))
  }

  /** The store after `remove(doc)`: that id is gone, when it was there to remove. */
  function Remove(docs: map<string, Doc>, id: string, reachable: bool): (r: map<string, Doc>)
    ensures reachable ==> id !in r
    ensures r.Keys == if reachable then docs.Keys - {id} else docs.Keys
    ensures forall k :: k in r ==> r[k] == docs[k]
    ensures Keyed(docs) ==> Keyed(r)
  {
    if reachable then docs - {id} else docs
  }

  /** The store after modifying an existing document: only that document changes. */
  function Modify(docs: map<string, Doc>, doc: Doc, reachable: bool): (r: map<string, Doc>)
    ensures r.Keys == docs.Keys
    ensures reachable && doc.id in docs ==> r[doc.id] == doc
    ensures forall k :: k in docs && (k != doc.id || !reachable) ==> r[k] == docs[k]
    ensures Keyed(docs) ==> Keyed(r)
  {
    if reachable && doc.id in docs then docs[doc.id := doc] else docs
  }

  /** `rows` lists the documents of `docs`, each exactly once, in some order. */
  ghost predicate ListsExactly(rows: seq<Doc>, docs: map<string, Doc>)
  {
    |rows| == |docs| &&
    (forall i :: 0 <= i < |rows| ==> rows[i].id in docs && docs[rows[i].id] == rows[i]) &&
    (forall i, j :: 0 <= i < j < |rows| ==> rows[i].id != rows[j].id) &&
    (forall k :: k in docs ==> exists i :: 0 <= i < |rows| && rows[i].id == k)
  }

  /** The database singleton: documents keyed by `_id`. */
  class RecentStore {
    var docs: map<string, Doc>

    ghost predicate Valid()
      reads this
    {
      Keyed(docs)
    }

    /**
     * `new PouchDB("recents")`: opens the named database, which persists between
     * runs; `stored` is what it already holds (empty on a first run).
     */
    constructor (stored: map<string, Doc>)
      requires Keyed(stored)
      ensures Valid() && docs == stored
    {
      docs := stored;
    }

    /** `addRecentTask(name, task)`: stores exactly `{_id: name, task}`, overwriting. */
    method AddRecentTask(name: string, task: JsonObject, reachable: bool) returns (r: Outcome)
      requires Valid()
      modifies this
      ensures Valid()
      ensures r == if reachable then Done else Failed(Unreachable)
      ensures docs == Put(old(docs), Doc(name, task), reachable)
    {
      if reachable {
        docs := docs[name := Doc(name, task)];
        r := Done;
      } else {
        r := Failed(Unreachable);
      }
    }

    /** `loadRecent(name)`: the document with `_id == name`; read-only. */
    method LoadRecent(name: string, reachable: bool) returns (r: Result<Doc, StoreError>)
      requires Valid()
      ensures r == Get(docs, name, reachable)
      ensures r.Success? ==> r.value.id == name
    {
      if !reachable {
        r := Failure(Unreachable);
      } else if name in docs {
        r := Success(docs[name]);
      } else {
        r := Failure(NotFound(name));
      }
    }

    /** `modifyRecent(doc)`: replaces the document with the same `_id`; nothing else changes. */
    method ModifyRecent(doc: Doc, reachable: bool) returns (r: Outcome)
      requires Valid()
      modifies this
      ensures Valid()
      ensures r == LiveOutcome(old(docs), doc.id, reachable)
      ensures docs == Modify(old(docs), doc, reachable)
    {
      r := LiveOutcome(docs, doc.id, reachable);
      if r == Done {
        docs := docs[doc.id := doc];
      }
    }

    /**
     * `deleteRecentTask(doc)`: removes the document's id. The result is the
     * outcome of the engine's removal; the exported function does not await it,
     * so its own promise resolves whatever this outcome is.
     */
    method DeleteRecentTask(doc: Doc, reachable: bool) returns (removal: Outcome)
      requires Valid()
      modifies this
      ensures Valid()
      ensures removal == LiveOutcome(old(docs), doc.id, reachable)
      ensures docs == Remove(old(docs), doc.id, reachable)
    {
      removal := LiveOutcome(docs, doc.id, reachable);
      if reachable {
        docs := docs - {doc.id};
      }
    }

    /** `loadRecentTasks()`: every live document exactly once; read-only. */
    method LoadRecentTasks(reachable: bool) returns (r: Result<seq<Doc>, StoreError>)
      requires Valid()
      ensures !reachable ==> r == Failure(Unreachable)
      ensures reachable ==> r.Success? && ListsExactly(r.value, docs)
    {
      if !reachable {
        return Failure(Unreachable);
      }
      var rows: seq<Doc> := [];
      var rest := docs.Keys;
      while rest != {}
        invariant rest <= docs.Keys
        invariant |rows| + |rest| == |docs.Keys|
        invariant forall i :: 0 <= i < |rows| ==> rows[i].id in docs.Keys - rest && docs[rows[i].id] == rows[i]
        invariant forall i, j :: 0 <= i < j < |rows| ==> rows[i].id != rows[j].id
        invariant forall k :: k in docs.Keys - rest ==> exists i :: 0 <= i < |rows| && rows[i].id == k
        decreases rest
      {
        var k :| k in rest;
        ghost var listed, pending := rows, rest;
        rows := rows + [docs[k]];
        rest := rest - {k};
        forall k' | k' in docs.Keys - rest
          ensures exists i :: 0 <= i < |rows| && rows[i].id == k'
        {
          if k' == k {
            assert rows[|listed|].id == k';
          } else {
            assert k' in docs.Keys - pending;
            var i :| 0 <= i < |listed| && listed[i].id == k';
            assert rows[i].id == k';
          }
        }
      }
      assert docs.Keys - rest == docs.Keys;
      return Success(rows);
    }
  }

  /** After a removal that went through, loading the id fails and other records stand. */
  lemma RemovedIdNoLongerLoads(docs: map<string, Doc>, id: string, other: string)
    requires other != id
    ensures Get(Remove(docs, id, true), id, true) == Failure(NotFound(id))
    ensures Get(Remove(docs, id, true), other, true) == Get(docs, other, true)
  {
  }

  /** A put followed by a get of the same id returns exactly what was put. */
  lemma PutThenGet(docs: map<string, Doc>, name: string, task: JsonObject)
    ensures Get(Put(docs, Doc(name, task), true), name, true) == Success(Doc(name, task))
  {
  }
}
