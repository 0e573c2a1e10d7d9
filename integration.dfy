/**
 * Properties that need both sides of the HTTP boundary: a request built by the
 * browser-side proxy, routed by the service and answered by its handler, and
 * what the view makes of the answer.
 */
module Integration {
  import opened Wrappers
  import opened Records
  import opened Store
  import opened Http
  import opened Service
  import opened ServerProxy
  import opened RecentsView

  /**
   * The update the proxy sends carries its id in the body, while the service
   * reads the id from the query: every such request is answered 400, the store
   * is untouched and the proxy reports failure.
   */
  lemma UiUpdateIsAlwaysRefused(docs: map<string, Doc>, id: string, priority: bool, reachable: bool,
                                 w: bool)
    ensures var req := UpdateRequest(id, priority);
            var x := Update(docs, Field(req.query, "id"), Field(req.query, PriorityKey), reachable, w);
            Route(req.verb, req.path) == UpdateHandler &&
            x == Exchange(BadRequestReply, docs) &&
            !Succeeded(Responded(x.reply.status, OtherText(IncorrectRecentPage)))
  {
  }

  /** The update request with id and priority in the query, as the service reads them. */
  function CorrectedUpdateRequest(id: string, priority: bool): Request
  {
    Request(PUT, "/update", map["id" := id, PriorityKey := BoolText(priority)], None)
  }

  /** With the query-string request, an update of an existing record sets its priority and succeeds. */
  lemma CorrectedUpdateSetsPriority(docs: map<string, Doc>, id: string, priority: bool)
    requires Keyed(docs) && id in docs
    ensures var req := CorrectedUpdateRequest(id, priority);
            var x := Update(docs, Field(req.query, "id"), Field(req.query, PriorityKey), true, true);
            Route(req.verb, req.path) == UpdateHandler &&
            Succeeded(Responded(x.reply.status, OtherText(""))) &&
            x.docs.Keys == docs.Keys &&
            Field(x.docs[id].task, PriorityKey) == Some(BoolText(priority)) &&
            Field(x.docs[id].task, CoordinatesKey) == Field(docs[id].task, CoordinatesKey) &&
            Field(x.docs[id].task, FamilyKey) == Field(docs[id].task, FamilyKey)
  {
    var req := CorrectedUpdateRequest(id, priority);
    assert Field(req.query, "id") == Some(id);
    assert Field(req.query, PriorityKey) == Some(BoolText(priority));
    UpdateChangesOnlyPriority(docs, id, Some(BoolText(priority)));
  }

  /** The delete the proxy sends removes an existing record, and the 200 makes the proxy report success. */
  lemma UiDeleteRemovesRecord(docs: map<string, Doc>, id: string)
    requires Keyed(docs) && id in docs
    ensures var req := DeleteRequest(id);
            var x := Delete(docs, Field(req.query, "id"), true, true);
            Route(req.verb, req.path) == DeleteHandler &&
            Succeeded(Responded(x.reply.status, OtherText(""))) &&
            id !in x.docs && x.docs.Keys == docs.Keys - {id}
  {
    assert Field(DeleteRequest(id).query, "id") == Some(id);
  }

  /**
   * A task added to the list locally has no id; its delete button carries the
   * text "undefined", which the proxy's guard refuses, so no request goes out.
   */
  lemma UnsavedTaskIsNeverSentForDeletion(t: Task)
    requires t.id.None?
    ensures !IdAccepted(Str(MakeTaskItem(t).deleteId))
  {
  }

  /** A parsed listing of the store after a create holds a task with the new id and the submitted fields. */
  lemma CreatedRecordIsListed(docs: map<string, Doc>, body: JsonObject, newId: string, rows: seq<Doc>)
    requires ListsExactly(rows, Create(docs, Some(body), newId, false, true).docs)
    ensures var t := Task(Some(newId), Field(body, CoordinatesKey), Field(body, FamilyKey), Field(body, PriorityKey));
            exists i :: 0 <= i < |rows| && Parse(rows)[i] == t
  {
    var after := Put(docs, Doc(newId, body), true);
    assert after == Create(docs, Some(body), newId, false, true).docs;
    assert newId in after && after[newId] == Doc(newId, body);
    var i :| 0 <= i < |rows| && rows[i].id == newId;
    assert rows[i] == Doc(newId, body);
    var tasks := Parse(rows);
    assert tasks[i] == FromWire(rows[i]);
  }

  /** The service answers every accepted create with 200, which the intended `#save` reads as success. */
  lemma CorrectedSaveReportsAcceptedCreate(docs: map<string, Doc>, body: JsonObject, newId: string, reachable: bool)
    ensures var x := Create(docs, Some(body), newId, false, reachable);
            SaveSucceeded(Some(body), Responded(x.reply.status, OtherText("")))
  {
  }
}
