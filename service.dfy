/**
 * The Express service of `src/backend/server.js`: four handlers that validate
 * their input, reach the store and write exactly one response, and the route
 * table that picks a handler for each method and path.
 *
 * Each handler is a method over the shared response and the store; what it must
 * leave behind is given by a specification function (`Create`, `Delete`,
 * `Update`, `ReadAllReply`) whose properties are the lemmas at the end.
 * The store calls that the source does not await are made in line; their
 * outcome never reaches the response, which is decided before it is known.
 * Whether such a write reaches the medium (`writeReachable`) is an input of its
 * own, apart from whether the awaited load before it did (`reachable`).
 */
module Service {
  import opened Wrappers
  import opened Records
  import opened Store
  import opened Http

  const IncorrectRecentPage := "<h1>Incorrect recent information</h1>"
  const InternalErrorPage := "<h1>Internal Server Error</h1>"
  const UnableToLoadPage := "<p>Unable to load recents</p>"
  const NotImplementedText := "Not Implemented"

  /** A handler's response together with the store it leaves. */
  datatype Exchange = Exchange(reply: Reply, docs: map<string, Doc>)

  const BadRequestReply := Reply(400, [Text(IncorrectRecentPage)], 1)
  /** Delete and update answer a failed load with a bare 500. */
  const LoadFailedReply := Reply(500, [], 1)

  /** `saveRecentToDB`: a missing body is refused; otherwise the body is stored under a new id. */
  function Create(docs: map<string, Doc>, data: Option<JsonObject>, newId: string, syncThrow: bool, reachable: bool): Exchange
  {
    match data
    case None => Exchange(BadRequestReply, docs)
    case Some(task) =>
      if syncThrow then Exchange(Reply(500, [Text(InternalErrorPage)], 1), docs)
      else Exchange(Reply(200, [], 1), Put(docs, Doc(newId, task), reachable))
  }

  /** `deleteRecentFromDB`: load the id, then remove the loaded document. */
  function Delete(docs: map<string, Doc>, id: Option<string>, reachable: bool, writeReachable: bool): Exchange
  {
    match id
    case None => Exchange(BadRequestReply, docs)
    case Some(name) =>
      match Get(docs, name, reachable)
      case Failure(_) => Exchange(LoadFailedReply, docs)
      case Success(doc) =>
        Exchange(Reply(200, [Text("deleted with success: " + name)], 1), Remove(docs, doc.id, writeReachable))
  }

  /** `updateRecentFromDB`: load the id, set `task.priority` on the loaded document, store it back. */
  function Update(docs: map<string, Doc>, id: Option<string>, priority: Option<string>, reachable: bool,
                  writeReachable: bool): Exchange
  {
    match id
    case None => Exchange(BadRequestReply, docs)
    case Some(name) =>
      match Get(docs, name, reachable)
      case Failure(_) => Exchange(LoadFailedReply, docs)
      case Success(doc) =>
        Exchange(Reply(200, [Text("modified with success: " + name)], 1),
                 Modify(docs, Doc(doc.id, WithPriority(doc.task, priority)), writeReachable))
  }

  const ReadAllFailedReply :=
    Reply(500, [Text(InternalErrorPage), Text(UnableToLoadPage), Diagnostic(Unreachable)], 1)

  /**
   * `getRecentsFromDB`: the whole listing as JSON, or an error page. On success
   * the response is ended twice: `json` ends it, and `end` is called after it.
   */
  ghost predicate ReadAllReply(docs: map<string, Doc>, reachable: bool, reply: Reply)
  {
    if reachable then exists rows :: ListsExactly(rows, docs) && reply == Reply(200, [Listing(rows)], 2)
    else reply == ReadAllFailedReply
  }

  method SaveRecentToDB(store: RecentStore, response: Response, data: Option<JsonObject>, newId: string,
                        syncThrow: bool, reachable: bool)
    requires store.Valid() && response.Pristine()
    modifies store, response
    ensures store.Valid()
    ensures Exchange(response.Snapshot(), store.docs) == Create(old(store.docs), data, newId, syncThrow, reachable)
  {
    if data.None? {
      response.WriteHead(400);
      response.Write(Text(IncorrectRecentPage));
      response.End();
    } else if syncThrow {
      response.WriteHead(500);
      response.Write(Text(InternalErrorPage));
      response.End();
    } else {
      // not awaited: the outcome of the write is dropped
      var written := store.AddRecentTask(newId, data.value, reachable);
      response.End();
    }
  }

  method DeleteRecentFromDB(store: RecentStore, response: Response, id: Option<string>,
                            reachable: bool, writeReachable: bool)
    requires store.Valid() && response.Pristine()
    modifies store, response
    ensures store.Valid()
    ensures Exchange(response.Snapshot(), store.docs) == Delete(old(store.docs), id, reachable, writeReachable)
  {
    if id.None? {
      response.WriteHead(400);
      response.Write(Text(IncorrectRecentPage));
      response.End();
    } else {
      var loaded := store.LoadRecent(id.value, reachable);
      if loaded.Success? {
        // not awaited: the response is 200 whatever the removal does
        var removal := store.DeleteRecentTask(loaded.value, writeReachable);
        response.WriteHead(200);
        response.Write(Text("deleted with success: " + id.value));
        response.End();
      } else {
        response.WriteHead(500);
        response.End();
      }
    }
  }

  method UpdateRecentFromDB(store: RecentStore, response: Response, id: Option<string>,
                            isPriority: Option<string>, reachable: bool, writeReachable: bool)
    requires store.Valid() && response.Pristine()
    modifies store, response
    ensures store.Valid()
    ensures Exchange(response.Snapshot(), store.docs) == Update(old(store.docs), id, isPriority, reachable, writeReachable)
  {
    if id.None? {
      response.WriteHead(400);
      response.Write(Text(IncorrectRecentPage));
      response.End();
    } else {
      var loaded := store.LoadRecent(id.value, reachable);
      if loaded.Success? {
        var doc := loaded.value;
        doc := doc.(task := WithPriority(doc.task, isPriority));
        // not awaited: the response is 200 whatever the write does
        var modified := store.ModifyRecent(doc, writeReachable);
        response.WriteHead(200);
        response.Write(Text("modified with success: " + id.value));
        response.End();
      } else {
        response.WriteHead(500);
        response.End();
      }
    }
  }

  method GetRecentsFromDB(store: RecentStore, response: Response, reachable: bool)
    requires store.Valid() && response.Pristine()
    modifies response
    ensures ReadAllReply(store.docs, reachable, response.Snapshot())
  {
    var listed := store.LoadRecentTasks(reachable);
    if listed.Success? {
      response.Send(Listing(listed.value));
      response.End();
    } else {
      response.WriteHead(500);
      response.Write(Text(InternalErrorPage));
      response.Write(Text(UnableToLoadPage));
      response.Write(Diagnostic(listed.error));
      response.End();
    }
  }

  datatype RouteHandler =
    | UpdateHandler | DeleteHandler | CreateHandler | AllHandler | IndexHandler
    | NotImplementedHandler | NotFoundHandler

  /** The method each known path is served for; `None` for a path with no route. */
  function RouteVerb(path: string): Option<Verb>
  {
    if path == "/update" then Some(PUT)
    else if path == "/delete" then Some(DELETE)
    else if path == "/create" then Some(POST)
    else if path == "/all" then Some(GET)
    else if path == "/" then Some(GET)
    else None
  }

  /** The route table: a known path with its own method, any other method on it, or no route. */
  function Route(verb: Verb, path: string): (h: RouteHandler)
    ensures h == NotFoundHandler <==> RouteVerb(path).None?
    ensures h == NotImplementedHandler <==> RouteVerb(path).Some? && RouteVerb(path).value != verb
    ensures h == UpdateHandler <==> verb == PUT && path == "/update"
    ensures h == DeleteHandler <==> verb == DELETE && path == "/delete"
    ensures h == CreateHandler <==> verb == POST && path == "/create"
    ensures h == AllHandler <==> verb == GET && path == "/all"
    ensures h == IndexHandler <==> verb == GET && path == "/"
  {
    match RouteVerb(path)
    case None => NotFoundHandler
    case Some(v) =>
      if v != verb then NotImplementedHandler
      else if path == "/update" then UpdateHandler
      else if path == "/delete" then DeleteHandler
      else if path == "/create" then CreateHandler
      else if path == "/all" then AllHandler
      else IndexHandler
  }

  /**
   * What the service cannot see in a request: the generated id, the storage
   * medium for the awaited calls and for the un-awaited write after a load,
   * the file system.
   */
  datatype Env = Env(freshId: string, syncThrow: bool, reachable: bool, writeReachable: bool, indexReadable: bool)

  function IndexReply(readable: bool): Reply
  {
    if readable then Reply(200, [IndexDocument], 1) else Reply(500, [], 1)
  }

  /** One request through the route table to its handler. */
  method Handle(store: RecentStore, response: Response, req: Request, env: Env)
    requires store.Valid() && response.Pristine()
    modifies store, response
    ensures store.Valid()
    ensures match Route(req.verb, req.path)
      case UpdateHandler =>
        Exchange(response.Snapshot(), store.docs)
          == Update(old(store.docs), Field(req.query, "id"), Field(req.query, "priority"), env.reachable,
                    env.writeReachable)
      case DeleteHandler =>
        Exchange(response.Snapshot(), store.docs)
          == Delete(old(store.docs), Field(req.query, "id"), env.reachable, env.writeReachable)
      case CreateHandler =>
        Exchange(response.Snapshot(), store.docs)
          == Create(old(store.docs), req.body, env.freshId, env.syncThrow, env.reachable)
      case AllHandler =>
        store.docs == old(store.docs) && ReadAllReply(store.docs, env.reachable, response.Snapshot())
      case IndexHandler =>
        store.docs == old(store.docs) && response.Snapshot() == IndexReply(env.indexReadable)
      case NotImplementedHandler =>
        store.docs == old(store.docs) && response.Snapshot() == Reply(200, [Text(NotImplementedText)], 1)
      case NotFoundHandler =>
        store.docs == old(store.docs) && response.Snapshot() == Reply(404, [Text("Not found: " + req.path)], 1)
  {
    match Route(req.verb, req.path)
    case UpdateHandler =>
      UpdateRecentFromDB(store, response, Field(req.query, "id"), Field(req.query, "priority"),
                         env.reachable, env.writeReachable);
    case DeleteHandler =>
      DeleteRecentFromDB(store, response, Field(req.query, "id"), env.reachable, env.writeReachable);
    case CreateHandler =>
      SaveRecentToDB(store, response, req.body, env.freshId, env.syncThrow, env.reachable);
    case AllHandler =>
      GetRecentsFromDB(store, response, env.reachable);
    case IndexHandler =>
      if env.indexReadable {
        response.Send(IndexDocument);
      } else {
        response.WriteHead(500);
        response.End();
      }
    case NotImplementedHandler =>
      response.Send(Text(NotImplementedText));
    case NotFoundHandler =>
      response.WriteHead(404);
      response.Send(Text("Not found: " + req.path));
  }

  // ---------------------------------------------------------------------------
  // Properties of the handlers

  /** Every create, delete and update answers with one of 200, 400, 500 and ends once. */
  lemma HandlersAnswerOnce(docs: map<string, Doc>, data: Option<JsonObject>, id: Option<string>,
                           p: Option<string>, newId: string, syncThrow: bool, reachable: bool, w: bool)
    ensures var rs := [Create(docs, data, newId, syncThrow, reachable).reply,
                       Delete(docs, id, reachable, w).reply, Update(docs, id, p, reachable, w).reply];
            forall i :: 0 <= i < |rs| ==> rs[i].status in {200, 400, 500} && rs[i].ends == 1
  {
  }

  /** A 400 is given exactly when the input is missing, and then the store is untouched. */
  lemma BadRequestIffMissingInput(docs: map<string, Doc>, data: Option<JsonObject>, id: Option<string>,
                                  p: Option<string>, newId: string, syncThrow: bool, reachable: bool, w: bool)
    ensures Create(docs, data, newId, syncThrow, reachable).reply.status == 400 <==> data.None?
    ensures Delete(docs, id, reachable, w).reply.status == 400 <==> id.None?
    ensures Update(docs, id, p, reachable, w).reply.status == 400 <==> id.None?
    ensures data.None? ==> Create(docs, data, newId, syncThrow, reachable).docs == docs
    ensures id.None? ==> Delete(docs, id, reachable, w).docs == docs && Update(docs, id, p, reachable, w).docs == docs
  {
  }

  /** The create response does not depend on the store or on whether the write succeeds. */
  lemma CreateReplyIndependentOfStore(d1: map<string, Doc>, d2: map<string, Doc>, data: Option<JsonObject>,
                                      id1: string, id2: string, syncThrow: bool, r1: bool, r2: bool)
    ensures Create(d1, data, id1, syncThrow, r1).reply == Create(d2, data, id2, syncThrow, r2).reply
  {
  }

  /**
   * The delete reply is fixed once the load has answered: whether the removal
   * that follows reaches the medium changes the store, never the reply. When it
   * does not, the record stays although 200 was sent.
   */
  lemma DeleteReplyIndependentOfRemoval(docs: map<string, Doc>, id: Option<string>, reachable: bool)
    requires Keyed(docs)
    ensures Delete(docs, id, reachable, true).reply == Delete(docs, id, reachable, false).reply
    ensures id.Some? && reachable && id.value in docs ==>
              Delete(docs, id, reachable, false).reply.status == 200 &&
              Delete(docs, id, reachable, false).docs == docs &&
              id.value !in Delete(docs, id, reachable, true).docs
  {
  }

  /**
   * The update reply is fixed once the load has answered: when the write that
   * follows does not reach the medium, 200 is sent and the store is unchanged.
   */
  lemma UpdateReplyIndependentOfWrite(docs: map<string, Doc>, id: Option<string>, p: Option<string>, reachable: bool)
    requires Keyed(docs)
    ensures Update(docs, id, p, reachable, true).reply == Update(docs, id, p, reachable, false).reply
    ensures id.Some? && reachable && id.value in docs ==>
              Update(docs, id, p, reachable, false).reply.status == 200 &&
              Update(docs, id, p, reachable, false).docs == docs &&
              Field(Update(docs, id, p, reachable, true).docs[id.value].task, PriorityKey) == p
  {
  }

  /** Deleting or updating an id that is not stored answers 500 and changes nothing, in any environment. */
  lemma AbsentIdFailsLoad(docs: map<string, Doc>, name: string, p: Option<string>, reachable: bool, w: bool)
    requires name !in docs
    ensures Delete(docs, Some(name), reachable, w) == Exchange(LoadFailedReply, docs)
    ensures Update(docs, Some(name), p, reachable, w) == Exchange(LoadFailedReply, docs)
  {
  }

  /** The empty id is not refused as missing: it reaches the store and fails there with 500. */
  lemma EmptyIdReachesStore(docs: map<string, Doc>, p: Option<string>, reachable: bool, w: bool)
    requires "" !in docs
    ensures Delete(docs, Some(""), reachable, w) == Exchange(LoadFailedReply, docs)
    ensures Update(docs, Some(""), p, reachable, w) == Exchange(LoadFailedReply, docs)
  {
    AbsentIdFailsLoad(docs, "", p, reachable, w);
  }

  /** A listing fails exactly when the medium cannot be reached, and reports 500 then. */
  lemma ReadAllStatus(docs: map<string, Doc>, reachable: bool, reply: Reply)
    requires ReadAllReply(docs, reachable, reply)
    ensures reply.status == 200 <==> reachable
    ensures reply.status in {200, 500}
    ensures reachable ==> reply.ends == 2 && |reply.chunks| == 1 && reply.chunks[0].Listing?
  {
  }

  /** Updating an existing record changes its priority only and answers 200. */
  lemma UpdateChangesOnlyPriority(docs: map<string, Doc>, id: string, p: Option<string>)
    requires Keyed(docs) && id in docs
    ensures var x := Update(docs, Some(id), p, true, true);
            x.reply == Reply(200, [Text("modified with success: " + id)], 1) &&
            x.docs.Keys == docs.Keys &&
            x.docs[id].id == id &&
            Field(x.docs[id].task, PriorityKey) == p &&
            Field(x.docs[id].task, CoordinatesKey) == Field(docs[id].task, CoordinatesKey) &&
            Field(x.docs[id].task, FamilyKey) == Field(docs[id].task, FamilyKey) &&
            (forall k :: k != PriorityKey ==> Field(x.docs[id].task, k) == Field(docs[id].task, k)) &&
            (forall k :: k in docs && k != id ==> x.docs[k] == docs[k])
  {
  }

  /** Repeating an update leaves the same store as doing it once. */
  lemma UpdateIdempotent(docs: map<string, Doc>, id: Option<string>, p: Option<string>, reachable: bool, w: bool)
    requires Keyed(docs)
    ensures var once := Update(docs, id, p, reachable, w);
            Update(once.docs, id, p, reachable, w) == once
  {
    var once := Update(docs, id, p, reachable, w);
    if id.Some? && reachable && w && id.value in docs {
      var t := WithPriority(docs[id.value].task, p);
      assert once.docs == docs[id.value := Doc(id.value, t)];
      assert WithPriority(t, p) == t by {
        forall k ensures Field(WithPriority(t, p), k) == Field(t, k) {
          if k != PriorityKey {
            assert Field(WithPriority(t, p), k) == Field(t, k);
          }
        }
        FieldsDetermineObject(WithPriority(t, p), t);
      }
    }
  }

  /** Two objects with the same members are the same object. */
  lemma FieldsDetermineObject(a: JsonObject, b: JsonObject)
    requires forall k :: Field(a, k) == Field(b, k)
    ensures a == b
  {
    assert a.Keys == b.Keys by {
      forall k | k in a ensures k in b { assert Field(a, k).Some?; }
      forall k | k in b ensures k in a { assert Field(b, k).Some?; }
    }
    forall k | k in a ensures a[k] == b[k] { assert Field(a, k) == Field(b, k); }
  }

  /** Deleting an existing record answers 200; the record is gone and a second delete gives 500. */
  lemma DeleteThenDeleteAgain(docs: map<string, Doc>, id: string)
    requires Keyed(docs) && id in docs
    ensures var x := Delete(docs, Some(id), true, true);
            x.reply == Reply(200, [Text("deleted with success: " + id)], 1) &&
            id !in x.docs &&
            (forall k :: k in docs && k != id ==> k in x.docs && x.docs[k] == docs[k]) &&
            Delete(x.docs, Some(id), true, true) == Exchange(LoadFailedReply, x.docs)
  {
  }

  /** Creating with an id already in use replaces that record: no fresh record appears. */
  lemma CreateOverwritesOnCollision(docs: map<string, Doc>, task: JsonObject, newId: string)
    requires newId in docs
    ensures var x := Create(docs, Some(task), newId, false, true);
            x.reply.status == 200 && x.docs.Keys == docs.Keys && x.docs[newId] == Doc(newId, task)
  {
  }

  // ---------------------------------------------------------------------------
  // The per-record lifecycle

  /** What the service shows of one id: no record, or a record with this task body. */
  datatype Lifecycle = Absent | Active(task: JsonObject)

  datatype Intent = CreateIntent(body: JsonObject) | UpdateIntent(priority: Option<string>) | DeleteIntent

  function StateOf(docs: map<string, Doc>, id: string): Lifecycle
  {
    if id in docs then Active(docs[id].task) else Absent
  }

  /**
   * The lifecycle of one record: created Active, kept Active by an update that
   * touches only its priority, made Absent by a delete. Update and delete of an
   * Absent record change nothing; a create under an id in use replaces the body.
   */
  function Next(s: Lifecycle, i: Intent): Lifecycle
  {
    match i
    case CreateIntent(body) => Active(body)
    case UpdateIntent(p) => if s.Active? then Active(WithPriority(s.task, p)) else Absent
    case DeleteIntent => Absent
  }

  /**
   * The store after one intent addressed to `id` (the create's new id is `id`),
   * in any environment: a synchronous throw, an unreachable medium for the
   * awaited calls, or one for the un-awaited write.
   */
  function ApplyIn(docs: map<string, Doc>, id: string, i: Intent, syncThrow: bool, reachable: bool,
                   writeReachable: bool): map<string, Doc>
  {
    match i
    case CreateIntent(body) => Create(docs, Some(body), id, syncThrow, reachable).docs
    case UpdateIntent(p) => Update(docs, Some(id), p, reachable, writeReachable).docs
    case DeleteIntent => Delete(docs, Some(id), reachable, writeReachable).docs
  }

  /** The store after one intent whose store calls all go through. */
  function Apply(docs: map<string, Doc>, id: string, i: Intent): map<string, Doc>
  {
    ApplyIn(docs, id, i, false, true, true)
  }

  /**
   * In every environment an intent either moves the addressed record as the
   * lifecycle says or leaves it as it was, and never touches another record:
   * no record is created or removed other than by its own intent.
   */
  lemma IntentFollowsOrKeepsLifecycle(docs: map<string, Doc>, id: string, i: Intent,
                                      syncThrow: bool, reachable: bool, w: bool)
    requires Keyed(docs)
    ensures var after := ApplyIn(docs, id, i, syncThrow, reachable, w);
            Keyed(after) &&
            (StateOf(after, id) == Next(StateOf(docs, id), i) || StateOf(after, id) == StateOf(docs, id)) &&
            (forall k :: k != id ==> StateOf(after, k) == StateOf(docs, k))
  {
  }

  /** The service moves the addressed record as the lifecycle says and no other record at all. */
  lemma ServiceFollowsLifecycle(docs: map<string, Doc>, id: string, i: Intent)
    requires Keyed(docs)
    ensures Keyed(Apply(docs, id, i))
    ensures StateOf(Apply(docs, id, i), id) == Next(StateOf(docs, id), i)
    ensures forall k :: k != id ==> StateOf(Apply(docs, id, i), k) == StateOf(docs, k)
  {
  }

  function Run(docs: map<string, Doc>, id: string, intents: seq<Intent>): map<string, Doc>
    decreases |intents|
  {
    if intents == [] then docs else Run(Apply(docs, id, intents[0]), id, intents[1..])
  }

  function NextAll(s: Lifecycle, intents: seq<Intent>): Lifecycle
    decreases |intents|
  {
    if intents == [] then s else NextAll(Next(s, intents[0]), intents[1..])
  }

  /** Over any sequence of intents the record follows the lifecycle and other records stand still. */
  lemma {:induction false} RunFollowsLifecycle(docs: map<string, Doc>, id: string, intents: seq<Intent>)
    requires Keyed(docs)
    ensures Keyed(Run(docs, id, intents))
    ensures StateOf(Run(docs, id, intents), id) == NextAll(StateOf(docs, id), intents)
    ensures forall k :: k != id ==> StateOf(Run(docs, id, intents), k) == StateOf(docs, k)
    decreases |intents|
  {
    if intents != [] {
      ServiceFollowsLifecycle(docs, id, intents[0]);
      RunFollowsLifecycle(Apply(docs, id, intents[0]), id, intents[1..]);
    }
  }

  /** Only a create brings an Absent record into being. */
  lemma {:induction false} AbsentStaysAbsentWithoutCreate(s: Lifecycle, intents: seq<Intent>)
    requires s == Absent
    requires forall j :: 0 <= j < |intents| ==> !intents[j].CreateIntent?
    ensures NextAll(s, intents) == Absent
    decreases |intents|
  {
    if intents != [] {
      AbsentStaysAbsentWithoutCreate(Next(s, intents[0]), intents[1..]);
    }
  }

  /** An Active record keeps its coordinates and family through any number of updates. */
  lemma {:induction false} UpdatesKeepCoordinatesAndFamily(s: Lifecycle, intents: seq<Intent>)
    requires s.Active?
    requires forall j :: 0 <= j < |intents| ==> intents[j].UpdateIntent?
    ensures NextAll(s, intents).Active?
    ensures Field(NextAll(s, intents).task, CoordinatesKey) == Field(s.task, CoordinatesKey)
    ensures Field(NextAll(s, intents).task, FamilyKey) == Field(s.task, FamilyKey)
    decreases |intents|
  {
    if intents != [] {
      UpdatesKeepCoordinatesAndFamily(Next(s, intents[0]), intents[1..]);
    }
  }
}
