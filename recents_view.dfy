/**
 * The recents view of `src/frontend/CFRecentsView.js`, without its DOM: the
 * shared event register that views subscribe to and publish on, the projection
 * of stored documents into view tasks and list items, the label split done on a
 * click, the task list's local state, and the view's singleton.
 */
module RecentsView {
  import opened Wrappers
  import opened Records
  import opened ServerProxy

  // ---------------------------------------------------------------------------
  // The event register

  /** A subscribed callback, known by name (the source's handlers are closures). */
  datatype Handler = Handler(name: string)

  /** A view-side task: the four properties of the JavaScript object, each possibly `undefined`. */
  datatype Task = Task(id: Option<string>, coordinates: Option<string>, family: Option<string>, priority: Option<string>)

  /** The data of an event: `null`, or a task object. */
  datatype EventData = NoData | TaskData(task: Task)

  /** One invocation `handler(data)` made while publishing. */
  datatype Call = Call(handler: Handler, data: EventData)

  type Register = map<string, seq<Handler>>

  /** The handlers registered for an event, in subscription order; none for an unseen event. */
  function HandlersOf(ev: Register, event: string): seq<Handler>
  {
    if event in ev then ev[event] else []
  }

  /** The register after `subscribe(event, h)`. */
  function Subscribed(ev: Register, event: string, h: Handler): (r: Register)
    ensures HandlersOf(r, event) == HandlersOf(ev, event) + [h]
    ensures forall e :: e != event ==> HandlersOf(r, e) == HandlersOf(ev, e)
    ensures r.Keys == ev.Keys + {event}
  {
    ev[event := HandlersOf(ev, event) + [h]]
  }

  /** `forEach(handler => handler(data))`: one call per handler, in list order. */
  function Calls(hs: seq<Handler>, data: EventData): seq<Call>
  {
    seq(|hs|, i requires 0 <= i < |hs| => Call(hs[i], data))
  }

  /** `#publish(event, data)`: every handler of the event, in subscription order, with the same data. */
  function Publish(ev: Register, event: string, data: EventData): (calls: seq<Call>)
    ensures |calls| == |HandlersOf(ev, event)|
    ensures forall i :: 0 <= i < |calls| ==> calls[i].handler == HandlersOf(ev, event)[i] && calls[i].data == data
    ensures event !in ev ==> calls == []
  {
    Calls(HandlersOf(ev, event), data)
  }

  /** The register after subscribing `hs` to one event, one after another. */
  function SubscribeAll(ev: Register, event: string, hs: seq<Handler>): Register
    decreases |hs|
  {
    if hs == [] then ev else SubscribeAll(Subscribed(ev, event, hs[0]), event, hs[1..])
  }

  lemma {:induction false} CallsAppend(a: seq<Handler>, b: seq<Handler>, data: EventData)
    ensures Calls(a + b, data) == Calls(a, data) + Calls(b, data)
  {
    var l, r := Calls(a + b, data), Calls(a, data) + Calls(b, data);
    assert |l| == |r|;
    forall i | 0 <= i < |l| ensures l[i] == r[i] {
      if i < |a| {
        assert (a + b)[i] == a[i];
      } else {
        assert (a + b)[i] == b[i - |a|];
      }
    }
  }

  /** Publishing after one subscription calls the earlier handlers, then the new one. */
  lemma PublishAfterSubscribe(ev: Register, event: string, h: Handler, data: EventData)
    ensures Publish(Subscribed(ev, event, h), event, data) == Publish(ev, event, data) + [Call(h, data)]
  {
    CallsAppend(HandlersOf(ev, event), [h], data);
  }

  /** Publishing after a run of subscriptions calls the earlier handlers first, then the new ones in order. */
  lemma {:induction false} PublishInSubscriptionOrder(ev: Register, event: string, hs: seq<Handler>, data: EventData)
    ensures Publish(SubscribeAll(ev, event, hs), event, data) == Publish(ev, event, data) + Calls(hs, data)
    decreases |hs|
  {
    if hs == [] {
      assert Publish(ev, event, data) + Calls(hs, data) == Publish(ev, event, data);
    } else {
      var ev' := Subscribed(ev, event, hs[0]);
      var rest := Calls(hs[1..], data);
      PublishInSubscriptionOrder(ev', event, hs[1..], data);
      assert Publish(SubscribeAll(ev, event, hs), event, data) == Publish(ev', event, data) + rest;
      var earlier := Publish(ev, event, data);
      PublishAfterSubscribe(ev, event, hs[0], data);
      assert Calls(hs, data) == [Call(hs[0], data)] + rest;
      assert (earlier + [Call(hs[0], data)]) + rest == earlier + ([Call(hs[0], data)] + rest);
    }
  }

  /** Subscribing never changes what another event delivers. */
  lemma {:induction false} SubscribeAllLeavesOtherEvents(ev: Register, event: string, other: string,
                                                          hs: seq<Handler>, data: EventData)
    requires other != event
    ensures Publish(SubscribeAll(ev, event, hs), other, data) == Publish(ev, other, data)
    decreases |hs|
  {
    if hs != [] {
      SubscribeAllLeavesOtherEvents(Subscribed(ev, event, hs[0]), event, other, hs[1..], data);
    }
  }

  /** The process-wide register returned by `Events.events()`: event name to handler list. */
  class EventRegister {
    var handlers: Register

    constructor ()
      ensures handlers == map[]
    {
      handlers := map[];
    }

    /** `subscribe(event, handler)`: creates the list for an unseen event, then appends. */
    method Subscribe(event: string, h: Handler)
      modifies this
      ensures handlers == Subscribed(old(handlers), event, h)
    {
      if event !in handlers {
        handlers := handlers[event := []];
      }
      handlers := handlers[event := handlers[event] + [h]];
    }
  }

  // ---------------------------------------------------------------------------
  // Projection of stored documents into the list

  /**
   * `new Task(coordinates, family, id, priority)`: keeps a given id; for an
   * `undefined` id it takes `fallback`, the random text the source draws.
   */
  function NewTask(coordinates: Option<string>, family: Option<string>, id: Option<string>,
                   priority: Option<string>, fallback: string): (t: Task)
    ensures t.id.Some?
    ensures id.Some? ==> t.id == id
    ensures id.None? ==> t.id == Some(fallback)
    ensures t.coordinates == coordinates && t.family == family && t.priority == priority
  {
    Task(if id.None? then Some(fallback) else id, coordinates, family, priority)
  }

  /** One wire record `{_id, task}` as a view task; a stored document always has an id, so no fallback is drawn. */
  function FromWire(d: Doc): Task
  {
    NewTask(Field(d.task, CoordinatesKey), Field(d.task, FamilyKey), Some(d.id), Field(d.task, PriorityKey), "")
  }

  /** `#parse`, after `JSON.parse`: one task per record, in order, with `id = _id`. */
  function Parse(docs: seq<Doc>): (tasks: seq<Task>)
    ensures |tasks| == |docs|
    ensures forall i :: 0 <= i < |docs| ==>
      tasks[i] == Task(Some(docs[i].id), Field(docs[i].task, CoordinatesKey),
                       Field(docs[i].task, FamilyKey), Field(docs[i].task, PriorityKey))
  {
    if docs == [] then [] else [FromWire(docs[0])] + Parse(docs[1..])
  }

  /**
   * `#getTasks`, from the value `getAll` returned: `[]` for `null`, the parsed
   * listing for its JSON text, and a rejection when `JSON.parse` or the mapping
   * throws (any other text, and `[]`, whose string form is empty).
   */
  function GetTasks(v: ProxyValue): (r: Result<seq<Task>, string>)
    ensures v.NullValue? ==> r == Success([])
    ensures r.Success? <==> v.NullValue? || (v.BodyText? && v.text.DocsJson?)
    ensures v.BodyText? && v.text.DocsJson? ==> r == Success(Parse(v.text.docs))
  {
    match v
    case NullValue => Success([])
    case BodyText(DocsJson(docs)) => Success(Parse(docs))
    case BodyText(OtherText(_)) => Failure("SyntaxError")
    case EmptyArray => Failure("SyntaxError")
  }

  /** The fields of one list item that `#makeTaskItem` derives from a task. */
  datatype TaskItem = TaskItem(checkboxId: string, checked: bool, caption: string, captionId: string, deleteId: string)

  /** `#makeTaskItem(task)`: DOM ids are the string form of `task.id`. */
  function MakeTaskItem(t: Task): (item: TaskItem)
    ensures item.checked <==> t.priority == Some("true")
    ensures item.checkboxId == Show(t.id) && item.captionId == Show(t.id) && item.deleteId == Show(t.id)
    ensures item.caption == Show(t.coordinates) + ":" + Show(t.family)
  {
    var id := Show(t.id);
    TaskItem(id, t.priority == Some("true"), Show(t.coordinates) + ":" + Show(t.family), id, id)
  }

  function Items(tasks: seq<Task>): (items: seq<TaskItem>)
    ensures |items| == |tasks|
    ensures forall i :: 0 <= i < |tasks| ==> items[i] == MakeTaskItem(tasks[i])
  {
    seq(|tasks|, i requires 0 <= i < |tasks| => MakeTaskItem(tasks[i]))
  }

  /** `text.split(":")[0]`: the text before the first colon, or all of it. */
  function BeforeColon(s: string): (r: string)
    ensures r <= s
    ensures ':' !in r
    ensures |r| < |s| ==> s[|r|] == ':'
  {
    if s == [] then [] else if s[0] == ':' then [] else [s[0]] + BeforeColon(s[1..])
  }

  /** `#clickRecents`: the data handed to `displayResults` for the clicked text. */
  function ClickRecents(text: string): (data: JsonObject)
    ensures Field(data, CoordinatesKey) == Some(BeforeColon(text))
    ensures data.Keys == {CoordinatesKey}
  {
    map[CoordinatesKey := BeforeColon(text)]
  }

  lemma {:induction false} BeforeColonOfJoin(a: string, b: string)
    requires ':' !in a
    ensures BeforeColon(a + ":" + b) == a
  {
    if a != [] {
      assert (a + ":" + b)[1..] == a[1..] + ":" + b;
      BeforeColonOfJoin(a[1..], b);
    } else {
      assert (a + ":" + b)[0] == ':';
    }
  }

  /** Clicking an item passes on its coordinates, as long as they hold no colon. */
  lemma ClickGivesBackCoordinates(t: Task)
    requires ':' !in Show(t.coordinates)
    ensures Field(ClickRecents(MakeTaskItem(t).caption), CoordinatesKey) == Some(Show(t.coordinates))
  {
    BeforeColonOfJoin(Show(t.coordinates), Show(t.family));
  }

  // ---------------------------------------------------------------------------
  // Saving a new task

  const PrioritySuffix := "\"priority\" : \"false\" }"

  /** The JSON text `#save` builds from a task; the task's own priority is not used. */
  function SaveText(t: Task): (j: string)
    ensures var head := "{\"coordinates\" : \"" + Show(t.coordinates) + "\"";
            |head| + |PrioritySuffix| <= |j| && j[..|head|] == head &&
            j[|j| - |PrioritySuffix|..] == PrioritySuffix
  {
    "{\"coordinates\" : \"" + Show(t.coordinates) + "\", \"family\" : \"" + Show(t.family) + "\", " + PrioritySuffix
  }

  /** Whatever the task, the text `#save` sends asks for priority "false". */
  lemma SaveTextAsksForNoPriority(t: Task, p: Option<string>)
    ensures |PrioritySuffix| <= |SaveText(t)|
    ensures SaveText(t)[|SaveText(t)| - |PrioritySuffix|..] == PrioritySuffix
    ensures SaveText(t.(priority := p)) == SaveText(t)
  {
    var prefix := "{\"coordinates\" : \"" + Show(t.coordinates) + "\", \"family\" : \"" + Show(t.family) + "\", ";
    assert SaveText(t) == prefix + PrioritySuffix;
  }

  /**
   * `response.status` of the value `saveRecent` resolved to: reading it off
   * `null` throws; a string or an array has no `status`.
   */
  function StatusProperty(v: ProxyValue): Result<Option<int>, string>
  {
    match v
    case NullValue => Failure("TypeError")
    case BodyText(_) => Success(None)
    case EmptyArray => Success(None)
  }

  /**
   * `#save` as written: success only if the resolved value's `status` is 200;
   * a rejection is caught and leaves `success` false.
   */
  function SaveResultAsWritten(r: Settled<ProxyValue>): (ok: bool)
    ensures ok ==> r.Resolved? && StatusProperty(r.value).Success?
    ensures r.Rejected? ==> !ok
  {
    r.Resolved? && StatusProperty(r.value) == Success(Some(200))
  }

  /**
   * As written, `#save` never reports success: not for any value `saveRecent`
   * can settle to, and so not even when the service answered 200.
   */
  lemma SaveNeverReportsSuccess(r: Settled<ProxyValue>)
    ensures !SaveResultAsWritten(r)
  {
  }

  /** `#save` as intended: the text parsed and the service answered with status 200. */
  function SaveSucceeded(parsed: Option<JsonObject>, outcome: HttpOutcome): (ok: bool)
    ensures ok <==> parsed.Some? && outcome.Responded? && outcome.status == 200
  {
    parsed.Some? && Succeeded(outcome)
  }

  // ---------------------------------------------------------------------------
  // The task list and the view

  const AddToRecentsEvent := "add-to-recents"
  const AddToRecentsHandler := Handler("TaskList#addToRecents")

  /** `TaskList`: `#tasks` and the items of `#list`, both `null` until the first render. */
  class TaskList {
    const events: EventRegister
    var tasks: Option<seq<Task>>
    var list: Option<seq<TaskItem>>

    /** The list shows one item per task, in order. */
    ghost predicate Valid()
      reads this
    {
      (tasks.None? <==> list.None?) &&
      (tasks.Some? ==> list.value == Items(tasks.value))
    }

    /** The constructor subscribes the list to `add-to-recents`. */
    constructor (events: EventRegister)
      modifies events
      ensures Valid() && this.events == events && tasks == None
      ensures events.handlers == Subscribed(old(events.handlers), AddToRecentsEvent, AddToRecentsHandler)
    {
      this.events := events;
      tasks, list := None, None;
      new;
      events.Subscribe(AddToRecentsEvent, AddToRecentsHandler);
    }

    /** `render()` on the value `getAll` returned: a failed `#getTasks` rejects before anything is set. */
    method Render(v: ProxyValue)
      requires Valid()
      modifies this
      ensures Valid()
      ensures GetTasks(v).Success? ==> tasks == Some(GetTasks(v).value)
      ensures GetTasks(v).Failure? ==> tasks == old(tasks) && list == old(list)
    {
      var loaded := GetTasks(v);
      if loaded.Success? {
        tasks := Some(loaded.value);
        var items := [];
        var i := 0;
        while i < |loaded.value|
          invariant 0 <= i <= |loaded.value|
          invariant items == Items(loaded.value[..i])
        {
          items := items + [MakeTaskItem(loaded.value[i])];
          i := i + 1;
        }
        assert loaded.value[..i] == loaded.value;
        list := Some(items);
      }
    }

    /**
     * `#addToRecents(d)`: starts `#save(d)` with the text it builds, and, since
     * the un-awaited promise is always truthy, appends the task and its item.
     * Before the first render `#tasks` is `null` and the push throws.
     */
    method AddToRecents(d: Task) returns (saveText: string, threw: bool)
      requires Valid()
      modifies this
      ensures Valid()
      ensures saveText == SaveText(d)
      ensures threw <==> old(tasks).None?
      ensures tasks == if threw then old(tasks) else Some(old(tasks).value + [d])
    {
      saveText := SaveText(d);
      if tasks.None? {
        return saveText, true;
      }
      threw := false;
      tasks := Some(tasks.value + [d]);
      list := Some(list.value + [MakeTaskItem(d)]);
      assert Items(tasks.value) == list.value;
    }
  }

  /** `CFRecentsView`: holds the shared register it subscribes to. */
  class CFRecentsView {
    const events: EventRegister

    constructor (events: EventRegister)
      ensures this.events == events
    {
      this.events := events;
    }

    method Subscribe(event: string, h: Handler)
      modifies events
      ensures events.handlers == Subscribed(old(events.handlers), event, h)
    {
      events.Subscribe(event, h);
    }
  }

  /** The static slot behind `CFRecentsView.instance()`. */
  class RecentsViewSlot {
    var recentsView: CFRecentsView?

    constructor ()
      ensures recentsView == null
    {
      recentsView := null;
    }

    /** Constructs the view on the first call only; every call returns the same object. */
    method Instance(events: EventRegister) returns (v: CFRecentsView)
      modifies this
      ensures old(recentsView) != null ==> v == old(recentsView)
      ensures old(recentsView) == null ==> fresh(v) && v.events == events
      ensures recentsView == v
    {
      if recentsView == null {
        recentsView := new CFRecentsView(events);
      }
      v := recentsView;
    }
  }
}
