/**
 * The persisted task record and the JSON values that travel with it.
 *
 * Every JSON object this application builds has string members only (the client
 * writes coordinates, family and priority through string templates), so an object
 * is a map from member name to string; a member that is absent reads as `undefined`.
 */
module Records {
  import opened Wrappers

  type JsonObject = map<string, string>

  /** A stored document: the PouchDB `_id` and the task body it was saved with. */
  datatype Doc = Doc(id: string, task: JsonObject)

  const CoordinatesKey := "coordinates"
  const FamilyKey := "family"
  const PriorityKey := "priority"

  /** Reading a member: `undefined` when the object does not have it. */
  function Field(o: JsonObject, key: string): (r: Option<string>)
    ensures r.Some? <==> key in o
    ensures r.Some? ==> r.value == o[key]
  {
    if key in o then Some(o[key]) else None
  }

  /** JavaScript's string conversion of a string-or-undefined value. */
  function Show(v: Option<string>): (s: string)
    ensures v.Some? ==> s == v.value
    ensures v.None? ==> s == "undefined"
  {
    match v
    case Some(x) => x
    case None => "undefined"
  }

  /**
   * `task.priority = p`: sets the priority member, or drops it when `p` is
   * `undefined` (JSON serialisation omits members whose value is `undefined`).
   */
  function WithPriority(task: JsonObject, p: Option<string>): (r: JsonObject)
    ensures Field(r, PriorityKey) == p
    ensures forall k :: k != PriorityKey ==> Field(r, k) == Field(task, k)
  {
    match p
    case Some(v) => task[PriorityKey := v]
    case None => task - {PriorityKey}
  }
}
