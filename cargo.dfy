/** Cargo bays and their boxes (models/Cargo.py): the status enumerations, the
    `from_dict`/`to_dict` pair of `Box` and `Cargo`, and the per-cargo door
    automaton run by `Cargo.operation` and its delayed workers.

    Threads and timers appear only as events. A call of `operation` is one
    atomic step (it runs under the cargo's lock from start to end), and a
    worker whose wait on its cancel event has ended is a second kind of step,
    `FinishEvent`, which also runs under the lock. */
module Cargo {
  import opened JsonData

  /** Seconds a door takes to settle (models/Cargo.py:7). There is no clock in
      the model: the end of a worker's wait is the event `FinishEvent`. */
  const OPERATION_TIMER: real := 3.0

  // ---------------------------------------------------------------------------
  // Enumerations and their string values
  // ---------------------------------------------------------------------------

  datatype DoorStatus = Open | Opening | Closing | Closed | SemiOpen {
    function Value(): string {
      match this
      case Open => "OPEN"
      case Opening => "OPENING"
      case Closing => "CLOSING"
      case Closed => "CLOSED"
      case SemiOpen => "SEMIOPEN"
    }
  }

  datatype LockStatus = Locked | Unlocked {
    function Value(): string {
      match this
      case Locked => "LOCKED"
      case Unlocked => "UNLOCKED"
    }
  }

  datatype StockStatus = StockEmpty | SemiFull | Full {
    function Value(): string {
      match this
      case StockEmpty => "EMPTY"
      case SemiFull => "SEMIFULL"
      case Full => "FULL"
    }
  }

  datatype BoxStatus = Empty | NotEmpty | Error {
    function Value(): string {
      match this
      case Empty => "EMPTY"
      case NotEmpty => "NOT_EMPTY"
      case Error => "ERROR"
    }
  }

  datatype CargoOrientation = Front | Back | Top {
    function Value(): string {
      match this
      case Front => "FRONT"
      case Back => "BACK"
      case Top => "TOP"
    }
  }

  datatype CargoType = Takeout | Retail {
    function Value(): string {
      match this
      case Takeout => "TAKEOUT"
      case Retail => "RETAIL"
    }
  }

  /** `DoorStatus(v)`: the member whose value is `v`; anything else raises `ValueError`. */
  function ParseDoorStatus(j: Json): (r: Option<DoorStatus>)
    ensures forall d: DoorStatus :: r == Some(d) <==> j == JStr(d.Value())
  {
    if j == JStr("OPEN") then Some(Open)
    else if j == JStr("OPENING") then Some(Opening)
    else if j == JStr("CLOSING") then Some(Closing)
    else if j == JStr("CLOSED") then Some(Closed)
    else if j == JStr("SEMIOPEN") then Some(SemiOpen)
    else None
  }

  /** `LockStatus(v)`. */
  function ParseLockStatus(j: Json): (r: Option<LockStatus>)
    ensures forall l: LockStatus :: r == Some(l) <==> j == JStr(l.Value())
  {
    if j == JStr("LOCKED") then Some(Locked)
    else if j == JStr("UNLOCKED") then Some(Unlocked)
    else None
  }

  /** `StockStatus(v)`. */
  function ParseStockStatus(j: Json): (r: Option<StockStatus>)
    ensures forall s: StockStatus :: r == Some(s) <==> j == JStr(s.Value())
  {
    if j == JStr("EMPTY") then Some(StockEmpty)
    else if j == JStr("SEMIFULL") then Some(SemiFull)
    else if j == JStr("FULL") then Some(Full)
    else None
  }

  /** `BoxStatus(v)`. */
  function ParseBoxStatus(j: Json): (r: Option<BoxStatus>)
    ensures forall s: BoxStatus :: r == Some(s) <==> j == JStr(s.Value())
  {
    if j == JStr("EMPTY") then Some(Empty)
    else if j == JStr("NOT_EMPTY") then Some(NotEmpty)
    else if j == JStr("ERROR") then Some(Error)
    else None
  }

  /** `CargoOrientation(v)`. */
  function ParseOrientation(j: Json): (r: Option<CargoOrientation>)
    ensures forall o: CargoOrientation :: r == Some(o) <==> j == JStr(o.Value())
  {
    if j == JStr("FRONT") then Some(Front)
    else if j == JStr("BACK") then Some(Back)
    else if j == JStr("TOP") then Some(Top)
    else None
  }

  /** `CargoType(v)`. */
  function ParseCargoType(j: Json): (r: Option<CargoType>)
    ensures forall t: CargoType :: r == Some(t) <==> j == JStr(t.Value())
  {
    if j == JStr("TAKEOUT") then Some(Takeout)
    else if j == JStr("RETAIL") then Some(Retail)
    else None
  }

  // ---------------------------------------------------------------------------
  // Records and the dict format
  // ---------------------------------------------------------------------------

  /** A box of a cargo bay. `id` and `errors` are stored as given, whatever their JSON type. */
  datatype Box = Box(
    id: Json,
    doorStatus: DoorStatus,
    lockStatus: LockStatus,
    stockStatus: StockStatus,
    status: BoxStatus,
    errors: Json)

  /** The declared fields of a cargo bay; `kind` is the source's `type`. */
  datatype CargoRecord = CargoRecord(
    id: Json,
    pos: Json,
    orientation: CargoOrientation,
    layer: Json,
    kind: CargoType,
    errors: Json,
    boxes: seq<Box>)

  /** Why `from_dict` raises. */
  datatype ParseError =
    | NotAnObject            // subscript or `.get` on something that is not a dict
    | NotIterable            // iterating over a value that is not iterable
    | MissingKey(key: string) // KeyError
    | BadValue(key: string)   // ValueError from an enumeration

  /** `Box.from_dict`: the keyword arguments are evaluated in order, so the
      first missing key or bad enumeration value decides the error. */
  function BoxFromDict(j: Json): (r: Result<Box, ParseError>)
    ensures !j.JObj? ==> r == Err(NotAnObject)
    ensures j.JObj? && "id" !in j.fields ==> r == Err(MissingKey("id"))
    ensures r.Ok? ==> j.JObj? && "id" in j.fields && j.fields["id"] == r.value.id
    ensures r.Ok? ==> "door_status" in j.fields && j.fields["door_status"] == JStr(r.value.doorStatus.Value())
    ensures r.Ok? ==> "lock_status" in j.fields && j.fields["lock_status"] == JStr(r.value.lockStatus.Value())
    ensures r.Ok? ==> "stock_status" in j.fields && j.fields["stock_status"] == JStr(r.value.stockStatus.Value())
    ensures r.Ok? ==> "status" in j.fields && j.fields["status"] == JStr(r.value.status.Value())
    ensures r.Ok? ==> r.value.errors == Get(j.fields, "errors", EmptyList)
  {
    if !j.JObj? then Err(NotAnObject)
    else
      var d := j.fields;
      if "id" !in d then Err(MissingKey("id"))
      else if "door_status" !in d then Err(MissingKey("door_status"))
      else if ParseDoorStatus(d["door_status"]).None? then Err(BadValue("door_status"))
      else if "lock_status" !in d then Err(MissingKey("lock_status"))
      else if ParseLockStatus(d["lock_status"]).None? then Err(BadValue("lock_status"))
      else if "stock_status" !in d then Err(MissingKey("stock_status"))
      else if ParseStockStatus(d["stock_status"]).None? then Err(BadValue("stock_status"))
      else if "status" !in d then Err(MissingKey("status"))
      else if ParseBoxStatus(d["status"]).None? then Err(BadValue("status"))
      else
        Ok(Box(
             d["id"],
             ParseDoorStatus(d["door_status"]).value,
             ParseLockStatus(d["lock_status"]).value,
             ParseStockStatus(d["stock_status"]).value,
             ParseBoxStatus(d["status"]).value,
             Get(d, "errors", EmptyList)))
  }

  /** A dict holding the five required keys with valid enumeration values is
      always accepted, whatever else it holds: `errors` defaults to the empty list. */
  lemma BoxFromValidDict(d: map<string, Json>)
    requires "id" in d && "door_status" in d && "lock_status" in d && "stock_status" in d && "status" in d
    requires ParseDoorStatus(d["door_status"]).Some? && ParseLockStatus(d["lock_status"]).Some?
    requires ParseStockStatus(d["stock_status"]).Some? && ParseBoxStatus(d["status"]).Some?
    ensures BoxFromDict(JObj(d)) ==
            Ok(Box(d["id"], ParseDoorStatus(d["door_status"]).value, ParseLockStatus(d["lock_status"]).value,
                   ParseStockStatus(d["stock_status"]).value, ParseBoxStatus(d["status"]).value,
                   Get(d, "errors", EmptyList)))
  {
  }

  /** `Box.to_dict`: camelCase keys, enumerations as their string values. */
  function BoxToDict(b: Box): (r: map<string, Json>)
    ensures r.Keys == {"id", "doorStatus", "lockStatus", "stockStatus", "status", "errors"}
    ensures r["id"] == b.id && r["errors"] == b.errors
    ensures ParseDoorStatus(r["doorStatus"]) == Some(b.doorStatus) && ParseLockStatus(r["lockStatus"]) == Some(b.lockStatus)
    ensures ParseStockStatus(r["stockStatus"]) == Some(b.stockStatus) && ParseBoxStatus(r["status"]) == Some(b.status)
  {
    map[
      "id" := b.id,
      "doorStatus" := JStr(b.doorStatus.Value()),
      "lockStatus" := JStr(b.lockStatus.Value()),
      "stockStatus" := JStr(b.stockStatus.Value()),
      "status" := JStr(b.status.Value()),
      "errors" := b.errors]
  }

  /** The key each input key of `Box.from_dict` is written under by `Box.to_dict`. */
  const BoxKeyRenaming: map<string, string> :=
    map[
      "id" := "id",
      "door_status" := "doorStatus",
      "lock_status" := "lockStatus",
      "stock_status" := "stockStatus",
      "status" := "status",
      "errors" := "errors"]

  /** The input format of `Box.from_dict` for a box (snake_case keys), the shape of the stored fixtures. */
  function BoxToSnakeDict(b: Box): map<string, Json> {
    map[
      "id" := b.id,
      "door_status" := JStr(b.doorStatus.Value()),
      "lock_status" := JStr(b.lockStatus.Value()),
      "stock_status" := JStr(b.stockStatus.Value()),
      "status" := JStr(b.status.Value()),
      "errors" := b.errors]
  }

  /** `to_dict` after `from_dict` writes every value read by `from_dict` under
      the renamed key, and the missing `errors` as the empty list. */
  lemma BoxDictRoundTrip(j: Json, b: Box)
    requires BoxFromDict(j) == Ok(b)
    ensures BoxToDict(b).Keys == BoxKeyRenaming.Values
    ensures forall k :: k in BoxKeyRenaming && k in j.fields ==> BoxToDict(b)[BoxKeyRenaming[k]] == j.fields[k]
    ensures "errors" !in j.fields ==> BoxToDict(b)["errors"] == EmptyList
  {
    assert BoxKeyRenaming["id"] in BoxKeyRenaming.Values;
    assert BoxKeyRenaming["door_status"] in BoxKeyRenaming.Values;
    assert BoxKeyRenaming["lock_status"] in BoxKeyRenaming.Values;
    assert BoxKeyRenaming["stock_status"] in BoxKeyRenaming.Values;
    assert BoxKeyRenaming["status"] in BoxKeyRenaming.Values;
    assert BoxKeyRenaming["errors"] in BoxKeyRenaming.Values;
  }

  /** Every box is what `from_dict` makes of its snake_case dict. */
  lemma BoxFromSnakeDict(b: Box)
    ensures BoxFromDict(JObj(BoxToSnakeDict(b))) == Ok(b)
  {
  }

  /** The two formats differ: `from_dict` rejects what `to_dict` produces. */
  lemma BoxFromDictRejectsToDict(b: Box)
    ensures BoxFromDict(JObj(BoxToDict(b))) == Err(MissingKey("door_status"))
  {
  }

  /** The values of a list of results, or the first error among them: a list
      comprehension stops at the first element that raises. */
  function FirstError<T>(rs: seq<Result<T, ParseError>>): (r: Result<seq<T>, ParseError>)
    ensures r.Ok? <==> forall i :: 0 <= i < |rs| ==> rs[i].Ok?
    ensures r.Ok? ==> |r.value| == |rs| && forall i :: 0 <= i < |rs| ==> rs[i] == Ok(r.value[i])
    ensures r.Err? ==> exists i :: 0 <= i < |rs| && rs[i] == Err(r.error) && forall j :: 0 <= j < i ==> rs[j].Ok?
    decreases |rs|
  {
    if rs == [] then Ok([])
    else
      var tail := FirstError(rs[1..]);
      assert forall i :: 1 <= i < |rs| ==> rs[i] == rs[1..][i - 1];
      if rs[0].Err? then Err(rs[0].error)
      else if tail.Err? then
        var k :| 0 <= k < |rs[1..]| && rs[1..][k] == Err(tail.error) && forall j :: 0 <= j < k ==> rs[1..][j].Ok?;
        assert rs[k + 1] == Err(tail.error);
        Err(tail.error)
      else Ok([rs[0].value] + tail.value)
  }

  /** The list comprehension of `Cargo.from_dict` over a list of box dicts. */
  function BoxesFromList(xs: seq<Json>): (r: Result<seq<Box>, ParseError>)
    ensures r.Ok? <==> forall i :: 0 <= i < |xs| ==> BoxFromDict(xs[i]).Ok?
    ensures r.Ok? ==> |r.value| == |xs| && forall i :: 0 <= i < |xs| ==> BoxFromDict(xs[i]) == Ok(r.value[i])
  {
    var rs := seq(|xs|, i requires 0 <= i < |xs| => BoxFromDict(xs[i]));
    assert forall i :: 0 <= i < |xs| ==> rs[i] == BoxFromDict(xs[i]);
    FirstError(rs)
  }

  /** Iterating over `data.get("boxes", [])`: a list is parsed element by
      element; an empty dict or string yields no boxes; a non-empty dict or
      string yields strings, which `Box.from_dict` cannot subscript. */
  function BoxesField(j: Json): (r: Result<seq<Box>, ParseError>)
    ensures j.JArr? ==> r == BoxesFromList(j.items)
    ensures !j.JArr? && r.Ok? ==> r.value == []
    ensures !j.JArr? ==> (r.Ok? <==> j == JObj(map[]) || j == JStr(""))
    ensures j.JNull? || j.JBool? || j.JInt? || j.JReal? ==> r == Err(NotIterable)
  {
    match j
    case JArr(xs) => BoxesFromList(xs)
    case JObj(m) => if m == map[] then Ok([]) else Err(NotAnObject)
    case JStr(s) => if s == "" then Ok([]) else Err(NotAnObject)
    case _ => Err(NotIterable)
  }

  /** `Cargo.from_dict`: the boxes are converted first, then the keyword arguments in order. */
  function CargoFromDict(j: Json): (r: Result<CargoRecord, ParseError>)
    ensures !j.JObj? ==> r == Err(NotAnObject)
    ensures r.Ok? ==> j.JObj? && BoxesField(Get(j.fields, "boxes", EmptyList)) == Ok(r.value.boxes)
    ensures r.Ok? ==> "id" in j.fields && j.fields["id"] == r.value.id
    ensures r.Ok? ==> "pos" in j.fields && j.fields["pos"] == r.value.pos
    ensures r.Ok? ==> "orientation" in j.fields && j.fields["orientation"] == JStr(r.value.orientation.Value())
    ensures r.Ok? ==> "layer" in j.fields && j.fields["layer"] == r.value.layer
    ensures r.Ok? ==> "type" in j.fields && j.fields["type"] == JStr(r.value.kind.Value())
    ensures r.Ok? ==> r.value.errors == Get(j.fields, "errors", EmptyList)
  {
    if !j.JObj? then Err(NotAnObject)
    else
      var d := j.fields;
      match BoxesField(Get(d, "boxes", EmptyList))
      case Err(e) => Err(e)
      case Ok(boxes) =>
        if "id" !in d then Err(MissingKey("id"))
        else if "pos" !in d then Err(MissingKey("pos"))
        else if "orientation" !in d then Err(MissingKey("orientation"))
        else if ParseOrientation(d["orientation"]).None? then Err(BadValue("orientation"))
        else if "layer" !in d then Err(MissingKey("layer"))
        else if "type" !in d then Err(MissingKey("type"))
        else if ParseCargoType(d["type"]).None? then Err(BadValue("type"))
        else
          Ok(CargoRecord(
               d["id"],
               d["pos"],
               ParseOrientation(d["orientation"]).value,
               d["layer"],
               ParseCargoType(d["type"]).value,
               Get(d, "errors", EmptyList),
               boxes))
  }

  /** The box list of `Cargo.to_dict`. */
  function BoxesToDicts(bs: seq<Box>): (r: seq<Json>)
    ensures |r| == |bs|
    ensures forall i :: 0 <= i < |bs| ==> r[i] == JObj(BoxToDict(bs[i]))
  {
    seq(|bs|, i requires 0 <= i < |bs| => JObj(BoxToDict(bs[i])))
  }

  /** `Cargo.to_dict`: the same keys as the input, enumerations as their string
      values and each box as its `Box.to_dict`. */
  function CargoToDict(c: CargoRecord): (r: map<string, Json>)
    ensures r.Keys == {"id", "pos", "orientation", "layer", "type", "errors", "boxes"}
    ensures r["id"] == c.id && r["pos"] == c.pos && r["layer"] == c.layer && r["errors"] == c.errors
    ensures ParseOrientation(r["orientation"]) == Some(c.orientation) && ParseCargoType(r["type"]) == Some(c.kind)
    ensures r["boxes"] == JArr(BoxesToDicts(c.boxes))
  {
    map[
      "id" := c.id,
      "pos" := c.pos,
      "orientation" := JStr(c.orientation.Value()),
      "layer" := c.layer,
      "type" := JStr(c.kind.Value()),
      "errors" := c.errors,
      "boxes" := JArr(BoxesToDicts(c.boxes))]
  }

  /** The input format of `Cargo.from_dict` for a record, the shape of the stored fixtures. */
  function CargoToSnakeDict(c: CargoRecord): map<string, Json> {
    map[
      "id" := c.id,
      "pos" := c.pos,
      "orientation" := JStr(c.orientation.Value()),
      "layer" := c.layer,
      "type" := JStr(c.kind.Value()),
      "errors" := c.errors,
      "boxes" := JArr(BoxesToSnakeDicts(c.boxes))]
  }

  /** The box list of `CargoToSnakeDict`. */
  function BoxesToSnakeDicts(bs: seq<Box>): (r: seq<Json>)
    ensures |r| == |bs|
  {
    seq(|bs|, i requires 0 <= i < |bs| => JObj(BoxToSnakeDict(bs[i])))
  }

  /** `to_dict` after `from_dict` keeps the number and the order of the boxes,
      each box written as `Box.to_dict` of the box parsed from the same
      position, and writes missing `errors` and `boxes` as empty lists. */
  lemma CargoDictRoundTrip(j: Json, c: CargoRecord)
    requires CargoFromDict(j) == Ok(c)
    ensures CargoToDict(c)["id"] == j.fields["id"] && CargoToDict(c)["orientation"] == j.fields["orientation"]
    ensures CargoToDict(c)["type"] == j.fields["type"]
    ensures CargoToDict(c)["pos"] == j.fields["pos"] && CargoToDict(c)["layer"] == j.fields["layer"]
    ensures CargoToDict(c).Keys == {"id", "pos", "orientation", "layer", "type", "errors", "boxes"}
    ensures "errors" in j.fields ==> CargoToDict(c)["errors"] == j.fields["errors"]
    ensures "errors" !in j.fields ==> CargoToDict(c)["errors"] == EmptyList
    ensures "boxes" !in j.fields ==> CargoToDict(c)["boxes"] == EmptyList
    ensures "boxes" in j.fields && j.fields["boxes"].JArr? ==>
              var xs := j.fields["boxes"].items;
              var out := CargoToDict(c)["boxes"].items;
              |out| == |xs| &&
              forall i :: 0 <= i < |xs| ==> BoxFromDict(xs[i]) == Ok(c.boxes[i]) && out[i] == JObj(BoxToDict(c.boxes[i]))
  {
  }

  /** A list of snake_case box dicts parses back to the boxes, in order. */
  lemma BoxesFromSnakeList(bs: seq<Box>)
    ensures BoxesFromList(BoxesToSnakeDicts(bs)) == Ok(bs)
  {
    var xs := BoxesToSnakeDicts(bs);
    forall i | 0 <= i < |xs|
      ensures BoxFromDict(xs[i]) == Ok(bs[i])
    {
      BoxFromSnakeDict(bs[i]);
    }
    assert BoxesFromList(xs).Ok?;
    assert BoxesFromList(xs).value == bs;
  }

  /** `Cargo.from_dict` of a dict whose boxes parse and whose required keys hold valid values. */
  lemma CargoFromValidDict(d: map<string, Json>, bs: seq<Box>)
    requires BoxesField(Get(d, "boxes", EmptyList)) == Ok(bs)
    requires "id" in d && "pos" in d && "orientation" in d && "layer" in d && "type" in d
    requires ParseOrientation(d["orientation"]).Some? && ParseCargoType(d["type"]).Some?
    ensures CargoFromDict(JObj(d)) ==
            Ok(CargoRecord(d["id"], d["pos"], ParseOrientation(d["orientation"]).value, d["layer"],
                           ParseCargoType(d["type"]).value, Get(d, "errors", EmptyList), bs))
  {
  }

  /** What `Cargo.from_dict` reads from the snake_case dict of a record. */
  lemma SnakeDictLookups(c: CargoRecord)
    ensures var d := CargoToSnakeDict(c);
            && "id" in d && "pos" in d && "orientation" in d && "layer" in d && "type" in d
            && d["id"] == c.id && d["pos"] == c.pos && d["layer"] == c.layer
            && ParseOrientation(d["orientation"]) == Some(c.orientation)
            && ParseCargoType(d["type"]) == Some(c.kind)
            && Get(d, "errors", EmptyList) == c.errors
            && Get(d, "boxes", EmptyList) == JArr(BoxesToSnakeDicts(c.boxes))
  {
  }

  /** Every cargo record is what `from_dict` makes of its snake_case dict. */
  lemma CargoFromSnakeDict(c: CargoRecord)
    ensures CargoFromDict(JObj(CargoToSnakeDict(c))) == Ok(c)
  {
    var d := CargoToSnakeDict(c);
    BoxesFromSnakeList(c.boxes);
    SnakeDictLookups(c);
    CargoFromValidDict(d, c.boxes);
  }

  // ---------------------------------------------------------------------------
  // The door automaton of `Cargo.operation`
  // ---------------------------------------------------------------------------

  /** A started `_delayed_action` thread: the flag of its own cancel event, the
      status it writes when its wait times out, and the box index it was started for. */
  datatype Worker = Worker(cancelled: bool, target: DoorStatus, box: nat)

  /** What `operation` and its workers change in a cargo: the boxes, the active
      slot (`_active_thread` with `_cancel_event`, which every path assigns
      together), the workers started and not yet exited, and the next worker identity. */
  datatype Doors = Doors(boxes: seq<Box>, active: Option<nat>, workers: map<nat, Worker>, nextId: nat)

  /** A cargo as `from_dict` leaves it: no worker. */
  function Idle(boxes: seq<Box>): Doors {
    Doors(boxes, None, map[], 0)
  }

  /** The door commands `operation` accepts. */
  predicate IsDoorCommand(s: DoorStatus) {
    s == Open || s == Closed
  }

  /** The idempotence test of `operation`: the door is already at, or moving to, the requested state. */
  predicate AlreadyThere(current: DoorStatus, action: DoorStatus) {
    || (action == Open && (current == Open || current == Opening))
    || (action == Closed && (current == Closed || current == Closing))
  }

  /** The status written at once when a transition starts. */
  function Transitional(action: DoorStatus): DoorStatus
    requires IsDoorCommand(action)
  {
    if action == Open then Opening else Closing
  }

  /** What every reachable state satisfies: the active slot names a live worker,
      and every live worker has a fresh-issued identity, a box index in range
      and a door command as its target. */
  ghost predicate Consistent(d: Doors) {
    && (d.active.Some? ==> d.active.value in d.workers)
    && forall w :: w in d.workers ==>
         w < d.nextId && d.workers[w].box < |d.boxes| && IsDoorCommand(d.workers[w].target)
  }

  datatype OperateOutcome =
    | BadAction        // rejected before taking the lock
    | NoChange         // already there: no transition started
    | Started(worker: nat)
    | BoxIndexError    // `self.boxes[box]` raised IndexError

  datatype Operated = Operated(doors: Doors, outcome: OperateOutcome)

  /** `operation(action, box)` as one atomic step. */
  function OperateStep(d: Doors, action: DoorStatus, box: nat): (r: Operated)
    requires Consistent(d)
    ensures Consistent(r.doors) && |r.doors.boxes| == |d.boxes|
    // a target other than OPEN or CLOSED changes nothing
    ensures !IsDoorCommand(action) ==> r == Operated(d, BadAction)
    // past that test, the registered live worker is cancelled on every path, and no other worker is touched
    ensures IsDoorCommand(action) && d.active.Some? ==>
              d.active.value in r.doors.workers &&
              r.doors.workers[d.active.value] == d.workers[d.active.value].(cancelled := true)
    ensures forall w :: w in d.workers && d.active != Some(w) ==> w in r.doors.workers && r.doors.workers[w] == d.workers[w]
    ensures r.outcome == BoxIndexError <==> IsDoorCommand(action) && box >= |d.boxes|
    ensures r.outcome == NoChange <==>
              IsDoorCommand(action) && box < |d.boxes| && AlreadyThere(d.boxes[box].doorStatus, action)
    // a transition starts exactly for a door command on a box in range whose door is neither at nor moving to the target
    ensures r.outcome.Started? <==>
              IsDoorCommand(action) && box < |d.boxes| && !AlreadyThere(d.boxes[box].doorStatus, action)
    // unless a transition starts, no box, no slot and no worker identity changes
    ensures !r.outcome.Started? ==>
              r.doors.boxes == d.boxes && r.doors.active == d.active &&
              r.doors.workers.Keys == d.workers.Keys && r.doors.nextId == d.nextId
    // a started transition writes the transitional state to that box only and
    // installs a new uncancelled worker as the active one
    ensures r.outcome.Started? ==>
              && IsDoorCommand(action) && box < |d.boxes|
              && r.doors.boxes[box] == d.boxes[box].(doorStatus := Transitional(action))
              && (forall i :: 0 <= i < |d.boxes| && i != box ==> r.doors.boxes[i] == d.boxes[i])
              && r.outcome.worker !in d.workers
              && r.doors.workers.Keys == d.workers.Keys + {r.outcome.worker}
              && r.doors.workers[r.outcome.worker] == Worker(false, action, box)
              && r.doors.active == Some(r.outcome.worker)
  {
    if !IsDoorCommand(action) then Operated(d, BadAction)
    else
      // cancel the previous worker; the join times out, because that worker needs the lock to exit
      var c := if d.active.Some? && d.active.value in d.workers
               then d.(workers := d.workers[d.active.value := d.workers[d.active.value].(cancelled := true)])
               else d;
      if box >= |c.boxes| then Operated(c, BoxIndexError)
      else if AlreadyThere(c.boxes[box].doorStatus, action) then Operated(c, NoChange)
      else
        var w := c.nextId;
        Operated(
          Doors(
            c.boxes[box := c.boxes[box].(doorStatus := Transitional(action))],
            Some(w),
            c.workers[w := Worker(false, action, box)],
            w + 1),
          Started(w))
  }

  /** Worker `w` leaves `_delayed_action`. `wasCancelled` is what its wait on
      its own cancel event returned: it can only be true when the event is set,
      but a worker whose wait timed out before a later request set its event
      still sees false. */
  function FinishStep(d: Doors, w: nat, wasCancelled: bool): (r: Doors)
    requires Consistent(d) && w in d.workers && (wasCancelled ==> d.workers[w].cancelled)
    ensures Consistent(r)
    // every exit empties the slot, whichever worker it held
    ensures r.active == None && r.workers == d.workers - {w} && r.nextId == d.nextId
    // a cancelled worker writes nothing and rolls nothing back
    ensures wasCancelled ==> r.boxes == d.boxes
    // otherwise it writes its target to its own box and to no other
    ensures !wasCancelled ==>
              var b := d.workers[w].box;
              && |r.boxes| == |d.boxes|
              && r.boxes[b] == d.boxes[b].(doorStatus := d.workers[w].target)
              && forall i :: 0 <= i < |d.boxes| && i != b ==> r.boxes[i] == d.boxes[i]
  {
    var worker := d.workers[w];
    var boxes := if wasCancelled then d.boxes
                 else d.boxes[worker.box := d.boxes[worker.box].(doorStatus := worker.target)];
    Doors(boxes, None, d.workers - {w}, d.nextId)
  }

  /** The events of the automaton. */
  datatype Event =
    | OperateEvent(action: DoorStatus, box: nat)
    | FinishEvent(worker: nat, wasCancelled: bool)

  /** A worker can only exit while it is alive, and only sees a cancellation that was signalled. */
  predicate Enabled(d: Doors, e: Event) {
    e.FinishEvent? ==> e.worker in d.workers && (e.wasCancelled ==> d.workers[e.worker].cancelled)
  }

  function Step(d: Doors, e: Event): (r: Doors)
    requires Consistent(d) && Enabled(d, e)
    ensures Consistent(r) && |r.boxes| == |d.boxes|
  {
    match e
    case OperateEvent(action, box) => OperateStep(d, action, box).doors
    case FinishEvent(w, wasCancelled) => FinishStep(d, w, wasCancelled)
  }

  /** The state after a sequence of events, or None when one of them cannot happen. */
  function Run(d: Doors, es: seq<Event>): (r: Option<Doors>)
    requires Consistent(d)
    ensures r.Some? ==> Consistent(r.value) && |r.value.boxes| == |d.boxes|
    decreases |es|
  {
    if es == [] then Some(d)
    else if !Enabled(d, es[0]) then None
    else Run(Step(d, es[0]), es[1..])
  }

  /** One step changes only door statuses, and never writes SEMIOPEN. */
  lemma StepOnlyMovesDoors(d: Doors, e: Event)
    requires Consistent(d) && Enabled(d, e)
    ensures forall i :: 0 <= i < |d.boxes| ==>
              Step(d, e).boxes[i] == d.boxes[i].(doorStatus := Step(d, e).boxes[i].doorStatus)
    ensures forall i :: 0 <= i < |d.boxes| && Step(d, e).boxes[i].doorStatus == SemiOpen ==>
              d.boxes[i].doorStatus == SemiOpen
  {
  }

  /** Along any run, the box list keeps its length, only door statuses change,
      and a box is SEMIOPEN at the end only if it was SEMIOPEN at the start:
      SEMIOPEN comes only from supplied data. */
  lemma {:induction false} RunOnlyMovesDoors(d: Doors, es: seq<Event>)
    requires Consistent(d) && Run(d, es).Some?
    ensures forall i :: 0 <= i < |d.boxes| ==>
              Run(d, es).value.boxes[i] == d.boxes[i].(doorStatus := Run(d, es).value.boxes[i].doorStatus)
    ensures forall i :: 0 <= i < |d.boxes| && Run(d, es).value.boxes[i].doorStatus == SemiOpen ==>
              d.boxes[i].doorStatus == SemiOpen
    decreases |es|
  {
    if es != [] {
      var d' := Step(d, es[0]);
      StepOnlyMovesDoors(d, es[0]);
      RunOnlyMovesDoors(d', es[1..]);
    }
  }

  // ---------------------------------------------------------------------------
  // Scenarios on a cargo whose box `i` is CLOSED and that has no worker
  // ---------------------------------------------------------------------------

  /** OPEN then CLOSE before the settle time: the box is CLOSING, the first
      worker is cancelled and the second one is the active, uncancelled one. */
  lemma OpenThenClosePreempts(boxes: seq<Box>, i: nat)
    requires i < |boxes| && boxes[i].doorStatus == Closed
    ensures var o1 := OperateStep(Idle(boxes), Open, i);
            var o2 := OperateStep(o1.doors, Closed, i);
            && o1.outcome == Started(0) && o1.doors.boxes[i].doorStatus == Opening
            && o2.outcome == Started(1) && o2.doors.boxes[i].doorStatus == Closing
            && o2.doors.workers == map[0 := Worker(true, Open, i), 1 := Worker(false, Closed, i)]
            && o2.doors.active == Some(1)
  {
  }

  /** A repeated OPEN is a no-op that still cancels the pending transition:
      once the cancelled worker exits the box stays OPENING with no worker left. */
  lemma RepeatedOpenLeavesBoxOpening(boxes: seq<Box>, i: nat)
    requires i < |boxes| && boxes[i].doorStatus == Closed
    ensures var o1 := OperateStep(Idle(boxes), Open, i);
            var o2 := OperateStep(o1.doors, Open, i);
            var d3 := FinishStep(o2.doors, 0, true);
            && o2.outcome == NoChange
            && o2.doors.workers == map[0 := Worker(true, Open, i)]
            && d3.boxes[i].doorStatus == Opening && d3.workers == map[] && d3.active == None
  {
  }

  /** The superseded worker exits after its successor is installed and empties
      the slot: the successor is still pending but no longer registered, so
      the next request does not cancel it and two uncancelled workers are live. */
  lemma StaleExitEmptiesActiveSlot(boxes: seq<Box>, i: nat)
    requires i < |boxes| && boxes[i].doorStatus == Closed
    ensures var o1 := OperateStep(Idle(boxes), Open, i);
            var o2 := OperateStep(o1.doors, Closed, i);
            var d3 := FinishStep(o2.doors, 0, true);
            var o4 := OperateStep(d3, Open, i);
            && d3.active == None && d3.workers == map[1 := Worker(false, Closed, i)]
            && o4.outcome == Started(2)
            && o4.doors.workers == map[1 := Worker(false, Closed, i), 2 := Worker(false, Open, i)]
  {
  }

  /** A cancellation that arrives after the superseded worker's wait timed out
      is lost: that worker still writes OPEN while the CLOSE worker is pending. */
  lemma LateCancelIsLost(boxes: seq<Box>, i: nat)
    requires i < |boxes| && boxes[i].doorStatus == Closed
    ensures var o1 := OperateStep(Idle(boxes), Open, i);
            var o2 := OperateStep(o1.doors, Closed, i);
            var d3 := FinishStep(o2.doors, 0, false);
            && d3.boxes[i].doorStatus == Open
            && d3.workers == map[1 := Worker(false, Closed, i)] && d3.active == None
  {
  }

  // ---------------------------------------------------------------------------
  // The cargo object
  // ---------------------------------------------------------------------------

  /** A cargo bay (the `Cargo` dataclass): its declared fields, of which only
      `boxes` changes, and the hidden worker bookkeeping. */
  class Cargo {
    const id: Json
    const pos: Json
    const orientation: CargoOrientation
    const layer: Json
    const kind: CargoType
    const errors: Json
    var boxes: seq<Box>
    var active: Option<nat>
    var workers: map<nat, Worker>
    var nextId: nat

    function State(): Doors
      reads this
    {
      Doors(boxes, active, workers, nextId)
    }

    function Record(): CargoRecord
      reads this
    {
      CargoRecord(id, pos, orientation, layer, kind, errors, boxes)
    }

    ghost predicate Valid()
      reads this
    {
      Consistent(State())
    }

    constructor (r: CargoRecord)
      ensures Valid() && Record() == r && State() == Idle(r.boxes)
    {
      id, pos, orientation, layer, kind, errors := r.id, r.pos, r.orientation, r.layer, r.kind, r.errors;
      boxes := r.boxes;
      active, workers, nextId := None, map[], 0;
    }

    /** `Cargo.from_dict`, producing a fresh cargo with no worker. */
    static method FromDict(j: Json) returns (r: Result<Cargo, ParseError>)
      ensures r.Ok? <==> CargoFromDict(j).Ok?
      ensures r.Err? ==> CargoFromDict(j) == Err(r.error)
      ensures r.Ok? ==> fresh(r.value) && r.value.Valid() &&
                        r.value.Record() == CargoFromDict(j).value && r.value.State() == Idle(r.value.boxes)
    {
      match CargoFromDict(j)
      case Err(e) =>
        r := Err(e);
      case Ok(rec) =>
        var c := new Cargo(rec);
        r := Ok(c);
    }

    /** `operation(door_action, box)`. */
    method Operate(action: DoorStatus, box: nat) returns (outcome: OperateOutcome)
      requires Valid()
      modifies this
      ensures Valid()
      ensures Operated(State(), outcome) == OperateStep(old(State()), action, box)
    {
      if action != Open && action != Closed {
        return BadAction;
      }
      if active.Some? && active.value in workers {
        workers := workers[active.value := workers[active.value].(cancelled := true)];
      }
      if box >= |boxes| {
        return BoxIndexError;
      }
      var current := boxes[box].doorStatus;
      if action == Open {
        if current == Open || current == Opening {
          return NoChange;
        }
        boxes := boxes[box := boxes[box].(doorStatus := Opening)];
      } else {
        if current == Closed || current == Closing {
          return NoChange;
        }
        boxes := boxes[box := boxes[box].(doorStatus := Closing)];
      }
      var w := nextId;
      nextId := nextId + 1;
      workers := workers[w := Worker(false, action, box)];
      active := Some(w);
      outcome := Started(w);
    }

    /** The end of `_delayed_action` for worker `worker`, under the lock. */
    method WorkerFinishes(worker: nat, wasCancelled: bool)
      requires Valid() && worker in workers && (wasCancelled ==> workers[worker].cancelled)
      modifies this
      ensures Valid()
      ensures State() == FinishStep(old(State()), worker, wasCancelled)
    {
      var w := workers[worker];
      if !wasCancelled {
        boxes := boxes[w.box := boxes[w.box].(doorStatus := w.target)];
      }
      active := None;
      workers := workers - {worker};
    }
  }
}
