# slamtec-emulator: cargo doors, robot state and request rules in Dafny

The emulator stands in for a Slamtec delivery robot's HTTP control API. This
project models the parts of it that decide something:

- **The cargo bays** (`models/Cargo.py`). These are `cargo.dfy`, module `Cargo`:
  - the status enumerations;
  - the `from_dict`/`to_dict` pair of `Box` and `Cargo`, with the snake_case input keys renamed to camelCase;
  - the per-cargo door automaton of `Cargo.operation` and its delayed worker `_delayed_action`.

  The automaton is a transition system over explicit events: `OperateEvent(action, box)` is a request; `FinishEvent(worker, wasCancelled)` is a worker leaving `_delayed_action`. It is written twice:
  - as the pure step functions `OperateStep` and `FinishStep`, which the lemmas reason about;
  - as the class `Cargo.Cargo`, whose methods update the fields in place and are proved to follow those step functions.
- **The in-memory robot state** (`mock_data.py`). These are `mock_data.dfy`, module `MockData`. The class `RobotState` covers:
  - the action-id counter;
  - the pose merged in place;
  - the table of points of interest (POIs), with insert and delete.
- **The request rules of the front end** (`app.py`). These are `app.dfy`, module `App`:
  - the OpenAPI-to-Flask path rewrite;
  - the `:open`/`:close` token;
  - the first-match cargo search and the replies of `operate_box`;
  - the checks of `create_action`;
  - the replies of `get_current_action` and `abort_current_action`;
  - handler selection and the nested loops that build the route table.

Decoded JSON values, and the Python rules about them that this code relies on
(truthiness, hashability, `dict.get`), are in `json_data.dfy`, module
`JsonData`. An exception that escapes a handler is Flask's status 500. The
models say which inputs raise, and which exception.

### The door automaton as written

The code's own comments say that a new request cancels any operation still
running (`models/Cargo.py:142`, `app.py:93`). They also say that a worker takes
`_lock` so that the state cannot change while another request cancels it
(`models/Cargo.py:176-177`). The code does not fully achieve this, and the model
follows the code:

- `operation` holds `_lock` while it joins the worker it cancels. That worker needs `_lock` to leave, so the join always times out. The superseded worker therefore exits only after its successor is installed.
- On exit, every worker clears `_active_thread` and `_cancel_event`, whichever worker they name. After such a stale exit, the slot is empty while the successor is still pending. The next request then cancels nothing. If that request starts a transition, two uncancelled workers are live. `Cargo.StaleExitEmptiesActiveSlot` shows this.
- A worker reads its cancel flag when its wait ends, before it takes `_lock`. A request that sets the flag between those two moments is lost: the superseded worker still writes its target. `Cargo.LateCancelIsLost` shows this.
- A repeated OPEN is a no-op that still cancels the pending transition. The box stays OPENING with no worker left. `Cargo.RepeatedOpenLeavesBoxOpening` shows this.
- An out-of-range box index raises `IndexError` inside `operation`, which makes the reply a 500. The 404 of `operate_box` (`app.py:112-113`) covers only an unknown cargo id. The model keeps the exception as the outcome `BoxIndexError`.

## Model

| member | source | states |
|---|---|---|
| Cargo.ParseDoorStatus | models/Cargo.py:13-18 | `DoorStatus(v)` succeeds exactly on the five status strings, each naming its own member; every other value is rejected |
| Cargo.ParseLockStatus | models/Cargo.py:21-23 | `LockStatus(v)` accepts exactly "LOCKED" and "UNLOCKED" |
| Cargo.ParseStockStatus | models/Cargo.py:26-29 | `StockStatus(v)` accepts exactly "EMPTY", "SEMIFULL" and "FULL" |
| Cargo.ParseBoxStatus | models/Cargo.py:32-35 | `BoxStatus(v)` accepts exactly "EMPTY", "NOT_EMPTY" and "ERROR" |
| Cargo.ParseOrientation | models/Cargo.py:38-41 | `CargoOrientation(v)` accepts exactly "FRONT", "BACK" and "TOP" |
| Cargo.ParseCargoType | models/Cargo.py:44-46 | `CargoType(v)` accepts exactly "TAKEOUT" and "RETAIL" |
| Cargo.BoxFromDict | models/Cargo.py:63-73 | a non-dict is rejected, and a missing `id` is the first error; a parsed box holds exactly the dict's values; `errors` defaults to `[]` |
| Cargo.BoxFromValidDict | models/Cargo.py:64-73 | a dict holding `id` and valid values under the four status keys is always accepted, whatever else it holds, giving exactly those values and `errors` defaulting to `[]` |
| Cargo.BoxToDict | models/Cargo.py:75-84 | exactly the six camelCase keys; `id` and `errors` as stored; each status written as a string that parses back to that status |
| Cargo.BoxDictRoundTrip | models/Cargo.py:64-84 | `to_dict` after `from_dict` has exactly the six camelCase keys, each holding the value read from its snake_case key; a missing `errors` comes out as `[]` |
| Cargo.BoxFromSnakeDict | models/Cargo.py:64-73 | every box is what `from_dict` makes of its snake_case dict, so `from_dict` is onto |
| Cargo.BoxFromDictRejectsToDict | models/Cargo.py:64-84 | `from_dict` of `to_dict`'s output fails with a missing `door_status`: the two formats differ |
| Cargo.FirstError | models/Cargo.py:111 | the values of all results when every one succeeded, in order; otherwise the error of the first that failed |
| Cargo.BoxesFromList | models/Cargo.py:111 | the box list parses exactly when every element does, and then keeps length and order, element by element |
| Cargo.BoxesField | models/Cargo.py:111 | a list is parsed element by element; any other value succeeds exactly when it is an empty dict or string, giving no boxes; `null`, a number or a bool is not iterable |
| Cargo.CargoFromDict | models/Cargo.py:107-121 | a non-dict is rejected; a parsed record holds exactly the dict's values, with the boxes from `boxes` (default `[]`) and `errors` defaulting to `[]` |
| Cargo.BoxesToDicts | models/Cargo.py:133 | one entry per box, in order, each the `Box.to_dict` of the box at the same position |
| Cargo.CargoToDict | models/Cargo.py:123-134 | exactly the seven keys `from_dict` reads; `id`, `pos`, `layer` and `errors` as stored; orientation and type written as strings that parse back to them; the boxes as `BoxesToDicts` |
| Cargo.CargoDictRoundTrip | models/Cargo.py:108-134 | `to_dict` after `from_dict` has exactly the seven keys and keeps id, pos, orientation, layer, type and a present `errors`; it keeps the number and order of the boxes, each written as `Box.to_dict` of the box parsed at the same position; missing `errors` and `boxes` come out as `[]` |
| Cargo.BoxesFromSnakeList | models/Cargo.py:111 | a list of snake_case box dicts parses back to the same boxes, in order |
| Cargo.CargoFromSnakeDict | models/Cargo.py:108-121 | every cargo record is what `from_dict` makes of its snake_case dict |
| Cargo.OperateStep | models/Cargo.py:136-194 | a target other than OPEN/CLOSED changes nothing; otherwise the registered live worker is marked cancelled on every path, with its target and box unchanged, and no other worker is touched; `IndexError` exactly when the index is out of range; a no-op exactly when the door is at or moving to the target; a transition starts exactly for a door command on an in-range box whose door is neither at nor moving to the target, and it writes OPENING/CLOSING to that box only and installs a new uncancelled worker as the active one; the consistency invariant is kept |
| Cargo.FinishStep | models/Cargo.py:167-189 | every exit empties the active slot and removes only that worker; a cancelled worker writes nothing; otherwise it writes its target to its own box and no other |
| Cargo.Step | models/Cargo.py:136-194 | each event keeps the consistency invariant and the number of boxes |
| Cargo.Run | models/Cargo.py:136-194 | any sequence of possible events keeps the invariant and the number of boxes |
| Cargo.StepOnlyMovesDoors | models/Cargo.py:153-182 | one event changes only door statuses and never produces SEMIOPEN |
| Cargo.RunOnlyMovesDoors | models/Cargo.py:136-194 | along any run only door statuses change, and a box is SEMIOPEN at the end only if it was at the start |
| Cargo.OpenThenClosePreempts | models/Cargo.py:143-194 | OPEN then CLOSE: the box is CLOSING, the first worker is cancelled and the second is active and uncancelled |
| Cargo.RepeatedOpenLeavesBoxOpening | models/Cargo.py:143-152 | a repeated OPEN cancels the pending worker and starts none, leaving the box OPENING with no worker |
| Cargo.StaleExitEmptiesActiveSlot | models/Cargo.py:141-189 | the superseded worker's exit empties the slot while its successor is pending; the next request cancels nothing and, since it starts a transition, leaves two uncancelled workers |
| Cargo.LateCancelIsLost | models/Cargo.py:174-189 | a worker that saw no cancellation writes OPEN although a CLOSE worker is pending |
| Cargo.Cargo.constructor | models/Cargo.py:90-105 | a new cargo holds the record's fields and boxes, with no worker and an empty slot |
| Cargo.Cargo.FromDict | models/Cargo.py:107-121 | a fresh cargo exactly when `CargoFromDict` succeeds, holding that record; otherwise the same error |
| Cargo.Cargo.Operate | models/Cargo.py:136-194 | the in-place update of `operation` ends in the state, with the outcome, given by `OperateStep` |
| Cargo.Cargo.WorkerFinishes | models/Cargo.py:174-189 | the in-place update of a worker's exit ends in the state given by `FinishStep` |
| MockData.PoiKey | mock_data.py:129 | the key is the data's `id` when present, the fresh identifier otherwise |
| MockData.PoiWithPose | mock_data.py:130-136 | the data keeps all its entries; a missing `pose` is filled with the robot's x, y and yaw |
| MockData.AddThenDeleteRestores | mock_data.py:137-142 | storing under a new key and deleting that key restores the table |
| MockData.RobotState.constructor | mock_data.py:50-77 | a new state has counter 0, no current action, an empty history, the initial pose and the two stored points |
| MockData.RobotState.GetNewActionId | mock_data.py:120-122 | the counter goes up by exactly one and the new value is returned |
| MockData.RobotState.UpdatePose | mock_data.py:124-125 | the given keys are overwritten or added, every other key is kept |
| MockData.RobotState.AddPoi | mock_data.py:127-138 | an unhashable id raises and changes nothing; otherwise the table gains exactly the entry for the key, holding the returned point, and every other entry is unchanged |
| MockData.RobotState.DeletePoi | mock_data.py:140-144 | true and that key removed exactly when it was present; false and nothing changed otherwise; an unhashable id raises |
| MockData.AddThenDelete | mock_data.py:127-144 | `add_poi` under a new hashable key followed by `delete_poi` of that key leaves the table as it was |
| MockData.FirstActionIds | mock_data.py:61-63 | a new state hands out 1 and then 2 |
| App.ConvertPathToFlask | app.py:11-13 | the rewritten path is never shorter than the input; the lemmas below state when it grows and what it writes, including `ConvertKeepsTextWithoutPlaceholder` for a `{` that starts no placeholder |
| App.ConvertGrowsExactlyAtPlaceholders | app.py:11-13 | the rewrite never shortens a path, keeps its length exactly when it has no `{word}` placeholder, and then returns it unchanged |
| App.ConvertRewritesPlaceholder | app.py:13 | a leading `{name}` of word characters becomes `<string:name>`, and the rest is converted on its own |
| App.ConvertKeepsLiteralText | app.py:13 | text without `{` is copied unchanged and in order |
| App.ConvertKeepsTextWithoutPlaceholder | app.py:13 | text with no placeholder, even one holding `{`, is copied unchanged and in order when what follows cannot extend a name or close it |
| App.HyphenatedNameIsNoPlaceholder | app.py:13 | `{a-b}` is not a placeholder, because `\w+` stops at the hyphen |
| App.ConvertSlashThenPlaceholder | app.py:13 | `/{id}` becomes `/<string:id>` |
| App.ConvertKeepsHyphenatedName | app.py:13 | `/p/{a-b}/{id}` becomes `/p/{a-b}/<string:id>`: the hyphenated name is kept as written, with its braces, while the later `{id}` is rewritten |
| App.ConvertLeavesNoPlaceholder | app.py:13 | the output contains no `{word}` placeholder |
| App.ConvertIdempotent | app.py:13 | converting twice is converting once |
| App.ParseOperation | app.py:95-101 | `:open` and `:close`, after lower-casing, select OPEN and CLOSED; every other token selects nothing (400) |
| App.ParseOperationIgnoresCase | app.py:95-101 | a token selects a door command exactly when it equals that command's token up to ASCII case |
| App.FindCargo | app.py:104-110 | the index of the first cargo with the requested id, or none when no cargo has it |
| App.OperateBox | app.py:91-122 | 400 for a bad token and 404 for an unknown cargo, with no cargo changed in either case; otherwise only the first matching cargo is operated, as `OperateStep` says; the reply is 500 when the index raises, else 200 with the box's new door status |
| App.Contains | app.py:128 | Python's `in` on a dict, list or string, and `TypeError` for any other value |
| App.CheckCreateAction | app.py:127-132 | 400 exactly when the body is falsy or a container without `action_name`; 500 exactly when a truthy body is not a container, or is a list or string holding "action_name"; the scheduler is called exactly when the body is a dict with `action_name`, with that name and `options` (default `{}`) |
| App.CreateActionStatus | app.py:125-145 | 200 exactly when the scheduler is called and returns a truthy value; 400 exactly for a rejected body or a falsy result; 500 exactly when the checks raise |
| App.GetCurrentActionStatus | app.py:195-199 | 404 exactly when the current action's id is -1; 200 for any other id; 500 when there is no current action |
| App.AbortCurrentActionStatus | app.py:202-206 | always 200 |
| App.SelectHandler | app.py:245-252 | the specific handler exactly for an `operationId` that is a key of `handler_map`; the generic one otherwise; `TypeError` exactly for a truthy unhashable id |
| App.ReplaceSlashes | app.py:255 | every `/` becomes `_`, every other character is kept |
| App.OperationRoute | app.py:243-263 | no route for a method outside get/post/put/delete; an error exactly for such a method whose operation is not a dict or has a truthy unhashable `operationId`; otherwise a route on the converted path, with the selected handler, the endpoint `method_path` and the method upper-cased (one of GET, POST, PUT, DELETE) |
| App.PathRoutes | app.py:243-263 | no more routes than entries, each on the converted path with GET, POST, PUT or DELETE |
| App.SpecRoutes | app.py:240-263 | every route carries GET, POST, PUT or DELETE |
| App.RoutedEntries | app.py:243-244 | the entries kept are exactly those whose method is get/post/put/delete up to case |
| App.RoutedEntriesAppend | app.py:243-244 | the kept entries stay in document order |
| App.PathRoutesOkIffEveryEntryOk | app.py:243-263 | the table of one path is built exactly when no entry fails |
| App.PathRoutesFollowRoutedEntries | app.py:243-263 | a built table of one path holds one route per get/post/put/delete entry, in entry order, each the route that entry builds |
| App.SpecRoutesJoinsPathTables | app.py:240-263 | the document's table is built exactly when every path's table is, and is then those tables joined in document order |
| App.CreatePathRoutes | app.py:243-263 | the inner loop builds exactly the routes `PathRoutes` describes for one path, or stops with its error |
| App.CreateRoutesFromSpec | app.py:233-266 | the outer loop builds exactly the route table `SpecRoutes` describes, or stops with the first error |

## Left out

- The action scheduler. `start_new_action` and `abort_current_action` are called by `app.py` but are not defined in `mock_data.py`, and no other code defines them. What `start_new_action` returns is a parameter of `App.CreateActionStatus`. `App.AbortCurrentActionStatus` takes no parameter, because the reply does not depend on what abort returns.
- Threads, the lock, timed waits and joins. They appear only as the order of events. `operation` holds `_lock` from start to end, so it is one event, and any worker may finish between two of them. `OPERATION_TIMER` is kept as a named constant.
- Flask and I/O: `request.get_json`, `jsonify`, response bodies and messages (except the door status that `operate_box` reports, kept as `App.BoxReply`), `app.add_url_rule`, reading `swagger-conf.json`, `app.run` and all `print` logging. The model keeps status codes and the calls made into the state.
- The request body. It is a decoded JSON value or a dict given as a parameter. Flask's own answers for a body that is not JSON are not modelled.
- `create_action` is declared with a `payload` parameter. Flask calls it with none, because its route has no placeholder, and that raises `TypeError`. `App.CheckCreateAction` and `App.CreateActionStatus` model the body of the handler, not that call.
- App.OperateBox: the reported door status is the one right after `operation`. `operate_box` reads it at `app.py:120` without `_lock`, after `operation` has released it. A worker waiting for the lock may commit first, and then the reply shows its target instead, e.g. OPEN after a CLOSE request in the `Cargo.LateCancelIsLost` trace.
- `robot_state.cargos` in `mock_data.py` holds plain dicts. `operate_box` and `get_cargos` use `.id`, `.operation` and `.to_dict` on them. The model builds cargos with `Cargo.Cargo.FromDict`, and `App.OperateBox` takes them as a parameter.
- `Box`'s declared defaults, such as a `door_status` default that is a string rather than an enumeration member. Boxes are built only through `from_dict`.
- Fixtures and static handlers: power status, robot info, health, system parameters, the dummy map bytes, `shutdown`, `get_pose`, `get_current_pois`, `clear_pois`, `get_cargos` and `generic_handler`'s replies.
- Pose values are opaque JSON values. Floating-point arithmetic is not modelled.
- `uuid4`. The identifiers it draws are parameters of `MockData.RobotState.constructor` and `MockData.RobotState.AddPoi`. The device id is not modelled.
- Cargo.Cargo.Operate: the box index is a natural number. Python's negative indexing from the end is not modelled, because the only caller passes Flask's non-negative `<int:box_id>`.
- MockData.RobotState.AddPoi: the stored point is a copy. The model does not capture that `add_poi` inserts `pose` into the caller's own dict.
- MockData.RobotState.AddPoi: a JSON body that is not a dict is not modelled. `poi_data.get` raises `AttributeError` on it, which Flask answers with 500.
- MockData.RobotState.AddPoi: keys that Python treats as one dict key are distinct keys here. Examples are `1`, `1.0` and `True`.
- MockData.RobotState.UpdatePose: a JSON body that is not a dict is not modelled.
- App.Lower: case mapping covers ASCII only. Python's `str.lower` and `str.upper` also map other letters.
- App.ConvertPathToFlask: only ASCII letters, digits and `_` count as word characters. Python's `\w` also matches other Unicode letters and digits.
- App.CreateRoutesFromSpec: the OpenAPI document is taken as a list of paths, each with a list of (method, operation) pairs in document order.
  - A missing `paths` key is not modelled.
  - A path item that is not a dict is not modelled.
  - `add_url_rule` rejects an endpoint name that is already in use, for example from the paths `/a/b` and `/a_b`. That rejection is not modelled.
