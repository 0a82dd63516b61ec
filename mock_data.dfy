/** The emulator's in-memory robot state (`RobotState` in mock_data.py): the
    action counter and slots, the pose, and the points of interest. */
module MockData {
  import opened JsonData

  /** The field of an action record that the request handlers read. The
      record itself belongs to the action scheduler, which is not part of this model. */
  datatype ActionInfo = ActionInfo(id: int)

  /** The pose of a new state (mock_data.py:50-57); the values are opaque. */
  const InitialPose: map<string, Json> :=
    map[
      "x" := JReal(1.0),
      "y" := JReal(2.5),
      "z" := JReal(0.0),
      "yaw" := JReal(1.57),
      "pitch" := JReal(0.0),
      "roll" := JReal(0.0)]

  /** The two points of interest of a new state, stored under two fresh identifiers. */
  function InitialPois(key1: string, key2: string): map<Json, map<string, Json>> {
    map[
      JStr(key1) := map[
        "id" := JStr("e8d7f6c8-a1b2-c3d4-e5f6-a7b8c9d0e1f2"),
        "pose" := JObj(map["x" := JReal(5.0), "y" := JReal(3.0), "yaw" := JReal(0.0)]),
        "metadata" := JObj(map["display_name" := JStr("Charging Station")])],
      JStr(key2) := map[
        "id" := JStr("b1c2d3e4-f5a6-b7c8-d9e0-f1a2b3c4d5e6"),
        "pose" := JObj(map["x" := JReal(-2.0), "y" := JReal(4.5), "yaw" := JReal(3.14)]),
        "metadata" := JObj(map["display_name" := JStr("yes")])]]
  }

  /** Why `add_poi` and `delete_poi` raise: a list or dict id cannot be a dict key. */
  datatype PoiError = UnhashableId

  /** The key `add_poi` stores a point under: the data's own `id`, or the fresh identifier. */
  function PoiKey(poiData: map<string, Json>, freshId: string): (k: Json)
    ensures "id" in poiData ==> k == poiData["id"]
    ensures "id" !in poiData ==> k == JStr(freshId)
  {
    Get(poiData, "id", JStr(freshId))
  }

  /** The point `add_poi` stores and returns: the data as given, with the
      robot's x, y and yaw as its pose when it has none. */
  function PoiWithPose(poiData: map<string, Json>, pose: map<string, Json>): (r: map<string, Json>)
    requires "x" in pose && "y" in pose && "yaw" in pose
    ensures r.Keys == poiData.Keys + {"pose"}
    ensures forall k :: k in poiData ==> r[k] == poiData[k]
    ensures "pose" !in poiData ==> r["pose"] == JObj(map["x" := pose["x"], "y" := pose["y"], "yaw" := pose["yaw"]])
  {
    if "pose" in poiData then poiData
    else poiData["pose" := JObj(map["x" := pose["x"], "y" := pose["y"], "yaw" := pose["yaw"]])]
  }

  /** Storing a point under a new key and deleting that key gives back the original table. */
  lemma AddThenDeleteRestores(pois: map<Json, map<string, Json>>, key: Json, poi: map<string, Json>)
    requires key !in pois
    ensures pois[key := poi] - {key} == pois
  {
  }

  class RobotState {
    var pose: map<string, Json>
    var currentAction: Option<ActionInfo>
    var actionHistory: map<int, ActionInfo>
    var actionIdCounter: int
    var pois: map<Json, map<string, Json>>

    /** `add_poi` can always read x, y and yaw, and every stored key is hashable. */
    ghost predicate Valid()
      reads this
    {
      && "x" in pose && "y" in pose && "yaw" in pose
      && forall k :: k in pois ==> Hashable(k)
    }

    /** `RobotState()`, with the two identifiers `uuid4` would draw for the stored points. */
    constructor (poiKey1: string, poiKey2: string)
      ensures Valid()
      ensures actionIdCounter == 0 && currentAction == None && actionHistory == map[]
      ensures pose == InitialPose && pois == InitialPois(poiKey1, poiKey2)
    {
      pose := InitialPose;
      currentAction := None;
      actionHistory := map[];
      actionIdCounter := 0;
      pois := InitialPois(poiKey1, poiKey2);
    }

    /** `get_new_action_id`: the counter goes up by one and the new value is returned. */
    method GetNewActionId() returns (id: int)
      modifies this`actionIdCounter
      ensures actionIdCounter == old(actionIdCounter) + 1
      ensures id == actionIdCounter
    {
      actionIdCounter := actionIdCounter + 1;
      id := actionIdCounter;
    }

    /** `update_pose`: the keys given are overwritten or added, all others kept. */
    method UpdatePose(newPose: map<string, Json>)
      requires Valid()
      modifies this`pose
      ensures Valid()
      ensures pose.Keys == old(pose).Keys + newPose.Keys
      ensures forall k :: k in newPose ==> pose[k] == newPose[k]
      ensures forall k :: k in old(pose) && k !in newPose ==> pose[k] == old(pose)[k]
    {
      pose := pose + newPose;
    }

    /** `add_poi(poi_data)`; `freshId` is the identifier `uuid4` draws for it. */
    method AddPoi(poiData: map<string, Json>, freshId: string) returns (r: Result<map<string, Json>, PoiError>)
      requires Valid()
      modifies this`pois
      ensures Valid()
      ensures r.Err? <==> !Hashable(PoiKey(poiData, freshId))
      ensures r.Err? ==> pois == old(pois)
      ensures r.Ok? ==> r.value == PoiWithPose(poiData, pose)
      ensures r.Ok? ==> pois == old(pois)[PoiKey(poiData, freshId) := r.value]
      ensures r.Ok? ==> pois.Keys == old(pois).Keys + {PoiKey(poiData, freshId)}
      ensures r.Ok? ==> pois[PoiKey(poiData, freshId)] == r.value
      ensures r.Ok? ==> forall k :: k in old(pois) && k != PoiKey(poiData, freshId) ==> pois[k] == old(pois)[k]
    {
      var poiId := PoiKey(poiData, freshId);
      var data := PoiWithPose(poiData, pose);
      if !Hashable(poiId) {
        return Err(UnhashableId);
      }
      pois := pois[poiId := data];
      r := Ok(data);
    }

    /** `delete_poi(poi_id)`: true, and the key removed, exactly when it was
        present; a list or dict id cannot be looked up and raises. */
    method DeletePoi(poiId: Json) returns (r: Result<bool, PoiError>)
      requires Valid()
      modifies this`pois
      ensures Valid()
      ensures r.Err? <==> !Hashable(poiId)
      ensures r.Err? ==> pois == old(pois)
      ensures r == Ok(true) <==> Hashable(poiId) && poiId in old(pois)
      ensures r == Ok(true) ==> pois == old(pois) - {poiId}
      ensures r == Ok(false) ==> pois == old(pois)
    {
      if !Hashable(poiId) {
        return Err(UnhashableId);
      }
      if poiId in pois {
        pois := pois - {poiId};
        return Ok(true);
      }
      return Ok(false);
    }
  }

  /** Adding a point under a new key and deleting that key gives back the table. */
  method AddThenDelete(s: RobotState, data: map<string, Json>, freshId: string)
    requires s.Valid() && PoiKey(data, freshId) !in s.pois && Hashable(PoiKey(data, freshId))
    modifies s
    ensures s.pois == old(s.pois)
  {
    var added := s.AddPoi(data, freshId);
    var deleted := s.DeletePoi(PoiKey(data, freshId));
    AddThenDeleteRestores(old(s.pois), PoiKey(data, freshId), added.value);
  }

  /** A new state hands out action identifiers 1 and then 2. */
  method FirstActionIds(poiKey1: string, poiKey2: string) returns (first: int, second: int)
    ensures first == 1 && second == 2
  {
    var state := new RobotState(poiKey1, poiKey2);
    first := state.GetNewActionId();
    second := state.GetNewActionId();
  }
}
