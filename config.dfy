/**
 The configuration a device is set up from, and the two helpers that
 search it: `get_entity_config` (find the entity of a datapoint) and
 `prepare_setup_entities` (the entities one platform has to create).
 */
module Config {
  import opened Values

  /** A configuration option of an entity: Python `None`, a string or an integer. */
  datatype ConfigValue = Null | Text(s: string) | Number(n: int)

  /** One entity of a device: its datapoint, its platform, and its other options. */
  datatype EntityConfig = EntityConfig(
    id: DpId,
    platform: string,
    friendlyName: string,
    options: map<string, ConfigValue>)

  /** The config entry of one device. */
  datatype ConfigEntry = ConfigEntry(
    entryId: string,
    deviceId: string,
    friendlyName: string,
    passive: bool,
    entities: seq<EntityConfig>)

  datatype Error =
    | MissingEntityConfig(dpId: DpId)   // the exception of get_entity_config
    | MissingDevice(entryId: string)    // no device stored for the entry (a KeyError)

  datatype Result<+T> = Ok(value: T) | Err(error: Error)

  /**
   The configuration of the entity for datapoint `dpId`: the FIRST entity
   whose id matches, or the "missing entity config" error when none does.
   */
  function GetEntityConfig(entities: seq<EntityConfig>, dpId: DpId): (r: Result<EntityConfig>)
    ensures r.Ok? <==> exists i :: 0 <= i < |entities| && entities[i].id == dpId
    ensures r.Ok? ==> r.value.id == dpId
    ensures r.Ok? ==> exists i :: 0 <= i < |entities| && entities[i] == r.value &&
                                 forall j :: 0 <= j < i ==> entities[j].id != dpId
    ensures r.Err? ==> r.error == MissingEntityConfig(dpId)
    decreases |entities|
  {
    if entities == [] then
      Err(MissingEntityConfig(dpId))
    else if entities[0].id == dpId then
      Ok(entities[0])
    else
      var r := GetEntityConfig(entities[1..], dpId);
      assert forall i :: 1 <= i < |entities| ==> entities[i] == entities[1..][i - 1];
      if r.Ok? then
        var k :| 0 <= k < |entities[1..]| && entities[1..][k] == r.value &&
                 forall j :: 0 <= j < k ==> entities[1..][j].id != dpId;
        assert entities[k + 1] == r.value;
        assert forall j :: 0 <= j < k + 1 ==> entities[j].id != dpId;
        r
      else
        r
  }

  /** The entities configured for `platform`, in configuration order. */
  function EntitiesForPlatform(entities: seq<EntityConfig>, platform: string): (r: seq<EntityConfig>)
    ensures |r| <= |entities|
    ensures forall e :: e in r <==> e in entities && e.platform == platform
    ensures forall e :: multiset(r)[e] == if e.platform == platform then multiset(entities)[e] else 0
    decreases |entities|
  {
    if entities == [] then
      []
    else
      var rest := EntitiesForPlatform(entities[1..], platform);
      assert entities == [entities[0]] + entities[1..];
      if entities[0].platform == platform then [entities[0]] + rest else rest
  }

  /**
   The filter keeps configuration order: filtering a concatenation is the
   concatenation of the filtered parts.
   */
  lemma {:induction false} EntitiesForPlatformAppend(a: seq<EntityConfig>, b: seq<EntityConfig>, platform: string)
    ensures EntitiesForPlatform(a + b, platform) == EntitiesForPlatform(a, platform) + EntitiesForPlatform(b, platform)
    decreases |a|
  {
    if a == [] {
      assert a + b == b;
    } else {
      assert (a + b)[1..] == a[1..] + b;
      EntitiesForPlatformAppend(a[1..], b, platform);
    }
  }

  /** A single entity is kept exactly when it belongs to the platform. */
  lemma EntitiesForPlatformSingle(e: EntityConfig, platform: string)
    ensures EntitiesForPlatform([e], platform) == if e.platform == platform then [e] else []
  {
    assert [e][1..] == [];
  }

  /** What a platform's setup gets: nothing to do, or the device and its entities. */
  datatype Setup<D> = NothingToSetup | ToSetup(device: D, entities: seq<EntityConfig>)

  /**
   `prepare_setup_entities`: the entities of `platform`; when there are
   none, nothing to set up (and the device store is not consulted);
   otherwise the device stored for the entry, which must exist.
   */
  function PrepareSetupEntities<D>(devices: map<string, D>, entry: ConfigEntry, platform: string): (r: Result<Setup<D>>)
    ensures r == Ok(NothingToSetup) <==> forall e :: e in entry.entities ==> e.platform != platform
    ensures r.Err? <==> (exists e :: e in entry.entities && e.platform == platform) && entry.entryId !in devices
    ensures r.Err? ==> r.error == MissingDevice(entry.entryId)
    ensures r.Ok? && r.value.ToSetup? ==>
              && entry.entryId in devices
              && r.value.device == devices[entry.entryId]
              && r.value.entities != []
              && forall e :: e in r.value.entities <==> e in entry.entities && e.platform == platform
    ensures r.Ok? && r.value.ToSetup? ==> r.value.entities == EntitiesForPlatform(entry.entities, platform)
  {
    var toSetup := EntitiesForPlatform(entry.entities, platform);
    if toSetup == [] then
      Ok(NothingToSetup)
    else if entry.entryId !in devices then
      Err(MissingDevice(entry.entryId))
    else
      Ok(ToSetup(devices[entry.entryId], toSetup))
  }
}
