/**
 `LocalTuyaEntity`, the entity-side view of a device: its own copy of the
 last published status and the time the device was last seen. The
 dispatcher hands it every snapshot (or None) the device publishes; the
 entity's properties are functions of that view.
 */
module Entity {
  import opened Values
  import Config

  /** A point in time (`datetime.now()` is a parameter). */
  type Timestamp = nat

  /** Attribute names of the restored state; `const.py` is not part of this model. */
  const ATTR_LAST_SEEN: string := "last_seen"
  const ATTR_OLD_STATE: string := "old_state"

  /** The entity's `_status` and `_last_seen`. */
  datatype EntityView = EntityView(status: Status, lastSeen: Option<Timestamp>)

  /** A value of the extra state attributes. */
  datatype Attribute = LastSeen(at: Timestamp) | OldState(status: Status)

  /**
   `_update_handler`: a snapshot replaces the status and clears last-seen;
   None on a passive device keeps the status and records the time; None
   on any other device empties the status.
   */
  function HandleUpdate(v: EntityView, event: Option<Status>, passive: bool, now: Timestamp): (w: EntityView)
    ensures event.Some? ==> w.status == event.value && w.lastSeen.None?
    ensures event.None? && passive ==> w.status == v.status && w.lastSeen == Some(now)
    ensures event.None? && !passive ==> w.status == map[] && w.lastSeen.None?
    ensures w.lastSeen.Some? <==> event.None? && passive
    ensures forall d :: Available(w, d) <==>
              if event.Some? then DecimalString(d) in event.value else passive && Available(v, d)
  {
    if event.Some? then EntityView(event.value, None)
    else if passive then v.(lastSeen := Some(now))
    else EntityView(map[], None)
  }

  /** `available`: the entity's own datapoint is in its status. */
  predicate Available(v: EntityView, dpId: DpId)
    ensures Available(v, dpId) <==> Dps(v, dpId).Some?
  {
    DecimalString(dpId) in v.status
  }

  /** `dps(dp_index)`: the cached value of a datapoint, None when it is unknown. */
  function Dps(v: EntityView, dpIndex: DpId): (r: Option<Value>)
    ensures r.Some? <==> DecimalString(dpIndex) in v.status
    ensures r.Some? ==> r.value == v.status[DecimalString(dpIndex)]
  {
    var key := DecimalString(dpIndex);
    if key in v.status then Some(v.status[key]) else None
  }

  /**
   `device_state_attributes`: empty unless the device was last seen at
   some time, then that time and the status kept from before.
   */
  function StateAttributes(v: EntityView): (attrs: map<string, Attribute>)
    ensures v.lastSeen.None? ==> attrs == map[]
    ensures v.lastSeen.Some? ==>
              && attrs.Keys == {ATTR_LAST_SEEN, ATTR_OLD_STATE}
              && attrs[ATTR_LAST_SEEN] == LastSeen(v.lastSeen.value)
              && attrs[ATTR_OLD_STATE] == OldState(v.status)
  {
    if v.lastSeen.Some? then
      map[ATTR_LAST_SEEN := LastSeen(v.lastSeen.value), ATTR_OLD_STATE := OldState(v.status)]
    else
      map[]
  }

  /**
   `has_config(attr)`: the option is set and is neither None nor the
   string "-1" (an absent option reads as "-1"; the integer -1 counts as set).
   */
  function HasConfig(config: Config.EntityConfig, attr: string): (r: bool)
    ensures r ==> attr in config.options
    ensures attr in config.options ==>
              (r <==> config.options[attr] != Config.Null && config.options[attr] != Config.Text("-1"))
    ensures attr in config.options && config.options[attr] == Config.Number(-1) ==> r
  {
    var value := if attr in config.options then config.options[attr] else Config.Text("-1");
    value != Config.Null && value != Config.Text("-1")
  }

  /** `unique_id`: `local_<device id>_<datapoint>`. */
  function UniqueId(deviceId: string, dpId: DpId): (r: string)
    ensures |r| == 7 + |deviceId| + |DecimalString(dpId)|
    ensures r[..6] == "local_" && r[6..6 + |deviceId|] == deviceId
    ensures r[6 + |deviceId|] == '_'
    ensures r[|r| - |DecimalString(dpId)|..] == DecimalString(dpId)
  {
    "local_" + deviceId + "_" + DecimalString(dpId)
  }

  /** The number of characters after the last underscore (all of them when there is none). */
  function TrailingLength(u: string): nat
    decreases |u|
  {
    if u == [] || u[|u| - 1] == '_' then 0 else 1 + TrailingLength(u[..|u| - 1])
  }

  lemma {:induction false} TrailingLengthAfterUnderscore(a: string, s: string)
    requires forall i :: 0 <= i < |s| ==> '0' <= s[i] <= '9'
    ensures TrailingLength(a + "_" + s) == |s|
    decreases |s|
  {
    var u := a + "_" + s;
    if s != [] {
      var init := s[..|s| - 1];
      assert u[..|u| - 1] == a + "_" + init;
      TrailingLengthAfterUnderscore(a, init);
    }
  }

  /**
   Unique ids are unique: two entities share one only if they are on the
   same device and the same datapoint, even when the device id itself
   contains underscores (a datapoint's digits never do).
   */
  lemma UniqueIdInjective(d1: string, p1: DpId, d2: string, p2: DpId)
    requires UniqueId(d1, p1) == UniqueId(d2, p2)
    ensures d1 == d2 && p1 == p2
  {
    var u := UniqueId(d1, p1);
    var s1, s2 := DecimalString(p1), DecimalString(p2);
    var n := |u|;
    assert u == ("local_" + d1) + "_" + s1;
    assert u == ("local_" + d2) + "_" + s2;
    TrailingLengthAfterUnderscore("local_" + d1, s1);
    TrailingLengthAfterUnderscore("local_" + d2, s2);
    assert s1 == u[n - |s1|..] == s2;
    DecimalStringInjective(p1, p2);
    assert d1 == u[6..n - |s1| - 1] == d2;
  }

  // ---------------------------------------------------------------------
  // the three reactions of the update handler
  // ---------------------------------------------------------------------

  /** A snapshot replaces (does not merge into) the entity status and clears last-seen. */
  lemma SnapshotReplacesStatus(v: EntityView, st: Status, passive: bool, now: Timestamp, dpId: DpId)
    ensures var w := HandleUpdate(v, Some(st), passive, now);
      && w.status == st && w.lastSeen.None?
      && (Available(w, dpId) <==> DecimalString(dpId) in st)
      && StateAttributes(w) == map[]
  {
  }

  /** A passive device's disconnection keeps the old status and records when it was last seen. */
  lemma PassiveDisconnectKeepsStatus(v: EntityView, now: Timestamp, dpId: DpId)
    ensures var w := HandleUpdate(v, None, true, now);
      && w.status == v.status && w.lastSeen == Some(now)
      && (Available(w, dpId) <==> Available(v, dpId))
      && StateAttributes(w)[ATTR_OLD_STATE] == OldState(v.status)
  {
  }

  /** Any other device's disconnection empties the status: the entity is unavailable. */
  lemma ActiveDisconnectMakesUnavailable(v: EntityView, now: Timestamp, dpId: DpId)
    ensures var w := HandleUpdate(v, None, false, now);
      && w.status == map[] && w.lastSeen.None?
      && !Available(w, dpId)
      && Dps(w, dpId).None?
      && StateAttributes(w) == map[]
  {
  }

  class LocalTuyaEntity {
    const entry: Config.ConfigEntry
    const config: Config.EntityConfig
    const dpId: DpId
    var status: Status
    var lastSeen: Option<Timestamp>

    function View(): EntityView
      reads this
    {
      EntityView(status, lastSeen)
    }

    /** An entity of a datapoint whose configuration has been found. */
    constructor (entry: Config.ConfigEntry, dpId: DpId, config: Config.EntityConfig)
      requires Config.GetEntityConfig(entry.entities, dpId) == Config.Ok(config)
      ensures this.entry == entry && this.dpId == dpId && this.config == config
      ensures View() == EntityView(map[], None)
    {
      this.entry := entry;
      this.config := config;
      this.dpId := dpId;
      status := map[];
      lastSeen := None;
    }

    /** The dispatcher delivers a published snapshot, or None, at time `now`. */
    method UpdateHandler(event: Option<Status>, now: Timestamp)
      modifies this
      ensures View() == HandleUpdate(old(View()), event, entry.passive, now)
    {
      if event.Some? {
        status := event.value;
        lastSeen := None;
      } else if entry.passive {
        lastSeen := Some(now);
      } else {
        status := map[];
        lastSeen := None;
      }
    }
  }

  /** Creating the entity of `dpId` fails exactly when no entity is configured for it. */
  method NewEntity(entry: Config.ConfigEntry, dpId: DpId) returns (r: Config.Result<LocalTuyaEntity>)
    ensures r.Err? <==> Config.GetEntityConfig(entry.entities, dpId).Err?
    ensures r.Err? ==> r.error == Config.MissingEntityConfig(dpId)
    ensures r.Ok? ==> && fresh(r.value)
                      && r.value.config == Config.GetEntityConfig(entry.entities, dpId).value
                      && r.value.config.id == dpId
                      && r.value.View() == EntityView(map[], None)
  {
    var found := Config.GetEntityConfig(entry.entities, dpId);
    if found.Err? {
      return Config.Err(found.error);
    }
    var e := new LocalTuyaEntity(entry, dpId, found.value);
    return Config.Ok(e);
  }
}
