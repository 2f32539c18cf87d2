/**
 The dispatcher between a device and its entities: every entity of the
 device handles each snapshot (or None) the device publishes, in order.
 */
module Wiring {
  import opened Values
  import opened TuyaSession
  import Backoff
  import Entity
  import SessionProps

  /** An entity that handled every published event, all at time `now`. */
  function Follow(v: Entity.EntityView, events: seq<Option<Status>>, passive: bool, now: Entity.Timestamp): Entity.EntityView
    decreases |events|
  {
    if events == [] then v
    else Entity.HandleUpdate(Follow(v, events[..|events| - 1], passive, now), events[|events| - 1], passive, now)
  }

  /** After the last published snapshot, an entity's status is exactly that snapshot. */
  lemma FollowerHoldsLastSnapshot(v: Entity.EntityView, events: seq<Option<Status>>, passive: bool, now: Entity.Timestamp)
    requires events != [] && events[|events| - 1].Some?
    ensures Follow(v, events, passive, now).status == events[|events| - 1].value
    ensures Follow(v, events, passive, now).lastSeen.None?
  {
  }

  /**
   A passive device's entity that has seen a snapshot keeps it through
   any run of disconnections.
   */
  lemma {:induction false} PassiveFollowerKeepsSnapshot(v: Entity.EntityView, events: seq<Option<Status>>, now: Entity.Timestamp)
    requires forall i :: 0 <= i < |events| ==> events[i].None?
    ensures Follow(v, events, true, now).status == v.status
    decreases |events|
  {
    if events != [] {
      var init := events[..|events| - 1];
      assert forall i :: 0 <= i < |init| ==> init[i] == events[i];
      PassiveFollowerKeepsSnapshot(v, init, now);
    }
  }

  /** When the link reports new values, every entity ends up with the device's whole merged cache. */
  lemma EntitySeesMergedCache(s: Session, update: Status, v: Entity.EntityView, now: Entity.Timestamp)
    ensures var t := Step(s, LinkStatus(update));
      && |t.published| == |s.published| + 1
      && Entity.HandleUpdate(v, t.published[|t.published| - 1], s.passive, now).status == t.status
  {
  }

  /**
   When the link reports a disconnection, the entities of a passive device
   keep their status and record the time; those of any other device become
   unavailable.
   */
  lemma DisconnectReachesEntity(s: Session, r: nat, v: Entity.EntityView, now: Entity.Timestamp, dpId: DpId)
    requires r < Backoff.Pow2(s.connectionAttempts)
    ensures var t := Step(s, LinkLost(r));
      var w := Entity.HandleUpdate(v, t.published[|t.published| - 1], s.passive, now);
      && (s.passive ==> w.status == v.status && w.lastSeen == Some(now))
      && (!s.passive ==> !Entity.Available(w, dpId) && w.status == map[])
  {
  }

  /**
   The entities of a device that reconnects after a disconnection are
   handed the device's whole cache, including keys the fresh status does
   not hold: the emptied entity status is refilled with stale values.
   */
  lemma StaleKeysReachEntity(s: Session, link: Link, snapshot: Status, k: string, v: Entity.EntityView, now: Entity.Timestamp)
    requires !s.passive && !s.isClosing && s.connectTask.None?
    requires k in s.status && k !in snapshot
    ensures var t := Run(s, [LinkLost(0), BackoffElapsed, LinkOpened(link), StatusFetched(Some(snapshot))]);
      && t.published == s.published + [None, Some(t.status)]
      && var w := Follow(v, t.published[|s.published|..], s.passive, now);
         k in w.status && w.status[k] == s.status[k]
  {
    SessionProps.StaleKeysSurviveReconnect(s, link, snapshot, k);
    var t := Run(s, [LinkLost(0), BackoffElapsed, LinkOpened(link), StatusFetched(Some(snapshot))]);
    var events := t.published[|s.published|..];
    assert events == [None, Some(t.status)];
    FollowerHoldsLastSnapshot(v, events, s.passive, now);
  }
}
