/**
 `TuyaDevice`, the cache wrapper around one device link, as a class whose
 methods update its fields in place. Every method is proved to move the
 object's abstract state `State()` exactly as the matching function of
 TuyaSession does (`Step` on the method's event; `ConnectFailed` for the
 shared failure path), so the properties proved in SessionProps hold of
 the object. Beside the source's attributes, the fields include the logs
 the model adds: what the last link registered, what was published,
 queued connects, closed links and forwarded writes.
 */
module Device {
  import opened Values
  import TuyaSession
  import Backoff
  import Config

  /** The datapoints of a list of entities. */
  function EntityIds(entities: seq<Config.EntityConfig>): (ids: set<DpId>)
    ensures forall i :: 0 <= i < |entities| ==> entities[i].id in ids
    ensures forall d :: d in ids ==> exists i :: 0 <= i < |entities| && entities[i].id == d
  {
    set i | 0 <= i < |entities| :: entities[i].id
  }

  /** The elements of a list of datapoints, as a set. */
  function ElementsOf(ids: seq<DpId>): (r: set<DpId>)
    ensures forall d :: d in r <==> d in ids
  {
    set d | d in ids
  }

  class TuyaDevice {
    const entry: Config.ConfigEntry
    var interface: Option<TuyaSession.Link>
    var connectTask: Option<TuyaSession.Stage>
    var isClosing: bool
    var connectionAttempts: nat
    var status: Status
    var dpsToRequest: set<DpId>
    var registered: set<DpId>
    var published: seq<Option<Status>>
    var pendingConnects: nat
    var closedLinks: seq<TuyaSession.Link>
    var writes: seq<TuyaSession.Write>

    /** The abstract session this object stands for. */
    function State(): TuyaSession.Session
      reads this
    {
      TuyaSession.Session(entry.passive, interface, connectTask, isClosing, connectionAttempts, status,
                          dpsToRequest, registered, published, pendingConnects, closedLinks, writes)
    }

    /** A new device requests the datapoints of all its configured entities. */
    constructor (entry: Config.ConfigEntry)
      ensures this.entry == entry
      ensures State() == TuyaSession.Initial(entry.passive, EntityIds(entry.entities))
    {
      this.entry := entry;
      interface := None;
      status := map[];
      dpsToRequest := {};
      isClosing := false;
      connectTask := None;
      connectionAttempts := 0;
      registered := {};
      published := [];
      pendingConnects := 0;
      closedLinks := [];
      writes := [];
      new;
      var i := 0;
      while i < |entry.entities|
        invariant 0 <= i <= |entry.entities|
        invariant State() == TuyaSession.Initial(entry.passive, EntityIds(entry.entities[..i]))
      {
        assert EntityIds(entry.entities[..i + 1]) == EntityIds(entry.entities[..i]) + {entry.entities[i].id} by {
          assert forall j :: 0 <= j < i ==> entry.entities[..i + 1][j] == entry.entities[..i][j];
        }
        dpsToRequest := dpsToRequest + {entry.entities[i].id};
        i := i + 1;
      }
      assert entry.entities[..i] == entry.entities;
    }

    /** Platforms add the datapoints their entities use; the set only grows. */
    method AddDpsToRequest(ids: seq<DpId>)
      modifies this
      ensures State() == TuyaSession.Step(old(State()), TuyaSession.RequestDps(ElementsOf(ids)))
    {
      var i := 0;
      while i < |ids|
        invariant 0 <= i <= |ids|
        invariant State() == old(State()).(dpsToRequest := old(dpsToRequest) + ElementsOf(ids[..i]))
      {
        assert ElementsOf(ids[..i + 1]) == ElementsOf(ids[..i]) + {ids[i]} by {
          assert ids[..i + 1] == ids[..i] + [ids[i]];
        }
        dpsToRequest := dpsToRequest + {ids[i]};
        i := i + 1;
      }
      assert ids[..i] == ids;
    }

    predicate Connected()
      reads this
      ensures Connected() == TuyaSession.Connected(State())
    {
      interface.Some? && connectTask.None?
    }

    /**
     `connect()`; `r` is the draw of `randrange(2 ** attempts)` the new
     attempt makes before its backoff sleep.
     */
    method Connect(r: nat)
      requires r < Backoff.Pow2(connectionAttempts)
      modifies this
      ensures State() == TuyaSession.Step(old(State()), TuyaSession.CallConnect(r))
    {
      if !isClosing && connectTask.None? && interface.None? {
        var backoff := Backoff.Delay(connectionAttempts, r);
        connectTask := Some(TuyaSession.Sleeping(backoff));
      }
    }

    /** A connect queued by `loop.call_soon` runs. */
    method RunScheduledConnect(r: nat)
      requires pendingConnects > 0 && r < Backoff.Pow2(connectionAttempts)
      modifies this
      ensures State() == TuyaSession.Step(old(State()), TuyaSession.RunScheduledConnect(r))
    {
      pendingConnects := pendingConnects - 1;
      Connect(r);
    }

    /** The attempt wakes up from its backoff sleep and starts opening the link. */
    method BackoffElapsed()
      requires connectTask.Some? && connectTask.value.Sleeping?
      modifies this
      ensures State() == TuyaSession.Step(old(State()), TuyaSession.BackoffElapsed)
    {
      connectTask := Some(TuyaSession.Opening);
    }

    /** `pytuya.connect` returned: store the link, hand it the requested datapoints, fetch the status. */
    method LinkOpened(link: TuyaSession.Link)
      requires connectTask == Some(TuyaSession.Opening)
      modifies this
      ensures State() == TuyaSession.Step(old(State()), TuyaSession.LinkOpened(link))
    {
      interface := Some(link);
      registered := dpsToRequest;
      connectTask := Some(TuyaSession.Fetching);
    }

    /** `pytuya.connect` raised. */
    method LinkFailed()
      requires connectTask == Some(TuyaSession.Opening)
      modifies this
      ensures State() == TuyaSession.Step(old(State()), TuyaSession.LinkFailed)
    {
      ConnectFailed();
    }

    /** `interface.status()` returned: None fails the attempt, anything else completes it. */
    method StatusFetched(fetched: Option<Status>)
      requires connectTask == Some(TuyaSession.Fetching)
      modifies this
      ensures State() == TuyaSession.Step(old(State()), TuyaSession.StatusFetched(fetched))
    {
      if fetched.None? {
        ConnectFailed();
      } else {
        StatusUpdated(fetched.value);
        connectionAttempts := 0;
        connectTask := None;
      }
    }

    /** The failure path of an attempt, then clearing its handle. */
    method ConnectFailed()
      modifies this
      ensures State() == TuyaSession.ConnectFailed(old(State()))
    {
      connectionAttempts := connectionAttempts + 1;
      if interface.Some? {
        closedLinks := closedLinks + [interface.value];
        interface := None;
      }
      pendingConnects := pendingConnects + 1;
      connectTask := None;
    }

    /** `close()`: stop the reconnect loop and close the link (which stays stored). */
    method Close()
      modifies this
      ensures State() == TuyaSession.Step(old(State()), TuyaSession.CallClose)
    {
      isClosing := true;
      if connectTask.Some? {
        connectTask := Some(TuyaSession.Cancelled);
      }
      if interface.Some? {
        closedLinks := closedLinks + [interface.value];
      }
    }

    /** `set_dp(state, dp_index)`: forwarded to the link when one is held, otherwise only logged. */
    method SetDp(state: Value, dpIndex: DpId)
      modifies this
      ensures State() == TuyaSession.Step(old(State()), TuyaSession.CallSetDp(state, dpIndex))
    {
      if interface.Some? {
        writes := writes + [TuyaSession.Write(state, dpIndex)];
      }
    }

    /** `status_updated`: merge into the cache and publish the whole cache. */
    method StatusUpdated(update: Status)
      modifies this
      ensures State() == TuyaSession.Step(old(State()), TuyaSession.LinkStatus(update))
    {
      status := status + update;
      published := published + [Some(status)];
    }

    /** `disconnected`: publish None, drop the link, reconnect unless the device is passive. */
    method Disconnected(r: nat)
      requires r < Backoff.Pow2(connectionAttempts)
      modifies this
      ensures State() == TuyaSession.Step(old(State()), TuyaSession.LinkLost(r))
    {
      published := published + [None];
      interface := None;
      if !entry.passive {
        Connect(r);
      }
    }
  }

  /**
   A client of the class: a device whose link cannot be opened three times
   in a row and then opens and answers `snapshot`. The three retries each
   wait a capped random backoff; at the end the device is connected, its
   failure count is back to 0, and the snapshot was published exactly once.
   */
  method ThreeFailuresThenSuccess(entry: Config.ConfigEntry, link: TuyaSession.Link, snapshot: Status,
                                  r1: nat, r2: nat, r3: nat)
    returns (attempts: nat, published: seq<Option<Status>>, connected: bool)
    requires r1 < 2 && r2 < 4 && r3 < 8
    ensures attempts == 0 && connected
    ensures published == [Some(snapshot)]
  {
    var device := FirstAttemptFails(entry);
    assert Backoff.Pow2(1) == 2 && Backoff.Pow2(2) == 4 && Backoff.Pow2(3) == 8;
    FailedRetry(device, r1);
    FailedRetry(device, r2);
    SucceedingRetry(device, link, snapshot, r3);
    attempts, published := device.connectionAttempts, device.published;
    connected := device.Connected();
  }

  /** A new device whose first attempt (no backoff) fails to open the link. */
  method FirstAttemptFails(entry: Config.ConfigEntry) returns (device: TuyaDevice)
    ensures fresh(device)
    ensures device.connectTask.None? && device.interface.None? && !device.isClosing && device.pendingConnects == 1
    ensures device.connectionAttempts == 1 && device.published == [] && device.status == map[]
  {
    device := new TuyaDevice(entry);
    device.Connect(0);
    device.BackoffElapsed();
    device.LinkFailed();
  }

  /** One queued connect that runs, sleeps, opens the link and fetches `snapshot` into an empty cache. */
  method SucceedingRetry(device: TuyaDevice, link: TuyaSession.Link, snapshot: Status, r: nat)
    requires device.connectTask.None? && device.interface.None? && !device.isClosing
    requires device.pendingConnects == 1 && r < Backoff.Pow2(device.connectionAttempts)
    requires device.published == [] && device.status == map[]
    modifies device
    ensures device.connectionAttempts == 0 && device.Connected()
    ensures device.published == [Some(snapshot)]
  {
    device.RunScheduledConnect(r);
    device.BackoffElapsed();
    device.LinkOpened(link);
    device.StatusFetched(Some(snapshot));
    assert map[] + snapshot == snapshot;
  }

  /** One queued connect that runs, sleeps and fails to open the link. */
  method FailedRetry(device: TuyaDevice, r: nat)
    requires device.connectTask.None? && device.interface.None? && !device.isClosing
    requires device.pendingConnects == 1 && r < Backoff.Pow2(device.connectionAttempts)
    modifies device
    ensures device.connectTask.None? && device.interface.None? && !device.isClosing && device.pendingConnects == 1
    ensures device.connectionAttempts == old(device.connectionAttempts) + 1
    ensures device.published == old(device.published) && device.status == old(device.status)
  {
    device.RunScheduledConnect(r);
    device.BackoffElapsed();
    device.LinkFailed();
  }
}
