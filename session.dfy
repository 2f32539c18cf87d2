/**
 The per-device session of `TuyaDevice` as a state machine over values.

 The asyncio plumbing becomes explicit events. The connection coroutine
 `_make_connection` is suspended at one of its three awaits (the backoff
 sleep, `pytuya.connect`, `interface.status()`), so an attempt in flight
 is recorded by the stage it is suspended in; every await is resumed by
 an event of its own, and between two events any other event (a call
 from an entity, a callback from the link) may happen. `loop.call_soon(connect)`
 queues a connect that a later event runs. The dispatcher is the
 append-only log `published`, the link's `close()` and `set_dp()` are
 the logs `closedLinks` and `writes`.

 The class `Device.TuyaDevice` is proved against `Step`; the properties of
 `Step` are in module SessionProps.
 */
module TuyaSession {
  import opened Values
  import Backoff

  /** An opened device link (the object `pytuya.connect` returns). */
  datatype Link = Link(id: nat)

  /** Where the one connection attempt is suspended. */
  datatype Stage =
    | Sleeping(delay: nat)  // in `asyncio.sleep(backoff)`
    | Opening               // in `pytuya.connect(...)`
    | Fetching              // in `interface.status()`, the link already stored
    | Cancelled             // cancelled by `close()`: the task is dead but still referenced

  /** A datapoint write forwarded to the link. */
  datatype Write = Write(value: Value, dp: DpId)

  datatype Session = Session(
    passive: bool,                 // the entry's passive-device flag, fixed
    interface: Option<Link>,       // `_interface`
    connectTask: Option<Stage>,    // `_connect_task`
    isClosing: bool,               // `_is_closing`
    connectionAttempts: nat,       // `_connection_attempts`
    status: Status,                // `_status`, the device's cache
    dpsToRequest: set<DpId>,       // `_dps_to_request` (a dict used as a set)
    registered: set<DpId>,         // what the last opened link was asked to request
    published: seq<Option<Status>>,// every dispatcher send for this device, in order
    pendingConnects: nat,          // connects queued with `loop.call_soon`
    closedLinks: seq<Link>,        // every `interface.close()` call, in order
    writes: seq<Write>)            // every `interface.set_dp(...)` call, in order

  /** A freshly constructed device that requests the datapoints of its entities. */
  function Initial(passive: bool, entityIds: set<DpId>): Session
  {
    Session(passive, None, None, false, 0, map[], entityIds, {}, [], 0, [], [])
  }

  /** The `connected` property. */
  predicate Connected(s: Session)
  {
    s.interface.Some? && s.connectTask.None?
  }

  /** The guard of `connect`. */
  predicate CanStart(s: Session)
  {
    !s.isClosing && s.connectTask.None? && s.interface.None?
  }

  /** `connect()`: start an attempt, whose first act is the backoff sleep, or do nothing. */
  function Connect(s: Session, r: nat): Session
    requires r < Backoff.Pow2(s.connectionAttempts)
  {
    if CanStart(s) then s.(connectTask := Some(Sleeping(Backoff.Delay(s.connectionAttempts, r))))
    else s
  }

  /** The `except` branch of `_make_connection` followed by clearing the task handle. */
  function ConnectFailed(s: Session): Session
  {
    s.(connectionAttempts := s.connectionAttempts + 1,
       closedLinks := if s.interface.Some? then s.closedLinks + [s.interface.value] else s.closedLinks,
       interface := None,
       pendingConnects := s.pendingConnects + 1,
       connectTask := None)
  }

  /** `status_updated`: merge into the cache, then publish the whole cache. */
  function StatusUpdated(s: Session, update: Status): Session
  {
    var merged := s.status + update;
    s.(status := merged, published := s.published + [Some(merged)])
  }

  /** `close()`: the attempt in flight is cancelled, an open link is closed but kept. */
  function Close(s: Session): Session
  {
    s.(isClosing := true,
       connectTask := if s.connectTask.Some? then Some(Cancelled) else None,
       closedLinks := if s.interface.Some? then s.closedLinks + [s.interface.value] else s.closedLinks)
  }

  /** `set_dp`: forwarded when a link is held, otherwise only logged. */
  function SetDp(s: Session, value: Value, dp: DpId): Session
  {
    if s.interface.Some? then s.(writes := s.writes + [Write(value, dp)]) else s
  }

  /** `disconnected`: publish "unavailable", drop the link, reconnect unless passive. */
  function Disconnected(s: Session, r: nat): Session
    requires r < Backoff.Pow2(s.connectionAttempts)
  {
    var t := s.(published := s.published + [None], interface := None);
    if s.passive then t else Connect(t, r)
  }

  datatype Event =
    | CallConnect(r: nat)                   // `connect()`, `r` the draw of `randrange(2 ** attempts)`
    | RunScheduledConnect(r: nat)           // a connect queued by `call_soon` runs
    | BackoffElapsed                        // the backoff sleep returns
    | LinkOpened(link: Link)                // `pytuya.connect` returns a link
    | LinkFailed                            // `pytuya.connect` raises
    | StatusFetched(fetched: Option<Status>)// `status()` returns (None also stands for a raise)
    | CallClose                             // `close()`
    | CallSetDp(value: Value, dp: DpId)     // `set_dp(value, dp)`
    | LinkStatus(update: Status)            // the link calls `status_updated`
    | LinkLost(r: nat)                      // the link calls `disconnected`
    | RequestDps(ids: set<DpId>)            // entities add datapoints to `_dps_to_request`

  /** Whether an event can happen in a state (an await can only resume where it is suspended). */
  predicate Enabled(s: Session, e: Event)
  {
    match e
    case CallConnect(r) => r < Backoff.Pow2(s.connectionAttempts)
    case RunScheduledConnect(r) => s.pendingConnects > 0 && r < Backoff.Pow2(s.connectionAttempts)
    case BackoffElapsed => s.connectTask.Some? && s.connectTask.value.Sleeping?
    case LinkOpened(_) => s.connectTask == Some(Opening)
    case LinkFailed => s.connectTask == Some(Opening)
    case StatusFetched(_) => s.connectTask == Some(Fetching)
    case LinkLost(r) => r < Backoff.Pow2(s.connectionAttempts)
    case CallClose => true
    case CallSetDp(_, _) => true
    case LinkStatus(_) => true
    case RequestDps(_) => true
  }

  /** One event; an event that cannot happen leaves the state as it is. */
  function Step(s: Session, e: Event): Session
  {
    if !Enabled(s, e) then s
    else match e
      case CallConnect(r) => Connect(s, r)
      case RunScheduledConnect(r) => Connect(s.(pendingConnects := s.pendingConnects - 1), r)
      case BackoffElapsed => s.(connectTask := Some(Opening))
      case LinkOpened(link) =>
        s.(interface := Some(link), registered := s.dpsToRequest, connectTask := Some(Fetching))
      case LinkFailed => ConnectFailed(s)
      case StatusFetched(fetched) =>
        if fetched.None? then ConnectFailed(s)
        else StatusUpdated(s, fetched.value).(connectionAttempts := 0, connectTask := None)
      case CallClose => Close(s)
      case CallSetDp(value, dp) => SetDp(s, value, dp)
      case LinkStatus(update) => StatusUpdated(s, update)
      case LinkLost(r) => Disconnected(s, r)
      case RequestDps(ids) => s.(dpsToRequest := s.dpsToRequest + ids)
  }

  /**
   The attempt as evidently intended: a status that arrives after the link
   was dropped completes nothing, and the attempt takes the failure path
   (count a failure, queue a connect). Every other event is `Step`.
   */
  function CorrectedStep(s: Session, e: Event): Session
  {
    if Enabled(s, e) && IsSuccess(e) && s.interface.None? then ConnectFailed(s)
    else Step(s, e)
  }

  /** The state after a sequence of events. */
  function Run(s: Session, es: seq<Event>): Session
    decreases |es|
  {
    if es == [] then s else Step(Run(s, es[..|es| - 1]), es[|es| - 1])
  }

  /** Every event of the sequence could happen when it did. */
  predicate ValidTrace(s: Session, es: seq<Event>)
    decreases |es|
  {
    es == [] || (ValidTrace(s, es[..|es| - 1]) && Enabled(Run(s, es[..|es| - 1]), es[|es| - 1]))
  }

  /**
   What holds of every reachable session: a link is only stored once the
   attempt passed `pytuya.connect`, a cancelled task exists only after
   `close()`, once closing no live attempt exists, and every backoff wait
   is within the cap.
   */
  predicate Inv(s: Session)
  {
    && (s.connectTask.Some? && (s.connectTask.value.Sleeping? || s.connectTask.value.Opening?) ==> s.interface.None?)
    && (s.connectTask == Some(Cancelled) ==> s.isClosing)
    && (s.isClosing ==> s.connectTask.None? || s.connectTask == Some(Cancelled))
    && (s.connectTask.Some? && s.connectTask.value.Sleeping? ==> s.connectTask.value.delay <= Backoff.BACKOFF_TIME_UPPER_LIMIT)
  }

  /** An attempt is running (suspended at one of its awaits, not cancelled). */
  predicate AttemptInFlight(s: Session)
  {
    s.connectTask.Some? && s.connectTask != Some(Cancelled)
  }

  predicate IsFailure(e: Event)
  {
    e.LinkFailed? || (e.StatusFetched? && e.fetched.None?)
  }

  predicate IsSuccess(e: Event)
  {
    e.StatusFetched? && e.fetched.Some?
  }
}
