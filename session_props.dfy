/**
 What the session of `TuyaDevice` guarantees: each event's effect, the
 invariant every event keeps, and properties of whole event sequences.
 */
module SessionProps {
  import opened Values
  import opened TuyaSession
  import Backoff

  // ---------------------------------------------------------------------
  // connect
  // ---------------------------------------------------------------------

  /**
   `connect` starts an attempt exactly when the device is not closing,
   no attempt handle is held and no link is held; the new attempt first
   sleeps a capped backoff. Otherwise nothing changes.
   */
  lemma ConnectStartsOnlyFromIdle(s: Session, r: nat)
    requires r < Backoff.Pow2(s.connectionAttempts)
    ensures var t := Step(s, CallConnect(r));
      && (t != s <==> !s.isClosing && s.connectTask.None? && s.interface.None?)
      && (t != s ==> exists d: nat :: t == s.(connectTask := Some(Sleeping(d))) &&
                                 d <= Backoff.BACKOFF_TIME_UPPER_LIMIT && d < Backoff.Pow2(s.connectionAttempts))
  {
    var t := Step(s, CallConnect(r));
    if CanStart(s) {
      var d := Backoff.Delay(s.connectionAttempts, r);
      assert t == s.(connectTask := Some(Sleeping(d)));
    }
  }

  /** A second `connect` right after the first one changes nothing: no second attempt. */
  lemma ConnectIdempotent(s: Session, r1: nat, r2: nat)
    requires r1 < Backoff.Pow2(s.connectionAttempts) && r2 < Backoff.Pow2(s.connectionAttempts)
    ensures Step(Step(s, CallConnect(r1)), CallConnect(r2)) == Step(s, CallConnect(r1))
  {
  }

  predicate AllConnectCalls(es: seq<Event>)
  {
    forall i :: 0 <= i < |es| ==> es[i].CallConnect?
  }

  /**
   Any burst of `connect` calls has the effect of its first call alone:
   at most one attempt is started, whatever the number of calls.
   */
  lemma {:induction false} ConnectBurstStartsOneAttempt(s: Session, es: seq<Event>)
    requires es != [] && AllConnectCalls(es) && ValidTrace(s, es)
    ensures Run(s, es) == Step(s, es[0])
    decreases |es|
  {
    if |es| > 1 {
      var init := es[..|es| - 1];
      assert init[0] == es[0];
      assert AllConnectCalls(init) by {
        forall i | 0 <= i < |init| ensures init[i].CallConnect? { assert init[i] == es[i]; }
      }
      ConnectBurstStartsOneAttempt(s, init);
      FirstEventEnabled(s, es);
      var t := Run(s, init);
      assert es[|es| - 1].CallConnect?;
      assert t.connectionAttempts == s.connectionAttempts;
      ConnectIdempotent(s, es[0].r, es[|es| - 1].r);
    } else {
      assert es[..0] == [];
    }
  }

  /** The events that run `connect`: a direct call, a connect queued by `call_soon`, and `disconnected`. */
  predicate CallsConnect(e: Event)
  {
    e.CallConnect? || e.RunScheduledConnect? || e.LinkLost?
  }

  /**
   No event starts an attempt while one is held: a new sleeping handle
   only appears where there was none, and every caller of `connect` leaves
   a held handle as it is.
   */
  lemma NoEventRestartsAttempt(s: Session, e: Event)
    ensures var t := Step(s, e);
      t.connectTask.Some? && t.connectTask.value.Sleeping? && t.connectTask != s.connectTask ==> s.connectTask.None?
    ensures s.connectTask.Some? && CallsConnect(e) ==> Step(s, e).connectTask == s.connectTask
  {
  }

  /**
   While an attempt is held, any run of `connect` calls from any of its
   callers, direct, queued or from `disconnected`, in any mix, keeps that
   one attempt and its failure count.
   */
  lemma {:induction false} ConnectCallsKeepAttempt(s: Session, es: seq<Event>)
    requires s.connectTask.Some?
    requires forall i :: 0 <= i < |es| ==> CallsConnect(es[i])
    ensures Run(s, es).connectTask == s.connectTask
    ensures Run(s, es).connectionAttempts == s.connectionAttempts
    decreases |es|
  {
    if es != [] {
      var init := es[..|es| - 1];
      assert forall i :: 0 <= i < |init| ==> init[i] == es[i];
      ConnectCallsKeepAttempt(s, init);
      NoEventRestartsAttempt(Run(s, init), es[|es| - 1]);
    }
  }

  /**
   The race `call_soon` opens: an attempt fails and queues a connect; an
   entity calls `connect` first and starts the next attempt; the queued
   connect then runs, is consumed, and starts nothing.
   */
  lemma QueuedConnectAfterDirectConnect(s: Session, r1: nat, r2: nat)
    requires s.connectTask == Some(Opening) && !s.isClosing && s.interface.None?
    requires r1 < Backoff.Pow2(s.connectionAttempts + 1) && r2 < Backoff.Pow2(s.connectionAttempts + 1)
    ensures var t := Step(Step(Step(s, LinkFailed), CallConnect(r1)), RunScheduledConnect(r2));
      && t.connectTask == Some(Sleeping(Backoff.Delay(s.connectionAttempts + 1, r1)))
      && t.pendingConnects == s.pendingConnects
      && t.connectionAttempts == s.connectionAttempts + 1
  {
  }

  /** The first event of a valid trace could happen in the starting state. */
  lemma {:induction false} FirstEventEnabled(s: Session, es: seq<Event>)
    requires es != [] && ValidTrace(s, es)
    ensures Enabled(s, es[0])
    decreases |es|
  {
    if |es| > 1 {
      var init := es[..|es| - 1];
      assert init[0] == es[0];
      FirstEventEnabled(s, init);
    } else {
      assert es[..0] == [];
    }
  }

  // ---------------------------------------------------------------------
  // the connection attempt
  // ---------------------------------------------------------------------

  /**
   A successful attempt (any status that is not None, the empty map too)
   merges the status into the cache, publishes it, resets the attempt
   count and clears the handle. The device is connected exactly when the
   link is still held: a `disconnected` during the fetch dropped it.
   */
  lemma AttemptSucceeds(s: Session, st: Status)
    requires s.connectTask == Some(Fetching)
    ensures var t := Step(s, StatusFetched(Some(st)));
      && t.connectionAttempts == 0
      && t.connectTask.None?
      && t.interface == s.interface
      && (Connected(t) <==> s.interface.Some?)
      && t.status.Keys == s.status.Keys + st.Keys
      && (forall k :: k in st ==> t.status[k] == st[k])
      && (forall k :: k in s.status && k !in st ==> t.status[k] == s.status[k])
      && t.published == s.published + [Some(t.status)]
      && t.pendingConnects == s.pendingConnects && t.closedLinks == s.closedLinks
      && t.isClosing == s.isClosing
  {
  }

  /** Only an absent status fails: an empty status is a success. */
  lemma EmptyStatusIsSuccess(s: Session)
    requires s.connectTask == Some(Fetching)
    ensures Step(s, StatusFetched(Some(map[]))).connectionAttempts == 0
    ensures Step(s, StatusFetched(None)).connectionAttempts == s.connectionAttempts + 1
  {
  }

  /**
   A failed attempt (the link cannot be opened, or the status is absent)
   counts one more failure, closes and drops a link it had stored,
   queues exactly one later `connect`, and clears the handle. The cache
   and the published log are untouched.
   */
  lemma AttemptFails(s: Session, e: Event)
    requires Enabled(s, e) && IsFailure(e)
    ensures var t := Step(s, e);
      && t.connectionAttempts == s.connectionAttempts + 1
      && t.interface.None?
      && t.closedLinks == s.closedLinks + (if s.interface.Some? then [s.interface.value] else [])
      && t.pendingConnects == s.pendingConnects + 1
      && t.connectTask.None?
      && !Connected(t)
      && t.status == s.status && t.published == s.published
      && t.isClosing == s.isClosing
  {
  }

  /** Opening the link hands it every datapoint requested so far. */
  lemma OpenedLinkRequestsAllDps(s: Session, link: Link)
    requires s.connectTask == Some(Opening)
    ensures var t := Step(s, LinkOpened(link));
      t.interface == Some(link) && t.registered == s.dpsToRequest && t.connectTask == Some(Fetching)
  {
  }

  // ---------------------------------------------------------------------
  // close, set_dp, status_updated, disconnected
  // ---------------------------------------------------------------------

  /**
   `close` marks the device closing and cancels an attempt in flight; a
   held link is closed but NOT dropped, so a device that was connected
   still reads as connected until the link reports the disconnection.
   */
  lemma CloseEffects(s: Session)
    ensures var t := Step(s, CallClose);
      && t.isClosing
      && (s.connectTask.None? ==> t.connectTask.None?)
      && (s.connectTask.Some? ==> t.connectTask == Some(Cancelled))
      && t.interface == s.interface
      && t.closedLinks == s.closedLinks + (if s.interface.Some? then [s.interface.value] else [])
      && (Connected(s) ==> Connected(t))
      && t.connectionAttempts == s.connectionAttempts && t.status == s.status && t.published == s.published
  {
  }

  /** `set_dp` never touches the connection state; it forwards the write only when a link is held. */
  lemma SetDpLeavesConnectionAlone(s: Session, value: Value, dp: DpId)
    ensures var t := Step(s, CallSetDp(value, dp));
      && t.interface == s.interface && t.connectTask == s.connectTask
      && t.connectionAttempts == s.connectionAttempts && t.isClosing == s.isClosing
      && t.status == s.status && t.published == s.published && t.pendingConnects == s.pendingConnects
      && t.writes == s.writes + (if s.interface.Some? then [Write(value, dp)] else [])
  {
  }

  /**
   `status_updated` overwrites or adds exactly the updated keys, keeps
   every other cached key, and publishes the whole merged cache.
   */
  lemma StatusUpdateMerges(s: Session, update: Status)
    ensures var t := Step(s, LinkStatus(update));
      && t.status.Keys == s.status.Keys + update.Keys
      && (forall k :: k in update ==> t.status[k] == update[k])
      && (forall k :: k in s.status && k !in update ==> t.status[k] == s.status[k])
      && t.published == s.published + [Some(t.status)]
      && t.interface == s.interface && t.connectTask == s.connectTask
      && t.connectionAttempts == s.connectionAttempts
  {
  }

  /** Two updates on different keys leave both keys cached with their values. */
  lemma MergeKeepsEarlierKeys(s: Session)
    ensures var on, five := TextValue("on"), TextValue("5");
      var t := Run(s, [LinkStatus(map["1" := on]), LinkStatus(map["2" := five])]);
      "1" in t.status && t.status["1"] == on && "2" in t.status && t.status["2"] == five
  {
    var es := [LinkStatus(map["1" := TextValue("on")]), LinkStatus(map["2" := TextValue("5")])];
    assert es[..1] == [es[0]];
    assert es[..1][..0] == [];
  }

  /**
   `disconnected` publishes None, drops the link and keeps the cache. A
   passive device starts no attempt; any other device calls `connect`,
   which starts one unless the device is closing or an attempt is held.
   */
  lemma DisconnectedEffects(s: Session, r: nat)
    requires r < Backoff.Pow2(s.connectionAttempts)
    ensures var t := Step(s, LinkLost(r));
      && t.published == s.published + [None]
      && t.interface.None?
      && t.status == s.status
      && t.isClosing == s.isClosing && t.connectionAttempts == s.connectionAttempts
      && (s.passive ==> t.connectTask == s.connectTask)
      && (!s.passive ==> (t.connectTask != s.connectTask <==> !s.isClosing && s.connectTask.None?))
      && (t.connectTask != s.connectTask ==> t.connectTask.value.Sleeping?)
  {
  }

  // ---------------------------------------------------------------------
  // the invariant
  // ---------------------------------------------------------------------

  lemma StepPreservesInv(s: Session, e: Event)
    requires Inv(s)
    ensures Inv(Step(s, e))
  {
  }

  lemma {:induction false} RunPreservesInv(s: Session, es: seq<Event>)
    requires Inv(s)
    ensures Inv(Run(s, es))
    decreases |es|
  {
    if es != [] {
      RunPreservesInv(s, es[..|es| - 1]);
      StepPreservesInv(Run(s, es[..|es| - 1]), es[|es| - 1]);
    }
  }

  /** Every session the device reaches from construction satisfies the invariant. */
  lemma ReachableSatisfiesInv(passive: bool, ids: set<DpId>, es: seq<Event>)
    ensures Inv(Run(Initial(passive, ids), es))
  {
    RunPreservesInv(Initial(passive, ids), es);
  }

  // ---------------------------------------------------------------------
  // properties of event sequences
  // ---------------------------------------------------------------------

  /**
   After `close`, whatever happens, the device stays closing, no attempt
   ever runs again, and the failure count is frozen. A cancelled handle
   is never cleared.
   */
  lemma {:induction false} NoAttemptAfterClose(s: Session, es: seq<Event>)
    requires Inv(s) && s.isClosing
    ensures var t := Run(s, es);
      && t.isClosing
      && !AttemptInFlight(t)
      && t.connectionAttempts == s.connectionAttempts
      && (s.connectTask == Some(Cancelled) ==> t.connectTask == Some(Cancelled))
    decreases |es|
  {
    if es != [] {
      var init := es[..|es| - 1];
      NoAttemptAfterClose(s, init);
      RunPreservesInv(s, init);
    }
  }

  /** Once `close` was called, any later events leave no attempt running. */
  lemma CloseIsFinal(s: Session, before: seq<Event>, after: seq<Event>)
    requires Inv(s)
    ensures !AttemptInFlight(Run(Step(Run(s, before), CallClose), after))
  {
    RunPreservesInv(s, before);
    StepPreservesInv(Run(s, before), CallClose);
    NoAttemptAfterClose(Step(Run(s, before), CallClose), after);
  }

  /** Failure events after the last success. */
  function FailuresSinceSuccess(es: seq<Event>): nat
    decreases |es|
  {
    if es == [] then 0
    else if IsSuccess(es[|es| - 1]) then 0
    else FailuresSinceSuccess(es[..|es| - 1]) + (if IsFailure(es[|es| - 1]) then 1 else 0)
  }

  predicate HasSuccess(es: seq<Event>)
  {
    exists i :: 0 <= i < |es| && IsSuccess(es[i])
  }

  /**
   The attempt counter is reset to 0 by each success and raised by one by
   each failure: after any run it is the number of failures since the
   last success (plus the starting count when there was no success).
   */
  lemma {:induction false} AttemptsCountFailures(s: Session, es: seq<Event>)
    requires ValidTrace(s, es)
    ensures Run(s, es).connectionAttempts ==
            (if HasSuccess(es) then 0 else s.connectionAttempts) + FailuresSinceSuccess(es)
    decreases |es|
  {
    if es != [] {
      var init, e := es[..|es| - 1], es[|es| - 1];
      AttemptsCountFailures(s, init);
      StepCountsAttempt(Run(s, init), e);
      HasSuccessOfLast(init, e);
      assert init + [e] == es;
    }
  }

  /** One enabled event resets the count on success, raises it by one on failure, and keeps it otherwise. */
  lemma StepCountsAttempt(s: Session, e: Event)
    requires Enabled(s, e)
    ensures Step(s, e).connectionAttempts ==
            if IsSuccess(e) then 0 else s.connectionAttempts + (if IsFailure(e) then 1 else 0)
  {
  }

  lemma HasSuccessOfLast(es: seq<Event>, e: Event)
    ensures HasSuccess(es + [e]) <==> HasSuccess(es) || IsSuccess(e)
  {
    var t := es + [e];
    if HasSuccess(t) && !IsSuccess(e) {
      var i :| 0 <= i < |t| && IsSuccess(t[i]);
      assert i < |es| && es[i] == t[i];
    }
    if HasSuccess(es) {
      var i :| 0 <= i < |es| && IsSuccess(es[i]);
      assert t[i] == es[i];
    }
    if IsSuccess(e) {
      assert t[|es|] == e;
    }
  }

  /** After `k` failed attempts in a row from a fresh device, the counter is `k`. */
  lemma ConsecutiveFailures(s: Session, es: seq<Event>)
    requires ValidTrace(s, es) && s.connectionAttempts == 0
    requires forall i :: 0 <= i < |es| ==> !IsSuccess(es[i])
    ensures Run(s, es).connectionAttempts == FailuresSinceSuccess(es)
  {
    AttemptsCountFailures(s, es);
  }

  predicate NoConnectCalls(es: seq<Event>)
  {
    forall i :: 0 <= i < |es| ==> !es[i].CallConnect?
  }

  /**
   A passive device never reconnects on its own: from an idle state with
   no queued connect, as long as nobody calls `connect`, no attempt ever
   starts, whatever the link reports (disconnections included).
   */
  lemma {:induction false} PassiveNeverReconnects(s: Session, es: seq<Event>)
    requires s.passive && s.connectTask.None? && s.pendingConnects == 0
    requires NoConnectCalls(es)
    ensures Run(s, es).connectTask.None? && Run(s, es).pendingConnects == 0
    ensures Run(s, es).passive
    decreases |es|
  {
    if es != [] {
      var init := es[..|es| - 1];
      assert NoConnectCalls(init) by {
        forall i | 0 <= i < |init| ensures !init[i].CallConnect? { assert init[i] == es[i]; }
      }
      PassiveNeverReconnects(s, init);
      assert !es[|es| - 1].CallConnect?;
    }
  }

  /** A device that is not passive reconnects as soon as the link reports a disconnection. */
  lemma ActiveReconnectsOnDisconnect(s: Session, r: nat)
    requires !s.passive && !s.isClosing && s.connectTask.None?
    requires r < Backoff.Pow2(s.connectionAttempts)
    ensures AttemptInFlight(Step(s, LinkLost(r)))
    ensures Step(s, LinkLost(r)).connectTask.value.Sleeping?
  {
  }

  /**
   The requested datapoints only grow, the published, closed-link and
   write logs are only appended to, and the device cache never loses a key.
   */
  lemma {:induction false} LogsOnlyGrow(s: Session, es: seq<Event>)
    ensures var t := Run(s, es);
      && s.dpsToRequest <= t.dpsToRequest
      && s.published <= t.published
      && s.closedLinks <= t.closedLinks
      && s.writes <= t.writes
      && s.status.Keys <= t.status.Keys
    decreases |es|
  {
    if es != [] {
      LogsOnlyGrow(s, es[..|es| - 1]);
      StepOnlyGrows(Run(s, es[..|es| - 1]), es[|es| - 1]);
    }
  }

  lemma StepOnlyGrows(s: Session, e: Event)
    ensures var t := Step(s, e);
      && s.dpsToRequest <= t.dpsToRequest
      && s.published <= t.published
      && s.closedLinks <= t.closedLinks
      && s.writes <= t.writes
      && s.status.Keys <= t.status.Keys
  {
  }

  /**
   The device cache is never reset: keys fetched before a disconnection
   are still cached and published after the device reconnects, whatever
   the fresh status holds.
   */
  lemma StaleKeysSurviveReconnect(s: Session, link: Link, snapshot: Status, k: string)
    requires !s.passive && !s.isClosing && s.connectTask.None?
    requires k in s.status && k !in snapshot
    ensures var t := Run(s, [LinkLost(0), BackoffElapsed, LinkOpened(link), StatusFetched(Some(snapshot))]);
      && Connected(t)
      && k in t.status && t.status[k] == s.status[k]
      && t.published == s.published + [None, Some(t.status)]
  {
    var es := [LinkLost(0), BackoffElapsed, LinkOpened(link), StatusFetched(Some(snapshot))];
    var s1 := Step(s, LinkLost(0));
    assert s1.connectTask == Some(Sleeping(0));
    var s2 := Step(s1, BackoffElapsed);
    var s3 := Step(s2, LinkOpened(link));
    assert s3.connectTask == Some(Fetching) && s3.status == s.status;
    var s4 := Step(s3, StatusFetched(Some(snapshot)));
    assert Run(s, es[..1]) == s1 by { assert es[..1][..0] == []; }
    assert Run(s, es[..2]) == s2 by { assert es[..2][..1] == es[..1]; }
    assert Run(s, es[..3]) == s3 by { assert es[..3][..2] == es[..2]; }
    assert Run(s, es) == s4;
  }

  /**
   A disconnection while the first status is being fetched drops the
   link, and its `connect` is a no-op because the handle is still held;
   when the fetch then succeeds the device is left without link, without
   attempt and without a queued connect: nothing reconnects it.
   */
  lemma SuccessAfterLostLinkIsNotRetried(s: Session, r: nat, st: Status)
    requires s.connectTask == Some(Fetching) && r < Backoff.Pow2(s.connectionAttempts)
    ensures var t := Step(Step(s, LinkLost(r)), StatusFetched(Some(st)));
      && t.interface.None? && t.connectTask.None?
      && t.pendingConnects == s.pendingConnects
      && !Connected(t)
  {
  }

  /**
   With the corrected completion step, an attempt that ends never strands
   the device: it is connected, or it counted a failure and queued a
   connect.
   */
  lemma CorrectedCompletionNeverStrands(s: Session, fetched: Option<Status>)
    requires s.connectTask == Some(Fetching)
    ensures var t := CorrectedStep(s, StatusFetched(fetched));
      && t.connectTask.None?
      && (Connected(t) || (t.pendingConnects == s.pendingConnects + 1 &&
                           t.connectionAttempts == s.connectionAttempts + 1))
      && (Connected(t) <==> fetched.Some? && s.interface.Some?)
  {
  }

  /**
   The run of `SuccessAfterLostLinkIsNotRetried` under the corrected step:
   whatever the fetch returns, the attempt counts a failure and queues a
   connect, so a later scheduled connect starts a new attempt.
   */
  lemma CorrectedLostLinkIsRetried(s: Session, r: nat, fetched: Option<Status>, r2: nat)
    requires s.connectTask == Some(Fetching) && r < Backoff.Pow2(s.connectionAttempts)
    requires !s.isClosing && r2 < Backoff.Pow2(s.connectionAttempts + 1)
    ensures var t := CorrectedStep(CorrectedStep(s, LinkLost(r)), StatusFetched(fetched));
      && t.interface.None? && t.connectTask.None?
      && t.pendingConnects == s.pendingConnects + 1
      && t.connectionAttempts == s.connectionAttempts + 1
      && AttemptInFlight(Step(t, RunScheduledConnect(r2)))
  {
  }
}
