/** The logout timer held by AuthService, together with the timers the
    browser has pending and the actions the service has dispatched. */
module AuthTimer {
  import opened Wrappers
  import opened AuthActions

  /** A `setTimeout` handle. Browsers hand out positive integers, so a stored
      handle is always truthy. */
  type TimerId = nat

  /** Everything the service's timer logic touches:
      - `pending`: scheduled callbacks not yet fired or cancelled, with the
        instant (ms) at which each becomes due;
      - `current`: the `tokenExpirationTimer` field (`None` is null);
      - `nextId`: the handle the next `setTimeout` will return;
      - `dispatched`: the actions dispatched to the store by the callbacks. */
  datatype Timers = Timers(
    pending: map<TimerId, int>,
    current: Option<TimerId>,
    nextId: TimerId,
    dispatched: seq<Action>)

  /** Handles are positive and every handle already issued is below `nextId`. */
  ghost predicate WellFormed(t: Timers) {
    && 1 <= t.nextId
    && (forall id :: id in t.pending ==> 1 <= id < t.nextId)
    && (t.current.Some? ==> 1 <= t.current.value < t.nextId)
  }

  /** The instant at which `setTimeout(cb, delay)` issued at `now` is due; a
      negative delay is treated as zero. */
  function Deadline(delay: int, now: int): (due: int)
    ensures due >= now
    ensures delay >= 0 ==> due == now + delay
    ensures delay < 0 ==> due == now
  {
    if delay < 0 then now else now + delay
  }

  /** `setLogoutTimer(delay)`: schedules one new callback and stores its
      handle as the current one. Nothing already pending is cancelled. */
  function Arm(t: Timers, delay: int, now: int): (r: Timers)
    requires WellFormed(t)
    ensures WellFormed(r)
    ensures r.current == Some(t.nextId) && t.nextId !in t.pending
    ensures r.pending.Keys == t.pending.Keys + {t.nextId}
    ensures r.pending[t.nextId] == Deadline(delay, now)
    ensures forall id :: id in t.pending ==> r.pending[id] == t.pending[id]
    ensures r.nextId > t.nextId && r.dispatched == t.dispatched
  {
    Timers(t.pending[t.nextId := Deadline(delay, now)], Some(t.nextId), t.nextId + 1, t.dispatched)
  }

  /** `clearLogoutTimer()`: cancels the stored timer, if any, and nulls the
      field. */
  function Clear(t: Timers): (r: Timers)
    requires WellFormed(t)
    ensures WellFormed(r)
    ensures r.current == None
    ensures forall id :: id in r.pending <==> id in t.pending && t.current != Some(id)
    ensures forall id :: id in r.pending ==> r.pending[id] == t.pending[id]
    ensures r.nextId == t.nextId && r.dispatched == t.dispatched
  {
    var remaining := if t.current.Some? then t.pending - {t.current.value} else t.pending;
    Timers(remaining, None, t.nextId, t.dispatched)
  }

  /** Whether the callback of `id` runs at `now`: only a pending timer whose
      deadline has been reached fires. */
  predicate Due(t: Timers, id: TimerId, now: int) {
    id in t.pending && t.pending[id] <= now
  }

  /** The browser running the callback of timer `id` at `now`: it dispatches
      one Logout and the timer stops being pending. The handle field is not
      touched. A timer that is not due does nothing. */
  function FireAt(t: Timers, id: TimerId, now: int): (r: Timers)
    requires WellFormed(t)
    ensures WellFormed(r)
    ensures Due(t, id, now) ==> r == t.(pending := r.pending, dispatched := t.dispatched + [Logout])
    ensures Due(t, id, now) ==> r.pending == t.pending - {id}
    ensures !Due(t, id, now) ==> r == t
  {
    if Due(t, id, now) then
      Timers(t.pending - {id}, t.current, t.nextId, t.dispatched + [Logout])
    else
      t
  }

  /** One step of the timer world: a service call or a callback. */
  datatype TimerOp =
    | ArmOp(delay: int, now: int)
    | ClearOp
    | FireOp(id: TimerId, now: int)

  function Step(t: Timers, op: TimerOp): (r: Timers)
    requires WellFormed(t)
    ensures WellFormed(r) && r.nextId >= t.nextId
  {
    match op
    case ArmOp(delay, now) => Arm(t, delay, now)
    case ClearOp => Clear(t)
    case FireOp(id, now) => FireAt(t, id, now)
  }

  /** The state after a sequence of steps. */
  function Run(t: Timers, ops: seq<TimerOp>): (r: Timers)
    requires WellFormed(t)
    ensures WellFormed(r) && r.nextId >= t.nextId
    decreases |ops|
  {
    if ops == [] then t else Run(Step(t, ops[0]), ops[1..])
  }

  /** The number of `setLogoutTimer` calls in a sequence of steps. */
  function Arms(ops: seq<TimerOp>): nat {
    if ops == [] then 0 else (if ops[0].ArmOp? then 1 else 0) + Arms(ops[1..])
  }

  /** A timer that was cancelled, or has already fired, never becomes pending
      again, so its callback never runs again whatever happens next. */
  lemma {:induction false} CancelledNeverFires(t: Timers, ops: seq<TimerOp>, id: TimerId, now: int)
    requires WellFormed(t) && 1 <= id < t.nextId && id !in t.pending
    ensures id !in Run(t, ops).pending
    ensures FireAt(Run(t, ops), id, now) == Run(t, ops)
    decreases |ops|
  {
    if ops != [] {
      var t' := Step(t, ops[0]);
      assert id !in t'.pending;
      CancelledNeverFires(t', ops[1..], id, now);
    }
  }

  /** One step dispatches nothing, or one Logout. */
  lemma StepDispatch(t: Timers, op: TimerOp)
    requires WellFormed(t)
    ensures Step(t, op).dispatched == t.dispatched || Step(t, op).dispatched == t.dispatched + [Logout]
  {
  }

  /** One step adds a pending timer only by arming, and removes one for each
      Logout it dispatches. */
  lemma StepPendingBound(t: Timers, op: TimerOp)
    requires WellFormed(t)
    ensures |Step(t, op).dispatched| - |t.dispatched| + |Step(t, op).pending| <= |t.pending| + (if op.ArmOp? then 1 else 0)
  {
  }

  /** The callbacks only ever dispatch Logout: a run extends the log of
      dispatched actions with Logouts and nothing else. */
  lemma {:induction false} OnlyLogoutDispatched(t: Timers, ops: seq<TimerOp>)
    requires WellFormed(t)
    ensures |t.dispatched| <= |Run(t, ops).dispatched|
    ensures Run(t, ops).dispatched[..|t.dispatched|] == t.dispatched
    ensures forall i :: |t.dispatched| <= i < |Run(t, ops).dispatched| ==> Run(t, ops).dispatched[i] == Logout
    decreases |ops|
  {
    if ops != [] {
      StepDispatch(t, ops[0]);
      OnlyLogoutDispatched(Step(t, ops[0]), ops[1..]);
    }
  }

  /** Each armed timer dispatches at most once: the Logouts dispatched plus
      the timers still pending never exceed the timers pending at the start
      plus the timers armed since. */
  lemma {:induction false} LogoutAtMostOncePerTimer(t: Timers, ops: seq<TimerOp>)
    requires WellFormed(t)
    ensures |Run(t, ops).dispatched| - |t.dispatched| + |Run(t, ops).pending| <= |t.pending| + Arms(ops)
    decreases |ops|
  {
    if ops != [] {
      StepPendingBound(t, ops[0]);
      LogoutAtMostOncePerTimer(Step(t, ops[0]), ops[1..]);
    }
  }

  /** Re-arming does not cancel: after two `setLogoutTimer` calls and a
      `clearLogoutTimer`, the first timer is still pending and, once due,
      still dispatches Logout. */
  lemma RearmLeavesEarlierTimerPending(t: Timers, d1: int, d2: int, now1: int, now2: int)
    requires WellFormed(t)
    ensures var c := Clear(Arm(Arm(t, d1, now1), d2, now2));
      && t.nextId in c.pending
      && FireAt(c, t.nextId, Deadline(d1, now1)).dispatched == t.dispatched + [Logout]
  {
  }

  /** Clearing twice is clearing once; clearing with no stored handle
      changes nothing. */
  lemma ClearIdempotent(t: Timers)
    requires WellFormed(t)
    ensures Clear(Clear(t)) == Clear(t)
    ensures t.current.None? ==> Clear(t) == t
  {
  }

  /** The service object. Its fields are those of `Timers`; the methods are
      specified by the functions above. */
  class AuthService {
    var pending: map<TimerId, int>
    var tokenExpirationTimer: Option<TimerId>
    var nextId: TimerId
    var dispatched: seq<Action>

    function State(): Timers
      reads this
    {
      Timers(pending, tokenExpirationTimer, nextId, dispatched)
    }

    ghost predicate Valid()
      reads this
    {
      WellFormed(State())
    }

    constructor ()
      ensures Valid()
      ensures State() == Timers(map[], None, 1, [])
    {
      pending := map[];
      tokenExpirationTimer := None;
      nextId := 1;
      dispatched := [];
    }

    /** `setLogoutTimer(expirationDuration)`, issued at `now`. */
    method SetLogoutTimer(expirationDuration: int, now: int)
      requires Valid()
      modifies this
      ensures Valid()
      ensures State() == Arm(old(State()), expirationDuration, now)
    {
      var handle := nextId;
      nextId := nextId + 1;
      pending := pending[handle := Deadline(expirationDuration, now)];
      tokenExpirationTimer := Some(handle);
    }

    /** `clearLogoutTimer()`. */
    method ClearLogoutTimer()
      requires Valid()
      modifies this
      ensures Valid()
      ensures State() == Clear(old(State()))
    {
      if tokenExpirationTimer.Some? {
        pending := pending - {tokenExpirationTimer.value};
      }
      tokenExpirationTimer := None;
    }

    /** The event loop running the callback of timer `id` at `now`. */
    method Fire(id: TimerId, now: int) returns (fired: bool)
      requires Valid()
      modifies this
      ensures Valid()
      ensures fired == Due(old(State()), id, now)
      ensures State() == FireAt(old(State()), id, now)
    {
      fired := id in pending && pending[id] <= now;
      if fired {
        pending := pending - {id};
        dispatched := dispatched + [Logout];
      }
    }
  }
}
