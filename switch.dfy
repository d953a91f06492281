/**
 * A latching switch on one GPIO line (switch.py): a Button whose edge
 * handler keeps a logical ON/OFF state, accepts a change only when the new
 * reading differs from the state and at least `stableTime` has passed since
 * the last accepted change (or since creation), and then reports
 * `(channel, newState)` to its callback.
 *
 * Clock readings are given to the operations as integer ticks (the default
 * stable time of 0.05 s is 50 ticks of one millisecond); callback
 * invocations are recorded in `notifications`.
 */
module SwitchClass {
  import opened Constants
  import ButtonClass

  /** Default stable time: 0.05 s, in milliseconds. */
  const DEFAULT_STABLE_TIME: int := 50

  /** Logical state for a raw line level: inverted when `invert` is set. */
  function Logical(raw: bool, invert: bool): (s: bool)
    ensures s != raw <==> invert
  {
    if invert then !raw else raw
  }

  /** The debounce gate of the edge handler. */
  predicate Accepts(state: bool, lastStateTime: int, stableTime: int, candidate: bool, now: int)
  {
    candidate != state && now - lastStateTime >= stableTime
  }

  class Switch {
    /** The Button part: GPIO line, resistor, edge and debounce interval. */
    const base: ButtonClass.Button
    const invertLogic: bool
    const stableTime: int
    var state: bool
    var lastStateTime: int
    /** Callback invocations, in order: (channel, new state). */
    var notifications: seq<(int, bool)>
    ghost const initialState: bool
    ghost const createdAt: int
    /** Clock reading of each accepted change, parallel to `notifications`. */
    ghost var acceptedAt: seq<int>

    /**
     * What the debounce logic guarantees of the reported history: each
     * report flips the state, reports are at least `stableTime` apart, the
     * first comes at least `stableTime` after creation, and the current
     * state and time stamp are those of the last report.
     */
    ghost predicate Valid()
      reads this
    {
      |acceptedAt| == |notifications|
      && (notifications == [] ==> state == initialState && lastStateTime == createdAt)
      && (notifications != [] ==>
            notifications[|notifications| - 1].1 == state
            && acceptedAt[|acceptedAt| - 1] == lastStateTime
            && notifications[0].1 != initialState
            && acceptedAt[0] - createdAt >= stableTime)
      && (forall i :: 1 <= i < |notifications| ==> notifications[i].1 != notifications[i - 1].1)
      && (forall i :: 1 <= i < |acceptedAt| ==> acceptedAt[i] - acceptedAt[i - 1] >= stableTime)
    }

    /**
     * Creation: the Button part is set up, the state is the logical reading
     * of the line, and the clock reading `now` is the last change time.
     */
    constructor (button: int, raw: bool, now: int, pullUpDown: int := ButtonClass.DEFAULT_PULL_UP_DOWN,
                 bounceTime: int := ButtonClass.DEFAULT_BOUNCE_TIME, stableTime: int := DEFAULT_STABLE_TIME,
                 invertLogic: bool := true)
      ensures Valid()
      ensures base.button == button && base.pullUpDown == pullUpDown && base.bounceTime == bounceTime
      ensures this.stableTime == stableTime && this.invertLogic == invertLogic
      ensures state == Logical(raw, invertLogic) && lastStateTime == now
      ensures notifications == []
    {
      base := new ButtonClass.Button(button, pullUpDown, bounceTime);
      this.invertLogic := invertLogic;
      this.stableTime := stableTime;
      state := Logical(raw, invertLogic);
      lastStateTime := now;
      notifications := [];
      initialState := Logical(raw, invertLogic);
      createdAt := now;
      acceptedAt := [];
    }

    /**
     * The edge handler for a reading `raw` of line `channel` at clock `now`:
     * a change that passes the gate updates the state and time stamp and is
     * reported; anything else leaves the switch as it was.
     */
    method ButtonEvent(channel: int, raw: bool, now: int)
      requires Valid()
      modifies this`state, this`lastStateTime, this`notifications, this`acceptedAt
      ensures Valid()
      ensures Accepts(old(state), old(lastStateTime), stableTime, Logical(raw, invertLogic), now) ==>
                state == Logical(raw, invertLogic) && lastStateTime == now
                && notifications == old(notifications) + [(channel, state)]
      ensures !Accepts(old(state), old(lastStateTime), stableTime, Logical(raw, invertLogic), now) ==>
                state == old(state) && lastStateTime == old(lastStateTime) && notifications == old(notifications)
    {
      var currentState := Logical(raw, invertLogic);
      if currentState != state && now - lastStateTime >= stableTime {
        state := currentState;
        lastStateTime := now;
        notifications := notifications + [(channel, state)];
        acceptedAt := acceptedAt + [now];
      }
    }

    /** `get_state()`: the state of the last reported change, or the initial reading. */
    function GetState(): (s: bool)
      requires Valid()
      reads this
      ensures notifications == [] ==> s == initialState
      ensures notifications != [] ==> s == notifications[|notifications| - 1].1
    {
      state
    }
  }
}
