/**
 * The relay-driven disco light (disco_light.py): one GPIO output and a
 * remembered status, OFF or ON. Levels written to GPIO outputs are recorded
 * in `pins` (the last level written to each line, `true` is high).
 */
module DiscoLightClass {

  const OFF: int := 0
  const ON: int := 1
  const DEFAULT_GPIO: int := 26

  /**
   * `set(s)` on status `status` and line `gpio`: the request is ignored when
   * it equals the current status, when the line is negative, or when it is
   * neither OFF nor ON; otherwise the line is driven (high for ON) and the
   * status recorded. Returns the new status and written levels.
   */
  function SetEffect(status: int, gpio: int, pins: map<int, bool>, s: int): (int, map<int, bool>)
  {
    if s == status || gpio < 0 || (s != OFF && s != ON) then (status, pins)
    else (s, pins[gpio := s == ON])
  }

  /** The light is in sync when its line, if it has one, was last driven to the status. */
  predicate InSync(status: int, gpio: int, pins: map<int, bool>)
  {
    (status == OFF || status == ON)
    && (gpio > 0 ==> gpio in pins && pins[gpio] == (status == ON))
  }

  /**
   * Every request keeps a synced light synced, an accepted request changes
   * exactly the light's own line, and a valid request on a usable line
   * leaves the light in the requested status. With a negative line, a
   * repeated status or an invalid request nothing changes at all.
   */
  lemma SetKeepsLightInSync(status: int, gpio: int, pins: map<int, bool>, s: int)
    requires InSync(status, gpio, pins)
    ensures InSync(SetEffect(status, gpio, pins, s).0, gpio, SetEffect(status, gpio, pins, s).1)
    ensures forall g :: g != gpio && g in pins ==>
              g in SetEffect(status, gpio, pins, s).1 && SetEffect(status, gpio, pins, s).1[g] == pins[g]
    ensures (s == OFF || s == ON) && gpio >= 0 ==> SetEffect(status, gpio, pins, s).0 == s
    ensures s != OFF && s != ON ==> SetEffect(status, gpio, pins, s) == (status, pins)
    ensures gpio < 0 ==> SetEffect(status, gpio, pins, s) == (status, pins)
    ensures s == status ==> SetEffect(status, gpio, pins, s) == (status, pins)
  {
  }

  /** Repeating a request changes nothing more. */
  lemma SetIdempotent(status: int, gpio: int, pins: map<int, bool>, s: int)
    ensures var (st, ps) := SetEffect(status, gpio, pins, s);
            SetEffect(st, gpio, ps, s) == (st, ps)
  {
  }

  /**
   * As written, creation asks for OFF while the status already starts as
   * OFF, so the request is dropped and the line is never driven: the light
   * keeps whatever level the relay line had.
   */
  lemma AsWrittenCreationLeavesLineUndriven(gpio: int)
    requires gpio > 0
    ensures SetEffect(OFF, gpio, map[], OFF) == (OFF, map[])
    ensures !InSync(SetEffect(OFF, gpio, map[], OFF).0, gpio, SetEffect(OFF, gpio, map[], OFF).1)
  {
  }

  class DiscoLight {
    const gpio: int
    var status: int
    /** Lines configured as outputs. */
    var outputs: set<int>
    var pins: map<int, bool>

    ghost predicate Valid()
      reads this
    {
      InSync(status, gpio, pins)
    }

    /**
     * Creation, with the switch-off made effective: a line above zero is
     * configured as an output and driven low, so light and status agree
     * from the start.
     */
    constructor (gpio: int := DEFAULT_GPIO)
      ensures Valid()
      ensures this.gpio == gpio && status == OFF
      ensures gpio > 0 ==> outputs == {gpio} && pins == map[gpio := false]
      ensures gpio <= 0 ==> outputs == {} && pins == map[]
    {
      this.gpio := gpio;
      status := OFF;
      outputs := {};
      pins := map[];
      if gpio > 0 {
        outputs := {gpio};
        pins := map[gpio := false];
      }
    }

    /** `set(s)`: returns the request itself, whether or not it was applied. */
    method Set(s: int) returns (r: int)
      requires Valid()
      modifies this`status, this`pins
      ensures Valid()
      ensures r == s
      ensures (status, pins) == SetEffect(old(status), gpio, old(pins), s)
    {
      SetKeepsLightInSync(status, gpio, pins, s);
      if s == status {
        return s;
      }
      if gpio < 0 {
        return s;
      }
      if s != OFF && s != ON {
        return s;
      }
      pins := pins[gpio := s == ON];
      status := s;
      return s;
    }

    /** `get()`: the remembered status, which is OFF or ON and matches the line. */
    function Get(): (s: int)
      requires Valid()
      reads this
      ensures s == OFF || s == ON
      ensures gpio > 0 ==> pins[gpio] == (s == ON)
    {
      status
    }
  }
}
