/**
 * The RGB status LED (status_led_class.py): three output lines and a
 * remembered status. Levels written to GPIO outputs are recorded in `pins`
 * (the last level written to each line, `true` is lit).
 */
module StatusLedClass {

  const CLEAR: int := 0
  const NORMAL: int := 1
  const BUSY: int := 2
  const SELECT: int := 3
  const ERROR: int := 4
  /** Names used for the IQAudio Cosmic controller's three LEDs. */
  const LED1: int := ERROR
  const LED2: int := NORMAL
  const LED3: int := BUSY
  const ALL: int := 7
  /** Status before the first `set`. */
  const UNSET: int := -1

  /** The reset step of `set`: every configured line (above zero) is driven low, red, blue, then green. */
  function Reset(red: int, green: int, blue: int, pins: map<int, bool>): map<int, bool>
  {
    var p1 := if red > 0 then pins[red := false] else pins;
    var p2 := if blue > 0 then p1[blue := false] else p1;
    if green > 0 then p2[green := false] else p2
  }

  /**
   * The lighting step of `set` for status `s`. NORMAL, BUSY and ERROR light
   * green, blue and red; SELECT lights green and, if configured, red; ALL
   * drives all three lines without checking red and blue. Each case needs
   * the line it tests to be above zero; no other status lights anything.
   */
  function Light(s: int, red: int, green: int, blue: int, pins: map<int, bool>): map<int, bool>
  {
    if s == NORMAL && green > 0 then pins[green := true]
    else if s == BUSY && blue > 0 then pins[blue := true]
    else if s == ERROR && red > 0 then pins[red := true]
    else if s == SELECT && green > 0 then
      var p := pins[green := true];
      if red > 0 then p[red := true] else p
    else if s == ALL && green > 0 then pins[red := true][green := true][blue := true]
    else pins
  }

  /** `set(s)`: a status other than the current one resets the LEDs, lights them for `s` and is recorded. */
  function SetEffect(status: int, red: int, green: int, blue: int, pins: map<int, bool>, s: int): (int, map<int, bool>)
  {
    if s == status then (status, pins)
    else (s, Light(s, red, green, blue, Reset(red, green, blue, pins)))
  }

  /** The three lines are usable and distinct. */
  predicate Wired(red: int, green: int, blue: int)
  {
    red > 0 && green > 0 && blue > 0 && red != green && red != blue && green != blue
  }

  /** The lines among the three that were last driven high. */
  function Lit(red: int, green: int, blue: int, pins: map<int, bool>): set<int>
  {
    set x | x in {red, green, blue} && x in pins && pins[x]
  }

  /** The lines each status should light. */
  function Colours(s: int, red: int, green: int, blue: int): set<int>
  {
    if s == NORMAL then {green}
    else if s == BUSY then {blue}
    else if s == ERROR then {red}
    else if s == SELECT then {green, red}
    else if s == ALL then {red, green, blue}
    else {}
  }

  /**
   * On wired LEDs, a change of status leaves lit exactly the colours of the
   * new status, whatever was lit before; only the three LED lines change.
   */
  lemma SetLightsColours(status: int, red: int, green: int, blue: int, pins: map<int, bool>, s: int)
    requires Wired(red, green, blue)
    requires s != status
    ensures Lit(red, green, blue, SetEffect(status, red, green, blue, pins, s).1) == Colours(s, red, green, blue)
    ensures forall x :: x in pins && x != red && x != green && x != blue ==>
              x in SetEffect(status, red, green, blue, pins, s).1 && SetEffect(status, red, green, blue, pins, s).1[x] == pins[x]
  {
    var q := SetEffect(status, red, green, blue, pins, s).1;
    var r := Reset(red, green, blue, pins);
    assert red in r && green in r && blue in r && !r[red] && !r[green] && !r[blue];
    assert q == Light(s, red, green, blue, r);
    assert red in q && green in q && blue in q;
    assert q[red] <==> red in Colours(s, red, green, blue);
    assert q[green] <==> green in Colours(s, red, green, blue);
    assert q[blue] <==> blue in Colours(s, red, green, blue);
  }

  /**
   * ALL needs only the green line to be configured: the red and blue lines
   * are driven even when they are zero or below.
   */
  lemma AllDrivesUncheckedLines(status: int, red: int, green: int, blue: int, pins: map<int, bool>)
    requires ALL != status && green > 0
    ensures var q := SetEffect(status, red, green, blue, pins, ALL).1;
            red in q && blue in q && q[green] && (red != green ==> q[red]) && (blue != green ==> q[blue])
  {
  }

  class StatusLed {
    const red: int
    const green: int
    const blue: int
    var status: int
    /** Lines configured as outputs. */
    var outputs: set<int>
    var pins: map<int, bool>

    /** Once a status was set on wired LEDs, exactly its colours are lit. */
    ghost predicate Valid()
      reads this
    {
      Wired(red, green, blue) && status != UNSET ==> Lit(red, green, blue, pins) == Colours(status, red, green, blue)
    }

    /** Creation: lines above zero become outputs; nothing is driven and the status is UNSET. */
    constructor (red: int := 23, green: int := 27, blue: int := 22)
      ensures Valid()
      ensures this.red == red && this.green == green && this.blue == blue
      ensures status == UNSET && pins == map[]
      ensures outputs == (if red > 0 then {red} else {}) + (if green > 0 then {green} else {})
                         + (if blue > 0 then {blue} else {})
    {
      this.red := red;
      this.green := green;
      this.blue := blue;
      status := UNSET;
      pins := map[];
      outputs := (if red > 0 then {red} else {}) + (if green > 0 then {green} else {})
                 + (if blue > 0 then {blue} else {});
    }

    /** `set(s)`: returns the status now in force. */
    method Set(s: int) returns (r: int)
      requires Valid()
      modifies this`status, this`pins
      ensures Valid()
      ensures (status, pins) == SetEffect(old(status), red, green, blue, old(pins), s)
      ensures r == status
    {
      if s != status {
        if Wired(red, green, blue) {
          SetLightsColours(status, red, green, blue, pins, s);
        }
        if red > 0 {
          pins := pins[red := false];
        }
        if blue > 0 {
          pins := pins[blue := false];
        }
        if green > 0 {
          pins := pins[green := false];
        }
        if s == NORMAL && green > 0 {
          pins := pins[green := true];
        } else if s == BUSY && blue > 0 {
          pins := pins[blue := true];
        } else if s == ERROR && red > 0 {
          pins := pins[red := true];
        } else if s == SELECT && green > 0 {
          pins := pins[green := true];
          if red > 0 {
            pins := pins[red := true];
          }
        } else if s == ALL && green > 0 {
          pins := pins[red := true];
          pins := pins[green := true];
          pins := pins[blue := true];
        }
        status := s;
      }
      return status;
    }

    /** `get()`: the status in force; on wired LEDs, exactly its colours are lit. */
    function Get(): (s: int)
      requires Valid()
      reads this
      ensures Wired(red, green, blue) && s != UNSET ==> Lit(red, green, blue, pins) == Colours(s, red, green, blue)
    {
      status
    }
  }
}
