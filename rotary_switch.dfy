/**
 * The three-line rotary menu switch (rotary_switch_class.py). Each line is
 * pulled up and reads low when its contact is closed; the position is the
 * weighted sum 1, 2, 4 of the closed contacts.
 */
module RotarySwitchClass {
  import opened Wrappers

  const CLEAR: int := 0
  const VALUE1: int := 1
  const VALUE2: int := 2
  const VALUE4: int := 4

  /**
   * `get()` on the three line levels (`true` is high): a line that reads
   * low contributes its weight. Each weight is one bit of the result.
   */
  function Value(high1: bool, high2: bool, high4: bool): (v: int)
    ensures CLEAR <= v <= 7
    ensures v % 2 == 1 <==> !high1
    ensures (v / 2) % 2 == 1 <==> !high2
    ensures v / 4 == 1 <==> !high4
  {
    var v1 := if !high1 then VALUE1 else CLEAR;
    var v2 := if !high2 then v1 + VALUE2 else v1;
    if !high4 then v2 + VALUE4 else v2
  }

  /** Line levels that produce position `v`. */
  function Levels(v: int): (bool, bool, bool)
    requires CLEAR <= v <= 7
  {
    (v % 2 == 0, (v / 2) % 2 == 0, v / 4 == 0)
  }

  /** Every position 0..7 is produced by exactly the levels `Levels` gives. */
  lemma LevelsRoundTrip(v: int)
    requires CLEAR <= v <= 7
    ensures Value(Levels(v).0, Levels(v).1, Levels(v).2) == v
  {
  }

  /** Distinct line levels give distinct positions. */
  lemma ValueRoundTrip(high1: bool, high2: bool, high4: bool)
    ensures Levels(Value(high1, high2, high4)) == (high1, high2, high4)
  {
  }

  /**
   * Edge-detection registration: lines are taken in order, a line at or
   * below zero is skipped, and the first line whose registration fails
   * (a member of `failing`) stops the rest. Returns the registered lines and
   * the failing line, if any.
   */
  function Register(lines: seq<int>, failing: set<int>): (seq<int>, Option<int>)
  {
    if lines == [] then ([], None)
    else if lines[0] <= 0 then Register(lines[1..], failing)
    else if lines[0] in failing then ([], Some(lines[0]))
    else
      var rest := Register(lines[1..], failing);
      ([lines[0]] + rest.0, rest.1)
  }

  /** Lines of `lines` that are above zero, in order. */
  function Positive(lines: seq<int>): (r: seq<int>)
  {
    if lines == [] then []
    else if lines[0] > 0 then [lines[0]] + Positive(lines[1..])
    else Positive(lines[1..])
  }

  /**
   * Registration only ever touches lines above zero that did not fail; a
   * reported failure is a failing line above zero; and when no line above
   * zero fails, every such line is registered, in order.
   */
  lemma {:induction false} RegisterSound(lines: seq<int>, failing: set<int>)
    ensures forall x :: x in Register(lines, failing).0 ==> x > 0 && x in lines && x !in failing
    ensures Register(lines, failing).1.Some? ==>
              Register(lines, failing).1.value > 0 && Register(lines, failing).1.value in failing
              && Register(lines, failing).1.value in lines
    ensures Register(lines, failing).1.None? <==> (forall x :: x in lines && x > 0 ==> x !in failing)
    ensures Register(lines, failing).1.None? ==> Register(lines, failing).0 == Positive(lines)
  {
    if lines != [] {
      RegisterSound(lines[1..], failing);
      assert lines == [lines[0]] + lines[1..];
    }
  }

  class RotarySwitch {
    const switch1: int
    const switch2: int
    const switch4: int
    /** Lines configured as pulled-up inputs. */
    var pulledUp: seq<int>
    /** Lines with falling-edge detection registered. */
    var detecting: seq<int>
    /** The line whose registration raised; the error is reported and creation completes. */
    var setupError: Option<int>

    /**
     * Creation: lines above zero are set up as pulled-up inputs, then
     * registered in order until one fails. `failing` is the set of lines
     * the GPIO library refuses.
     */
    constructor (switch1: int, switch2: int, switch4: int, failing: set<int>)
      ensures this.switch1 == switch1 && this.switch2 == switch2 && this.switch4 == switch4
      ensures pulledUp == Positive([switch1, switch2, switch4])
      ensures detecting == Register([switch1, switch2, switch4], failing).0
      ensures setupError == Register([switch1, switch2, switch4], failing).1
    {
      this.switch1 := switch1;
      this.switch2 := switch2;
      this.switch4 := switch4;
      var lines := [switch1, switch2, switch4];
      assert lines[1..] == [switch2, switch4] && lines[1..][1..] == [switch4] && lines[1..][1..][1..] == [];
      var pulled: seq<int> := [];
      if switch1 > 0 {
        pulled := pulled + [switch1];
      }
      if switch2 > 0 {
        pulled := pulled + [switch2];
      }
      if switch4 > 0 {
        pulled := pulled + [switch4];
      }
      pulledUp := pulled;

      var registered: seq<int> := [];
      var error: Option<int> := None;
      if switch1 > 0 {
        if switch1 in failing {
          error := Some(switch1);
        } else {
          registered := registered + [switch1];
        }
      }
      if error.None? && switch2 > 0 {
        if switch2 in failing {
          error := Some(switch2);
        } else {
          registered := registered + [switch2];
        }
      }
      if error.None? && switch4 > 0 {
        if switch4 in failing {
          error := Some(switch4);
        } else {
          registered := registered + [switch4];
        }
      }
      detecting := registered;
      setupError := error;
      assert Positive(lines[1..][1..]) == if switch4 > 0 then [switch4] else [];
      assert Positive(lines[1..]) == (if switch2 > 0 then [switch2] else []) + Positive(lines[1..][1..]);
      assert Register(lines[1..][1..], failing) ==
        if switch4 <= 0 then ([], None) else if switch4 in failing then ([], Some(switch4)) else ([switch4], None);
      var r2 := Register(lines[1..][1..], failing);
      assert Register(lines[1..], failing) ==
        if switch2 <= 0 then r2 else if switch2 in failing then ([], Some(switch2)) else ([switch2] + r2.0, r2.1);
      var r1 := Register(lines[1..], failing);
      assert Register(lines, failing) ==
        if switch1 <= 0 then r1 else if switch1 in failing then ([], Some(switch1)) else ([switch1] + r1.0, r1.1);
    }

    /** `get()`: the position for the line levels reported by `high`. */
    function Get(high: int -> bool): (v: int)
      reads this
      ensures v == Value(high(switch1), high(switch2), high(switch4))
      ensures CLEAR <= v <= 7
    {
      Value(high(switch1), high(switch2), high(switch4))
    }
  }
}
