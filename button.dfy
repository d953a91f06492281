/**
 * A momentary push button on one GPIO line (button_class.py).
 *
 * The pull mode chooses the internal resistor and the edge that counts as a
 * press; `pressed()` polls the live level and has no memory of its own. The
 * edge handler forwards the button's own GPIO number to the registered
 * callback; the model records those forwarded numbers in order.
 */
module ButtonClass {
  import opened Wrappers
  import opened Constants

  datatype Resistor = PullDown | PullUp
  datatype Edge = Rising | Falling

  /** Default debounce interval handed to the edge detector, in milliseconds. */
  const DEFAULT_BOUNCE_TIME: int := 200

  /**
   * The pull mode a caller gets when it passes none: the GPIO library's
   * PUD_DOWN value, which is not the package's DOWN.
   */
  const DEFAULT_PULL_UP_DOWN: int := PUD_DOWN

  /** Resistor chosen by `_run`: pull-down for DOWN, pull-up for every other value. */
  function ResistorFor(mode: int): (r: Resistor)
    ensures r == PullDown <==> mode == DOWN
  {
    if mode == DOWN then PullDown else PullUp
  }

  /** Edge chosen by `_run`: rising for DOWN, falling for every other value. */
  function EdgeFor(mode: int): (e: Edge)
    ensures e == Rising <==> mode == DOWN
  {
    if mode == DOWN then Rising else Falling
  }

  /** Level a line rests at when nothing drives it (`true` is high). */
  function IdleLevel(r: Resistor): bool
  {
    r == PullUp
  }

  /** Level the active edge ends at (`true` is high). */
  function EdgeTarget(e: Edge): bool
  {
    e == Rising
  }

  /**
   * `pressed()`: the line is compared with 0 when the mode is UP and with 1
   * for any other mode. `high` is the level the GPIO library reports.
   */
  function IsPressed(mode: int, high: bool): (p: bool)
    ensures mode == UP ==> (p <==> !high)
    ensures mode != UP ==> (p <==> high)
  {
    var level := if mode == UP then 0 else 1;
    var state := if high then 1 else 0;
    state == level
  }

  /**
   * For the two modes the package defines, the line at rest does not read
   * as pressed and the detected edge lands on the pressed level; for any
   * other mode value the line at rest reads as pressed.
   */
  lemma PressedAgreesWithWiring(mode: int)
    ensures (mode == UP || mode == DOWN) ==>
              !IsPressed(mode, IdleLevel(ResistorFor(mode))) && IsPressed(mode, EdgeTarget(EdgeFor(mode)))
    ensures (mode != UP && mode != DOWN) ==> IsPressed(mode, IdleLevel(ResistorFor(mode)))
  {
  }

  /**
   * The default mode is neither UP nor DOWN: a button created without one is
   * wired pull-up and reacts to the falling edge, and `pressed()` compares
   * with level 1, so it reads pressed while the line rests high.
   */
  lemma DefaultPullSelectsPullUp()
    ensures ResistorFor(DEFAULT_PULL_UP_DOWN) == PullUp
    ensures EdgeFor(DEFAULT_PULL_UP_DOWN) == Falling
    ensures IsPressed(DEFAULT_PULL_UP_DOWN, IdleLevel(ResistorFor(DEFAULT_PULL_UP_DOWN)))
  {
    PressedAgreesWithWiring(DEFAULT_PULL_UP_DOWN);
  }

  class Button {
    var button: int
    var pullUpDown: int
    var bounceTime: int
    /** Resistor applied to the line; None when the line was not set up. */
    var resistor: Option<Resistor>
    /** Edge registered with the detector; None when none was registered. */
    var edge: Option<Edge>
    /** GPIO numbers handed to the callback, one per detected edge. */
    var forwarded: seq<int>

    /**
     * Creation and the `_run` setup, done in sequence: only a GPIO above
     * zero is set up and gets edge detection.
     */
    constructor (button: int, pullUpDown: int := DEFAULT_PULL_UP_DOWN, bounceTime: int := DEFAULT_BOUNCE_TIME)
      ensures this.button == button && this.pullUpDown == pullUpDown && this.bounceTime == bounceTime
      ensures button > 0 ==> resistor == Some(ResistorFor(pullUpDown)) && edge == Some(EdgeFor(pullUpDown))
      ensures button <= 0 ==> resistor == None && edge == None
      ensures forwarded == []
    {
      this.button := button;
      this.pullUpDown := pullUpDown;
      this.bounceTime := bounceTime;
      forwarded := [];
      if button > 0 {
        resistor := Some(ResistorFor(pullUpDown));
        edge := Some(EdgeFor(pullUpDown));
      } else {
        resistor := None;
        edge := None;
      }
    }

    /** `pressed()`: a pure poll of the line's level, given as `high`. */
    function Pressed(high: bool): (p: bool)
      reads this
      ensures p == IsPressed(pullUpDown, high)
    {
      IsPressed(pullUpDown, high)
    }

    /**
     * The edge handler: whatever channel the detector reports, the
     * callback receives the button's configured GPIO.
     */
    method ButtonEvent(channel: int)
      modifies this`forwarded
      ensures forwarded == old(forwarded) + [button]
    {
      var eventButton := button;
      forwarded := forwarded + [eventButton];
    }
  }
}
