/**
 * The pending-event register of the radio (event_class.py): one slot
 * `(eventType, eventTriggered)` that the input callbacks fill in and the
 * main loop polls and clears. Callbacks are modelled as sequential method
 * calls; the levels a callback would read from a button or a rotary switch
 * are parameters.
 *
 * Rotary encoder signals are plain integers: NONE, CLOCKWISE, ANTICLOCKWISE,
 * BUTTONDOWN and BUTTONUP are 0..4, the positions of their names in the
 * register's encoder name table.
 */
module Events {
  import opened Wrappers
  import opened Text
  import RotarySwitchClass

  const NO_EVENT: int := 0
  const RIGHT_SWITCH: int := 1
  const LEFT_SWITCH: int := 2
  const MUTE_BUTTON_DOWN: int := 3
  const MUTE_BUTTON_UP: int := 4
  const UP_SWITCH: int := 5
  const DOWN_SWITCH: int := 6
  const MENU_BUTTON_DOWN: int := 7
  const MENU_BUTTON_UP: int := 8
  const ALARM_FIRED: int := 9
  const TIMER_FIRED: int := 10
  const KEY_LANGUAGE: int := 11
  const KEY_INFO: int := 12
  const ROTARY_SWITCH_CHANGED: int := 13
  const MPD_CLIENT_CHANGE: int := 14
  const LOAD_RADIO: int := 15
  const LOAD_MEDIA: int := 16
  const LOAD_PLAYLIST: int := 17
  const LOAD_AIRPLAY: int := 18
  const LOAD_SPOTIFY: int := 19
  const PLAYLIST_CHANGED: int := 20
  const PLAY: int := 21
  const AUX_SWITCH1: int := 22
  const AUX_SWITCH2: int := 23
  const AUX_SWITCH3: int := 24
  const SHUTDOWN: int := 25

  /** Telefunken front buttons: three reuse existing events. */
  const OFF: int := SHUTDOWN
  const FIP: int := LOAD_RADIO
  const SPOTIFY: int := LOAD_SPOTIFY
  const UNUSED: int := 29
  const DISCO: int := 30

  const VOLUME_UP: int := RIGHT_SWITCH
  const VOLUME_DOWN: int := LEFT_SWITCH
  const CHANNEL_UP: int := UP_SWITCH
  const CHANNEL_DOWN: int := DOWN_SWITCH

  /** Rotary encoder signals. */
  const CLOCKWISE: int := 1
  const ANTICLOCKWISE: int := 2
  const BUTTONDOWN: int := 3
  const BUTTONUP: int := 4

  const EVENT_NAMES: seq<string> := [
    "NO_EVENT", "RIGHT_SWITCH", "LEFT_SWITCH", "MUTE_BUTTON_DOWN", "MUTE_BUTTON_UP",
    "UP_SWITCH", "DOWN_SWITCH", "MENU_BUTTON_DOWN", "MENU_BUTTON_UP", "ALARM_FIRED",
    "TIMER_FIRED", "KEY_LANGUAGE", "KEY_INFO", "ROTARY_SWITCH_CHANGE", "MPD_CLIENT_CHANGE",
    "LOAD_RADIO", "LOAD_MEDIA", "LOAD_PLAYLIST", "LOAD_AIRPLAY", "LOAD_SPOTIFY",
    "PLAYLIST_CHANGED", "PLAY", "AUX_BUTTON1", "AUX_BUTTON2", "AUX_BUTTON3",
    "SHUTDOWN", "OFF", "FIP", "SPOTIFY", "UNUSED", "DISCO"]

  const ENCODER_NAMES: seq<string> := ["NONE", "CLOCKWISE", "ANTICLOCKWISE", "BUTTONDOWN", "BUTTONUP"]

  /** Number of polls the menu button must read pressed for a shutdown: the countdown from 15 past zero. */
  const HOLD_POLLS: nat := 16

  /** `getName()` for event type `t`. */
  function Name(t: int): Option<string>
  {
    PyIndex(EVENT_NAMES, t)
  }

  /** `getEncoderEventName(signal)`. */
  function EncoderName(signal: int): Option<string>
  {
    PyIndex(ENCODER_NAMES, signal)
  }

  /** Every event code the program defines. */
  predicate IsEventCode(t: int)
  {
    NO_EVENT <= t <= SHUTDOWN || t == UNUSED || t == DISCO
  }

  /**
   * Every defined event has a name, so `clear()` and `getName()` never fail
   * on one; the Telefunken OFF, FIP and SPOTIFY presses report the names of
   * the events they reuse, and the table entries OFF, FIP and SPOTIFY
   * belong to no defined event.
   */
  lemma EveryEventHasName(t: int)
    ensures IsEventCode(t) ==> Name(t).Some?
    ensures Name(t).Some? <==> -31 <= t <= DISCO
    ensures Name(OFF) == Some("SHUTDOWN") && Name(FIP) == Some("LOAD_RADIO") && Name(SPOTIFY) == Some("LOAD_SPOTIFY")
    ensures Name(UNUSED) == Some("UNUSED") && Name(DISCO) == Some("DISCO")
    ensures Name(t) == Some("OFF") || Name(t) == Some("FIP") || Name(t) == Some("SPOTIFY") ==> !IsEventCode(t)
  {
  }

  /** The signals the encoders report: the encoder name lookup fails exactly outside `-5..4`. */
  lemma EncoderNames(signal: int)
    ensures EncoderName(signal).Some? <==> -5 <= signal <= BUTTONUP
    ensures EncoderName(CLOCKWISE) == Some("CLOCKWISE") && EncoderName(ANTICLOCKWISE) == Some("ANTICLOCKWISE")
    ensures EncoderName(BUTTONDOWN) == Some("BUTTONDOWN") && EncoderName(BUTTONUP) == Some("BUTTONUP")
  {
  }

  /** The volume knob's translation of a signal; None for a signal it ignores. */
  function VolumeCode(signal: int): Option<int>
  {
    if signal == CLOCKWISE then Some(VOLUME_UP)
    else if signal == ANTICLOCKWISE then Some(VOLUME_DOWN)
    else if signal == BUTTONDOWN then Some(MUTE_BUTTON_DOWN)
    else if signal == BUTTONUP then Some(MUTE_BUTTON_UP)
    else None
  }

  /** The tuner knob's translation of a signal, before the menu hold is examined. */
  function TunerCode(signal: int): Option<int>
  {
    if signal == CLOCKWISE then Some(CHANNEL_UP)
    else if signal == ANTICLOCKWISE then Some(CHANNEL_DOWN)
    else if signal == BUTTONDOWN then Some(MENU_BUTTON_DOWN)
    else if signal == BUTTONUP then Some(MENU_BUTTON_UP)
    else None
  }

  /**
   * Both knobs act on exactly the four signals, translate distinct signals
   * to distinct events, and translate each signal to the same kind of event:
   * clockwise goes up, anticlockwise down, the knob's button to its own
   * button-down and button-up events. The two knobs share no event.
   */
  lemma KnobCodes(s1: int, s2: int)
    ensures VolumeCode(s1).Some? <==> CLOCKWISE <= s1 <= BUTTONUP
    ensures TunerCode(s1).Some? <==> CLOCKWISE <= s1 <= BUTTONUP
    ensures VolumeCode(s1).Some? && VolumeCode(s2).Some? && s1 != s2 ==> VolumeCode(s1) != VolumeCode(s2)
    ensures TunerCode(s1).Some? && TunerCode(s2).Some? && s1 != s2 ==> TunerCode(s1) != TunerCode(s2)
    ensures VolumeCode(s1).Some? && TunerCode(s2).Some? ==> VolumeCode(s1) != TunerCode(s2)
    ensures VolumeCode(CLOCKWISE) == Some(VOLUME_UP) && TunerCode(CLOCKWISE) == Some(CHANNEL_UP)
    ensures VolumeCode(ANTICLOCKWISE) == Some(VOLUME_DOWN) && TunerCode(ANTICLOCKWISE) == Some(CHANNEL_DOWN)
    ensures VolumeCode(BUTTONDOWN) == Some(MUTE_BUTTON_DOWN) && TunerCode(BUTTONDOWN) == Some(MENU_BUTTON_DOWN)
    ensures VolumeCode(BUTTONUP) == Some(MUTE_BUTTON_UP) && TunerCode(BUTTONUP) == Some(MENU_BUTTON_UP)
  {
  }

  /** The GPIO lines of the push buttons and the Telefunken switches. */
  datatype SwitchGpios = SwitchGpios(
    left: int, right: int, mute: int, up: int, down: int, menu: int,
    aux1: int, aux2: int, aux3: int,
    off: int, fip: int, spotify: int, unused: int, disco: int)

  /** The lines the register starts with before the configuration is read. */
  const DEFAULT_GPIOS: SwitchGpios := SwitchGpios(14, 15, 4, 24, 23, 17, 0, 0, 0, 27, 22, 17, 18, 5)

  /** `button_event`'s chain of tests, in order: the line and the event it stands for. */
  function ButtonTable(g: SwitchGpios): seq<(int, int)>
  {
    [(g.right, VOLUME_UP), (g.left, VOLUME_DOWN), (g.mute, MUTE_BUTTON_DOWN),
     (g.up, CHANNEL_UP), (g.down, CHANNEL_DOWN), (g.menu, MENU_BUTTON_DOWN),
     (g.aux1, AUX_SWITCH1), (g.aux2, AUX_SWITCH2), (g.aux3, AUX_SWITCH3)]
  }

  /** `button_event`'s translation of a line, as its if/elif chain tests them; None when no test matches. */
  function ButtonCode(g: SwitchGpios, gpio: int): Option<int>
  {
    if gpio == g.right then Some(VOLUME_UP)
    else if gpio == g.left then Some(VOLUME_DOWN)
    else if gpio == g.mute then Some(MUTE_BUTTON_DOWN)
    else if gpio == g.up then Some(CHANNEL_UP)
    else if gpio == g.down then Some(CHANNEL_DOWN)
    else if gpio == g.menu then Some(MENU_BUTTON_DOWN)
    else if gpio == g.aux1 then Some(AUX_SWITCH1)
    else if gpio == g.aux2 then Some(AUX_SWITCH2)
    else if gpio == g.aux3 then Some(AUX_SWITCH3)
    else None
  }

  /** An if/elif chain over `table`: the value of the first entry whose key is `key`. */
  function FirstMatch(table: seq<(int, int)>, key: int): Option<int>
  {
    if table == [] then None
    else if table[0].0 == key then Some(table[0].1)
    else FirstMatch(table[1..], key)
  }

  /**
   * The chain answers exactly when some entry has the key, and then with
   * the value of the earliest such entry.
   */
  lemma {:induction false} FirstMatchSpec(table: seq<(int, int)>, key: int)
    ensures FirstMatch(table, key).None? <==> forall k :: 0 <= k < |table| ==> table[k].0 != key
    ensures FirstMatch(table, key).Some? ==>
              exists k :: 0 <= k < |table| && table[k] == (key, FirstMatch(table, key).value)
                          && forall j :: 0 <= j < k ==> table[j].0 != key
  {
    if table != [] && table[0].0 != key {
      FirstMatchSpec(table[1..], key);
      if FirstMatch(table, key).Some? {
        var k :| 0 <= k < |table[1..]| && table[1..][k] == (key, FirstMatch(table, key).value)
                 && forall j :: 0 <= j < k ==> table[1..][j].0 != key;
        assert table[k + 1] == (key, FirstMatch(table, key).value);
        assert forall j :: 0 <= j < k + 1 ==> table[j].0 != key by {
          forall j | 0 <= j < k + 1
            ensures table[j].0 != key
          {
            if j > 0 {
              assert table[j] == table[1..][j - 1];
            }
          }
        }
      } else {
        forall k | 0 <= k < |table|
          ensures table[k].0 != key
        {
          if k > 0 {
            assert table[k] == table[1..][k - 1];
          }
        }
      }
    }
  }

  /**
   * The chain is the first match in the button table: a line matches when
   * some entry has it, and then gives the event of the earliest entry, so
   * a line configured for two buttons acts as the earlier one. Only the
   * menu entry yields MENU_BUTTON_DOWN.
   */
  lemma ButtonCodeIsFirstMatch(g: SwitchGpios, gpio: int)
    ensures ButtonCode(g, gpio) == FirstMatch(ButtonTable(g), gpio)
    ensures ButtonCode(g, gpio).None? <==> forall k :: 0 <= k < |ButtonTable(g)| ==> ButtonTable(g)[k].0 != gpio
    ensures ButtonCode(g, gpio).Some? ==>
              exists k :: 0 <= k < |ButtonTable(g)| && ButtonTable(g)[k] == (gpio, ButtonCode(g, gpio).value)
                          && forall j :: 0 <= j < k ==> ButtonTable(g)[j].0 != gpio
    ensures ButtonCode(g, gpio) == Some(MENU_BUTTON_DOWN) <==>
              gpio == g.menu && gpio !in {g.right, g.left, g.mute, g.up, g.down}
  {
    ButtonChainIsTable(g, gpio);
    FirstMatchSpec(ButtonTable(g), gpio);
  }

  /** The chain, test by test, is FirstMatch over the table, entry by entry. */
  lemma ButtonChainIsTable(g: SwitchGpios, gpio: int)
    ensures ButtonCode(g, gpio) == FirstMatch(ButtonTable(g), gpio)
  {
    var t := ButtonTable(g);
    var t1 := t[1..];
    var t2 := t1[1..];
    var t3 := t2[1..];
    var t4 := t3[1..];
    var t5 := t4[1..];
    var t6 := t5[1..];
    var t7 := t6[1..];
    var t8 := t7[1..];
    assert t8[1..] == [];
    assert FirstMatch(t8, gpio) == if gpio == g.aux3 then Some(AUX_SWITCH3) else None;
    assert FirstMatch(t7, gpio) == if gpio == g.aux2 then Some(AUX_SWITCH2) else FirstMatch(t8, gpio);
    assert FirstMatch(t6, gpio) == if gpio == g.aux1 then Some(AUX_SWITCH1) else FirstMatch(t7, gpio);
    assert FirstMatch(t5, gpio) == if gpio == g.menu then Some(MENU_BUTTON_DOWN) else FirstMatch(t6, gpio);
    assert FirstMatch(t4, gpio) == if gpio == g.down then Some(CHANNEL_DOWN) else FirstMatch(t5, gpio);
    assert FirstMatch(t3, gpio) == if gpio == g.up then Some(CHANNEL_UP) else FirstMatch(t4, gpio);
    assert FirstMatch(t2, gpio) == if gpio == g.mute then Some(MUTE_BUTTON_DOWN) else FirstMatch(t3, gpio);
    assert FirstMatch(t1, gpio) == if gpio == g.left then Some(VOLUME_DOWN) else FirstMatch(t2, gpio);
    assert FirstMatch(t, gpio) == if gpio == g.right then Some(VOLUME_UP) else FirstMatch(t1, gpio);
  }

  /** A Python dict built from a display: entries are stored left to right, so a repeated key keeps its last value. */
  function DictOf(entries: seq<(int, int)>): map<int, int>
  {
    if entries == [] then map[]
    else DictOf(entries[..|entries| - 1])[entries[|entries| - 1].0 := entries[|entries| - 1].1]
  }

  /**
   * A key is in the dict exactly when some entry has it, and then maps to
   * the value of the latest such entry: the last write wins.
   */
  lemma {:induction false} DictOfLastWins(entries: seq<(int, int)>, key: int)
    ensures key in DictOf(entries) <==> exists k :: 0 <= k < |entries| && entries[k].0 == key
    ensures key in DictOf(entries) ==>
              exists k :: 0 <= k < |entries| && entries[k] == (key, DictOf(entries)[key])
                          && forall j :: k < j < |entries| ==> entries[j].0 != key
  {
    if entries != [] {
      var n := |entries| - 1;
      var init := entries[..n];
      var d := DictOf(entries);
      assert d == DictOf(init)[entries[n].0 := entries[n].1];
      DictOfLastWins(init, key);
      if entries[n].0 == key {
        assert entries[n] == (key, d[key]);
      } else {
        assert key in d <==> key in DictOf(init);
        if key in DictOf(init) {
          var k :| 0 <= k < |init| && init[k] == (key, DictOf(init)[key])
                   && forall j :: k < j < |init| ==> init[j].0 != key;
          assert entries[k] == init[k];
          assert forall j :: k < j < |entries| ==> entries[j].0 != key by {
            forall j | k < j < |entries|
              ensures entries[j].0 != key
            {
              if j < n {
                assert entries[j] == init[j];
              }
            }
          }
        } else {
          forall k | 0 <= k < |entries|
            ensures entries[k].0 != key
          {
            if k < n {
              assert entries[k] == init[k];
            }
          }
        }
      }
    }
  }

  /** The Telefunken switch table, in the order it is written. */
  function TelefunkenEntries(g: SwitchGpios): seq<(int, int)>
  {
    [(g.off, OFF), (g.fip, FIP), (g.spotify, SPOTIFY), (g.unused, UNUSED), (g.disco, DISCO)]
  }

  /** The Telefunken dict is the five stores in the order they are written. */
  lemma TelefunkenStores(g: SwitchGpios)
    ensures DictOf(TelefunkenEntries(g))
            == map[g.off := OFF][g.fip := FIP][g.spotify := SPOTIFY][g.unused := UNUSED][g.disco := DISCO]
  {
    var e5 := TelefunkenEntries(g);
    var e4 := e5[..4];
    var e3 := e4[..3];
    var e2 := e3[..2];
    var e1 := e2[..1];
    assert e4 == [(g.off, OFF), (g.fip, FIP), (g.spotify, SPOTIFY), (g.unused, UNUSED)];
    assert e3 == [(g.off, OFF), (g.fip, FIP), (g.spotify, SPOTIFY)];
    assert e2 == [(g.off, OFF), (g.fip, FIP)];
    assert e1 == [(g.off, OFF)] && e1[..0] == [];
    assert DictOf(e1) == map[g.off := OFF];
    assert DictOf(e2) == DictOf(e1)[g.fip := FIP];
    assert DictOf(e3) == DictOf(e2)[g.spotify := SPOTIFY];
    assert DictOf(e4) == DictOf(e3)[g.unused := UNUSED];
    assert DictOf(e5) == DictOf(e4)[g.disco := DISCO];
  }

  /** Five distinct Telefunken lines each map to their own event and nothing else is mapped. */
  lemma TelefunkenTableDistinct(g: SwitchGpios)
    requires g.off != g.fip && g.off != g.spotify && g.off != g.unused && g.off != g.disco
    requires g.fip != g.spotify && g.fip != g.unused && g.fip != g.disco
    requires g.spotify != g.unused && g.spotify != g.disco && g.unused != g.disco
    ensures DictOf(TelefunkenEntries(g)).Keys == {g.off, g.fip, g.spotify, g.unused, g.disco}
    ensures DictOf(TelefunkenEntries(g))[g.off] == OFF && DictOf(TelefunkenEntries(g))[g.fip] == FIP
    ensures DictOf(TelefunkenEntries(g))[g.spotify] == SPOTIFY && DictOf(TelefunkenEntries(g))[g.unused] == UNUSED
    ensures DictOf(TelefunkenEntries(g))[g.disco] == DISCO
  {
    TelefunkenStores(g);
  }

  /** The default lines are five distinct Telefunken lines, none of them a volume knob line. */
  lemma DefaultTelefunkenLines()
    ensures var g := DEFAULT_GPIOS;
            |{g.off, g.fip, g.spotify, g.unused, g.disco}| == 5
            && {g.off, g.fip, g.spotify, g.unused, g.disco} !! {g.left, g.right, g.mute}
  {
  }

  /** Poll `i` of the menu button: a poll beyond the recorded samples reads released. */
  function Poll(held: seq<bool>, i: nat): bool
  {
    i < |held| && held[i]
  }

  /**
   * The menu hold loop: a countdown from 15, one step per poll that reads
   * pressed, stopped by the first poll that reads released. Returns whether
   * the countdown went below zero, which turns the event into a shutdown.
   */
  method HoldToShutdown(held: seq<bool>) returns (shutdown: bool)
    ensures shutdown <==> forall i :: 0 <= i < HOLD_POLLS ==> Poll(held, i)
    ensures shutdown ==> |held| >= HOLD_POLLS
  {
    var count := 15;
    var polls: nat := 0;
    shutdown := false;
    while Poll(held, polls)
      invariant 0 <= count <= 15 && polls == 15 - count
      invariant forall i :: 0 <= i < polls ==> Poll(held, i)
      decreases count
    {
      polls := polls + 1;
      count := count - 1;
      if count < 0 {
        shutdown := true;
        break;
      }
    }
  }

  /** What a Telefunken switch callback does to `(eventType, eventTriggered)`. */
  function SwitchEffect(g: SwitchGpios, table: map<int, int>, eventType: int, triggered: bool,
                        gpio: int, newState: bool): (int, bool)
  {
    if gpio == g.left || gpio == g.right || gpio == g.mute then (eventType, triggered)
    else if !newState || gpio !in table then (eventType, false)
    else (table[gpio], true)
  }

  /**
   * On the register's own table: a press on a Telefunken line that is not a
   * volume knob line raises that line's event; a release, or a line outside
   * the table, withdraws the pending flag but keeps the event type; the
   * volume knob lines change nothing.
   */
  lemma TelefunkenPresses(g: SwitchGpios, eventType: int, triggered: bool, gpio: int, newState: bool)
    requires g.off != g.fip && g.off != g.spotify && g.off != g.unused && g.off != g.disco
    requires g.fip != g.spotify && g.fip != g.unused && g.fip != g.disco
    requires g.spotify != g.unused && g.spotify != g.disco && g.unused != g.disco
    requires gpio != g.left && gpio != g.right && gpio != g.mute
    ensures var (t, f) := SwitchEffect(g, DictOf(TelefunkenEntries(g)), eventType, triggered, gpio, newState);
            (f <==> newState && gpio in {g.off, g.fip, g.spotify, g.unused, g.disco})
            && (!f ==> t == eventType)
            && (f && gpio == g.off ==> t == SHUTDOWN)
            && (f && gpio == g.fip ==> t == LOAD_RADIO)
            && (f && gpio == g.spotify ==> t == LOAD_SPOTIFY)
            && (f && gpio == g.unused ==> t == UNUSED)
            && (f && gpio == g.disco ==> t == DISCO)
  {
    TelefunkenTableDistinct(g);
  }

  class Event {
    const gpios: SwitchGpios
    /** Telefunken line to event. */
    const telefunkenEvents: map<int, int>
    var eventType: int
    var eventTriggered: bool
    /** Station or track number requested by the remote control. */
    var playNumber: int
    var rotarySwitchValue: int
    /** The rotary menu switch, created only when its three lines are configured. */
    var rotarySwitch: RotarySwitchClass.RotarySwitch?

    /**
     * Creation with the configured lines: nothing pending, and the
     * Telefunken table built from the lines in the order they are listed.
     */
    constructor (gpios: SwitchGpios)
      ensures this.gpios == gpios && telefunkenEvents == DictOf(TelefunkenEntries(gpios))
      ensures eventType == NO_EVENT && !eventTriggered && playNumber == 0 && rotarySwitchValue == 0
      ensures rotarySwitch == null
    {
      this.gpios := gpios;
      telefunkenEvents := DictOf(TelefunkenEntries(gpios));
      eventType := NO_EVENT;
      eventTriggered := false;
      playNumber := 0;
      rotarySwitchValue := 0;
      rotarySwitch := null;
    }

    /**
     * `setupRotarySwitch()`: the menu switch lines as configured; the switch
     * is created only when all three are above zero. `failing` is passed on
     * to the switch's edge registration.
     */
    method SetupRotarySwitch(switch1: int, switch2: int, switch4: int, failing: set<int>)
      modifies this`rotarySwitch
      ensures switch1 > 0 && switch2 > 0 && switch4 > 0 ==> rotarySwitch != null
      ensures !(switch1 > 0 && switch2 > 0 && switch4 > 0) ==> rotarySwitch == old(rotarySwitch)
      ensures switch1 > 0 && switch2 > 0 && switch4 > 0 ==>
                fresh(rotarySwitch)
                && rotarySwitch.switch1 == switch1 && rotarySwitch.switch2 == switch2 && rotarySwitch.switch4 == switch4
                && rotarySwitch.detecting == RotarySwitchClass.Register([switch1, switch2, switch4], failing).0
    {
      if switch1 > 0 && switch2 > 0 && switch4 > 0 {
        rotarySwitch := new RotarySwitchClass.RotarySwitch(switch1, switch2, switch4, failing);
      }
    }

    /** `set(event)`: the event is pending, whatever was pending before; returns it. */
    method Set(event: int) returns (r: int)
      modifies this`eventType, this`eventTriggered
      ensures eventTriggered && eventType == event && r == event
    {
      eventTriggered := true;
      eventType := event;
      return eventType;
    }

    /** `detected()`. */
    function Detected(): (d: bool)
      reads this
      ensures d <==> eventTriggered
    {
      eventTriggered
    }

    /** `getType()`. */
    function GetType(): (t: int)
      reads this
      ensures t == eventType
    {
      eventType
    }

    /** `getName()`: the pending event's name; None where the lookup raises IndexError. */
    function GetName(): (n: Option<string>)
      reads this
      ensures n == Name(eventType)
    {
      Name(eventType)
    }

    /**
     * `clear()`: nothing is pending afterwards. The name of a pending event
     * other than NO_EVENT is looked up for the log first, so a type outside
     * the name table raises and leaves the register as it was.
     */
    method Clear() returns (raised: bool)
      modifies this`eventType, this`eventTriggered
      ensures raised <==> old(eventType) != NO_EVENT && Name(old(eventType)).None?
      ensures raised ==> eventType == old(eventType) && eventTriggered == old(eventTriggered)
      ensures !raised ==> !eventTriggered && eventType == NO_EVENT
    {
      if eventType != NO_EVENT && Name(eventType).None? {
        return true;
      }
      eventTriggered := false;
      eventType := NO_EVENT;
      return false;
    }

    /** `play(n)`. */
    method Play(n: int)
      modifies this`playNumber
      ensures playNumber == n
    {
      playNumber := n;
    }

    /** `getPlayNumber()`: the requested number, taken once: it resets to 0. */
    method GetPlayNumber() returns (n: int)
      modifies this`playNumber
      ensures n == old(playNumber) && playNumber == 0
    {
      n := playNumber;
      playNumber := 0;
    }

    /** `getRotarySwitch()`: the last position read from the rotary menu switch. */
    function GetRotarySwitch(): (v: int)
      reads this
      ensures v == rotarySwitchValue
    {
      rotarySwitchValue
    }

    /**
     * `volume_event(signal)`: the type is reset, the signal's name is looked
     * up for the log (raising outside `-5..4`, which leaves the pending flag
     * as it was), then the signal's event is raised, or nothing is pending.
     */
    method VolumeEvent(signal: int) returns (raised: bool)
      modifies this`eventType, this`eventTriggered
      ensures raised <==> EncoderName(signal).None?
      ensures raised ==> eventType == NO_EVENT && eventTriggered == old(eventTriggered)
      ensures !raised ==> (eventTriggered <==> VolumeCode(signal).Some?)
      ensures !raised && VolumeCode(signal).Some? ==> eventType == VolumeCode(signal).value
      ensures !raised && VolumeCode(signal).None? ==> eventType == NO_EVENT
    {
      eventType := NO_EVENT;
      if EncoderName(signal).None? {
        return true;
      }
      eventTriggered := true;
      if signal == CLOCKWISE {
        eventType := VOLUME_UP;
      } else if signal == ANTICLOCKWISE {
        eventType := VOLUME_DOWN;
      } else if signal == BUTTONDOWN {
        eventType := MUTE_BUTTON_DOWN;
      } else if signal == BUTTONUP {
        eventType := MUTE_BUTTON_UP;
      } else {
        eventTriggered := false;
      }
      return false;
    }

    /**
     * `tuner_event(signal)`; `held` are the menu button's levels at the
     * successive polls of the hold loop. Returns the new type, or Raised
     * when the name lookup fails (the type is then NO_EVENT and an event is
     * flagged pending). A menu button press held for 16 polls becomes
     * SHUTDOWN.
     */
    method TunerEvent(signal: int, held: seq<bool>) returns (r: Result<int>)
      modifies this`eventType, this`eventTriggered
      ensures r.Raised? <==> EncoderName(signal).None?
      ensures r.Raised? ==> eventType == NO_EVENT && eventTriggered
      ensures r.Ok? ==> r.value == eventType && (eventTriggered <==> TunerCode(signal).Some?)
      ensures r.Ok? && TunerCode(signal).None? ==> eventType == NO_EVENT
      ensures r.Ok? && signal != BUTTONDOWN && TunerCode(signal).Some? ==> eventType == TunerCode(signal).value
      ensures r.Ok? && signal == BUTTONDOWN ==>
                eventType == (if forall i :: 0 <= i < HOLD_POLLS ==> Poll(held, i) then SHUTDOWN else MENU_BUTTON_DOWN)
    {
      eventType := NO_EVENT;
      eventTriggered := true;
      if EncoderName(signal).None? {
        return Raised("IndexError");
      }
      if signal == CLOCKWISE {
        eventType := CHANNEL_UP;
      } else if signal == ANTICLOCKWISE {
        eventType := CHANNEL_DOWN;
      } else if signal == BUTTONDOWN {
        eventType := MENU_BUTTON_DOWN;
        var shutdown := HoldToShutdown(held);
        if shutdown {
          eventType := SHUTDOWN;
          eventTriggered := true;
        }
      } else if signal == BUTTONUP {
        eventType := MENU_BUTTON_UP;
      } else {
        eventTriggered := false;
      }
      return Ok(eventType);
    }

    /**
     * `button_event(gpio)` for the push buttons: the first line of the chain
     * that equals `gpio` decides the event, the menu button subject to the
     * hold; a line outside the chain withdraws the pending flag and keeps
     * the type.
     */
    method ButtonEvent(gpio: int, held: seq<bool>)
      modifies this`eventType, this`eventTriggered
      ensures eventTriggered <==> ButtonCode(gpios, gpio).Some?
      ensures !eventTriggered ==> eventType == old(eventType)
      ensures eventTriggered && ButtonCode(gpios, gpio).value != MENU_BUTTON_DOWN ==>
                eventType == ButtonCode(gpios, gpio).value
      ensures eventTriggered && ButtonCode(gpios, gpio).value == MENU_BUTTON_DOWN ==>
                eventType == (if forall i :: 0 <= i < HOLD_POLLS ==> Poll(held, i) then SHUTDOWN else MENU_BUTTON_DOWN)
    {
      eventTriggered := true;
      if gpio == gpios.right {
        eventType := VOLUME_UP;
      } else if gpio == gpios.left {
        eventType := VOLUME_DOWN;
      } else if gpio == gpios.mute {
        eventType := MUTE_BUTTON_DOWN;
      } else if gpio == gpios.up {
        eventType := CHANNEL_UP;
      } else if gpio == gpios.down {
        eventType := CHANNEL_DOWN;
      } else if gpio == gpios.menu {
        eventType := MENU_BUTTON_DOWN;
        var shutdown := HoldToShutdown(held);
        if shutdown {
          eventType := SHUTDOWN;
          eventTriggered := true;
        }
      } else if gpio == gpios.aux1 {
        eventType := AUX_SWITCH1;
      } else if gpio == gpios.aux2 {
        eventType := AUX_SWITCH2;
      } else if gpio == gpios.aux3 {
        eventType := AUX_SWITCH3;
      } else {
        eventTriggered := false;
      }
    }

    /** `switch_event(gpio, new_state)`: the Telefunken switch callback. */
    method SwitchEvent(gpio: int, newState: bool)
      modifies this`eventType, this`eventTriggered
      ensures (eventType, eventTriggered)
              == SwitchEffect(gpios, telefunkenEvents, old(eventType), old(eventTriggered), gpio, newState)
    {
      if gpio == gpios.left || gpio == gpios.right || gpio == gpios.mute {
        return;
      }
      eventTriggered := false;
      if !newState {
        return;
      }
      if gpio !in telefunkenEvents {
        return;
      }
      eventTriggered := true;
      eventType := telefunkenEvents[gpio];
    }

    /**
     * `rotary_switch_event()`: reads the rotary switch's position from the
     * line levels `high` and raises ROTARY_SWITCH_CHANGED.
     */
    method RotarySwitchEvent(high: int -> bool)
      requires rotarySwitch != null
      modifies this`eventType, this`eventTriggered, this`rotarySwitchValue
      ensures rotarySwitchValue == rotarySwitch.Get(high)
      ensures RotarySwitchClass.CLEAR <= rotarySwitchValue <= 7
      ensures eventTriggered && eventType == ROTARY_SWITCH_CHANGED
    {
      eventTriggered := true;
      rotarySwitchValue := rotarySwitch.Get(high);
      var _ := Set(ROTARY_SWITCH_CHANGED);
    }

    /**
     * `leftButtonPressed()`: `button` is the left button's live reading, or
     * None when there is no button object. A press raises VOLUME_DOWN;
     * otherwise nothing changes.
     */
    method LeftButtonPressed(button: Option<bool>) returns (pressed: bool)
      modifies this`eventType, this`eventTriggered
      ensures pressed <==> button == Some(true)
      ensures pressed ==> eventTriggered && eventType == VOLUME_DOWN
      ensures !pressed ==> eventType == old(eventType) && eventTriggered == old(eventTriggered)
    {
      pressed := false;
      if button.Some? {
        pressed := button.value;
        if pressed {
          var _ := Set(VOLUME_DOWN);
        }
      }
    }

    /** `rightButtonPressed()`: as the left button, raising VOLUME_UP. */
    method RightButtonPressed(button: Option<bool>) returns (pressed: bool)
      modifies this`eventType, this`eventTriggered
      ensures pressed <==> button == Some(true)
      ensures pressed ==> eventTriggered && eventType == VOLUME_UP
      ensures !pressed ==> eventType == old(eventType) && eventTriggered == old(eventTriggered)
    {
      pressed := false;
      if button.Some? {
        pressed := button.value;
        if pressed {
          var _ := Set(VOLUME_UP);
        }
      }
    }
  }

  /** Two events set before a clear: the later one is what the main loop sees. */
  method LastWriteWins(ev: Event, a: int, b: int)
    modifies ev
    ensures ev.Detected() && ev.GetType() == b
  {
    var _ := ev.Set(a);
    var _ := ev.Set(b);
  }
}
