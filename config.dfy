/**
 * The radio's configuration (config_class.py): the settings held by the
 * Configuration object, the property setters that clamp or translate what
 * the configuration file says, the key lookups, and `getConfig`, which
 * walks the options of the RADIOD, AIRPLAY and SCREEN sections and hands
 * each to the first branch that claims it.
 *
 * The configuration file is given as each section's list of
 * `(option, parameter)` pairs, or None for a missing section. The two
 * facts `getConfig` takes from the file system (whether the AirPlay binary
 * is installed, which wallpaper paths exist) are a `Host` parameter.
 */
module Config {
  import opened Wrappers
  import opened Text
  import Constants

  // Input sources
  const RADIO: int := 0
  const PLAYER: int := 1
  const AIRPLAY: int := 2

  // Station name sources
  const LIST: int := 0
  const STREAM: int := 1

  // Display types
  const NO_DISPLAY: int := 0
  const LCD: int := 1
  const LCD_I2C_PCF8574: int := 2
  const LCD_I2C_ADAFRUIT: int := 3
  const LCD_ADAFRUIT_RGB: int := 4
  const GRAPHICAL_DISPLAY: int := 5
  const OLED_128x64: int := 6
  const PIFACE_CAD: int := 7
  const ST7789TFT: int := 8
  const SSD1306: int := 9
  const SH1106_SPI: int := 10
  const LUMA: int := 11
  const LCD_I2C_JHD1313: int := 12

  const DISPLAY_TYPES: seq<string> := [
    "NO_DISPLAY", "LCD", "LCD_I2C_PCF8574", "LCD_I2C_ADAFRUIT", "LCD_ADAFRUIT_RGB",
    "GRAPHICAL_DISPLAY", "OLED_128x64", "PIFACE_CAD", "ST7789TFT", "SSD1306",
    "SH1106_SPI", "LUMA", "LCD_I2C_JHD1313"]

  /** The LUMA driver's device when the display type names none. */
  const DEFAULT_LUMA_DEVICE: string := "SH1106"

  // User interfaces; the Telefunken conversion reuses the Adafruit RGB code.
  const ROTARY_ENCODER: int := 0
  const BUTTONS: int := 1
  const GRAPHICAL: int := 2
  const COSMIC_CONTROLLER: int := 3
  const PIFACE_BUTTONS: int := 4
  const ADAFRUIT_RGB: int := 5
  const TELEFUNKEN: int := 5

  const USER_INTERFACES: seq<string> := [
    "ROTARY_ENCODER", "BUTTONS", "GRAPHICAL", "COSMIC_CONTROLLER", "PIFACE_BUTTONS",
    "ADAFRUIT_RGB", "TELEFUNKEN"]

  // Rotary encoder classes
  const STANDARD: int := 0
  const ALTERNATIVE: int := 1
  const RGB_ROTARY: int := 2
  const RGB_I2C_ROTARY: int := 3

  /** Colour codes of the Adafruit RGB plate, by name. */
  const COLOR: map<string, int> := map[
    "OFF" := 0, "RED" := 1, "GREEN" := 2, "YELLOW" := 3,
    "BLUE" := 4, "VIOLET" := 5, "TEAL" := 6, "WHITE" := 7]

  /** Volume, mixer, speech and audio output. */
  datatype Audio = Audio(
    volumeRange: int, volumeIncrement: int, muteAction: int,
    audioOut: string, audioConfigLocked: bool, mixerPreset: int, airplay: bool,
    speech: bool, verbose: bool, speakInfo: bool, speechVolume: int)

  /**
   * What the remote control port attribute holds: a port number, or the
   * text the redefined `remote_control_host` setter stores into it.
   */
  datatype PortValue = PortNumber(port: int) | PortText(text: string)

  /** The IR remote control daemon's connection. */
  datatype Remote = Remote(
    remoteLed: int, remoteControlHost: string, remoteControlPort: PortValue, remoteListenHost: string,
    keytable: string)

  /** The music player daemon, playlists and station names. */
  datatype Player = Player(
    mpdPort: int, clientTimeout: int, startupPlaylist: string, source: int, loadLast: bool,
    updatePlaylists: bool, stationNames: int, shoutcastKey: string, dateFormat: string)

  /** The user interface and the display. */
  datatype Display = Display(
    userInterface: int, displayType: int, lumaDevice: Option<string>,
    displayWidth: int, displayLines: int, codepage: int,
    translateLcd: bool, language: string, controller: string, romanize: bool,
    displayPlaylistNumber: bool, flipDisplayVertically: bool, splashScreen: string, displayBlocks: bool)

  /** GPIO wiring: pull-up/down, switches, LCD lines, LEDs and the rotary encoders. */
  datatype Gpio = Gpio(
    pullUpDown: int, switches: map<string, int>, lcdConnects: map<string, int>,
    rgbLeds: map<string, int>, menuSwitches: map<string, int>,
    rotaryClass: int, rotaryGpioPullup: int, rotaryStepSize: bool, discoLight: int)

  /** I2C devices and the RGB plate's colours. */
  datatype I2c = I2c(
    i2cAddress: int, i2cBus: int, volumeRgbI2c: int, channelRgbI2c: int, pivumeter: bool,
    rgbColors: map<string, string>, colors: map<string, int>)

  /** Shutdown, logging and the network checks. */
  datatype System = System(
    shutdown: bool, execute: string, shutdownCommand: string, logfileTruncate: bool,
    internetCheckUrl: string, internetCheckPort: int, internetTimeout: int,
    bluetoothDevice: string, comitupIp: string)

  /** The settings of the RADIOD and AIRPLAY sections. */
  datatype RadioSettings = RadioSettings(
    audio: Audio, remote: Remote, player: Player, display: Display, gpio: Gpio, i2c: I2c, system: System)

  /** The settings of the SCREEN section (graphical screens). */
  datatype ScreenSettings = ScreenSettings(
    screenSize: (int, int), fullscreen: bool, windowTitle: string, windowColor: string,
    bannerColor: string, labelsColor: string, scaleLabelsColor: string,
    displayWindowColor: string, displayWindowLabelsColor: string, sliderColor: string,
    stationsPerPage: int, screenSaver: int, wallpaper: string, graphicDateFormat: string,
    displayMouse: bool, switchPrograms: bool, displayDate: bool, displayTitle: bool,
    displayShutdownButton: bool, displayIcecastButton: bool)

  datatype Settings = Settings(radio: RadioSettings, screen: ScreenSettings)

  const COLOR_OPTIONS: seq<string> := [
    "bg_color", "mute_color", "shutdown_color", "error_color", "search_color",
    "source_color", "info_color", "menu_color", "sleep_color"]

  /** The settings before the configuration file is read. */
  const DEFAULT_RADIO: RadioSettings := RadioSettings(
    Audio(100, 1, 0, "", true, 0, false, false, false, false, 80),
    Remote(0, "localhost", PortNumber(5100), "localhost", "myremote.toml"),
    Player(6600, 10, "", RADIO, false, false, LIST, "anCLSEDQODrElkxl", "%H:%M %d/%m/%Y"),
    Display(TELEFUNKEN, LCD, None, 0, 2, 0, true, "English", "HD44780U", true,
            false, false, "bitmaps/raspberry-pi-logo.bmp", false),
    Gpio(Constants.DOWN,
         map["menu_switch" := 17, "mute_switch" := 22, "left_switch" := 14, "right_switch" := 15,
             "up_switch" := 24, "down_switch" := 23, "aux_switch1" := 0, "aux_switch2" := 0,
             "aux_switch3" := 0, "off_switch" := 0, "fip_switch" := 0, "spotify_switch" := 0,
             "unused_switch" := 0, "disco_switch" := 0],
         map["lcd_enable" := 0, "lcd_select" := 0, "lcd_data4" := 0, "lcd_data5" := 0,
             "lcd_data6" := 0, "lcd_data7" := 0],
         map["rgb_green" := 0, "rgb_blue" := 0, "rgb_red" := 0],
         map["menu_switch_value_1" := 0, "menu_switch_value_2" := 0, "menu_switch_value_4" := 0],
         STANDARD, Constants.PUD_UP, false, 0),
    I2c(0, 1, 0x0F, 0x1F, false,
        map["bg_color" := "WHITE", "mute_color" := "VIOLET", "shutdown_color" := "TEAL",
            "error_color" := "RED", "search_color" := "GREEN", "source_color" := "TEAL",
            "info_color" := "BLUE", "menu_color" := "YELLOW", "sleep_color" := "BLACK"],
        map k | k in COLOR_OPTIONS :: 0),
    System(true, "", "sudo shutdown -h now", false, "google.com", 80, 10, "00:00:00:00:00:00", "10.41.0.1"))

  const DEFAULT_SCREEN: ScreenSettings := ScreenSettings(
    (800, 480), true, "Bob Rathbone Internet Radio %V - %H", "blue",
    "white", "white", "white",
    "navy", "white", "red",
    50, 0, "", "%H:%M:%S %A %e %B %Y",
    false, false, true, true,
    true, false)

  // ---------------------------------------------------------------------
  // Value conversions and property setters
  // ---------------------------------------------------------------------

  /** `convertYesNo`: only the exact word "yes" is true. */
  function ConvertYesNo(p: string): (b: bool)
    ensures b <==> p == "yes"
  {
    p == "yes"
  }

  /** `convertOnOff`: only the exact word "on" is true. */
  function ConvertOnOff(p: string): (b: bool)
    ensures b <==> p == "on"
  {
    p == "on"
  }

  /** The two conversions are case-sensitive and no word is true for both. */
  lemma FlagWords(p: string)
    ensures !(ConvertYesNo(p) && ConvertOnOff(p))
    ensures !ConvertYesNo("Yes") && !ConvertYesNo("YES") && !ConvertYesNo("on")
    ensures !ConvertOnOff("On") && !ConvertOnOff("yes")
  {
  }

  /** The clamp the setters apply: values below `lo` become `lo`, above `hi` become `hi`. */
  function Clamp(v: int, lo: int, hi: int): (r: int)
    requires lo <= hi
    ensures lo <= r <= hi
    ensures lo <= v <= hi ==> r == v
    ensures v < lo ==> r == lo
    ensures v > hi ==> r == hi
  {
    if v < lo then lo else if v > hi then hi else v
  }

  /** Clamping twice is clamping once, and clamping keeps the order of values. */
  lemma ClampSettles(v: int, w: int, lo: int, hi: int)
    requires lo <= hi
    ensures Clamp(Clamp(v, lo, hi), lo, hi) == Clamp(v, lo, hi)
    ensures v <= w ==> Clamp(v, lo, hi) <= Clamp(w, lo, hi)
  {
  }

  /** The volume step for a volume range: `int(100 / range)`, the largest step that fits the range into 100. */
  function VolumeIncrement(range: int): (inc: int)
    requires 10 <= range <= 100
    ensures 1 <= inc <= 10
    ensures inc * range <= 100 < (inc + 1) * range
  {
    100 / range
  }

  /** The `volume_range` option's effect on a number read from the file. */
  function VolumeRange(a: Audio, n: int): (r: Audio)
    ensures r.volumeRange == Clamp(n, 10, 100)
    ensures r.volumeIncrement == VolumeIncrement(r.volumeRange)
    ensures r == a.(volumeRange := r.volumeRange, volumeIncrement := r.volumeIncrement)
  {
    var range := Clamp(n, 10, 100);
    a.(volumeRange := range, volumeIncrement := VolumeIncrement(range))
  }

  /** The `user_interface` setter. */
  function UserInterfaceCode(p: string): (ui: int)
    ensures p == "rotary_encoder" ==> ui == ROTARY_ENCODER
    ensures p == "graphical" ==> ui == GRAPHICAL
    ensures p == "cosmic_controller" ==> ui == COSMIC_CONTROLLER
    ensures p == "pifacecad" ==> ui == PIFACE_BUTTONS
    ensures p == "telefunken" ==> ui == TELEFUNKEN
    ensures p !in {"rotary_encoder", "graphical", "cosmic_controller", "pifacecad", "telefunken"} ==> ui == BUTTONS
  {
    if p == "rotary_encoder" then ROTARY_ENCODER
    else if p == "graphical" then GRAPHICAL
    else if p == "cosmic_controller" then COSMIC_CONTROLLER
    else if p == "phatbeat" then BUTTONS
    else if p == "pifacecad" then PIFACE_BUTTONS
    else if p == "telefunken" then TELEFUNKEN
    else BUTTONS
  }

  /** `getUserInterfaceName()` for a user interface code; None where the lookup raises IndexError. */
  function UserInterfaceName(ui: int): Option<string>
  {
    PyIndex(USER_INTERFACES, ui)
  }

  /**
   * Every interface the setter can select has a name; the Telefunken
   * interface shares its code with the Adafruit RGB plate and reports that
   * name, so the "TELEFUNKEN" entry is never reported.
   */
  lemma UserInterfaceNames(p: string)
    ensures UserInterfaceName(UserInterfaceCode(p)).Some?
    ensures UserInterfaceName(UserInterfaceCode(p)) != Some("TELEFUNKEN")
    ensures UserInterfaceName(UserInterfaceCode("telefunken")) == Some("ADAFRUIT_RGB")
    ensures UserInterfaceName(UserInterfaceCode("rotary_encoder")) == Some("ROTARY_ENCODER")
    ensures UserInterfaceName(UserInterfaceCode("phatbeat")) == Some("BUTTONS")
  {
  }

  /** `startup`: the playlist is recorded; RADIO, MEDIA and AIRPLAY pick the source, LAST reloads the last playlist. */
  function StartupPlaylist(pl: Player, p: string): (r: Result<Player>)
    ensures r.Raised? <==> p == "SPOTIFY"
    ensures r.Ok? ==> r.value.startupPlaylist == p
    ensures r.Ok? && p == "RADIO" ==> r.value == pl.(source := RADIO, startupPlaylist := p)
    ensures r.Ok? && p == "MEDIA" ==> r.value == pl.(source := PLAYER, startupPlaylist := p)
    ensures r.Ok? && p == "AIRPLAY" ==> r.value == pl.(source := AIRPLAY, startupPlaylist := p)
    ensures r.Ok? && p == "LAST" ==> r.value == pl.(loadLast := true, startupPlaylist := p)
    ensures r.Ok? && p !in {"RADIO", "MEDIA", "AIRPLAY", "LAST"} ==> r.value == pl.(startupPlaylist := p)
  {
    if p == "RADIO" then Ok(pl.(source := RADIO, startupPlaylist := p))
    else if p == "MEDIA" then Ok(pl.(source := PLAYER, startupPlaylist := p))
    else if p == "AIRPLAY" then Ok(pl.(source := AIRPLAY, startupPlaylist := p))
    else if p == "SPOTIFY" then Raised("AttributeError: SPOTIFY")
    else if p == "LAST" then Ok(pl.(loadLast := true, startupPlaylist := p))
    else Ok(pl.(startupPlaylist := p))
  }

  /** `exit_action` (the `shutdown` setter): returns the shutdown flag and the command to execute on exit. */
  function ExitAction(shutdown: bool, execute: string, p: string): (r: (bool, string))
    ensures r.0 <==> p == "shutdown"
    ensures p == "stop_radio" || p == "shutdown" ==> r.1 == execute
    ensures p != "stop_radio" && p != "shutdown" ==> r.1 == p
  {
    if p == "stop_radio" then (false, execute)
    else if p == "shutdown" then (true, execute)
    else (false, p)
  }

  /** `mute_action`: only "pause" and "stop" change it. */
  function MuteAction(action: int, p: string): (r: int)
    ensures p == "pause" ==> r == Constants.PAUSE
    ensures p == "stop" ==> r == Constants.STOP
    ensures p != "pause" && p != "stop" ==> r == action
  {
    if p == "pause" then Constants.PAUSE
    else if p == "stop" then Constants.STOP
    else action
  }

  /** `p.lstrip('"').rstrip('"')`: the surrounding double quotes removed. */
  function StripQuotes(p: string): (r: string)
    ensures r == [] || (r[0] != '"' && r[|r| - 1] != '"')
  {
    var l := LStripChar(p, '"');
    if l == [] then l
    else
      RStripKeepsHead(l, '"');
      RStripChar(l, '"')
  }

  /** What is stripped is double quotes and nothing else: `p` is a run of quotes, the result, and a run of quotes. */
  lemma StripQuotesRemovesOnlyQuotes(p: string)
    ensures exists n, m :: p == Run('"', n) + StripQuotes(p) + Run('"', m)
  {
    var l := LStripChar(p, '"');
    var n := |p| - |l|;
    LStripCharShape(p, '"');
    var r := StripQuotes(p);
    if l == [] {
      assert p == Run('"', n) + r + Run('"', 0);
    } else {
      var m := |l| - |RStripChar(l, '"')|;
      RStripCharShape(l, '"');
      ConcatAssoc(Run('"', n), RStripChar(l, '"'), Run('"', m));
      assert r == RStripChar(l, '"');
    }
  }

  /** Stripping the quotes again changes nothing, and a text without surrounding quotes is kept as it is. */
  lemma StripQuotesSettles(p: string)
    ensures StripQuotes(StripQuotes(p)) == StripQuotes(p)
    ensures p == [] || (p[0] != '"' && p[|p| - 1] != '"') ==> StripQuotes(p) == p
  {
  }

  // ---------------------------------------------------------------------
  // The LUMA display type
  // ---------------------------------------------------------------------

  /**
   * As written, the device named after "LUMA." in the display type: the
   * guard tests for at least one piece, which `split` always yields, and
   * the second piece is then read; None stands for the IndexError.
   */
  function LumaDeviceAsWritten(p: string): Option<string>
  {
    var pieces := Split(Upper(p), '.');
    if |pieces| > 0 then PyIndex(pieces, 1) else Some(DEFAULT_LUMA_DEVICE)
  }

  /** As written, a LUMA display type without a '.' raises, e.g. "LUMA" itself. */
  lemma AsWrittenLumaNeedsDevice(p: string)
    ensures LumaDeviceAsWritten(p).None? <==> '.' !in p
    ensures LumaDeviceAsWritten("LUMA").None?
  {
    var u := Upper(p);
    assert '.' in u <==> '.' in p by {
      if '.' in p {
        var i :| 0 <= i < |p| && p[i] == '.';
        assert u[i] == '.';
      }
      if '.' in u {
        var i :| 0 <= i < |u| && u[i] == '.';
        CaseMapFixesNonLetters(p[i], '.');
      }
    }
    if '.' in u {
      SplitPresent(u, '.');
    } else {
      SplitAbsent(u, '.');
    }
    assert '.' !in "LUMA";
  }

  /** The device named after the first '.', upper-cased, or the default device when there is none. */
  function LumaDevice(p: string): string
  {
    var pieces := Split(Upper(p), '.');
    if |pieces| > 1 then pieces[1] else DEFAULT_LUMA_DEVICE
  }

  /** "LUMA.<device>" selects the device, in capitals; a bare "LUMA" selects the default device. */
  lemma LumaDeviceNamed(d: string)
    requires '.' !in d
    ensures LumaDevice("LUMA." + d) == Upper(d)
    ensures LumaDevice("LUMA") == DEFAULT_LUMA_DEVICE
  {
    var u := Upper("LUMA." + d);
    assert u == "LUMA" + ['.'] + Upper(d) by {
      assert |u| == |"LUMA" + ['.'] + Upper(d)|;
      forall i | 0 <= i < |u|
        ensures u[i] == ("LUMA" + ['.'] + Upper(d))[i]
      {
        if i >= 5 {
          assert ("LUMA." + d)[i] == d[i - 5];
        }
      }
    }
    assert '.' !in Upper(d) by {
      forall i | 0 <= i < |d|
        ensures Upper(d)[i] != '.'
      {
        CaseMapFixesNonLetters(d[i], '.');
      }
    }
    SplitAfter("LUMA", '.', Upper(d));
    SplitAbsent(Upper(d), '.');
    var bare := Upper("LUMA");
    assert bare == "LUMA";
    SplitAbsent(bare, '.');
  }

  /** The words the `display_type` option knows besides LUMA. */
  const DISPLAY_TYPE_WORDS: set<string> := {
    "LCD", "NO_DISPLAY", "LCD_I2C_PCF8574", "LCD_I2C_ADAFRUIT", "LCD_ADAFRUIT_RGB",
    "GRAPHICAL", "OLED_128x64", "PIFACE_CAD", "ST7789TFT", "SSD1306", "SH1106_SPI", "LCD_I2C_JHD1313"}

  /**
   * The `display_type` option: the type is first reset to LCD, then set
   * from the value. Each known word selects the type of the same name
   * (GRAPHICAL selects GRAPHICAL_DISPLAY); any other value containing LUMA
   * selects LUMA and the driver's device; anything else leaves LCD.
   */
  function DisplayTypeOption(d: Display, p: string): (r: Display)
    ensures r.displayType in {NO_DISPLAY, LCD, LCD_I2C_PCF8574, LCD_I2C_ADAFRUIT, LCD_ADAFRUIT_RGB,
                              GRAPHICAL_DISPLAY, OLED_128x64, PIFACE_CAD, ST7789TFT, SSD1306,
                              SH1106_SPI, LUMA, LCD_I2C_JHD1313}
    ensures r.displayType == LUMA ==> r == d.(displayType := LUMA, lumaDevice := Some(LumaDevice(p)))
    ensures r.displayType != LUMA ==> r == d.(displayType := r.displayType)
    ensures p in DISPLAY_TYPE_WORDS
            ==> 0 <= r.displayType < |DISPLAY_TYPES|
                && DISPLAY_TYPES[r.displayType] == (if p == "GRAPHICAL" then "GRAPHICAL_DISPLAY" else p)
    ensures p !in DISPLAY_TYPE_WORDS && Contains(p, "LUMA") ==> r.displayType == LUMA
    ensures !Contains(p, "LUMA") && p !in DISPLAY_TYPE_WORDS ==> r.displayType == LCD
  {
    if p == "LCD" then d.(displayType := LCD)
    else if p == "LCD_I2C_PCF8574" then d.(displayType := LCD_I2C_PCF8574)
    else if p == "LCD_I2C_ADAFRUIT" then d.(displayType := LCD_I2C_ADAFRUIT)
    else if p == "LCD_ADAFRUIT_RGB" then d.(displayType := LCD_ADAFRUIT_RGB)
    else if p == "NO_DISPLAY" then d.(displayType := NO_DISPLAY)
    else if p == "GRAPHICAL" then d.(displayType := GRAPHICAL_DISPLAY)
    else if p == "OLED_128x64" then d.(displayType := OLED_128x64)
    else if p == "PIFACE_CAD" then d.(displayType := PIFACE_CAD)
    else if p == "ST7789TFT" then d.(displayType := ST7789TFT)
    else if p == "SSD1306" then d.(displayType := SSD1306)
    else if p == "SH1106_SPI" then d.(displayType := SH1106_SPI)
    else if p == "LCD_I2C_JHD1313" then d.(displayType := LCD_I2C_JHD1313)
    else if Contains(p, "LUMA") then d.(displayType := LUMA, lumaDevice := Some(LumaDevice(p)))
    else d.(displayType := LCD)
  }

  /** `getDisplayName()`: the display type's name, with ".<device>" after LUMA; None where it raises. */
  function DisplayName(displayType: int, lumaDevice: Option<string>): Option<string>
  {
    match PyIndex(DISPLAY_TYPES, displayType)
    case None => None
    case Some(name) =>
      if name == "LUMA" then
        (if lumaDevice.Some? then Some(name + "." + lumaDevice.value) else None)
      else Some(name)
  }

  /**
   * Whatever the `display_type` option says, the display type it leaves
   * has a name; LUMA's name carries the selected device, and a value the
   * option does not know is reported as LCD.
   */
  lemma DisplayNamesDefined(d: Display, p: string)
    ensures var r := DisplayTypeOption(d, p);
            DisplayName(r.displayType, r.lumaDevice).Some?
            && (r.displayType == LUMA ==> DisplayName(r.displayType, r.lumaDevice) == Some("LUMA." + LumaDevice(p)))
    ensures !Contains(p, "LUMA") && p !in DISPLAY_TYPE_WORDS
            ==> DisplayName(DisplayTypeOption(d, p).displayType, DisplayTypeOption(d, p).lumaDevice) == Some("LCD")
  {
    var r := DisplayTypeOption(d, p);
    assert DISPLAY_TYPES[LUMA] == "LUMA" && DISPLAY_TYPES[LCD] == "LCD";
    if r.displayType == LUMA {
      assert "LUMA" + "." + LumaDevice(p) == "LUMA." + LumaDevice(p);
    }
  }

  // ---------------------------------------------------------------------
  // The remote control host
  // ---------------------------------------------------------------------

  /**
   * As written, the `remote_control_host` setter is redefined so that it
   * stores the host into the port's attribute: the host setting itself
   * never changes.
   */
  function RemoteControlHostAsWritten(r: Remote, host: string): Remote
  {
    r.(remoteControlPort := PortText(host))
  }

  /**
   * As written, a configured host ends up in the port attribute, the host
   * read back is the old one, and nothing else changes.
   */
  lemma AsWrittenHostIgnored(r: Remote, host: string)
    ensures RemoteControlHostAsWritten(r, host).remoteControlPort == PortText(host)
    ensures RemoteControlHostAsWritten(r, host).remoteControlHost == r.remoteControlHost
    ensures host != r.remoteControlHost ==> RemoteControlHostAsWritten(r, host).remoteControlHost != host
    ensures RemoteControlHostAsWritten(r, host).(remoteControlPort := r.remoteControlPort) == r
  {
  }

  /** The host setter storing into the host. */
  function RemoteControlHost(r: Remote, host: string): Remote
  {
    r.(remoteControlHost := host)
  }

  /** The configured host is read back and nothing else changes. */
  lemma RemoteControlHostReadBack(r: Remote, host: string)
    ensures RemoteControlHost(r, host).remoteControlHost == host
    ensures RemoteControlHost(r, host).(remoteControlHost := r.remoteControlHost) == r
  {
  }

  // ---------------------------------------------------------------------
  // Option dispatch of getConfig
  // ---------------------------------------------------------------------

  /** `self.<table>[option] = int(parameter)`; a parameter that is not a number is reported and ignored. */
  function StoreInt(m: map<string, int>, o: string, p: string): map<string, int>
  {
    if ParseInt(p, 10).Some? then m[o := ParseInt(p, 10).value] else m
  }

  /** A colour option: the name is kept for RGB displays and, when it names a plate colour, its code too. */
  function ColourOption(c: I2c, o: string, p: string): I2c
  {
    c.(rgbColors := c.rgbColors[o := p],
       colors := if p in COLOR then c.colors[o := COLOR[p]] else c.colors)
  }

  /** The branches of the RADIOD section's option chain. */
  datatype RadiodBranch =
    | Skipped | VolumeRangeB | UserInterfaceB | RemoteLedB | RemoteHostB | RemotePortB | ListenHostB
    | KeytableB | MpdPortB | ClientTimeoutB | DateFormatB | PlaylistNumberB | StationNamesB | FlipB
    | SplashB | StartupB | I2cAddressB | I2cBusB | ColourB | SpeechB | VerboseB | SpeakInfoB
    | VolumeDisplayB | SpeechVolumeB | PullUpDownB | SwitchB | DisplayWidthB | DisplayLinesB
    | ScrollSpeedB | CodepageB | LcdB | RgbLedB | MenuSwitchB | DisplayTypeB | RotaryClassB
    | RotaryPullupB | RotaryStepB | ExitActionB | LogModeB | ShoutcastKeyB | CheckUrlB | CheckPortB
    | InternetTimeoutB | BluetoothB | MuteActionB | UpdatePlaylistsB | TranslateLcdB | LanguageB
    | ControllerB | RomanizeB | AudioOutB | AudioLockedB | ComitupB | VolumeRgbB | ChannelRgbB
    | ShutdownCommandB | PivumeterB | DiscoLightB | UnknownB

  /*
   * The `option == name` tests of the chain, from name to branch, in four
   * tables: the names tested before the first substring test, those
   * between the `_color` and `_switch` tests, those among the substring
   * tests, and those after the last one. "keytable" is tested twice; the
   * second test can never be reached.
   */
  const NAMES_BEFORE_COLOUR: map<string, RadiodBranch> := map[
    "loglevel" := Skipped, "codecs" := Skipped, "volume_range" := VolumeRangeB,
    "user_interface" := UserInterfaceB, "remote_led" := RemoteLedB, "remote_control_host" := RemoteHostB,
    "remote_control_port" := RemotePortB, "remote_listen_host" := ListenHostB, "keytable" := KeytableB,
    "mpdport" := MpdPortB, "client_timeout" := ClientTimeoutB, "dateformat" := DateFormatB,
    "display_playlist_number" := PlaylistNumberB, "station_names" := StationNamesB,
    "flip_display_vertically" := FlipB, "splash" := SplashB, "startup" := StartupB,
    "i2c_address" := I2cAddressB, "i2c_bus" := I2cBusB]

  const NAMES_BEFORE_SWITCH: map<string, RadiodBranch> := map[
    "speech" := SpeechB, "verbose" := VerboseB, "speak_info" := SpeakInfoB,
    "volume_display" := VolumeDisplayB, "speech_volume" := SpeechVolumeB, "pull_up_down" := PullUpDownB]

  const NAMES_AMONG_SUBSTRINGS: map<string, RadiodBranch> := map[
    "rgb_red" := RgbLedB, "rgb_green" := RgbLedB, "rgb_blue" := RgbLedB]

  const NAMES_AFTER_SUBSTRINGS: map<string, RadiodBranch> := map[
    "rotary_class" := RotaryClassB, "rotary_gpio_pullup" := RotaryPullupB, "rotary_step_size" := RotaryStepB,
    "exit_action" := ExitActionB, "log_creation_mode" := LogModeB, "shoutcast_key" := ShoutcastKeyB,
    "internet_check_url" := CheckUrlB, "internet_check_port" := CheckPortB,
    "internet_timeout" := InternetTimeoutB, "bluetooth_device" := BluetoothB, "mute_action" := MuteActionB,
    "update_playlists" := UpdatePlaylistsB, "translate_lcd" := TranslateLcdB, "language" := LanguageB,
    "controller" := ControllerB, "romanize" := RomanizeB, "audio_out" := AudioOutB,
    "audio_config_locked" := AudioLockedB, "comitup_ip" := ComitupB, "volume_rgb_i2c" := VolumeRgbB,
    "channel_rgb_i2c" := ChannelRgbB, "shutdown_command" := ShutdownCommandB, "pivumeter" := PivumeterB,
    "disco_light" := DiscoLightB]

  /**
   * The branch that claims a RADIOD option: the tests in the order they are
   * written, exact names and substrings alike; the first that holds wins.
   */
  function RadiodBranchOf(o: string): RadiodBranch
  {
    if o in NAMES_BEFORE_COLOUR then NAMES_BEFORE_COLOUR[o]
    else if Contains(o, "_color") then ColourB
    else if o in NAMES_BEFORE_SWITCH then NAMES_BEFORE_SWITCH[o]
    else if Contains(o, "_switch") && !Contains(o, "menu_switch_value") then SwitchB
    else if Contains(o, "display_width") then DisplayWidthB
    else if Contains(o, "display_lines") then DisplayLinesB
    else if Contains(o, "scroll_speed") then ScrollSpeedB
    else if Contains(o, "codepage") then CodepageB
    else if Contains(o, "lcd_") then LcdB
    else if o in NAMES_AMONG_SUBSTRINGS then NAMES_AMONG_SUBSTRINGS[o]
    else if Contains(o, "menu_switch_value_") then MenuSwitchB
    else if Contains(o, "display_type") then DisplayTypeB
    else if o in NAMES_AFTER_SUBSTRINGS then NAMES_AFTER_SUBSTRINGS[o]
    else UnknownB
  }

  /** The part of the settings a branch writes. */
  datatype Part = NoPart | AudioPart | RemotePart | PlayerPart | DisplayPart | GpioPart | I2cPart | SystemPart

  function PartOf(b: RadiodBranch): Part
  {
    match b
    case VolumeRangeB | SpeechB | VerboseB | SpeakInfoB | SpeechVolumeB | MuteActionB | AudioOutB
       | AudioLockedB => AudioPart
    case RemoteLedB | RemoteHostB | RemotePortB | ListenHostB | KeytableB => RemotePart
    case MpdPortB | ClientTimeoutB | DateFormatB | StationNamesB | StartupB | ShoutcastKeyB
       | UpdatePlaylistsB => PlayerPart
    case UserInterfaceB | PlaylistNumberB | FlipB | SplashB | VolumeDisplayB | DisplayWidthB
       | DisplayLinesB | CodepageB | DisplayTypeB | TranslateLcdB | LanguageB | ControllerB
       | RomanizeB => DisplayPart
    case PullUpDownB | SwitchB | LcdB | RgbLedB | MenuSwitchB | RotaryClassB | RotaryPullupB
       | RotaryStepB | DiscoLightB => GpioPart
    case I2cAddressB | I2cBusB | ColourB | VolumeRgbB | ChannelRgbB | PivumeterB => I2cPart
    case ExitActionB | LogModeB | CheckUrlB | CheckPortB | InternetTimeoutB | BluetoothB | ComitupB
       | ShutdownCommandB => SystemPart
    case Skipped | ScrollSpeedB | UnknownB => NoPart
  }

  /** What an audio branch does with parameter `p`; a number that does not parse is reported and ignored. */
  function AudioApply(b: RadiodBranch, a: Audio, p: string): Audio
  {
    var n := ParseInt(p, 10);
    match b
    case VolumeRangeB => if n.Some? then VolumeRange(a, n.value) else a
    case SpeechB => a.(speech := ConvertYesNo(p))
    case VerboseB => a.(verbose := ConvertYesNo(p))
    case SpeakInfoB => a.(speakInfo := ConvertYesNo(p))
    case SpeechVolumeB => if n.Some? then a.(speechVolume := n.value) else a
    case MuteActionB => a.(muteAction := MuteAction(a.muteAction, p))
    case AudioOutB => a.(audioOut := StripQuotes(p))
    case AudioLockedB => a.(audioConfigLocked := ConvertYesNo(p))
    case _ => a
  }

  function RemoteApply(b: RadiodBranch, r: Remote, p: string): Remote
  {
    var n := ParseInt(p, 10);
    match b
    case RemoteLedB => if n.Some? then r.(remoteLed := n.value) else r
    case RemoteHostB => RemoteControlHost(r, p)
    case RemotePortB => if n.Some? then r.(remoteControlPort := PortNumber(n.value)) else r
    case ListenHostB => r.(remoteListenHost := p)
    case KeytableB => r.(keytable := p)
    case _ => r
  }

  /** The player branches; only `startup` can raise. */
  function PlayerApply(b: RadiodBranch, pl: Player, p: string): Result<Player>
  {
    var n := ParseInt(p, 10);
    match b
    case MpdPortB => Ok(if n.Some? then pl.(mpdPort := n.value) else pl)
    case ClientTimeoutB => Ok(if n.Some? then pl.(clientTimeout := Clamp(n.value, 2, 15)) else pl)
    case DateFormatB => Ok(pl.(dateFormat := p))
    case StationNamesB => Ok(pl.(stationNames := if p == "stream" then STREAM else LIST))
    case StartupB => StartupPlaylist(pl, p)
    case ShoutcastKeyB => Ok(pl.(shoutcastKey := p))
    case UpdatePlaylistsB => Ok(pl.(updatePlaylists := ConvertYesNo(p)))
    case _ => Ok(pl)
  }

  function DisplayApply(b: RadiodBranch, d: Display, p: string): Display
  {
    var n := ParseInt(p, 10);
    match b
    case UserInterfaceB => d.(userInterface := UserInterfaceCode(p))
    case PlaylistNumberB => d.(displayPlaylistNumber := ConvertYesNo(p))
    case FlipB => d.(flipDisplayVertically := ConvertYesNo(p))
    case SplashB => d.(splashScreen := p)
    case VolumeDisplayB => d.(displayBlocks := p == "blocks")
    case DisplayWidthB => if n.Some? then d.(displayWidth := n.value) else d
    case DisplayLinesB => if n.Some? then d.(displayLines := n.value) else d
    case CodepageB => if n.Some? && 0 <= n.value <= 4 then d.(codepage := n.value) else d
    case DisplayTypeB => DisplayTypeOption(d, p)
    case TranslateLcdB => d.(translateLcd := ConvertOnOff(p))
    case LanguageB => d.(language := p)
    case ControllerB => d.(controller := p)
    case RomanizeB => d.(romanize := ConvertOnOff(p))
    case _ => d
  }

  /** The GPIO branches; the pin tables store under the option's own name `o`. */
  function GpioApply(b: RadiodBranch, g: Gpio, o: string, p: string): Gpio
  {
    var n := ParseInt(p, 10);
    match b
    case PullUpDownB => g.(pullUpDown := if p == "up" then Constants.UP else Constants.DOWN)
    case SwitchB => g.(switches := StoreInt(g.switches, o, p))
    case LcdB => g.(lcdConnects := StoreInt(g.lcdConnects, o, p))
    case RgbLedB => g.(rgbLeds := StoreInt(g.rgbLeds, o, p))
    case MenuSwitchB => g.(menuSwitches := StoreInt(g.menuSwitches, o, p))
    case RotaryClassB =>
      g.(rotaryClass := if p == "alternative" then ALTERNATIVE
                        else if p == "rgb_rotary" then RGB_ROTARY
                        else if p == "rgb_i2c_rotary" then RGB_I2C_ROTARY
                        else STANDARD)
    case RotaryPullupB => g.(rotaryGpioPullup := if p == "none" then Constants.PUD_OFF else Constants.PUD_UP)
    case RotaryStepB => g.(rotaryStepSize := p == "half")
    case DiscoLightB => if n.Some? then g.(discoLight := n.value) else g
    case _ => g
  }

  /** The I2C and colour branches; the I2C addresses are hexadecimal. */
  function I2cApply(b: RadiodBranch, c: I2c, o: string, p: string): I2c
  {
    var n := ParseInt(p, 10);
    var h := ParseInt(p, 16);
    match b
    case I2cAddressB => if h.Some? && h.value > 0 then c.(i2cAddress := h.value) else c
    case I2cBusB => if n.Some? && n.value > 0 then c.(i2cBus := n.value) else c
    case ColourB => ColourOption(c, o, p)
    case VolumeRgbB => if h.Some? then c.(volumeRgbI2c := h.value) else c
    case ChannelRgbB => if h.Some? then c.(channelRgbI2c := h.value) else c
    case PivumeterB => c.(pivumeter := ConvertYesNo(p))
    case _ => c
  }

  function SystemApply(b: RadiodBranch, y: System, p: string): System
  {
    var n := ParseInt(p, 10);
    match b
    case ExitActionB =>
      var (shutdown, execute) := ExitAction(y.shutdown, y.execute, p);
      y.(shutdown := shutdown, execute := execute)
    case LogModeB => y.(logfileTruncate := p == "truncate")
    case CheckUrlB => y.(internetCheckUrl := p)
    case CheckPortB => if n.Some? then y.(internetCheckPort := n.value) else y
    case InternetTimeoutB => if n.Some? then y.(internetTimeout := n.value) else y
    case BluetoothB => y.(bluetoothDevice := p)
    case ComitupB => y.(comitupIp := p)
    case ShutdownCommandB => y.(shutdownCommand := p)
    case _ => y
  }

  /**
   * What a branch does with option `o` and parameter `p`: it writes its
   * part of the settings. Raised when the branch lets an exception escape,
   * which ends `getConfig`.
   */
  function RadiodApply(b: RadiodBranch, s: RadioSettings, o: string, p: string): Result<RadioSettings>
  {
    match PartOf(b)
    case NoPart => Ok(s)
    case AudioPart => Ok(s.(audio := AudioApply(b, s.audio, p)))
    case RemotePart => Ok(s.(remote := RemoteApply(b, s.remote, p)))
    case PlayerPart =>
      (match PlayerApply(b, s.player, p)
       case Ok(pl) => Ok(s.(player := pl))
       case Raised(e) => Raised(e))
    case DisplayPart => Ok(s.(display := DisplayApply(b, s.display, p)))
    case GpioPart => Ok(s.(gpio := GpioApply(b, s.gpio, o, p)))
    case I2cPart => Ok(s.(i2c := I2cApply(b, s.i2c, o, p)))
    case SystemPart => Ok(s.(system := SystemApply(b, s.system, p)))
  }

  /** One option of the RADIOD section: the branch that claims it applies. */
  function RadiodOption(s: RadioSettings, o: string, p: string): Result<RadioSettings>
  {
    RadiodApply(RadiodBranchOf(o), s, o, p)
  }

  /** One option of the AIRPLAY section; `installed` says whether the AirPlay binary is present. */
  function AirplayOption(s: RadioSettings, o: string, p: string, installed: bool): RadioSettings
  {
    var n := ParseInt(p, 10);
    if o == "airplay" then s.(audio := s.audio.(airplay := p == "yes" && installed))
    else if o == "mixer_volume" || o == "mixer_preset" then
      (if n.Some? then s.(audio := s.audio.(mixerPreset := Clamp(n.value, 0, 100))) else s)
    else s
  }

  /** `screen_size`: "<width>x<height>"; anything else raises, which ends `getConfig`. */
  function ScreenSize(p: string): (r: Result<(int, int)>)
    ensures r.Ok? <==> |Split(p, 'x')| == 2 && ParseInt(Split(p, 'x')[0], 10).Some?
                                            && ParseInt(Split(p, 'x')[1], 10).Some?
  {
    var pieces := Split(p, 'x');
    if |pieces| != 2 then Raised("ValueError: screen_size")
    else
      match (ParseInt(pieces[0], 10), ParseInt(pieces[1], 10))
      case (Some(w), Some(h)) => Ok((w, h))
      case _ => Raised("ValueError: screen_size")
  }

  /** The branches of the SCREEN section's option chain. */
  datatype ScreenBranch =
    | ScreenSizeB | FullscreenB | WindowColorB | WindowTitleB | BannerColorB | LabelsColorB
    | ScaleLabelsColorB | DisplayWindowColorB | DisplayWindowLabelsColorB | SliderColorB
    | StationsPerPageB | ScreenSaverB | WallpaperB | GraphicDateFormatB | DisplayMouseB
    | SwitchProgramsB | DisplayDateB | DisplayTitleB | ShutdownButtonB | IcecastButtonB | UnknownScreenB

  /**
   * The SCREEN section tests only exact names; "display_shutdown_button"
   * is tested twice and the second test can never be reached.
   */
  const SCREEN_NAMES: map<string, ScreenBranch> := map[
    "screen_size" := ScreenSizeB, "fullscreen" := FullscreenB, "window_color" := WindowColorB,
    "window_title" := WindowTitleB, "banner_color" := BannerColorB, "labels_color" := LabelsColorB,
    "scale_labels_color" := ScaleLabelsColorB, "display_window_color" := DisplayWindowColorB,
    "display_window_labels_color" := DisplayWindowLabelsColorB, "slider_color" := SliderColorB,
    "stations_per_page" := StationsPerPageB, "screen_saver" := ScreenSaverB, "wallpaper" := WallpaperB,
    "dateformat" := GraphicDateFormatB, "graphic_dateformat" := GraphicDateFormatB,
    "display_mouse" := DisplayMouseB, "switch_programs" := SwitchProgramsB, "display_date" := DisplayDateB,
    "display_title" := DisplayTitleB, "display_shutdown_button" := ShutdownButtonB,
    "display_icecast_button" := IcecastButtonB]

  /** The branch that claims a SCREEN option; any other name is reported and ignored. */
  function ScreenBranchOf(o: string): ScreenBranch
  {
    if o in SCREEN_NAMES then SCREEN_NAMES[o] else UnknownScreenB
  }

  /** What a SCREEN branch does with parameter `p`; `paths` are the files that exist. */
  function ScreenApply(b: ScreenBranch, sc: ScreenSettings, p: string, paths: set<string>): Result<ScreenSettings>
  {
    var n := ParseInt(p, 10);
    match b
    case ScreenSizeB =>
      (match ScreenSize(p)
       case Ok(size) => Ok(sc.(screenSize := size))
       case Raised(e) => Raised(e))
    case FullscreenB => Ok(sc.(fullscreen := ConvertYesNo(p)))
    case WindowColorB => Ok(sc.(windowColor := p))
    case WindowTitleB => Ok(sc.(windowTitle := p))
    case BannerColorB => Ok(sc.(bannerColor := p))
    case LabelsColorB => Ok(sc.(labelsColor := p))
    case ScaleLabelsColorB => Ok(sc.(scaleLabelsColor := p))
    case DisplayWindowColorB => Ok(sc.(displayWindowColor := p))
    case DisplayWindowLabelsColorB => Ok(sc.(displayWindowLabelsColor := p))
    case SliderColorB => Ok(sc.(sliderColor := p))
    case StationsPerPageB =>
      Ok(if n.Some? then sc.(stationsPerPage := if n.value > 50 then 50 else n.value) else sc)
    case ScreenSaverB =>
      (if n.Some? then Ok(sc.(screenSaver := n.value)) else Raised("ValueError: screen_saver"))
    case WallpaperB => Ok(if p in paths then sc.(wallpaper := p) else sc)
    case GraphicDateFormatB => Ok(sc.(graphicDateFormat := p))
    case DisplayMouseB => Ok(sc.(displayMouse := ConvertYesNo(p)))
    case SwitchProgramsB => Ok(sc.(switchPrograms := ConvertYesNo(p)))
    case DisplayDateB => Ok(sc.(displayDate := ConvertYesNo(p)))
    case DisplayTitleB => Ok(sc.(displayTitle := ConvertYesNo(p)))
    case ShutdownButtonB => Ok(sc.(displayShutdownButton := ConvertYesNo(p)))
    case IcecastButtonB => Ok(sc.(displayIcecastButton := ConvertYesNo(p)))
    case UnknownScreenB => Ok(sc)
  }

  /** One option of the SCREEN section. */
  function ScreenOption(sc: ScreenSettings, o: string, p: string, paths: set<string>): Result<ScreenSettings>
  {
    ScreenApply(ScreenBranchOf(o), sc, p, paths)
  }

  datatype Section = Radiod | Airplay | Screen

  /** What `getConfig` learns from the file system. */
  datatype Host = Host(airplayInstalled: bool, paths: set<string>)

  /** One option of a section applied to the whole configuration. */
  function ApplyOption(sec: Section, st: Settings, o: string, p: string, host: Host): Result<Settings>
  {
    match sec
    case Radiod =>
      (match RadiodOption(st.radio, o, p)
       case Ok(r) => Ok(st.(radio := r))
       case Raised(e) => Raised(e))
    case Airplay => Ok(st.(radio := AirplayOption(st.radio, o, p, host.airplayInstalled)))
    case Screen =>
      (match ScreenOption(st.screen, o, p, host.paths)
       case Ok(sc) => Ok(st.(screen := sc))
       case Raised(e) => Raised(e))
  }

  /** The step `getConfig` takes with each option of a section. */
  function SectionStep(sec: Section, host: Host): (Settings, string, string) -> Result<Settings>
  {
    (st: Settings, o: string, p: string) => ApplyOption(sec, st, o, p, host)
  }

  /**
   * A section's options read in order: each lower-cased option is recorded
   * with its parameter and handed to `step`; an option whose step raises is
   * recorded and ends the reading. Returns the settings, the recorded
   * options and whether the section was read to its end.
   */
  function ReadEntries(step: (Settings, string, string) -> Result<Settings>, st: Settings,
                       opts: map<string, string>, entries: seq<(string, string)>): (Settings, map<string, string>, bool)
    decreases |entries|
  {
    if entries == [] then (st, opts, true)
    else
      var o := Lower(entries[0].0);
      var p := entries[0].1;
      match step(st, o, p)
      case Raised(_) => (st, opts[o := p], false)
      case Ok(next) => ReadEntries(step, next, opts[o := p], entries[1..])
  }

  /**
   * Every option read is recorded, under its lower-cased name, and options
   * recorded before stay recorded; when the section is read to its end,
   * every one of its options was applied without raising.
   */
  lemma {:induction false} ReadEntriesRecordsOptions(step: (Settings, string, string) -> Result<Settings>, st: Settings,
                                                     opts: map<string, string>, entries: seq<(string, string)>)
    decreases |entries|
    ensures opts.Keys <= ReadEntries(step, st, opts, entries).1.Keys
    ensures ReadEntries(step, st, opts, entries).2 ==>
              forall k :: 0 <= k < |entries| ==> Lower(entries[k].0) in ReadEntries(step, st, opts, entries).1
    ensures entries != [] && !ReadEntries(step, st, opts, entries).2 ==>
              exists k :: 0 <= k < |entries| && Lower(entries[k].0) in ReadEntries(step, st, opts, entries).1
  {
    if entries != [] {
      var o := Lower(entries[0].0);
      var p := entries[0].1;
      match step(st, o, p)
      case Raised(_) =>
      case Ok(next) =>
        ReadEntriesRecordsOptions(step, next, opts[o := p], entries[1..]);
        var r := ReadEntries(step, next, opts[o := p], entries[1..]);
        assert r == ReadEntries(step, st, opts, entries);
        if r.2 {
          forall k | 0 <= k < |entries|
            ensures Lower(entries[k].0) in r.1
          {
            if k > 0 {
              assert entries[k] == entries[1..][k - 1];
            }
          }
        }
    }
  }

  /** A section as `getConfig` reads it: a missing section is reported and skipped. */
  function ReadSectionSpec(sec: Section, st: Settings, opts: map<string, string>,
                           entries: Option<seq<(string, string)>>, host: Host): (Settings, map<string, string>, bool)
  {
    match entries
    case None => (st, opts, true)
    case Some(es) => ReadEntries(SectionStep(sec, host), st, opts, es)
  }

  /** `getConfig`: the RADIOD, AIRPLAY and SCREEN sections in turn, until one raises. */
  function GetConfigSpec(st: Settings, opts: map<string, string>,
                         radiod: Option<seq<(string, string)>>, airplay: Option<seq<(string, string)>>,
                         screen: Option<seq<(string, string)>>, host: Host): (Settings, map<string, string>, bool)
  {
    var (st1, opts1, ok1) := ReadSectionSpec(Radiod, st, opts, radiod, host);
    if !ok1 then (st1, opts1, false)
    else
      var (st2, opts2, ok2) := ReadSectionSpec(Airplay, st1, opts1, airplay, host);
      if !ok2 then (st2, opts2, false)
      else ReadSectionSpec(Screen, st2, opts2, screen, host)
  }

  /** The AIRPLAY section never raises, and only the SCREEN section touches the screen settings. */
  lemma SectionsStayInTheirSettings(st: Settings, opts: map<string, string>, entries: seq<(string, string)>, host: Host)
    ensures ReadEntries(SectionStep(Airplay, host), st, opts, entries).2
    ensures ReadEntries(SectionStep(Airplay, host), st, opts, entries).0.screen == st.screen
    ensures ReadEntries(SectionStep(Radiod, host), st, opts, entries).0.screen == st.screen
    ensures ReadEntries(SectionStep(Screen, host), st, opts, entries).0.radio == st.radio
  {
    AirplayNeverRaises(st, opts, entries, host);
    RadiodKeepsScreen(st, opts, entries, host);
    ScreenKeepsRadio(st, opts, entries, host);
  }

  lemma {:induction false} AirplayNeverRaises(st: Settings, opts: map<string, string>,
                                              entries: seq<(string, string)>, host: Host)
    decreases |entries|
    ensures ReadEntries(SectionStep(Airplay, host), st, opts, entries).2
    ensures ReadEntries(SectionStep(Airplay, host), st, opts, entries).0.screen == st.screen
  {
    if entries != [] {
      var o := Lower(entries[0].0);
      var next := st.(radio := AirplayOption(st.radio, o, entries[0].1, host.airplayInstalled));
      assert SectionStep(Airplay, host)(st, o, entries[0].1) == Ok(next);
      AirplayNeverRaises(next, opts[o := entries[0].1], entries[1..], host);
    }
  }

  lemma {:induction false} RadiodKeepsScreen(st: Settings, opts: map<string, string>,
                                             entries: seq<(string, string)>, host: Host)
    decreases |entries|
    ensures ReadEntries(SectionStep(Radiod, host), st, opts, entries).0.screen == st.screen
  {
    if entries != [] {
      var o := Lower(entries[0].0);
      match ApplyOption(Radiod, st, o, entries[0].1, host)
      case Raised(_) =>
      case Ok(next) =>
        RadiodKeepsScreen(next, opts[o := entries[0].1], entries[1..], host);
    }
  }

  lemma {:induction false} ScreenKeepsRadio(st: Settings, opts: map<string, string>,
                                            entries: seq<(string, string)>, host: Host)
    decreases |entries|
    ensures ReadEntries(SectionStep(Screen, host), st, opts, entries).0.radio == st.radio
  {
    if entries != [] {
      var o := Lower(entries[0].0);
      match ApplyOption(Screen, st, o, entries[0].1, host)
      case Raised(_) =>
      case Ok(next) =>
        ScreenKeepsRadio(next, opts[o := entries[0].1], entries[1..], host);
    }
  }

  // ---------------------------------------------------------------------
  // Which branch claims a name
  // ---------------------------------------------------------------------

  /** The substring tests of the chain, in the order they are written. */
  const SUBSTRING_TESTS: seq<string> := [
    "_color", "_switch", "display_width", "display_lines", "scroll_speed", "codepage", "lcd_",
    "menu_switch_value_", "display_type"]

  /** None of the first `n` substring tests holds for `o`. */
  predicate FailsSubstringTests(o: string, n: nat)
    requires n <= |SUBSTRING_TESTS|
  {
    forall k :: 0 <= k < n ==> !Contains(o, SUBSTRING_TESTS[k])
  }

  /**
   * `w` names, for each of the first `|w|` substring tests, a character of
   * the test's text that `o` lacks, unless the test is known to fail for
   * `o` already (its text is longer than `o`, or an adjacent pair of it
   * never occurs in `o`); then none of those tests holds.
   */
  lemma WitnessesFail(o: string, w: string)
    requires |w| <= |SUBSTRING_TESTS|
    requires forall k :: 0 <= k < |w| ==>
      (w[k] in SUBSTRING_TESTS[k] && w[k] !in o) || !Contains(o, SUBSTRING_TESTS[k])
    ensures FailsSubstringTests(o, |w|)
  {
    forall k | 0 <= k < |w|
      ensures !Contains(o, SUBSTRING_TESTS[k])
    {
      if w[k] in SUBSTRING_TESTS[k] && w[k] !in o {
        AbsentCharNotContained(o, SUBSTRING_TESTS[k], w[k]);
      }
    }
  }

  /*
   * One lemma per exact name tested after the first substring test: the
   * name is none of the names tested before it, and none of the substring
   * tests before it holds for it. Most names lack a character of each
   * test's text; a few hold every character of one and lack an adjacent
   * pair of it instead ("rotary_class" has a 'c' but never "co"). For the
   * names after the last substring test, the `…Unnamed` lemma states the
   * first part on its own.
   */
  lemma SpeechUnclaimed(o: string)
    requires o == "speech"
    ensures o !in NAMES_BEFORE_COLOUR
    ensures FailsSubstringTests(o, 1)
  {
    WitnessesFail(o, "_");
  }

  lemma VerboseUnclaimed(o: string)
    requires o == "verbose"
    ensures o !in NAMES_BEFORE_COLOUR
    ensures FailsSubstringTests(o, 1)
  {
    WitnessesFail(o, "_");
  }

  lemma SpeakInfoUnclaimed(o: string)
    requires o == "speak_info"
    ensures o !in NAMES_BEFORE_COLOUR
    ensures FailsSubstringTests(o, 1)
  {
    WitnessesFail(o, "c");
  }

  lemma VolumeDisplayUnclaimed(o: string)
    requires o == "volume_display"
    ensures o !in NAMES_BEFORE_COLOUR
    ensures FailsSubstringTests(o, 1)
  {
    WitnessesFail(o, "c");
  }

  lemma SpeechVolumeUnclaimed(o: string)
    requires o == "speech_volume"
    ensures o !in NAMES_BEFORE_COLOUR
    ensures FailsSubstringTests(o, 1)
  {
    WitnessesFail(o, "r");
  }

  lemma PullUpDownUnclaimed(o: string)
    requires o == "pull_up_down"
    ensures o !in NAMES_BEFORE_COLOUR
    ensures FailsSubstringTests(o, 1)
  {
    WitnessesFail(o, "c");
  }

  lemma RgbRedUnclaimed(o: string)
    requires o == "rgb_red"
    ensures o !in NAMES_BEFORE_COLOUR && o !in NAMES_BEFORE_SWITCH
    ensures FailsSubstringTests(o, 7)
  {
    WitnessesFail(o, "ccddscc");
  }

  lemma RgbGreenUnclaimed(o: string)
    requires o == "rgb_green"
    ensures o !in NAMES_BEFORE_COLOUR && o !in NAMES_BEFORE_SWITCH
    ensures FailsSubstringTests(o, 7)
  {
    WitnessesFail(o, "ccddscc");
  }

  lemma RgbBlueUnclaimed(o: string)
    requires o == "rgb_blue"
    ensures o !in NAMES_BEFORE_COLOUR && o !in NAMES_BEFORE_SWITCH
    ensures FailsSubstringTests(o, 7)
  {
    WitnessesFail(o, "ccddscc");
  }

  lemma RotaryClassUnnamed(o: string)
    requires o == "rotary_class"
    ensures o !in NAMES_BEFORE_COLOUR && o !in NAMES_BEFORE_SWITCH && o !in NAMES_AMONG_SUBSTRINGS
  {
  }

  lemma RotaryClassUnclaimed(o: string)
    requires o == "rotary_class"
    ensures o !in NAMES_BEFORE_COLOUR && o !in NAMES_BEFORE_SWITCH && o !in NAMES_AMONG_SUBSTRINGS
    ensures FailsSubstringTests(o, |SUBSTRING_TESTS|)
  {
    RotaryClassUnnamed(o);
    AbsentPairNotContained(o, "_color", 1);
    WitnessesFail(o, "_hdddddmd");
  }

  lemma RotaryGpioPullupUnnamed(o: string)
    requires o == "rotary_gpio_pullup"
    ensures o !in NAMES_BEFORE_COLOUR && o !in NAMES_BEFORE_SWITCH && o !in NAMES_AMONG_SUBSTRINGS
  {
  }

  lemma RotaryGpioPullupUnclaimed(o: string)
    requires o == "rotary_gpio_pullup"
    ensures o !in NAMES_BEFORE_COLOUR && o !in NAMES_BEFORE_SWITCH && o !in NAMES_AMONG_SUBSTRINGS
    ensures FailsSubstringTests(o, |SUBSTRING_TESTS|)
  {
    RotaryGpioPullupUnnamed(o);
    WitnessesFail(o, "ccddccccd");
  }

  lemma RotaryStepSizeUnnamed(o: string)
    requires o == "rotary_step_size"
    ensures o !in NAMES_BEFORE_COLOUR && o !in NAMES_BEFORE_SWITCH && o !in NAMES_AMONG_SUBSTRINGS
  {
  }

  lemma RotaryStepSizeUnclaimed(o: string)
    requires o == "rotary_step_size"
    ensures o !in NAMES_BEFORE_COLOUR && o !in NAMES_BEFORE_SWITCH && o !in NAMES_AMONG_SUBSTRINGS
    ensures FailsSubstringTests(o, |SUBSTRING_TESTS|)
  {
    RotaryStepSizeUnnamed(o);
    WitnessesFail(o, "ccddcccmd");
  }

  lemma ExitActionUnnamed(o: string)
    requires o == "exit_action"
    ensures o !in NAMES_BEFORE_COLOUR && o !in NAMES_BEFORE_SWITCH && o !in NAMES_AMONG_SUBSTRINGS
  {
  }

  lemma ExitActionUnclaimed(o: string)
    requires o == "exit_action"
    ensures o !in NAMES_BEFORE_COLOUR && o !in NAMES_BEFORE_SWITCH && o !in NAMES_AMONG_SUBSTRINGS
    ensures FailsSubstringTests(o, |SUBSTRING_TESTS|)
  {
    ExitActionUnnamed(o);
    WitnessesFail(o, "lhddsddmd");
  }

  lemma LogCreationModeUnnamed(o: string)
    requires o == "log_creation_mode"
    ensures o !in NAMES_BEFORE_COLOUR && o !in NAMES_BEFORE_SWITCH && o !in NAMES_AMONG_SUBSTRINGS
  {
  }

  lemma LogCreationModeUnclaimed(o: string)
    requires o == "log_creation_mode"
    ensures o !in NAMES_BEFORE_COLOUR && o !in NAMES_BEFORE_SWITCH && o !in NAMES_AMONG_SUBSTRINGS
    ensures FailsSubstringTests(o, |SUBSTRING_TESTS|)
  {
    LogCreationModeUnnamed(o);
    AbsentPairNotContained(o, "_color", 1);
    AbsentPairNotContained(o, "lcd_", 0);
    WitnessesFail(o, "_hhppplmp");
  }

  lemma ShoutcastKeyUnnamed(o: string)
    requires o == "shoutcast_key"
    ensures o !in NAMES_BEFORE_COLOUR && o !in NAMES_BEFORE_SWITCH && o !in NAMES_AMONG_SUBSTRINGS
  {
  }

  lemma ShoutcastKeyUnclaimed(o: string)
    requires o == "shoutcast_key"
    ensures o !in NAMES_BEFORE_COLOUR && o !in NAMES_BEFORE_SWITCH && o !in NAMES_AMONG_SUBSTRINGS
    ensures FailsSubstringTests(o, |SUBSTRING_TESTS|)
  {
    ShoutcastKeyUnnamed(o);
    WitnessesFail(o, "lidddddmd");
  }

  lemma InternetCheckUrlUnnamed(o: string)
    requires o == "internet_check_url"
    ensures o !in NAMES_BEFORE_COLOUR && o !in NAMES_BEFORE_SWITCH && o !in NAMES_AMONG_SUBSTRINGS
  {
  }

  lemma InternetCheckUrlUnclaimed(o: string)
    requires o == "internet_check_url"
    ensures o !in NAMES_BEFORE_COLOUR && o !in NAMES_BEFORE_SWITCH && o !in NAMES_AMONG_SUBSTRINGS
    ensures FailsSubstringTests(o, |SUBSTRING_TESTS|)
  {
    InternetCheckUrlUnnamed(o);
    WitnessesFail(o, "osdddddsd");
  }

  lemma InternetCheckPortUnnamed(o: string)
    requires o == "internet_check_port"
    ensures o !in NAMES_BEFORE_COLOUR && o !in NAMES_BEFORE_SWITCH && o !in NAMES_AMONG_SUBSTRINGS
  {
  }

  lemma InternetCheckPortUnclaimed(o: string)
    requires o == "internet_check_port"
    ensures o !in NAMES_BEFORE_COLOUR && o !in NAMES_BEFORE_SWITCH && o !in NAMES_AMONG_SUBSTRINGS
    ensures FailsSubstringTests(o, |SUBSTRING_TESTS|)
  {
    InternetCheckPortUnnamed(o);
    WitnessesFail(o, "lsaalalaa");
  }

  lemma InternetTimeoutUnnamed(o: string)
    requires o == "internet_timeout"
    ensures o !in NAMES_BEFORE_COLOUR && o !in NAMES_BEFORE_SWITCH && o !in NAMES_AMONG_SUBSTRINGS
  {
  }

  lemma InternetTimeoutUnclaimed(o: string)
    requires o == "internet_timeout"
    ensures o !in NAMES_BEFORE_COLOUR && o !in NAMES_BEFORE_SWITCH && o !in NAMES_AMONG_SUBSTRINGS
    ensures FailsSubstringTests(o, |SUBSTRING_TESTS|)
  {
    InternetTimeoutUnnamed(o);
    WitnessesFail(o, "ccaacacma");
  }

  lemma BluetoothDeviceUnnamed(o: string)
    requires o == "bluetooth_device"
    ensures o !in NAMES_BEFORE_COLOUR && o !in NAMES_BEFORE_SWITCH && o !in NAMES_AMONG_SUBSTRINGS
  {
  }

  lemma BluetoothDeviceUnclaimed(o: string)
    requires o == "bluetooth_device"
    ensures o !in NAMES_BEFORE_COLOUR && o !in NAMES_BEFORE_SWITCH && o !in NAMES_AMONG_SUBSTRINGS
    ensures FailsSubstringTests(o, |SUBSTRING_TESTS|)
  {
    BluetoothDeviceUnnamed(o);
    AbsentPairNotContained(o, "lcd_", 0);
    WitnessesFail(o, "rsaaralma");
  }

  lemma MuteActionUnnamed(o: string)
    requires o == "mute_action"
    ensures o !in NAMES_BEFORE_COLOUR && o !in NAMES_BEFORE_SWITCH && o !in NAMES_AMONG_SUBSTRINGS
  {
  }

  lemma MuteActionUnclaimed(o: string)
    requires o == "mute_action"
    ensures o !in NAMES_BEFORE_COLOUR && o !in NAMES_BEFORE_SWITCH && o !in NAMES_AMONG_SUBSTRINGS
    ensures FailsSubstringTests(o, |SUBSTRING_TESTS|)
  {
    MuteActionUnnamed(o);
    WitnessesFail(o, "lhddsddmd");
  }

  lemma UpdatePlaylistsUnnamed(o: string)
    requires o == "update_playlists"
    ensures o !in NAMES_BEFORE_COLOUR && o !in NAMES_BEFORE_SWITCH && o !in NAMES_AMONG_SUBSTRINGS
  {
  }

  lemma UpdatePlaylistsUnclaimed(o: string)
    requires o == "update_playlists"
    ensures o !in NAMES_BEFORE_COLOUR && o !in NAMES_BEFORE_SWITCH && o !in NAMES_AMONG_SUBSTRINGS
    ensures FailsSubstringTests(o, |SUBSTRING_TESTS|)
  {
    UpdatePlaylistsUnnamed(o);
    AbsentPairNotContained(o, "display_type", 0);
    WitnessesFail(o, "cchncccmd");
  }

  lemma TranslateLcdUnnamed(o: string)
    requires o == "translate_lcd"
    ensures o !in NAMES_BEFORE_COLOUR && o !in NAMES_BEFORE_SWITCH && o !in NAMES_AMONG_SUBSTRINGS
  {
  }

  lemma TranslateLcdUnclaimed(o: string)
    requires o == "translate_lcd"
    ensures o !in NAMES_BEFORE_COLOUR && o !in NAMES_BEFORE_SWITCH && o !in NAMES_AMONG_SUBSTRINGS
    ensures FailsSubstringTests(o, |SUBSTRING_TESTS|)
  {
    TranslateLcdUnnamed(o);
    AbsentPairNotContained(o, "lcd_", 2);
    WitnessesFail(o, "oiiioolmi");
  }

  lemma LanguageUnnamed(o: string)
    requires o == "language"
    ensures o !in NAMES_BEFORE_COLOUR && o !in NAMES_BEFORE_SWITCH && o !in NAMES_AMONG_SUBSTRINGS
  {
  }

  lemma LanguageUnclaimed(o: string)
    requires o == "language"
    ensures o !in NAMES_BEFORE_COLOUR && o !in NAMES_BEFORE_SWITCH && o !in NAMES_AMONG_SUBSTRINGS
    ensures FailsSubstringTests(o, |SUBSTRING_TESTS|)
  {
    LanguageUnnamed(o);
    WitnessesFail(o, "ccddsccmd");
  }

  lemma ControllerUnnamed(o: string)
    requires o == "controller"
    ensures o !in NAMES_BEFORE_COLOUR && o !in NAMES_BEFORE_SWITCH && o !in NAMES_AMONG_SUBSTRINGS
  {
  }

  lemma ControllerUnclaimed(o: string)
    requires o == "controller"
    ensures o !in NAMES_BEFORE_COLOUR && o !in NAMES_BEFORE_SWITCH && o !in NAMES_AMONG_SUBSTRINGS
    ensures FailsSubstringTests(o, |SUBSTRING_TESTS|)
  {
    ControllerUnnamed(o);
    WitnessesFail(o, "__ddsa_md");
  }

  lemma RomanizeUnnamed(o: string)
    requires o == "romanize"
    ensures o !in NAMES_BEFORE_COLOUR && o !in NAMES_BEFORE_SWITCH && o !in NAMES_AMONG_SUBSTRINGS
  {
  }

  lemma RomanizeUnclaimed(o: string)
    requires o == "romanize"
    ensures o !in NAMES_BEFORE_COLOUR && o !in NAMES_BEFORE_SWITCH && o !in NAMES_AMONG_SUBSTRINGS
    ensures FailsSubstringTests(o, |SUBSTRING_TESTS|)
  {
    RomanizeUnnamed(o);
    WitnessesFail(o, "ccddsccmd");
  }

  lemma AudioOutUnnamed(o: string)
    requires o == "audio_out"
    ensures o !in NAMES_BEFORE_COLOUR && o !in NAMES_BEFORE_SWITCH && o !in NAMES_AMONG_SUBSTRINGS
  {
  }

  lemma AudioOutUnclaimed(o: string)
    requires o == "audio_out"
    ensures o !in NAMES_BEFORE_COLOUR && o !in NAMES_BEFORE_SWITCH && o !in NAMES_AMONG_SUBSTRINGS
    ensures FailsSubstringTests(o, |SUBSTRING_TESTS|)
  {
    AudioOutUnnamed(o);
    WitnessesFail(o, "ccddsccmd");
  }

  lemma AudioConfigLockedUnnamed(o: string)
    requires o == "audio_config_locked"
    ensures o !in NAMES_BEFORE_COLOUR && o !in NAMES_BEFORE_SWITCH && o !in NAMES_AMONG_SUBSTRINGS
  {
  }

  lemma AudioConfigLockedUnclaimed(o: string)
    requires o == "audio_config_locked"
    ensures o !in NAMES_BEFORE_COLOUR && o !in NAMES_BEFORE_SWITCH && o !in NAMES_AMONG_SUBSTRINGS
    ensures FailsSubstringTests(o, |SUBSTRING_TESTS|)
  {
    AudioConfigLockedUnnamed(o);
    AbsentPairNotContained(o, "lcd_", 0);
    WitnessesFail(o, "rhhppplhp");
  }

  lemma ComitupIpUnnamed(o: string)
    requires o == "comitup_ip"
    ensures o !in NAMES_BEFORE_COLOUR && o !in NAMES_BEFORE_SWITCH && o !in NAMES_AMONG_SUBSTRINGS
  {
  }

  lemma ComitupIpUnclaimed(o: string)
    requires o == "comitup_ip"
    ensures o !in NAMES_BEFORE_COLOUR && o !in NAMES_BEFORE_SWITCH && o !in NAMES_AMONG_SUBSTRINGS
    ensures FailsSubstringTests(o, |SUBSTRING_TESTS|)
  {
    ComitupIpUnnamed(o);
    WitnessesFail(o, "lhddsalmd");
  }

  lemma VolumeRgbI2cUnnamed(o: string)
    requires o == "volume_rgb_i2c"
    ensures o !in NAMES_BEFORE_COLOUR && o !in NAMES_BEFORE_SWITCH && o !in NAMES_AMONG_SUBSTRINGS
  {
  }

  lemma VolumeRgbI2cUnclaimed(o: string)
    requires o == "volume_rgb_i2c"
    ensures o !in NAMES_BEFORE_COLOUR && o !in NAMES_BEFORE_SWITCH && o !in NAMES_AMONG_SUBSTRINGS
    ensures FailsSubstringTests(o, |SUBSTRING_TESTS|)
  {
    VolumeRgbI2cUnnamed(o);
    AbsentPairNotContained(o, "_color", 0);
    WitnessesFail(o, "_hdddddmd");
  }

  lemma ChannelRgbI2cUnnamed(o: string)
    requires o == "channel_rgb_i2c"
    ensures o !in NAMES_BEFORE_COLOUR && o !in NAMES_BEFORE_SWITCH && o !in NAMES_AMONG_SUBSTRINGS
  {
  }

  lemma ChannelRgbI2cUnclaimed(o: string)
    requires o == "channel_rgb_i2c"
    ensures o !in NAMES_BEFORE_COLOUR && o !in NAMES_BEFORE_SWITCH && o !in NAMES_AMONG_SUBSTRINGS
    ensures FailsSubstringTests(o, |SUBSTRING_TESTS|)
  {
    ChannelRgbI2cUnnamed(o);
    WitnessesFail(o, "osdddddmd");
  }

  lemma ShutdownCommandUnnamed(o: string)
    requires o == "shutdown_command"
    ensures o !in NAMES_BEFORE_COLOUR && o !in NAMES_BEFORE_SWITCH && o !in NAMES_AMONG_SUBSTRINGS
  {
  }

  lemma ShutdownCommandUnclaimed(o: string)
    requires o == "shutdown_command"
    ensures o !in NAMES_BEFORE_COLOUR && o !in NAMES_BEFORE_SWITCH && o !in NAMES_AMONG_SUBSTRINGS
    ensures FailsSubstringTests(o, |SUBSTRING_TESTS|)
  {
    ShutdownCommandUnnamed(o);
    WitnessesFail(o, "liieeelme");
  }

  lemma PivumeterUnnamed(o: string)
    requires o == "pivumeter"
    ensures o !in NAMES_BEFORE_COLOUR && o !in NAMES_BEFORE_SWITCH && o !in NAMES_AMONG_SUBSTRINGS
  {
  }

  lemma PivumeterUnclaimed(o: string)
    requires o == "pivumeter"
    ensures o !in NAMES_BEFORE_COLOUR && o !in NAMES_BEFORE_SWITCH && o !in NAMES_AMONG_SUBSTRINGS
    ensures FailsSubstringTests(o, |SUBSTRING_TESTS|)
  {
    PivumeterUnnamed(o);
    WitnessesFail(o, "ccddsccmd");
  }

  lemma DiscoLightUnnamed(o: string)
    requires o == "disco_light"
    ensures o !in NAMES_BEFORE_COLOUR && o !in NAMES_BEFORE_SWITCH && o !in NAMES_AMONG_SUBSTRINGS
  {
  }

  lemma DiscoLightUnclaimed(o: string)
    requires o == "disco_light"
    ensures o !in NAMES_BEFORE_COLOUR && o !in NAMES_BEFORE_SWITCH && o !in NAMES_AMONG_SUBSTRINGS
    ensures FailsSubstringTests(o, |SUBSTRING_TESTS|)
  {
    DiscoLightUnnamed(o);
    AbsentPairNotContained(o, "lcd_", 0);
    WitnessesFail(o, "rwddsalmd");
  }

  /** A name tested between the `_color` and `_switch` tests that neither comes before it nor holds "_color" reaches its branch. */
  lemma SwitchNameReached(o: string)
    requires o in NAMES_BEFORE_SWITCH && o !in NAMES_BEFORE_COLOUR && FailsSubstringTests(o, 1)
    ensures RadiodBranchOf(o) == NAMES_BEFORE_SWITCH[o]
  {
    assert !Contains(o, SUBSTRING_TESTS[0]);
  }

  /** An RGB LED name that no earlier name or substring test claims reaches its branch. */
  lemma RgbNameReached(o: string)
    requires o in NAMES_AMONG_SUBSTRINGS && o !in NAMES_BEFORE_COLOUR && o !in NAMES_BEFORE_SWITCH
    requires FailsSubstringTests(o, 7)
    ensures RadiodBranchOf(o) == NAMES_AMONG_SUBSTRINGS[o]
  {
    assert !Contains(o, SUBSTRING_TESTS[0]) && !Contains(o, SUBSTRING_TESTS[1]) && !Contains(o, SUBSTRING_TESTS[2]);
    assert !Contains(o, SUBSTRING_TESTS[3]) && !Contains(o, SUBSTRING_TESTS[4]) && !Contains(o, SUBSTRING_TESTS[5]);
    assert !Contains(o, SUBSTRING_TESTS[6]);
  }

  /** A name tested after the substring tests that no earlier name or substring test claims reaches its branch. */
  lemma LateNameReached(o: string)
    requires o in NAMES_AFTER_SUBSTRINGS
    requires o !in NAMES_BEFORE_COLOUR && o !in NAMES_BEFORE_SWITCH && o !in NAMES_AMONG_SUBSTRINGS
    requires FailsSubstringTests(o, |SUBSTRING_TESTS|)
    ensures RadiodBranchOf(o) == NAMES_AFTER_SUBSTRINGS[o]
  {
    assert !Contains(o, SUBSTRING_TESTS[0]) && !Contains(o, SUBSTRING_TESTS[1]) && !Contains(o, SUBSTRING_TESTS[2]);
    assert !Contains(o, SUBSTRING_TESTS[3]) && !Contains(o, SUBSTRING_TESTS[4]) && !Contains(o, SUBSTRING_TESTS[5]);
    assert !Contains(o, SUBSTRING_TESTS[6]) && !Contains(o, SUBSTRING_TESTS[7]) && !Contains(o, SUBSTRING_TESTS[8]);
  }

  /*
   * The names grouped a few at a time, so that each proof stays small:
   * every name of a group reaches the branch its table gives it.
   */
  lemma SwitchNameClaimed(o: string)
    requires o == "speech" || o == "verbose" || o == "speak_info" || o == "volume_display" ||
      o == "speech_volume" || o == "pull_up_down"
    ensures RadiodBranchOf(o) == NAMES_BEFORE_SWITCH[o]
  {
    if o == "speech" {
      SpeechUnclaimed(o);
    } else if o == "verbose" {
      VerboseUnclaimed(o);
    } else if o == "speak_info" {
      SpeakInfoUnclaimed(o);
    } else if o == "volume_display" {
      VolumeDisplayUnclaimed(o);
    } else if o == "speech_volume" {
      SpeechVolumeUnclaimed(o);
    } else {
      PullUpDownUnclaimed(o);
    }
    SwitchNameReached(o);
  }

  /** Every name tested between the `_color` and `_switch` tests reaches its own branch. */
  lemma SwitchNamesReachable()
    ensures forall o :: o in NAMES_BEFORE_SWITCH ==> RadiodBranchOf(o) == NAMES_BEFORE_SWITCH[o]
  {
    forall o | o in NAMES_BEFORE_SWITCH
      ensures RadiodBranchOf(o) == NAMES_BEFORE_SWITCH[o]
    {
      SwitchNameClaimed(o);
    }
  }

  lemma RgbNameClaimed(o: string)
    requires o == "rgb_red" || o == "rgb_green" || o == "rgb_blue"
    ensures RadiodBranchOf(o) == NAMES_AMONG_SUBSTRINGS[o]
  {
    if o == "rgb_red" {
      RgbRedUnclaimed(o);
    } else if o == "rgb_green" {
      RgbGreenUnclaimed(o);
    } else {
      RgbBlueUnclaimed(o);
    }
    RgbNameReached(o);
  }

  /** Every RGB LED name, tested after the `lcd_` test, reaches its own branch. */
  lemma RgbNamesReachable()
    ensures forall o :: o in NAMES_AMONG_SUBSTRINGS ==> RadiodBranchOf(o) == NAMES_AMONG_SUBSTRINGS[o]
  {
    forall o | o in NAMES_AMONG_SUBSTRINGS
      ensures RadiodBranchOf(o) == NAMES_AMONG_SUBSTRINGS[o]
    {
      RgbNameClaimed(o);
    }
  }

  lemma LateNameClaimedA(o: string)
    requires o == "rotary_class" || o == "rotary_gpio_pullup" || o == "rotary_step_size" ||
      o == "exit_action" || o == "log_creation_mode" || o == "shoutcast_key"
    ensures RadiodBranchOf(o) == NAMES_AFTER_SUBSTRINGS[o]
  {
    if o == "rotary_class" {
      RotaryClassUnclaimed(o);
    } else if o == "rotary_gpio_pullup" {
      RotaryGpioPullupUnclaimed(o);
    } else if o == "rotary_step_size" {
      RotaryStepSizeUnclaimed(o);
    } else if o == "exit_action" {
      ExitActionUnclaimed(o);
    } else if o == "log_creation_mode" {
      LogCreationModeUnclaimed(o);
    } else {
      ShoutcastKeyUnclaimed(o);
    }
    LateNameReached(o);
  }

  lemma LateNameClaimedB(o: string)
    requires o == "internet_check_url" || o == "internet_check_port" || o == "internet_timeout" ||
      o == "bluetooth_device" || o == "mute_action" || o == "update_playlists"
    ensures RadiodBranchOf(o) == NAMES_AFTER_SUBSTRINGS[o]
  {
    if o == "internet_check_url" {
      InternetCheckUrlUnclaimed(o);
    } else if o == "internet_check_port" {
      InternetCheckPortUnclaimed(o);
    } else if o == "internet_timeout" {
      InternetTimeoutUnclaimed(o);
    } else if o == "bluetooth_device" {
      BluetoothDeviceUnclaimed(o);
    } else if o == "mute_action" {
      MuteActionUnclaimed(o);
    } else {
      UpdatePlaylistsUnclaimed(o);
    }
    LateNameReached(o);
  }

  lemma LateNameClaimedC(o: string)
    requires o == "translate_lcd" || o == "language" || o == "controller" || o == "romanize" ||
      o == "audio_out" || o == "audio_config_locked"
    ensures RadiodBranchOf(o) == NAMES_AFTER_SUBSTRINGS[o]
  {
    if o == "translate_lcd" {
      TranslateLcdUnclaimed(o);
    } else if o == "language" {
      LanguageUnclaimed(o);
    } else if o == "controller" {
      ControllerUnclaimed(o);
    } else if o == "romanize" {
      RomanizeUnclaimed(o);
    } else if o == "audio_out" {
      AudioOutUnclaimed(o);
    } else {
      AudioConfigLockedUnclaimed(o);
    }
    LateNameReached(o);
  }

  lemma LateNameClaimedD(o: string)
    requires o == "comitup_ip" || o == "volume_rgb_i2c" || o == "channel_rgb_i2c" ||
      o == "shutdown_command" || o == "pivumeter" || o == "disco_light"
    ensures RadiodBranchOf(o) == NAMES_AFTER_SUBSTRINGS[o]
  {
    if o == "comitup_ip" {
      ComitupIpUnclaimed(o);
    } else if o == "volume_rgb_i2c" {
      VolumeRgbI2cUnclaimed(o);
    } else if o == "channel_rgb_i2c" {
      ChannelRgbI2cUnclaimed(o);
    } else if o == "shutdown_command" {
      ShutdownCommandUnclaimed(o);
    } else if o == "pivumeter" {
      PivumeterUnclaimed(o);
    } else {
      DiscoLightUnclaimed(o);
    }
    LateNameReached(o);
  }

  /** Every name tested after the last substring test reaches its own branch. */
  lemma LateNamesReachable()
    ensures forall o :: o in NAMES_AFTER_SUBSTRINGS ==> RadiodBranchOf(o) == NAMES_AFTER_SUBSTRINGS[o]
  {
    forall o | o in NAMES_AFTER_SUBSTRINGS
      ensures RadiodBranchOf(o) == NAMES_AFTER_SUBSTRINGS[o]
    {
      if o == "rotary_class" || o == "rotary_gpio_pullup" || o == "rotary_step_size" || o == "exit_action" || o == "log_creation_mode" || o == "shoutcast_key" {
        LateNameClaimedA(o);
      } else if o == "internet_check_url" || o == "internet_check_port" || o == "internet_timeout" || o == "bluetooth_device" || o == "mute_action" || o == "update_playlists" {
        LateNameClaimedB(o);
      } else if o == "translate_lcd" || o == "language" || o == "controller" || o == "romanize" || o == "audio_out" || o == "audio_config_locked" {
        LateNameClaimedC(o);
      } else {
        LateNameClaimedD(o);
      }
    }
  }

  /**
   * No exact name of the chain is shadowed: every name the chain tests
   * reaches the branch written for it, whatever substring tests and other
   * names come before it.
   */
  lemma NamesReachable()
    ensures forall o :: o in NAMES_BEFORE_COLOUR ==> RadiodBranchOf(o) == NAMES_BEFORE_COLOUR[o]
    ensures forall o :: o in NAMES_BEFORE_SWITCH ==> RadiodBranchOf(o) == NAMES_BEFORE_SWITCH[o]
    ensures forall o :: o in NAMES_AMONG_SUBSTRINGS ==> RadiodBranchOf(o) == NAMES_AMONG_SUBSTRINGS[o]
    ensures forall o :: o in NAMES_AFTER_SUBSTRINGS ==> RadiodBranchOf(o) == NAMES_AFTER_SUBSTRINGS[o]
  {
    SwitchNamesReachable();
    RgbNamesReachable();
    LateNamesReachable();
  }

  /** Among the names tested before the `_color` test, only "startup" selects the startup branch. */
  lemma StartupKeyedOnce(o: string)
    requires o in NAMES_BEFORE_COLOUR && NAMES_BEFORE_COLOUR[o] == StartupB
    ensures o == "startup"
  {
  }

  /** No name tested after the `_color` test selects the startup branch. */
  lemma LaterNamesNotStartup(o: string)
    ensures o in NAMES_BEFORE_SWITCH ==> NAMES_BEFORE_SWITCH[o] != StartupB
    ensures o in NAMES_AMONG_SUBSTRINGS ==> NAMES_AMONG_SUBSTRINGS[o] != StartupB
    ensures o in NAMES_AFTER_SUBSTRINGS ==> NAMES_AFTER_SUBSTRINGS[o] != StartupB
  {
  }

  /** "startup" is the one option that selects the startup branch. */
  lemma StartupNamedOnce(o: string)
    ensures RadiodBranchOf(o) == StartupB <==> o == "startup"
  {
    if o == "startup" {
      assert o in NAMES_BEFORE_COLOUR;
    } else if o in NAMES_BEFORE_COLOUR {
      if NAMES_BEFORE_COLOUR[o] == StartupB {
        StartupKeyedOnce(o);
      }
    } else {
      LaterNamesNotStartup(o);
      if !Contains(o, "_color") && o !in NAMES_BEFORE_SWITCH {
        var b := RadiodBranchOf(o);
        assert b in {SwitchB, DisplayWidthB, DisplayLinesB, ScrollSpeedB, CodepageB, LcdB, MenuSwitchB, DisplayTypeB, UnknownB}
          || (o in NAMES_AMONG_SUBSTRINGS && b == NAMES_AMONG_SUBSTRINGS[o])
          || (o in NAMES_AFTER_SUBSTRINGS && b == NAMES_AFTER_SUBSTRINGS[o]);
      }
    }
  }

  // ---------------------------------------------------------------------
  // What single branches do
  // ---------------------------------------------------------------------

  /** A branch writes its own part of the settings and leaves every other part as it was. */
  lemma BranchWritesOnlyItsPart(b: RadiodBranch, s: RadioSettings, o: string, p: string)
    ensures var r := RadiodApply(b, s, o, p);
            r.Ok? ==>
              (PartOf(b) != AudioPart ==> r.value.audio == s.audio)
              && (PartOf(b) != RemotePart ==> r.value.remote == s.remote)
              && (PartOf(b) != PlayerPart ==> r.value.player == s.player)
              && (PartOf(b) != DisplayPart ==> r.value.display == s.display)
              && (PartOf(b) != GpioPart ==> r.value.gpio == s.gpio)
              && (PartOf(b) != I2cPart ==> r.value.i2c == s.i2c)
              && (PartOf(b) != SystemPart ==> r.value.system == s.system)
    ensures RadiodApply(b, s, o, p).Raised? ==> PartOf(b) == PlayerPart
    ensures PartOf(b) == NoPart ==> RadiodApply(b, s, o, p) == Ok(s)
  {
  }

  /** Among the player branches only `startup` raises, and only for SPOTIFY. */
  lemma PlayerRaisesOnlyOnSpotify(b: RadiodBranch, pl: Player, p: string)
    ensures PlayerApply(b, pl, p).Raised? <==> b == StartupB && p == "SPOTIFY"
  {
  }

  /**
   * Only the startup branch raises, and only for SPOTIFY (the constant it
   * names does not exist): every other option of the RADIOD section is
   * applied without ending `getConfig`.
   */
  lemma OnlyStartupRaises(b: RadiodBranch, s: RadioSettings, o: string, p: string)
    ensures RadiodApply(b, s, o, p).Raised? <==> b == StartupB && p == "SPOTIFY"
  {
    PlayerRaisesOnlyOnSpotify(b, s.player, p);
    if PartOf(b) == PlayerPart {
      assert RadiodApply(b, s, o, p).Raised? <==> PlayerApply(b, s.player, p).Raised?;
    } else {
      assert RadiodApply(b, s, o, p).Ok?;
      assert b != StartupB;
    }
  }

  /** `volume_range`: a number is clamped to 10..100 and sets the step; anything else changes nothing. */
  lemma VolumeRangeOption(a: Audio, p: string)
    ensures var r := AudioApply(VolumeRangeB, a, p);
            (ParseInt(p, 10).None? ==> r == a)
            && (ParseInt(p, 10).Some? ==>
                  r == a.(volumeRange := r.volumeRange, volumeIncrement := r.volumeIncrement)
                  && 10 <= r.volumeRange <= 100 && r.volumeRange == Clamp(ParseInt(p, 10).value, 10, 100)
                  && r.volumeIncrement == VolumeIncrement(r.volumeRange))
  {
  }

  /** `client_timeout`: a number is clamped to 2..15. */
  lemma ClientTimeoutOption(pl: Player, p: string)
    ensures var r := PlayerApply(ClientTimeoutB, pl, p);
            r.Ok? && (ParseInt(p, 10).None? ==> r.value == pl)
            && (ParseInt(p, 10).Some? ==>
                  r.value == pl.(clientTimeout := r.value.clientTimeout)
                  && 2 <= r.value.clientTimeout <= 15
                  && (2 <= ParseInt(p, 10).value <= 15 ==> r.value.clientTimeout == ParseInt(p, 10).value))
  {
  }

  /** `i2c_address` (hexadecimal) changes only for a value above zero. */
  lemma I2cAddressOption(c: I2c, o: string, p: string)
    ensures var r := I2cApply(I2cAddressB, c, o, p);
            r == c || (ParseInt(p, 16).Some? && ParseInt(p, 16).value > 0
                       && r == c.(i2cAddress := ParseInt(p, 16).value))
    ensures ParseInt(p, 16).Some? && ParseInt(p, 16).value > 0 ==>
              I2cApply(I2cAddressB, c, o, p).i2cAddress == ParseInt(p, 16).value
  {
  }

  /** `i2c_bus` changes only for a value above zero, so a bus above zero stays above zero. */
  lemma I2cBusOption(c: I2c, o: string, p: string)
    ensures var r := I2cApply(I2cBusB, c, o, p);
            r == c || (ParseInt(p, 10).Some? && ParseInt(p, 10).value > 0
                       && r == c.(i2cBus := ParseInt(p, 10).value))
    ensures c.i2cBus > 0 ==> I2cApply(I2cBusB, c, o, p).i2cBus > 0
  {
  }

  /** `pull_up_down`: "up" selects UP, anything else DOWN. */
  lemma PullUpDownOption(g: Gpio, o: string, p: string)
    ensures var r := GpioApply(PullUpDownB, g, o, p);
            r == g.(pullUpDown := r.pullUpDown)
            && (r.pullUpDown == Constants.UP <==> p == "up")
            && r.pullUpDown in {Constants.UP, Constants.DOWN}
  {
  }

  /**
   * A switch option stores its number in the switch table under the
   * option's own name; a parameter that is not a number changes nothing.
   */
  lemma SwitchOption(g: Gpio, o: string, p: string)
    ensures var r := GpioApply(SwitchB, g, o, p);
            r == g.(switches := r.switches)
            && r.switches.Keys <= g.switches.Keys + {o}
            && (ParseInt(p, 10).Some? ==> o in r.switches && r.switches[o] == ParseInt(p, 10).value
                                          && forall k :: k in g.switches && k != o ==> k in r.switches && r.switches[k] == g.switches[k])
            && (ParseInt(p, 10).None? ==> r == g)
  {
  }

  /** `codepage`: accepted only in 0..4. */
  lemma CodepageOption(d: Display, p: string)
    ensures var n := ParseInt(p, 10);
            var r := DisplayApply(CodepageB, d, p);
            if n.Some? && 0 <= n.value <= 4 then r == d.(codepage := n.value) else r == d
  {
  }

  /** `rotary_class`: the three named classes, STANDARD for anything else. */
  lemma RotaryClassOption(g: Gpio, o: string, p: string)
    ensures var r := GpioApply(RotaryClassB, g, o, p);
            r == g.(rotaryClass := r.rotaryClass)
            && (p == "alternative" ==> r.rotaryClass == ALTERNATIVE)
            && (p == "rgb_rotary" ==> r.rotaryClass == RGB_ROTARY)
            && (p == "rgb_i2c_rotary" ==> r.rotaryClass == RGB_I2C_ROTARY)
            && (p !in {"alternative", "rgb_rotary", "rgb_i2c_rotary"} ==> r.rotaryClass == STANDARD)
  {
  }

  /** `exit_action`: "shutdown" shuts the system down on exit, "stop_radio" only stops; any other value is a command to run. */
  lemma ExitActionOption(y: System, p: string)
    ensures var r := SystemApply(ExitActionB, y, p);
            r == y.(shutdown := r.shutdown, execute := r.execute)
            && (r.shutdown <==> p == "shutdown")
            && (p != "stop_radio" && p != "shutdown" ==> r.execute == p)
            && (p == "stop_radio" || p == "shutdown" ==> r.execute == y.execute)
  {
  }

  /** `mute_action`: "pause" and "stop" select the action; any other value keeps the current one. */
  lemma MuteActionOption(a: Audio, p: string)
    ensures var r := AudioApply(MuteActionB, a, p);
            r == a.(muteAction := r.muteAction)
            && (p == "pause" ==> r.muteAction == Constants.PAUSE)
            && (p == "stop" ==> r.muteAction == Constants.STOP)
            && (p != "pause" && p != "stop" ==> r == a)
  {
  }

  /** `audio_out`: stored without its surrounding double quotes. */
  lemma AudioOutOption(a: Audio, p: string)
    ensures var r := AudioApply(AudioOutB, a, p);
            r == a.(audioOut := r.audioOut)
            && (r.audioOut == [] || (r.audioOut[0] != '"' && r.audioOut[|r.audioOut| - 1] != '"'))
    ensures AudioApply(AudioOutB, a, "\"hdmi\"") == a.(audioOut := "hdmi")
  {
    QuotedHdmi();
  }

  lemma QuotedHdmi()
    ensures StripQuotes("\"hdmi\"") == "hdmi"
  {
    var q := "\"hdmi\"";
    assert q[1..] == "hdmi\"";
    assert LStripChar(q[1..], '"') == "hdmi\"";
    assert LStripChar(q, '"') == "hdmi\"";
    var h := "hdmi\"";
    assert h[..4] == "hdmi";
    assert RStripChar(h[..4], '"') == "hdmi";
    assert RStripChar(h, '"') == "hdmi";
  }

  /** `mixer_preset` (or its old name `mixer_volume`): a number is clamped to 0..100. */
  lemma MixerPresetOption(s: RadioSettings, p: string, installed: bool)
    ensures var r := AirplayOption(s, "mixer_preset", p, installed);
            (ParseInt(p, 10).None? ==> r == s)
            && (ParseInt(p, 10).Some? ==> r == s.(audio := s.audio.(mixerPreset := Clamp(ParseInt(p, 10).value, 0, 100))))
    ensures AirplayOption(s, "mixer_volume", p, installed) == AirplayOption(s, "mixer_preset", p, installed)
    ensures AirplayOption(s, "airplay", p, installed).audio.airplay <==> p == "yes" && installed
  {
  }

  /** `stations_per_page` is capped at 50. */
  lemma StationsPerPageOption(sc: ScreenSettings, p: string, paths: set<string>)
    ensures var r := ScreenApply(StationsPerPageB, sc, p, paths);
            r.Ok? && r.value == sc.(stationsPerPage := r.value.stationsPerPage)
            && (ParseInt(p, 10).None? ==> r.value == sc)
            && (ParseInt(p, 10).Some? ==> r.value.stationsPerPage <= 50
                                          && (ParseInt(p, 10).value <= 50 ==> r.value.stationsPerPage == ParseInt(p, 10).value))
  {
  }

  /** `screen_saver` must be a number, or `getConfig` ends. */
  lemma ScreenSaverOption(sc: ScreenSettings, p: string, paths: set<string>)
    ensures ScreenApply(ScreenSaverB, sc, p, paths).Raised? <==> ParseInt(p, 10).None?
    ensures ParseInt(p, 10).Some? ==> ScreenApply(ScreenSaverB, sc, p, paths) == Ok(sc.(screenSaver := ParseInt(p, 10).value))
  {
  }

  /** `screen_size`: anything but "<width>x<height>" raises and ends `getConfig`. */
  lemma ScreenSizeOption(sc: ScreenSettings, p: string, paths: set<string>)
    ensures ScreenApply(ScreenSizeB, sc, p, paths).Raised? <==> ScreenSize(p).Raised?
    ensures ScreenSize(p).Ok? ==> ScreenApply(ScreenSizeB, sc, p, paths) == Ok(sc.(screenSize := ScreenSize(p).value))
    ensures 'x' !in p ==> ScreenSize(p).Raised?
  {
    if 'x' !in p {
      SplitAbsent(p, 'x');
    }
  }

  /** Only the `screen_size` and `screen_saver` branches can raise. */
  lemma OnlySizeAndSaverRaise(b: ScreenBranch, sc: ScreenSettings, p: string, paths: set<string>)
    ensures ScreenApply(b, sc, p, paths).Raised? ==> b == ScreenSizeB || b == ScreenSaverB
  {
  }

  /** The three names of the SCREEN options the lemmas above are about, and the two names of the date format. */
  lemma ScreenNames()
    ensures ScreenBranchOf("screen_size") == ScreenSizeB && ScreenBranchOf("screen_saver") == ScreenSaverB
    ensures ScreenBranchOf("stations_per_page") == StationsPerPageB
    ensures ScreenBranchOf("dateformat") == ScreenBranchOf("graphic_dateformat") == GraphicDateFormatB
  {
    assert SCREEN_NAMES["screen_size"] == ScreenSizeB;
    assert SCREEN_NAMES["screen_saver"] == ScreenSaverB;
    assert SCREEN_NAMES["stations_per_page"] == StationsPerPageB;
    assert SCREEN_NAMES["dateformat"] == GraphicDateFormatB;
  }

  // ---------------------------------------------------------------------
  // Label lookups
  // ---------------------------------------------------------------------

  /** A dictionary lookup that answers `default` for a key it does not hold. */
  function LookupOr(m: map<string, int>, key: string, default: int): (r: int)
    ensures key in m ==> r == m[key]
    ensures key !in m ==> r == default
  {
    if key in m then m[key] else default
  }

  class Configuration {
    var settings: Settings
    /** Every option read, with its parameter. */
    var configOptions: map<string, string>
    /** The last switch GPIO looked up. */
    var switchGpio: int

    /** The class defaults, before the file is read. */
    constructor ()
      ensures settings == Settings(DEFAULT_RADIO, DEFAULT_SCREEN) && configOptions == map[] && switchGpio == 0
    {
      settings := Settings(DEFAULT_RADIO, DEFAULT_SCREEN);
      configOptions := map[];
      switchGpio := 0;
    }

    /** One section of `getConfig`: returns false when an option's branch raised. */
    method ReadSection(sec: Section, entries: seq<(string, string)>, host: Host) returns (ok: bool)
      modifies this`settings, this`configOptions
      ensures (settings, configOptions, ok) == ReadEntries(SectionStep(sec, host), old(settings), old(configOptions), entries)
    {
      ok := ReadOptions(SectionStep(sec, host), entries);
    }

    /** The loop over a section's options, each handed to `step` in turn. */
    method ReadOptions(step: (Settings, string, string) -> Result<Settings>, entries: seq<(string, string)>)
      returns (ok: bool)
      modifies this`settings, this`configOptions
      ensures (settings, configOptions, ok) == ReadEntries(step, old(settings), old(configOptions), entries)
    {
      var i := 0;
      while i < |entries|
        invariant 0 <= i <= |entries|
        invariant ReadEntries(step, old(settings), old(configOptions), entries)
                  == ReadEntries(step, settings, configOptions, entries[i..])
      {
        var o := Lower(entries[i].0);
        var p := entries[i].1;
        assert entries[i..][0] == entries[i] && entries[i..][1..] == entries[i + 1..];
        configOptions := configOptions[o := p];
        var r := step(settings, o, p);
        if r.Raised? {
          return false;
        }
        settings := r.value;
        i := i + 1;
      }
      return true;
    }

    /** `getConfig`: each section present is read in turn; a branch that raises ends the reading. */
    method GetConfig(radiod: Option<seq<(string, string)>>, airplay: Option<seq<(string, string)>>,
                     screen: Option<seq<(string, string)>>, host: Host) returns (ok: bool)
      modifies this`settings, this`configOptions
      ensures (settings, configOptions, ok)
              == GetConfigSpec(old(settings), old(configOptions), radiod, airplay, screen, host)
    {
      ok := true;
      if radiod.Some? {
        ok := ReadSection(Radiod, radiod.value, host);
        if !ok {
          return;
        }
      }
      if airplay.Some? {
        ok := ReadSection(Airplay, airplay.value, host);
        if !ok {
          return;
        }
      }
      if screen.Some? {
        ok := ReadSection(Screen, screen.value, host);
      }
    }

    /**
     * `getSwitchGpio(key)`: the switch's GPIO, remembered; an unknown
     * key is reported and the previously remembered GPIO is returned.
     */
    method GetSwitchGpio(key: string) returns (g: int)
      modifies this`switchGpio
      ensures key in settings.radio.gpio.switches ==> g == settings.radio.gpio.switches[key]
      ensures key !in settings.radio.gpio.switches ==> g == old(switchGpio)
      ensures switchGpio == g
    {
      if key in settings.radio.gpio.switches {
        switchGpio := settings.radio.gpio.switches[key];
      }
      g := switchGpio;
    }

    /** `getLcdGpio(key)`: -1 for an unknown key. */
    function GetLcdGpio(key: string): (g: int)
      reads this
      ensures g == LookupOr(settings.radio.gpio.lcdConnects, key, -1)
    {
      LookupOr(settings.radio.gpio.lcdConnects, key, -1)
    }

    /** `getRgbLed(key)`: -1 for an unknown key. */
    function GetRgbLed(key: string): (g: int)
      reads this
      ensures g == LookupOr(settings.radio.gpio.rgbLeds, key, -1)
    {
      LookupOr(settings.radio.gpio.rgbLeds, key, -1)
    }

    /** `getMenuSwitch(key)`: -1 for an unknown key. */
    function GetMenuSwitch(key: string): (g: int)
      reads this
      ensures g == LookupOr(settings.radio.gpio.menuSwitches, key, -1)
    {
      LookupOr(settings.radio.gpio.menuSwitches, key, -1)
    }

    /** `getUserInterfaceName()`. */
    function GetUserInterfaceName(): (n: Option<string>)
      reads this
      ensures n == UserInterfaceName(settings.radio.display.userInterface)
    {
      UserInterfaceName(settings.radio.display.userInterface)
    }

    /** `getDisplayName()`. */
    function GetDisplayName(): (n: Option<string>)
      reads this
      ensures n == DisplayName(settings.radio.display.displayType, settings.radio.display.lumaDevice)
    {
      DisplayName(settings.radio.display.displayType, settings.radio.display.lumaDevice)
    }

    /** The `shutdown_command` property: the command as configured, without surrounding double quotes. */
    function ShutdownCommand(): (c: string)
      reads this
      ensures c == StripQuotes(settings.radio.system.shutdownCommand)
    {
      StripQuotes(settings.radio.system.shutdownCommand)
    }
  }
}
