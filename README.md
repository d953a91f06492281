# radiod input and configuration core, in Dafny

This project models the core of the Raspberry Pi internet radio `radiod`:

- **The pending-event register** (`Events`, event_class.py). It has one slot, `(event_type, event_triggered)`. The input callbacks fill the slot and the main loop polls and clears it. Callbacks are:
  - rotary encoder signals → `volume_event`, `tuner_event`;
  - push-button GPIO numbers → `button_event`;
  - Telefunken front switches → `switch_event`;
  - the rotary menu switch → `rotary_switch_event`.
- **Menu hold-to-shutdown loop.** It is a countdown over a sequence of pressed/released samples.
- **Buttons and switches:**
  - **Button** (`ButtonClass`): the pull mode chooses the resistor and the edge. `pressed()` is a pure function of mode and level. The edge handler forwards the button's own GPIO number.
  - **Switch** (`SwitchClass`): a latching switch. Its edge handler accepts a change only after a stable time, and its reported history is kept as an invariant.
  - **Rotary switch** (`RotarySwitchClass`): three active-low lines read as a value 0..7.
  - **TeleButtons** (`TeleButtons`): the five positional accessors.
- **Output state machines.** The disco light relay (`DiscoLightClass`) and the RGB status LED (`StatusLedClass`). GPIO writes are updates to a pin → level map.
- **Log** (`LogClass`): the level names, the gate and de-duplication of `message`, the report of a missing configuration section, and the console colour choice.
- **Configuration** (`Config`, config_class.py):
  - the settings held by `Configuration`;
  - the clamping and translating setters;
  - the key lookups with their sentinels;
  - `getConfig`.

  `getConfig` reads the RADIOD, AIRPLAY and SCREEN sections. Each option goes to the first branch of a long `if`/`elif` chain that claims it. The chain mixes exact names with substring tests, and the model keeps them in the order they are written.
- **Shoutcast playlist builder** (`Shoutcast`, get_shoutcast.py):
  - `parseTitle` and `capitalize`;
  - the `.pls` scan in `getStationUrl` that builds an M3U entry, with `File` lines read as written or corrected;
  - the search-value and playlist-name encoding.

`Wrappers` holds `Option` and `Result`. `Result.Raised` stands for a Python exception that escapes. `Text` holds the Python string operations the source relies on:
- `split`, `join`, `replace`, `strip`, `lower`/`upper` on ASCII;
- `int()` parsing;
- negative indexing.

`Constants` holds the package constants UP, DOWN, PAUSE, STOP and the GPIO library values used here.

Hardware, time and I/O become parameters:
- levels read from a line are `bool` arguments or a `int -> bool` map;
- clock readings are integer ticks;
- a fetched file is a sequence of lines, or None when the request failed;
- the configuration file is each section's list of `(option, parameter)` pairs, or None for a missing section;
- the two facts `getConfig` takes from the file system are a `Host` value: whether the AirPlay binary exists and which wallpaper paths exist.

## Model

| member | source | states |
|---|---|---|
| ButtonClass.ResistorFor | button_class.py:54-61 | pull-down exactly when the mode is DOWN; every other mode value gets the pull-up |
| ButtonClass.EdgeFor | button_class.py:54-61 | the rising edge exactly when the mode is DOWN, the falling edge otherwise |
| ButtonClass.IsPressed | button_class.py:96-105 | pressed iff the line is low when the mode is UP, and iff it is high for any other mode |
| ButtonClass.PressedAgreesWithWiring | button_class.py:54-105 | for UP and DOWN the resting line is not pressed and the detected edge lands on the pressed level; for any other mode value the resting line reads pressed |
| ButtonClass.DefaultPullSelectsPullUp | button_class.py:30-105 | the default mode (the library's PUD_DOWN, not DOWN) wires pull-up and falling edge, and a resting line then reads pressed |
| ButtonClass.Button.constructor | button_class.py:29-80 | mode, GPIO and bounce time (default 200) are kept; only a GPIO above zero gets a resistor and an edge, chosen as above |
| ButtonClass.Button.Pressed | button_class.py:96-105 | a read-only poll equal to IsPressed for the button's mode |
| ButtonClass.Button.ButtonEvent | button_class.py:89-93 | the callback receives the button's configured GPIO, whatever channel is reported; one notification per call |
| SwitchClass.Logical | switch.py:65-90 | the logical state differs from the raw level exactly when the logic is inverted |
| SwitchClass.Switch.constructor | switch.py:24-69 | the state is the (inverted) reading, the creation time is the last change time, nothing is reported yet, and the history invariant holds |
| SwitchClass.Switch.ButtonEvent | switch.py:78-110 | a reading that differs from the state at least `stable_time` after the last change updates state and time and is reported once as (channel, state); any other reading changes nothing; reports alternate and are `stable_time` apart (kept invariant) |
| SwitchClass.Switch.GetState | switch.py:112-121 | the state of the last report, or the initial reading when none |
| RotarySwitchClass.Value | rotary_switch_class.py:69-77 | the value is in 0..7 and its three bits are set exactly for the low lines 1, 2 and 4 |
| RotarySwitchClass.Levels | rotary_switch_class.py:69-77 | the line levels that read as a value (LevelsRoundTrip) |
| RotarySwitchClass.LevelsRoundTrip | rotary_switch_class.py:69-77 | every value 0..7 is read from exactly one pattern of line levels |
| RotarySwitchClass.ValueRoundTrip | rotary_switch_class.py:70-76 | distinct level patterns give distinct values |
| RotarySwitchClass.Register | rotary_switch_class.py:49-65 | the edge registration loop over the three lines (RegisterSound) |
| RotarySwitchClass.RegisterSound | rotary_switch_class.py:49-65 | edge detection is registered only on lines above zero, and a setup failure is reported for a line above zero rather than propagated |
| RotarySwitchClass.RotarySwitch.constructor | rotary_switch_class.py:31-66 | only lines above zero are pulled up, and registration stops at the first failing line |
| RotarySwitchClass.RotarySwitch.Get | rotary_switch_class.py:69-77 | the value read from the three lines' levels, in 0..7 |
| TeleButtons.At | telefunken_buttons.py:28-51 | position k of the stored buttons, or None (IndexError) past the end |
| TeleButtons.Off | telefunken_buttons.py:28-31 | the first button (NamesAreFirstFive) |
| TeleButtons.Fip | telefunken_buttons.py:33-36 | the second button (NamesAreFirstFive) |
| TeleButtons.Spotify | telefunken_buttons.py:38-41 | the third button (NamesAreFirstFive) |
| TeleButtons.Unused | telefunken_buttons.py:43-46 | the fourth button (NamesAreFirstFive) |
| TeleButtons.Disco | telefunken_buttons.py:48-51 | the fifth button (NamesAreFirstFive) |
| TeleButtons.NamesAreFirstFive | telefunken_buttons.py:24-51 | with five buttons or more, off, fip, spotify, unused and disco are the first five in order; with none, off raises |
| DiscoLightClass.SetEffect | disco_light.py:31-48 | status and pins after `set` (SetKeepsLightInSync, SetIdempotent) |
| DiscoLightClass.SetKeepsLightInSync | disco_light.py:31-48 | set keeps the light's line driven to its status, touches no other line, gets a valid request on a usable line into that status, and changes nothing for an invalid request, a repeated status or a negative line |
| DiscoLightClass.SetIdempotent | disco_light.py:33-34 | repeating a request changes nothing |
| DiscoLightClass.AsWrittenCreationLeavesLineUndriven | disco_light.py:15-34 | as written, creation's switch-off is dropped and the line is never driven |
| DiscoLightClass.DiscoLight.constructor | disco_light.py:17-25 | the status is OFF and a line above zero is configured and driven low |
| DiscoLightClass.DiscoLight.Set | disco_light.py:31-48 | returns the request on every path; status and pins change as SetEffect says, and the in-sync invariant is kept |
| DiscoLightClass.DiscoLight.Get | disco_light.py:50-52 | the status is OFF or ON and agrees with the line's level |
| StatusLedClass.SetEffect | status_led_class.py:53-79 | status and pins after `set` (SetLightsColours, AllDrivesUncheckedLines) |
| StatusLedClass.SetLightsColours | status_led_class.py:53-79 | on three usable distinct lines, a new status lights exactly its colours (NORMAL green, BUSY blue, ERROR red, SELECT green and red, ALL all three, others none) and leaves every other line alone |
| StatusLedClass.AllDrivesUncheckedLines | status_led_class.py:74-77 | ALL drives the red and blue lines high whenever green is above zero, without checking them |
| StatusLedClass.StatusLed.constructor | status_led_class.py:35-50 | the status starts unset (-1), and only lines above zero become outputs |
| StatusLedClass.StatusLed.Set | status_led_class.py:53-79 | returns the new status; the current status writes nothing, and a new one resets and lights as SetEffect says |
| StatusLedClass.StatusLed.Get | status_led_class.py:82-83 | on usable distinct lines, the lit lines are the status's colours |
| LogClass.LevelFromName | log_class.py:131-145 | the six names map to 50, 40, 30, 20, 10 and 0; any other text maps to INFO |
| LogClass.LevelName | log_class.py:131-145 | the name of each level; LevelNamesRoundTrip ties it to LevelFromName |
| LogClass.LevelNamesRoundTrip | log_class.py:36-145 | every level has a name that maps back to it, and every name maps to one of the six levels |
| LogClass.ConfiguredLevel | log_class.py:117-145 | a missing section gives INFO; a missing option raises; otherwise the option's name is mapped |
| LogClass.MessageEffect | log_class.py:71-100 | the gate of `message`: NONE, a repeated text or a failing handler change nothing; otherwise the message becomes the last one and is written when its level passes (DuplicateMessagesWrittenOnce, DroppedMessagesChangeNothing) |
| LogClass.DuplicateMessagesWrittenOnce | log_class.py:73-96 | a handled message becomes the last message and is written at most once; repeating it changes nothing |
| LogClass.SectionMissingReported | log_class.py:125-129 | the missing-section report is never held back as a repeat: it becomes the last message, reaches the file iff ERROR passes the level in force, and the next text is handled |
| LogClass.DroppedMessagesChangeNothing | log_class.py:73-99 | a NONE-level message, or one whose write fails, changes neither the last message nor the file |
| LogClass.ColourCode | log_class.py:163-174 | the colour table; ColourCodes and ColoursDistinct state its use and that the colours differ |
| LogClass.ColourCodes | log_class.py:182-189 | the codes are set iff colour is on and the level is one of the five, and then end with the reset code |
| LogClass.ColoursDistinct | log_class.py:163-174 | the five levels have five different colour codes |
| LogClass.Log.constructor | log_class.py:43-48 | no module name, level INFO, no last message |
| LogClass.Log.Init | log_class.py:50-145 | the module name is set and the level is the configured one, unless the lookup raised; a missing section is first reported at ERROR under the old level, as MessageEffect says |
| LogClass.Log.GetName | log_class.py:67-69 | the module name |
| LogClass.Log.Message | log_class.py:71-100 | last message and file change as MessageEffect says |
| LogClass.Log.Report | log_class.py:71-100 | last message and file change as MessageEffect says, for a text or the missing-section report |
| LogClass.Log.SetLevel | log_class.py:108-110 | the level read back is the level set |
| LogClass.Log.GetLevel | log_class.py:113-114 | the current level |
| Events.EveryEventHasName | event_class.py:64-160 | every event code has a name, and exactly the codes -31..DISCO do; the Telefunken codes OFF, FIP and SPOTIFY report SHUTDOWN, LOAD_RADIO and LOAD_SPOTIFY, so the names OFF, FIP and SPOTIFY belong to no event code |
| Events.EncoderNames | event_class.py:162-371 | a signal has a name exactly in -5..4, and the four signals have their own names |
| Events.VolumeCode | event_class.py:209-232 | the volume knob's signal → event table (KnobCodes) |
| Events.TunerCode | event_class.py:235-268 | the tuning knob's signal → event table (KnobCodes) |
| Events.KnobCodes | event_class.py:209-268 | each knob maps exactly the four signals 1..4, to four different events |
| Events.FirstMatchSpec | event_class.py:278-316 | the first-match lookup finds nothing iff no line matches, and what it finds is a matching entry |
| Events.ButtonCode | event_class.py:271-317 | the button chain written as it stands (ButtonCodeIsFirstMatch, ButtonChainIsTable) |
| Events.ButtonCodeIsFirstMatch | event_class.py:271-317 | the button chain is the first match in the table right, left, mute, up, down, menu, aux1..3 |
| Events.DictOf | event_class.py:199-205 | a dict display built entry by entry (DictOfLastWins) |
| Events.DictOfLastWins | event_class.py:199-205 | a dict display holds exactly the listed keys, each with a value listed for it, and a repeated key keeps its last value |
| Events.TelefunkenStores | event_class.py:199-205 | the Telefunken table is the five entries stored in their listed order, a later line overriding an earlier equal one |
| Events.ButtonChainIsTable | event_class.py:278-316 | the if/elif chain over the button lines is the first-match lookup in the button table |
| Events.TelefunkenTableDistinct | event_class.py:112-205 | with five distinct lines the table maps off, fip, spotify, unused and disco to 25, 15, 19, 29 and 30, and nothing else |
| Events.DefaultTelefunkenLines | event_class.py:165-180 | the default Telefunken lines are five distinct lines, none of them a volume knob line |
| Events.HoldToShutdown | event_class.py:253-304 | shutdown iff the first 16 polls all read pressed; the loop stops at the first release |
| Events.SwitchEffect | event_class.py:666-696 | the register change of a Telefunken switch edge (TelefunkenPresses, Event.SwitchEvent) |
| Events.TelefunkenPresses | event_class.py:666-696 | on the register's table, a press on a Telefunken line raises its event; a release or an unknown line withdraws the flag and keeps the type |
| Events.Event.constructor | event_class.py:192-205 | nothing pending and the Telefunken table built from the configured lines |
| Events.Event.SetupRotarySwitch | event_class.py:456-466 | the rotary switch is created only when its three lines are all above zero |
| Events.Event.Set | event_class.py:333-336 | the event is pending with the given type, which is returned |
| Events.Event.Detected | event_class.py:349-350 | whether an event is pending |
| Events.Event.GetType | event_class.py:353-354 | the pending type |
| Events.Event.GetName | event_class.py:366-367 | the type's name, None where the lookup raises |
| Events.Event.Clear | event_class.py:357-363 | nothing pending and type NO_EVENT, unless looking up the name of a pending unnamed type raises, which changes nothing |
| Events.Event.Play | event_class.py:339-340 | the play number is stored |
| Events.Event.GetPlayNumber | event_class.py:343-346 | returns the stored number and resets it to 0 |
| Events.Event.GetRotarySwitch | event_class.py:329-330 | the last rotary switch value |
| Events.Event.VolumeEvent | event_class.py:209-232 | the four signals raise VOLUME_UP, VOLUME_DOWN, MUTE_BUTTON_DOWN and MUTE_BUTTON_UP; another named signal leaves nothing pending with NO_EVENT; an unnamed one raises (KeyError) after resetting the type |
| Events.Event.TunerEvent | event_class.py:235-268 | the same mapping to CHANNEL_UP, CHANNEL_DOWN, MENU_BUTTON_DOWN and MENU_BUTTON_UP, the menu press becoming SHUTDOWN after a 16-poll hold; an unnamed signal raises; the returned type is the pending one |
| Events.Event.ButtonEvent | event_class.py:271-317 | pending iff the line is in the chain; the first match decides, the menu button subject to the hold; an unmatched line keeps the type |
| Events.Event.SwitchEvent | event_class.py:666-696 | the register changes as SwitchEffect says: knob lines change nothing, a release or unknown line withdraws the flag, a press raises the table's event |
| Events.Event.RotarySwitchEvent | event_class.py:320-326 | the switch value is read (0..7) and ROTARY_SWITCH_CHANGED is pending |
| Events.Event.LeftButtonPressed | event_class.py:374-381 | returns the live reading; a press raises VOLUME_DOWN, otherwise and without a button nothing changes |
| Events.Event.RightButtonPressed | event_class.py:384-391 | the same with VOLUME_UP |
| Events.LastWriteWins | event_class.py:333-336 | of two events set before the main loop polls, the later one is pending |
| Shoutcast.Capitalize | get_shoutcast.py:182-184 | lower, split on spaces, upper-case each piece's first character, join; CapitalizeMatchesSpec gives its meaning |
| Shoutcast.CapitalizeSpec | get_shoutcast.py:182-184 | the reference definition: a character at the start or after a space is upper-cased, every other one lower-cased |
| Shoutcast.CapitalizeMatchesSpec | get_shoutcast.py:182-184 | `capitalize` (lower, split on spaces, upper-case each piece's first character, join) equals the reference definition |
| Shoutcast.CapitalizeKeepsShape | get_shoutcast.py:182-184 | the length is kept, every character that is not an ASCII letter stays in place, letters stay letters |
| Shoutcast.CapitalizeIdempotent | get_shoutcast.py:182-184 | capitalising twice is capitalising once |
| Shoutcast.CutAt | get_shoutcast.py:156-167 | the text before the first cut character: a prefix without it |
| Shoutcast.CutTitle | get_shoutcast.py:156-167 | the cuts leave none of `|`, `-`, `(` and `/` and add no character |
| Shoutcast.DropMarks | get_shoutcast.py:169-172 | the deletions leave none of `:`, `*`, `"` and `!` and add no character |
| Shoutcast.Clean | get_shoutcast.py:156-179 | the cleaning steps of parseTitle after the tag; CleanIsClean and CleanKeepsCleanTitle state what it gives |
| Shoutcast.CleanIsClean | get_shoutcast.py:156-179 | the cleaned title is never empty, has no white space at either end and none of the nine removed characters |
| Shoutcast.ParseTitle | get_shoutcast.py:152-180 | parseTitle, None for the IndexError; ParseTitleFails, ParseTitleDropsTag and ParseTitleIsClean state it |
| Shoutcast.ParseTitleFails | get_shoutcast.py:153-155 | parseTitle raises exactly on a title starting `(#` with no `)` |
| Shoutcast.ParseTitleDropsTag | get_shoutcast.py:153-155 | a leading `(#…)` tag is dropped: what is cleaned is the text up to the next `)`, or all of the rest when it has none |
| Shoutcast.CleanKeepsCleanTitle | get_shoutcast.py:152-179 | a title already clean, capitalised and free of `..` comes back unchanged |
| Shoutcast.ParseTitleIsClean | get_shoutcast.py:152-179 | every title parseTitle returns is clean |
| Shoutcast.FileUrlAsWritten | get_shoutcast.py:127-128 | the address as the source unpacks it: only a line with exactly one `=` gives one (AsWrittenFileUrlLosesQuery) |
| Shoutcast.FileUrl | get_shoutcast.py:127-128 | the corrected address: everything after the first `=` (FileUrlRoundTrip) |
| Shoutcast.FileUrlRoundTrip | get_shoutcast.py:127-128 | a `key=address` line yields the whole address |
| Shoutcast.AsWrittenFileUrlLosesQuery | get_shoutcast.py:127-128 | as written, an address containing `=` is lost |
| Shoutcast.ReadFileUrl | get_shoutcast.py:127-128 | a `File` line read as written or corrected, as the scan is asked to |
| Shoutcast.AsWrittenScanKeepsOldAddress | get_shoutcast.py:120-147 | as written, a `File` line whose address holds `=` leaves the scan's address as it was; corrected, the scan goes on with the whole address |
| Shoutcast.Scan | get_shoutcast.py:120-147 | the loop over the `.pls` lines: `File` lines set the address, the first parsed `Title1` line builds the entry (ScanEntryShape) |
| Shoutcast.ScanPassesLine | get_shoutcast.py:125-135 | a line that gives no title only moves the address (a readable `File` line) and the raw title on |
| Shoutcast.ScanStopsAtTitle | get_shoutcast.py:129-142 | a `Title1` line whose title parses ends the scan with its entry and the current address |
| Shoutcast.TitleIsClean | get_shoutcast.py:133-135 | the title a `Title1` line gives is clean |
| Shoutcast.LastAddressIsLastFile | get_shoutcast.py:126-128 | the address after some lines is that of the last readable `File` line among them, or the starting one when there is none |
| Shoutcast.ScanWithoutTitle | get_shoutcast.py:120-147 | when no line gives a title, no entry is built |
| Shoutcast.ScanBuildsFirstTitle | get_shoutcast.py:120-142 | the scan returns the title of the first line that gives one, with the address read up to that line |
| Shoutcast.ScanEntryShape | get_shoutcast.py:120-149 | an entry is built iff some `Title1` line's title parses; it is `#EXTM3U`, `#EXTINF:-1,` plus the first such title, which is clean, and the address of the last readable `File` line before it, or the starting one |
| Shoutcast.GetStationUrl | get_shoutcast.py:107-149 | a failed request returns an empty title and builds nothing; otherwise title and entry are those of the scan, with `File` lines read as written or corrected |
| Shoutcast.SearchValue | get_shoutcast.py:312-313 | the encoded search value has no space and no `&` |
| Shoutcast.SearchValueStep | get_shoutcast.py:312-313 | the encoding of the empty value is empty; otherwise the first character is encoded on its own (space to `+`, `&` to `%26`, any other kept) followed by the encoding of the rest |
| Shoutcast.SearchValueMatchesSpec | get_shoutcast.py:312-313 | the two replacements equal the character-by-character encoding, for every value |
| Shoutcast.PlaylistPath | get_shoutcast.py:318-332 | the path has the length of store, name and `.m3u` together, with `_` at each position holding `+` and every other character kept, so it has no `+` |
| Shoutcast.EncodedName | get_shoutcast.py:312-332 | turning `+` into `_` in the encoded value maps each searched character on its own: space and `+` to `_`, `&` to `%26`, any other kept |
| Shoutcast.PathKeepsStore | get_shoutcast.py:332 | turning `+` into `_` leaves the store directory and `.m3u` as they are |
| Shoutcast.SearchPlaylistName | get_shoutcast.py:312-332 | a station or genre search names the playlist in the store, after the search with space and `+` as `_`, `&` as `%26` and every other character kept; the name has no white space or `&` |
| Config.ConvertYesNo | config_class.py:796-800 | true exactly for "yes" |
| Config.ConvertOnOff | config_class.py:802-806 | true exactly for "on" |
| Config.FlagWords | config_class.py:796-806 | the conversions are case-sensitive and no word is true for both |
| Config.Clamp | config_class.py:957-964 | the result is in range, equals the value inside it, and the nearer bound outside |
| Config.ClampSettles | config_class.py:957-964 | clamping is idempotent and monotone |
| Config.VolumeIncrement | config_class.py:348 | the step 1..10 is the largest with step × range ≤ 100 |
| Config.VolumeRange | config_class.py:339-350 | the range is the clamped number, the step is its increment, and nothing else changes |
| Config.UserInterfaceCode | config_class.py:1158-1173 | the five names map to their codes, any other text to BUTTONS |
| Config.UserInterfaceNames | config_class.py:1158-1181 | every selectable interface has a name; telefunken reports ADAFRUIT_RGB and TELEFUNKEN is never reported |
| Config.StartupPlaylist | config_class.py:1259-1271 | RADIO, MEDIA and AIRPLAY pick the source, LAST sets load-last, the playlist is always recorded; SPOTIFY raises |
| Config.ExitAction | config_class.py:1278-1286 | shutdown iff "shutdown"; any value other than "stop_radio" and "shutdown" becomes the command to execute |
| Config.MuteAction | config_class.py:1502-1507 | "pause" and "stop" select PAUSE and STOP, any other value keeps the action |
| Config.StripQuotes | config_class.py:1589-1593 | the result neither starts nor ends with a double quote |
| Config.StripQuotesRemovesOnlyQuotes | config_class.py:1590-1592 | the parameter is a run of double quotes, the result, and a run of double quotes: nothing but quotes is removed |
| Config.StripQuotesSettles | config_class.py:1590-1593 | stripping is idempotent and keeps a text without surrounding quotes |
| Config.AsWrittenLumaNeedsDevice | config_class.py:550-559 | as written, a LUMA display type raises exactly when it has no `.`, "LUMA" included |
| Config.LumaDeviceNamed | config_class.py:550-559 | "LUMA.<device>" selects the device in capitals; bare "LUMA" selects the default device |
| Config.DisplayTypeOption | config_class.py:511-559 | each known word selects the type of its name (GRAPHICAL the GRAPHICAL_DISPLAY type); any other value containing LUMA selects LUMA and sets the device; anything else leaves LCD; nothing else changes |
| Config.DisplayNamesDefined | config_class.py:1184-1188 | every type the option leaves has a name, LUMA's carrying the device, and an unknown value is reported as LCD |
| Config.AsWrittenHostIgnored | config_class.py:944-950 | as written, a configured remote control host is stored in the port attribute, the host keeps its old value, and nothing else changes |
| Config.RemoteControlHostReadBack | config_class.py:876-878 | the configured host is read back and nothing else changes |
| Config.ScreenSize | config_class.py:1325-1330 | succeeds iff the value splits on `x` into exactly two numbers |
| Config.ReadEntriesRecordsOptions | config_class.py:327-331 | earlier records stay; a section read to its end has every option recorded under its lower-cased name; one that stops at a raise has recorded the option that raised or an earlier one |
| Config.SectionsStayInTheirSettings | config_class.py:319-790 | the AIRPLAY section never raises; RADIOD and AIRPLAY leave the screen settings alone, and SCREEN leaves the radio settings alone |
| Config.AirplayNeverRaises | config_class.py:661-700 | the AIRPLAY section is always read to its end and keeps the screen settings |
| Config.RadiodKeepsScreen | config_class.py:319-658 | the RADIOD section keeps the screen settings |
| Config.ScreenKeepsRadio | config_class.py:702-792 | the SCREEN section keeps the radio settings |
| Config.RadiodBranchOf | config_class.py:333-654 | the branch that claims an option: the chain's tests in their written order, exact names and substrings alike, the first that holds winning; NamesReachable and StartupNamedOnce state what it gives |
| Config.SwitchNamesReachable | config_class.py:426-455 | speech, verbose, speak_info, volume_display, speech_volume and pull_up_down each fail the `_color` test and reach their own branch |
| Config.RgbNamesReachable | config_class.py:426-502 | rgb_red, rgb_green and rgb_blue fail every substring test written before theirs and reach the RGB LED branch |
| Config.LateNamesReachable | config_class.py:426-650 | each of the 24 names tested after the last substring test fails every substring test and every earlier name, and reaches its own branch |
| Config.NamesReachable | config_class.py:333-650 | every option named in the chain reaches the branch written for it: no earlier exact name or substring test shadows it |
| Config.StartupNamedOnce | config_class.py:406-407 | an option selects the startup branch if and only if it is "startup" |
| Config.RadiodApply | config_class.py:333-654 | a branch writes only its own part of the settings; BranchWritesOnlyItsPart and the option lemmas below state each branch's effect |
| Config.AudioApply | config_class.py:339-630 | the audio branches: volume range, speech flags and volume, mute action, output and lock; stated by the Option lemmas |
| Config.RemoteApply | config_class.py:355-375 | the remote control branches, the host through the corrected setter; stated by RemoteControlHostReadBack |
| Config.PlayerApply | config_class.py:376-612 | the player branches, `startup` the only one that can raise; stated by PlayerRaisesOnlyOnSpotify |
| Config.DisplayApply | config_class.py:352-624 | the display branches, the display type through DisplayTypeOption; stated by the Option lemmas |
| Config.GpioApply | config_class.py:451-649 | the GPIO branches; the pin tables store under the option's own name (SwitchOption, RotaryClassOption) |
| Config.I2cApply | config_class.py:409-645 | the I2C and colour branches, the addresses hexadecimal (I2cAddressOption, I2cBusOption) |
| Config.SystemApply | config_class.py:580-642 | the system branches, the exit action through ExitAction (ExitActionOption) |
| Config.AirplayOption | config_class.py:673-690 | the AIRPLAY options; never raises (AirplayNeverRaises, MixerPresetOption) |
| Config.ScreenApply | config_class.py:713-782 | the SCREEN branches; only the size and saver raise (OnlySizeAndSaverRaise) |
| Config.ReadEntries | config_class.py:325-331 | a section's options in order, each recorded and applied, stopping at the first raise (ReadEntriesRecordsOptions) |
| Config.GetConfigSpec | config_class.py:319-792 | RADIOD, AIRPLAY and SCREEN read in turn, a missing section skipped (SectionsStayInTheirSettings) |
| Config.LumaDeviceAsWritten | config_class.py:550-556 | the device as the source reads it, None for the IndexError (AsWrittenLumaNeedsDevice) |
| Config.LumaDevice | config_class.py:550-556 | the corrected device choice (LumaDeviceNamed) |
| Config.RemoteControlHostAsWritten | config_class.py:948-950 | the redefined setter, storing the host text in the port attribute (AsWrittenHostIgnored) |
| Config.RemoteControlHost | config_class.py:876-878 | the host setter (RemoteControlHostReadBack) |
| Config.BranchWritesOnlyItsPart | config_class.py:333-654 | a branch leaves every other part of the settings unchanged; only player branches raise; the skipped, float and unknown branches change nothing |
| Config.PlayerRaisesOnlyOnSpotify | config_class.py:376-611 | among the player branches only `startup` raises, and only for SPOTIFY |
| Config.OnlyStartupRaises | config_class.py:333-654 | a RADIOD option raises iff it is `startup` with SPOTIFY |
| Config.VolumeRangeOption | config_class.py:339-350 | a number sets the clamped range and its step; anything else changes nothing |
| Config.ClientTimeoutOption | config_class.py:957-964 | a number is clamped to 2..15, in-range values are kept, anything else changes nothing |
| Config.I2cAddressOption | config_class.py:409-413 | only a hexadecimal value above zero changes the address |
| Config.I2cBusOption | config_class.py:415-424 | only a number above zero changes the bus, so a bus above zero stays above zero |
| Config.PullUpDownOption | config_class.py:451-455 | UP iff "up", DOWN otherwise; nothing else changes |
| Config.SwitchOption | config_class.py:457-461 | a number is stored under the option's name, other entries kept; anything else changes nothing |
| Config.CodepageOption | config_class.py:1570-1573 | a number in 0..4 is stored; anything else changes nothing |
| Config.RotaryClassOption | config_class.py:561-569 | the three named classes, STANDARD for any other value |
| Config.ExitActionOption | config_class.py:1278-1286 | the exit_action branch applies the shutdown setter and changes nothing else |
| Config.MuteActionOption | config_class.py:1502-1508 | "pause" and "stop" select the action; anything else changes nothing |
| Config.AudioOutOption | config_class.py:1589-1593 | the output is stored without surrounding quotes; `"hdmi"` becomes hdmi |
| Config.MixerPresetOption | config_class.py:673-683 | a number is clamped to 0..100 under either name; airplay is on iff "yes" and installed |
| Config.StationsPerPageOption | config_class.py:1418-1423 | a number is capped at 50, smaller ones kept; anything else changes nothing |
| Config.ScreenSaverOption | config_class.py:749-750 | a value that is not a number raises; a number is stored |
| Config.ScreenSizeOption | config_class.py:1325-1330 | the size is stored or the branch raises, as ScreenSize says; a value without `x` raises |
| Config.OnlySizeAndSaverRaise | config_class.py:713-779 | only `screen_size` and `screen_saver` can raise in SCREEN |
| Config.ScreenNames | config_class.py:713-757 | the three names reach their branches; `dateformat` and `graphic_dateformat` share one |
| Config.LookupOr | config_class.py:1115-1142 | the stored value for a known key, the default for an unknown one |
| Config.Configuration.constructor | config_class.py:107-306 | the class defaults: nothing read yet |
| Config.Configuration.ReadSection | config_class.py:325-331 | settings, recorded options and outcome are those of ReadEntries over the section |
| Config.Configuration.GetConfig | config_class.py:319-792 | the state and outcome are GetConfigSpec's: each present section in turn, stopping at a raise |
| Config.Configuration.GetSwitchGpio | config_class.py:1101-1112 | a known label returns its GPIO and remembers it; an unknown one returns the GPIO remembered before |
| Config.Configuration.GetLcdGpio | config_class.py:1115-1122 | the LCD line, -1 for an unknown label |
| Config.Configuration.GetRgbLed | config_class.py:1125-1132 | the LED line, -1 for an unknown label |
| Config.Configuration.GetMenuSwitch | config_class.py:1135-1142 | the menu switch line, -1 for an unknown label |
| Config.Configuration.GetUserInterfaceName | config_class.py:1180-1181 | the current interface's name |
| Config.Configuration.GetDisplayName | config_class.py:1184-1188 | the current display's name |
| Config.Configuration.ShutdownCommand | config_class.py:1696-1700 | the configured command without surrounding double quotes |

## Left out

- GPIO library calls are modelled by the effects the core relies on: line levels are inputs, outputs are a pin → level map, and setup failures are a set of failing lines.
- Threads and interrupts: every callback is a sequential method call. This leaves out the daemon thread in `Button.__init__` and the races it creates.
- `time.sleep` and `time.time()` floats: clock readings are integer ticks, and a sleep in a hold loop is one poll.
- The float `scroll_speed` option: its branch is claimed and changes no modelled setting.
- `sys.exit` when a button's setup fails.
- The rotary encoder, cosmic and I2C encoder classes: their signals are plain integers.
- Knob creation in `setInterface`, `setRotaryInterface`, `setButtonInterface`, `setCosmicInterface` and `set_telefunken_interface` is left out. It creates hardware objects, and the Telefunken switches are built with keywords `Switch` does not accept.
- `getGPIOs`, `getConfiguration`, `getVolumeKnob`, `menuPressed` and the up/down/mute `…ButtonPressed` polls are left out: they only read hardware objects or the configuration. Left and right are modelled.
- `Events.Event.constructor` takes the configured lines as a value rather than reading them from a `Configuration`.
- Reading files and the environment: `configparser`, `os.path.isfile`, the AirPlay binary and wallpaper checks are the `Host` parameter. Log handlers and console output are left out.
- `LogClass.Log.Init` leaves out the console handler set up when console output is asked for.
- `Log.truncate` opens a file and is left out.
- Getters and setters that only store their argument, such as window colours and the language, are modelled inside their `getConfig` branch and have no member of their own.
- The redefinition of `remote_control_port` as a plain method at config_class.py:944-946 is not modelled: the port stays a stored attribute (`PortValue`), a number or the text the redefined host setter puts there.
- The colour lookups `getBackColor`, `getRgbColor` and `getBackColorName` are not part of this model.
- `hexValue` is not part of this model. The hexadecimal I2C values use `int(x, 16)`.
- `Text.ParseInt` follows Python's `int()` on ASCII digits, one optional sign, an optional base prefix for base 16, and surrounding white space as Python's `str.isspace` defines it (IsSpace). Underscores between digits and non-ASCII digits are not modelled.
- `Text.Lower` and `Text.Upper` map ASCII letters only.
- An exception escaping a branch is modelled as `getConfig` returning false with the state reached so far. In the source it propagates out of `getConfig` and the constructor.
- Only `NoSectionError` is caught; the model covers it as a missing (None) section.
- The names "keytable" (RADIOD) and "display_shutdown_button" (SCREEN) are each tested twice. The second test can never be reached, so the model keeps one branch.
- The `i2c_bus` branch's `parameter <= 1` comparison raises `TypeError` for values not above zero. The bare `except` catches it, so the model leaves the bus unchanged.
- `display_current.py` (MPD client diagnostics) is not part of this model.
- Shoutcast network and file work: `urlopen`, XML parsing, playlist append and copy, the root check and the prompt. A `translate` function passed as a parameter stands in for the character translation of title lines.
- Config.DisplayTypeOption: applies the corrected LUMA device choice (LumaDevice), so a bare "LUMA" selects SH1106. As written (LumaDeviceAsWritten) that value raises IndexError; see Findings.
- Config.Configuration.GetConfig: reads the settings with the two corrected setters. As written, a bare "LUMA" display type raises and ends the RADIOD section, and a `remote_control_host` value goes to the remote control port field while the host keeps its default; see Findings.
- LogClass.Log.Init: the missing-section report is the value SectionMissing; the printed form of the tuple it stands for is not modelled.

## Findings

| source | as written | input that shows it | evidently intended | confidence | as-written member | corrected member |
|---|---|---|---|---|---|---|
| disco_light.py:15-34 | `status` starts as OFF, so the `set(OFF)` in the constructor returns at its first guard | `DiscoLight(gpio=26)` while the relay line is high | the line is driven low on creation | not executed | DiscoLightClass.AsWrittenCreationLeavesLineUndriven | DiscoLightClass.DiscoLight.constructor |
| get_shoutcast.py:128 | `x,url = line.split('=')` needs exactly one `=` | `File1=http://host/stream?id=5` | the address is everything after the first `=` | not executed | Shoutcast.AsWrittenFileUrlLosesQuery, Shoutcast.AsWrittenScanKeepsOldAddress | Shoutcast.FileUrlRoundTrip, Shoutcast.GetStationUrl |
| config_class.py:554-556 | `len(luma_devices) > 0` always holds, then `luma_devices[1]` is read | display_type = `LUMA` | a bare LUMA selects the default device | not executed | Config.AsWrittenLumaNeedsDevice | Config.LumaDeviceNamed, Config.DisplayTypeOption |
| config_class.py:944-950 | the redefined `remote_control_host` setter writes `_remote_control_port` | remote_control_host = `192.168.1.10` | the host is stored as the host | not executed | Config.AsWrittenHostIgnored | Config.RemoteControlHostReadBack, Config.Configuration.GetConfig |
