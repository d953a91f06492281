/**
 * The radio's logger (log_class.py): level names, a message gate that drops
 * level NONE and repeats of the last handled message, and the colour codes
 * of the console formatter.
 *
 * The log file is modelled as the sequence of records that reach it; the
 * standard logging package's own filter passes a record whose level is one
 * of the five named levels and at least the logger's effective level.
 */
module LogClass {
  import opened Wrappers

  const CRITICAL: int := 50
  const ERROR: int := 40
  const WARNING: int := 30
  const INFO: int := 20
  const DEBUG: int := 10
  const NONE: int := 0

  /**
   * Level of the logging package's root logger, which a logger whose own
   * level is NONE (the package's NOTSET) defers to.
   */
  const ROOT_LEVEL: int := WARNING

  /** The `loglevel` option's value as a level: the five names and NONE; anything else is INFO. */
  function LevelFromName(name: string): (l: int)
    ensures name == "CRITICAL" ==> l == CRITICAL
    ensures name == "ERROR" ==> l == ERROR
    ensures name == "WARNING" ==> l == WARNING
    ensures name == "INFO" ==> l == INFO
    ensures name == "DEBUG" ==> l == DEBUG
    ensures name == "NONE" ==> l == NONE
    ensures name !in {"CRITICAL", "ERROR", "WARNING", "INFO", "DEBUG", "NONE"} ==> l == INFO
  {
    if name == "CRITICAL" then CRITICAL
    else if name == "ERROR" then ERROR
    else if name == "WARNING" then WARNING
    else if name == "INFO" then INFO
    else if name == "DEBUG" then DEBUG
    else if name == "NONE" then NONE
    else INFO
  }

  /** The name of each level the option can select. */
  function LevelName(l: int): (name: string)
  {
    if l == CRITICAL then "CRITICAL"
    else if l == ERROR then "ERROR"
    else if l == WARNING then "WARNING"
    else if l == DEBUG then "DEBUG"
    else if l == NONE then "NONE"
    else "INFO"
  }

  /**
   * Every level the option can produce is produced by its own name, and
   * `LevelFromName` never yields anything else.
   */
  lemma LevelNamesRoundTrip(l: int, name: string)
    ensures l in {CRITICAL, ERROR, WARNING, INFO, DEBUG, NONE} ==> LevelFromName(LevelName(l)) == l
    ensures LevelFromName(name) in {CRITICAL, ERROR, WARNING, INFO, DEBUG, NONE}
  {
  }

  /** How the `loglevel` option stands in the configuration. */
  datatype LevelSetting = MissingSection | MissingOption | Configured(name: string)

  /**
   * `getConfig()`: a missing RADIOD section falls back to INFO; a missing
   * option raises (the lookup only handles a missing section); a value maps
   * through `LevelFromName`.
   */
  function ConfiguredLevel(setting: LevelSetting): (r: Result<int>)
    ensures setting.MissingOption? <==> r.Raised?
    ensures setting.MissingSection? ==> r == Ok(INFO)
    ensures setting.Configured? ==> r == Ok(LevelFromName(setting.name))
  {
    match setting
    case MissingSection => Ok(LevelFromName("INFO"))
    case MissingOption => Raised("NoOptionError")
    case Configured(name) => Ok(LevelFromName(name))
  }

  /**
   * What `message` is handed: a text, or the tuple `getConfig` builds for a
   * missing RADIOD section (the NoSectionError, "in" and the file name).
   * Each such tuple holds a new exception object, and exceptions compare by
   * identity, so it never equals an earlier last message.
   */
  datatype Logged = Said(text: string) | SectionMissing

  datatype Record = Record(level: int, message: Logged)

  /** Whether the logging package lets a record at `level` through a logger set to `loglevel`. */
  predicate Emits(level: int, loglevel: int)
  {
    var effective := if loglevel == NONE then ROOT_LEVEL else loglevel;
    level in {CRITICAL, ERROR, WARNING, INFO, DEBUG} && level >= effective
  }

  /** Whether `m` compares equal to the last message: only a text can. */
  predicate Repeats(m: Logged, last: Logged)
  {
    m.Said? && m == last
  }

  /**
   * `message(m, level)` on last message `last` and file contents `file`;
   * `fails` says the file handler raised (the error is printed and nothing
   * else happens). Returns the new last message and file contents.
   */
  function MessageEffect(last: Logged, loglevel: int, file: seq<Record>, m: Logged, level: int, fails: bool)
    : (Logged, seq<Record>)
  {
    if level == NONE || Repeats(m, last) || fails then (last, file)
    else (m, if Emits(level, loglevel) then file + [Record(level, m)] else file)
  }

  /**
   * A handled message becomes the last message and adds at most one record,
   * carrying its own text and level; a repeat of it straight after changes
   * nothing, so consecutive duplicates reach the file at most once.
   */
  lemma DuplicateMessagesWrittenOnce(last: Logged, loglevel: int, file: seq<Record>, text: string, level: int,
                                     level2: int, fails2: bool)
    requires level != NONE && Said(text) != last
    ensures var (last1, file1) := MessageEffect(last, loglevel, file, Said(text), level, false);
            last1 == Said(text)
            && (file1 == file || file1 == file + [Record(level, Said(text))])
            && MessageEffect(last1, loglevel, file1, Said(text), level2, fails2) == (last1, file1)
  {
  }

  /**
   * The missing-section report is never held back as a repeat: unless the
   * write fails it becomes the last message, and it reaches the file exactly
   * when an ERROR record passes the level in force. No text repeats it, so
   * the next message at a real level is handled too.
   */
  lemma SectionMissingReported(last: Logged, loglevel: int, file: seq<Record>, text: string, level: int)
    requires level != NONE
    ensures var (last1, file1) := MessageEffect(last, loglevel, file, SectionMissing, ERROR, false);
            last1 == SectionMissing
            && (file1 == file + [Record(ERROR, SectionMissing)] <==> Emits(ERROR, loglevel))
            && (file1 == file <==> !Emits(ERROR, loglevel))
            && MessageEffect(last1, loglevel, file1, Said(text), level, false).0 == Said(text)
  {
  }

  /** A message at level NONE, or one that fails to reach the handler, changes nothing. */
  lemma DroppedMessagesChangeNothing(last: Logged, loglevel: int, file: seq<Record>, m: Logged, level: int, fails: bool)
    requires level == NONE || fails
    ensures MessageEffect(last, loglevel, file, m, level, fails) == (last, file)
  {
  }

  const RESET_CODE: string := "\U{1b}[0m"

  /** The console formatter's colour table, keyed by level. */
  function ColourCode(levelno: int): Option<string>
  {
    if levelno == CRITICAL then Some("\U{1b}[1;35m")
    else if levelno == ERROR then Some("\U{1b}[1;31m")
    else if levelno == WARNING then Some("\U{1b}[1;33m")
    else if levelno == INFO then Some("\U{1b}[0;37m")
    else if levelno == DEBUG then Some("\U{1b}[1;30m")
    else None
  }

  /**
   * `LogFormatter.format`'s choice of `(color_on, color_off)`: the level's
   * colour and the reset code when colour is on and the level has a
   * colour, both empty otherwise.
   */
  function ColourCodes(colour: bool, levelno: int): (codes: (string, string))
    ensures codes.0 != "" <==> colour && levelno in {CRITICAL, ERROR, WARNING, INFO, DEBUG}
    ensures codes.1 != "" <==> codes.0 != ""
    ensures codes.0 != "" ==> codes.1 == RESET_CODE && codes.0 != RESET_CODE
  {
    match ColourCode(levelno)
    case Some(code) => if colour then (code, RESET_CODE) else ("", "")
    case None => ("", "")
  }

  /** Distinct levels get distinct colours. */
  lemma ColoursDistinct(a: int, b: int)
    requires ColourCode(a).Some? && ColourCode(b).Some? && a != b
    ensures ColourCode(a).value != ColourCode(b).value
  {
  }

  class Log {
    /** Module name, usually "radio"; empty until `init`. */
    var moduleName: string
    var loglevel: int
    /** Last handled message: the duplicate filter. */
    var sMessage: Logged
    /** Records that reached the log file, in order. */
    var file: seq<Record>

    /** A fresh logger: no module, level INFO, no last message. */
    constructor ()
      ensures moduleName == "" && loglevel == INFO && sMessage == Said("") && file == []
    {
      moduleName := "";
      loglevel := INFO;
      sMessage := Said("");
      file := [];
    }

    /**
     * `init(module)`: records the module name and takes the level from the
     * configuration; a missing option raises and leaves the level as it was.
     * A missing section is first reported through `message` at ERROR, under
     * the level still in force; `fails` says that write's file handler raised.
     */
    method Init(name: string, setting: LevelSetting, fails: bool) returns (r: Result<int>)
      modifies this`moduleName, this`loglevel, this`sMessage, this`file
      ensures moduleName == name
      ensures r == ConfiguredLevel(setting)
      ensures r.Ok? ==> loglevel == r.value
      ensures r.Raised? ==> loglevel == old(loglevel)
      ensures setting.MissingSection? ==>
                (sMessage, file) == MessageEffect(old(sMessage), old(loglevel), old(file), SectionMissing, ERROR, fails)
      ensures !setting.MissingSection? ==> sMessage == old(sMessage) && file == old(file)
    {
      moduleName := name;
      if setting.MissingSection? {
        Report(SectionMissing, ERROR, fails);
      }
      r := ConfiguredLevel(setting);
      if r.Ok? {
        loglevel := r.value;
      }
    }

    /** `getName()`: the module name; empty means the log was not initialised. */
    function GetName(): (name: string)
      reads this
      ensures name == moduleName
    {
      moduleName
    }

    /** `message(text, level)`; `fails` says the file handler could not be opened. */
    method Message(text: string, level: int, fails: bool)
      modifies this`sMessage, this`file
      ensures (sMessage, file) == MessageEffect(old(sMessage), loglevel, old(file), Said(text), level, fails)
    {
      Report(Said(text), level, fails);
    }

    /** The body of `message`, for a text or the missing-section tuple. */
    method Report(m: Logged, level: int, fails: bool)
      modifies this`sMessage, this`file
      ensures (sMessage, file) == MessageEffect(old(sMessage), loglevel, old(file), m, level, fails)
    {
      if level != NONE && !Repeats(m, sMessage) {
        if !fails {
          if Emits(level, loglevel) {
            file := file + [Record(level, m)];
          }
          sMessage := m;
        }
      }
    }

    /** `setLevel(level)`. */
    method SetLevel(level: int)
      modifies this`loglevel
      ensures loglevel == level
    {
      loglevel := level;
    }

    /** `getLevel()`: the level last set. */
    function GetLevel(): (l: int)
      reads this
      ensures l == loglevel
    {
      loglevel
    }
  }
}
