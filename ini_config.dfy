/**
 * `IniConfigurationService`: the application settings read from and written
 * to an INI text. Lines are split on LF, trimmed, and either skipped, switch
 * the current section, or assign one setting of that section. Section names
 * and keys are matched without regard to case; a value the setting's parser
 * rejects leaves the setting as it was.
 *
 * The six TimeSpan settings are written as `TotalSeconds` and read with
 * `double.TryParse` and `TimeSpan.FromSeconds`: floating point, which the
 * model takes as a printer/parser pair supplied by the caller. The round trip
 * asks of that pair only that it reads back the six values actually stored;
 * `WholeSeconds` is the pair on whole numbers of seconds, where it does.
 * A value `double.TryParse` accepts but `TimeSpan.FromSeconds` refuses (NaN,
 * an infinity, or more seconds than a TimeSpan holds) throws out of the whole
 * parse, and loading then falls back to the defaults.
 */
module IniConfig {
  import opened Bytes
  import opened Wrappers
  import opened Text

  /** A TimeSpan, in ticks of 100 ns. */
  type Ticks = int

  const TICKS_PER_SECOND: int := 10_000_000

  datatype NamedPipeSettings = NamedPipeSettings(
    connectionTimeout: Ticks, retryDelay: Ticks, maxRetries: int32, readTimeout: Ticks, serverShutdownTimeout: Ticks)

  datatype InjectionSettings = InjectionSettings(
    workflowTimeout: Ticks, processSearchTimeout: Ticks, defaultProcessName: string, defaultDllPath: string)

  datatype UISettings = UISettings(
    autoScroll: bool, maxLogLines: int32, showTimestamps: bool, theme: string, minimizeToTray: bool, autoStartEnabled: bool)

  datatype AppSettings = AppSettings(namedPipe: NamedPipeSettings, injection: InjectionSettings, ui: UISettings)

  /**
   * What `double.TryParse` followed by `TimeSpan.FromSeconds` makes of a
   * value: not a number, a number `TimeSpan.FromSeconds` throws on
   * (`OverflowException` beyond the TimeSpan range or for an infinity,
   * `ArgumentException` for NaN), or a tick count.
   */
  datatype SecondsRead = Rejected | Throws | Read(ticks: Ticks)

  /** `TimeSpan.TotalSeconds` as printed, and `double.TryParse` followed by `TimeSpan.FromSeconds`. */
  datatype Seconds = Seconds(show: Ticks -> string, parse: string -> SecondsRead)

  /** `new AppSettings()`; `AutoStartEnabled`, which the settings class does not declare, is taken as false. */
  function Defaults(): AppSettings
  {
    AppSettings(
      NamedPipeSettings(15 * TICKS_PER_SECOND, 5 * TICKS_PER_SECOND, 3, 1 * TICKS_PER_SECOND, 5 * TICKS_PER_SECOND),
      InjectionSettings(30 * TICKS_PER_SECOND, 10 * TICKS_PER_SECOND, "l2.exe", ""),
      UISettings(true, 1000, true, "Light", false, false))
  }

  // ---------------------------------------------------------------------
  // One setting.

  /** A timeout's new value; on `Throws` the parse is abandoned altogether (see `StepThrows`). */
  function OrTicks(parsed: SecondsRead, current: Ticks): Ticks
  {
    if parsed.Read? then parsed.ticks else current
  }

  function OrInt(parsed: Option<int32>, current: int32): int32
  {
    if parsed.Some? then parsed.value else current
  }

  function OrBool(parsed: Option<bool>, current: bool): bool
  {
    if parsed.Some? then parsed.value else current
  }

  /** `ParseNamedPipeSetting`; `key` is already lower-cased. */
  function NamedPipeSetting(s: NamedPipeSettings, key: string, value: string, secs: Seconds): NamedPipeSettings
  {
    if key == "connectiontimeout" then s.(connectionTimeout := OrTicks(secs.parse(value), s.connectionTimeout))
    else if key == "retrydelay" then s.(retryDelay := OrTicks(secs.parse(value), s.retryDelay))
    else if key == "maxretries" then s.(maxRetries := OrInt(ParseInt32(value), s.maxRetries))
    else if key == "readtimeout" then s.(readTimeout := OrTicks(secs.parse(value), s.readTimeout))
    else if key == "servershutdowntimeout" then s.(serverShutdownTimeout := OrTicks(secs.parse(value), s.serverShutdownTimeout))
    else s
  }

  /** `ParseInjectionSetting`; `key` is already lower-cased. */
  function InjectionSetting(s: InjectionSettings, key: string, value: string, secs: Seconds): InjectionSettings
  {
    if key == "workflowtimeout" then s.(workflowTimeout := OrTicks(secs.parse(value), s.workflowTimeout))
    else if key == "processsearchtimeout" then s.(processSearchTimeout := OrTicks(secs.parse(value), s.processSearchTimeout))
    else if key == "defaultprocessname" then s.(defaultProcessName := value)
    else if key == "defaultdllpath" then s.(defaultDllPath := value)
    else s
  }

  /** `ParseUISetting`; `key` is already lower-cased. */
  function UISetting(s: UISettings, key: string, value: string): UISettings
  {
    if key == "autoscroll" then s.(autoScroll := OrBool(ParseBool(value), s.autoScroll))
    else if key == "maxloglines" then s.(maxLogLines := OrInt(ParseInt32(value), s.maxLogLines))
    else if key == "showtimestamps" then s.(showTimestamps := OrBool(ParseBool(value), s.showTimestamps))
    else if key == "theme" then s.(theme := value)
    else if key == "minimizetotray" then s.(minimizeToTray := OrBool(ParseBool(value), s.minimizeToTray))
    else if key == "autostartenabled" then s.(autoStartEnabled := OrBool(ParseBool(value), s.autoStartEnabled))
    else s
  }

  /** The `switch` on the lower-cased section: one setting of a known section, nothing otherwise. */
  function Apply(section: string, s: AppSettings, key: string, value: string, secs: Seconds): AppSettings
  {
    var sec := Lower(section);
    var k := Lower(key);
    if sec == "namedpipe" then s.(namedPipe := NamedPipeSetting(s.namedPipe, k, value, secs))
    else if sec == "injection" then s.(injection := InjectionSetting(s.injection, k, value, secs))
    else if sec == "ui" then s.(ui := UISetting(s.ui, k, value))
    else s
  }

  // ---------------------------------------------------------------------
  // Lines.

  /** What a line of the file is. */
  datatype Line = Skip | Header(name: string) | Entry(key: string, value: string)

  /**
   * Blank and ';' lines are skipped, "[name]" names a section, and a line
   * with an '=' after its first character assigns a key; anything else is
   * skipped.
   */
  function Classify(line: string): Line
  {
    var t := Trim(line);
    if |t| == 0 || StartsWith(t, ';') then Skip
    else if StartsWith(t, '[') && EndsWith(t, ']') then Header(t[1..|t| - 1])
    else
      match IndexOf(t, '=')
      case None => Skip
      case Some(i) => if i == 0 then Skip else Entry(Trim(t[..i]), Trim(t[i + 1..]))
  }

  datatype ParseState = ParseState(section: string, settings: AppSettings)

  function Step(st: ParseState, line: string, secs: Seconds): ParseState
  {
    match Classify(line)
    case Skip => st
    case Header(name) => st.(section := name)
    case Entry(key, value) => st.(settings := Apply(st.section, st.settings, key, value, secs))
  }

  /** The lines applied one after another. */
  function FoldFrom(st: ParseState, lines: seq<string>, secs: Seconds): ParseState
    decreases |lines|
  {
    if |lines| == 0 then st else FoldFrom(Step(st, lines[0], secs), lines[1..], secs)
  }

  /** The lines `ParseIniFile` visits: the text split on LF, empty pieces dropped. */
  function IniLines(content: string): seq<string>
  {
    NonEmpty(SplitOn(content, '\n'))
  }

  const INITIAL: ParseState := ParseState("", Defaults())

  /** `ParseIniFile`: the defaults, with every line applied in order, when no line throws. */
  function ParseIniF(content: string, secs: Seconds): AppSettings
  {
    FoldFrom(INITIAL, IniLines(content), secs).settings
  }

  /** The NamedPipe keys read with `TimeSpan.FromSeconds`, lower-cased. */
  predicate NamedPipeTimeout(k: string)
  {
    k == "connectiontimeout" || k == "retrydelay" || k == "readtimeout" || k == "servershutdowntimeout"
  }

  /** The Injection keys read with `TimeSpan.FromSeconds`, lower-cased. */
  predicate InjectionTimeout(k: string)
  {
    k == "workflowtimeout" || k == "processsearchtimeout"
  }

  /** The key names a timeout of the section, whatever the case of either. */
  predicate TimeoutKey(section: string, key: string)
  {
    var sec := Lower(section);
    (sec == "namedpipe" && NamedPipeTimeout(Lower(key))) || (sec == "injection" && InjectionTimeout(Lower(key)))
  }

  /** The line assigns a timeout of the current section a value `TimeSpan.FromSeconds` throws on. */
  predicate StepThrows(st: ParseState, line: string, secs: Seconds)
  {
    var l := Classify(line);
    l.Entry? && TimeoutKey(st.section, l.key) && secs.parse(l.value).Throws?
  }

  /** Some line throws, read in the section the lines before it leave current. */
  predicate ThrowsFrom(st: ParseState, lines: seq<string>, secs: Seconds)
    decreases |lines|
  {
    |lines| > 0 && (StepThrows(st, lines[0], secs) || ThrowsFrom(Step(st, lines[0], secs), lines[1..], secs))
  }

  /** `ParseIniFile` throws instead of returning. */
  predicate ParseThrows(content: string, secs: Seconds)
  {
    ThrowsFrom(INITIAL, IniLines(content), secs)
  }

  /**
   * `ParseIniFile`, line by line: None when a line throws, which leaves the
   * loop; otherwise the settings every line was applied to.
   */
  method ParseIniFile(content: string, secs: Seconds) returns (r: Option<AppSettings>)
    ensures r.None? <==> ParseThrows(content, secs)
    ensures r.Some? ==> r.value == ParseIniF(content, secs)
  {
    var settings := Defaults();
    var lines := IniLines(content);
    var currentSection := "";
    var i := 0;
    while i < |lines|
      invariant 0 <= i <= |lines|
      invariant FoldFrom(ParseState(currentSection, settings), lines[i..], secs) == FoldFrom(INITIAL, lines, secs)
      invariant ThrowsFrom(ParseState(currentSection, settings), lines[i..], secs) == ThrowsFrom(INITIAL, lines, secs)
    {
      FoldAt(ParseState(currentSection, settings), lines, i, secs);
      ThrowsAt(ParseState(currentSection, settings), lines, i, secs);
      var thrown;
      currentSection, settings, thrown := ParseLine(currentSection, settings, lines[i], secs);
      if thrown {
        return None;
      }
      i := i + 1;
    }
    assert lines[i..] == [];
    return Some(settings);
  }

  /**
   * The body of the loop of `ParseIniFile`: one line read against the current
   * section; `thrown` when it is a timeout `TimeSpan.FromSeconds` throws on.
   */
  method ParseLine(currentSection: string, settings: AppSettings, line: string, secs: Seconds)
    returns (section': string, settings': AppSettings, thrown: bool)
    ensures ParseState(section', settings') == Step(ParseState(currentSection, settings), line, secs)
    ensures thrown == StepThrows(ParseState(currentSection, settings), line, secs)
  {
    section', settings', thrown := currentSection, settings, false;
    var trimmedLine := Trim(line);
    if |trimmedLine| == 0 || StartsWith(trimmedLine, ';') {
      StepSkip(ParseState(currentSection, settings), line, secs);
    } else if StartsWith(trimmedLine, '[') && EndsWith(trimmedLine, ']') {
      StepHeader(ParseState(currentSection, settings), line, secs);
      section' := trimmedLine[1..|trimmedLine| - 1];
    } else {
      var equalIndex := IndexOf(trimmedLine, '=');
      if equalIndex.Some? && equalIndex.value > 0 {
        var key := Trim(trimmedLine[..equalIndex.value]);
        var value := Trim(trimmedLine[equalIndex.value + 1..]);
        StepEntry(ParseState(currentSection, settings), line, equalIndex.value, secs);
        ClassifyEntry(line, equalIndex.value);
        var section := Lower(currentSection);
        if section == "namedpipe" {
          thrown := NamedPipeTimeout(Lower(key)) && secs.parse(value).Throws?;
          settings' := settings.(namedPipe := NamedPipeSetting(settings.namedPipe, Lower(key), value, secs));
        } else if section == "injection" {
          thrown := InjectionTimeout(Lower(key)) && secs.parse(value).Throws?;
          settings' := settings.(injection := InjectionSetting(settings.injection, Lower(key), value, secs));
        } else if section == "ui" {
          settings' := settings.(ui := UISetting(settings.ui, Lower(key), value));
        }
        assert settings' == Apply(currentSection, settings, key, value, secs);
      } else {
        StepNoEntry(ParseState(currentSection, settings), line, secs);
      }
    }
  }

  /** Blank lines and comments change nothing. */
  lemma StepSkip(st: ParseState, line: string, secs: Seconds)
    requires var t := Trim(line); |t| == 0 || StartsWith(t, ';')
    ensures Step(st, line, secs) == st
  {
  }

  /** A section header changes the current section. */
  lemma StepHeader(st: ParseState, line: string, secs: Seconds)
    requires var t := Trim(line); !(|t| == 0 || StartsWith(t, ';')) && StartsWith(t, '[') && EndsWith(t, ']')
    ensures var t := Trim(line); Step(st, line, secs) == st.(section := t[1..|t| - 1])
  {
  }

  /** A line that is neither blank, a comment, a header nor an assignment changes nothing. */
  lemma StepNoEntry(st: ParseState, line: string, secs: Seconds)
    requires var t := Trim(line);
      !(|t| == 0 || StartsWith(t, ';')) && !(StartsWith(t, '[') && EndsWith(t, ']')) &&
      (IndexOf(t, '=').None? || IndexOf(t, '=').value == 0)
    ensures Step(st, line, secs) == st
  {
  }

  /** A line whose first '=' is at `i > 0` assigns the trimmed key the trimmed value. */
  lemma StepEntry(st: ParseState, line: string, i: nat, secs: Seconds)
    requires var t := Trim(line);
      !(|t| == 0 || StartsWith(t, ';')) && !(StartsWith(t, '[') && EndsWith(t, ']')) &&
      IndexOf(t, '=') == Some(i) && i > 0
    ensures var t := Trim(line);
      Step(st, line, secs) == st.(settings := Apply(st.section, st.settings, Trim(t[..i]), Trim(t[i + 1..]), secs))
  {
    ClassifyEntry(line, i);
  }

  lemma ClassifyEntry(line: string, i: nat)
    requires var t := Trim(line);
      !(|t| == 0 || StartsWith(t, ';')) && !(StartsWith(t, '[') && EndsWith(t, ']')) &&
      IndexOf(t, '=') == Some(i) && i > 0
    ensures var t := Trim(line); Classify(line) == Entry(Trim(t[..i]), Trim(t[i + 1..]))
  {
  }

  // ---------------------------------------------------------------------
  // Writing.

  /** "key=value" lines, one per pair. */
  function AssignLines(pairs: seq<(string, string)>): (r: seq<string>)
    ensures |r| == |pairs|
    decreases |pairs|
  {
    if |pairs| == 0 then [] else [pairs[0].0 + "=" + pairs[0].1] + AssignLines(pairs[1..])
  }

  // The two header comments that open every written file.
  const COMMENT_1: string := "; L2Market " + "Configuration File"
  const COMMENT_2: string := "; Generated " + "automatically" + " - do not " + "edit manually"
    + " unless you " + "know what " + "you're doing"

  function NamedPipePairs(s: NamedPipeSettings, secs: Seconds): seq<(string, string)>
  {
    [("ConnectionTimeout", secs.show(s.connectionTimeout)), ("RetryDelay", secs.show(s.retryDelay)),
     ("MaxRetries", IntText(s.maxRetries as int)), ("ReadTimeout", secs.show(s.readTimeout)),
     ("ServerShutdownTimeout", secs.show(s.serverShutdownTimeout))]
  }

  function InjectionPairs(s: InjectionSettings, secs: Seconds): seq<(string, string)>
  {
    [("WorkflowTimeout", secs.show(s.workflowTimeout)), ("ProcessSearchTimeout", secs.show(s.processSearchTimeout)),
     ("DefaultProcessName", s.defaultProcessName), ("DefaultDllPath", s.defaultDllPath)]
  }

  function UIPairs(s: UISettings): seq<(string, string)>
  {
    [("AutoScroll", BoolText(s.autoScroll)), ("MaxLogLines", IntText(s.maxLogLines as int)),
     ("ShowTimestamps", BoolText(s.showTimestamps)), ("Theme", s.theme),
     ("MinimizeToTray", BoolText(s.minimizeToTray)), ("AutoStartEnabled", BoolText(s.autoStartEnabled))]
  }

  function NamedPipeBlock(s: NamedPipeSettings, secs: Seconds): seq<string>
  {
    ["[NamedPipe]"] + AssignLines(NamedPipePairs(s, secs))
  }

  function InjectionBlock(s: InjectionSettings, secs: Seconds): seq<string>
  {
    ["[Injection]"] + AssignLines(InjectionPairs(s, secs))
  }

  function UIBlock(s: UISettings): seq<string>
  {
    ["[UI]"] + AssignLines(UIPairs(s))
  }

  /** The lines of `CreateIniContent`: two comments, then the three sections, each followed by an empty line. */
  function ContentLines(s: AppSettings, secs: Seconds): seq<string>
  {
    [COMMENT_1, COMMENT_2, ""]
    + (NamedPipeBlock(s.namedPipe, secs) + [""])
    + (InjectionBlock(s.injection, secs) + [""])
    + (UIBlock(s.ui) + [""])
  }

  /**
   * `CreateIniContent`: the lines joined with LF. When the stored timeouts and
   * texts print on one line, splitting the text at LF gives the lines back.
   */
  function CreateIniContent(s: AppSettings, secs: Seconds): (r: string)
    ensures NamedPipeTimesPlain(s.namedPipe, secs) && InjectionTimesPlain(s.injection, secs)
      && Plain(s.injection.defaultProcessName) && Plain(s.injection.defaultDllPath) && Plain(s.ui.theme)
      ==> SplitOn(r, '\n') == ContentLines(s, secs)
  {
    if NamedPipeTimesPlain(s.namedPipe, secs) && InjectionTimesPlain(s.injection, secs)
      && Plain(s.injection.defaultProcessName) && Plain(s.injection.defaultDllPath) && Plain(s.ui.theme)
    then
      ContentSplit(s, secs);
      JoinWith(ContentLines(s, secs), "\n")
    else
      JoinWith(ContentLines(s, secs), "\n")
  }

  // ---------------------------------------------------------------------
  // The service.

  class IniConfigurationService {
    var settings: AppSettings

    constructor ()
      ensures settings == Defaults()
    {
      settings := Defaults();
    }

    /**
     * `LoadSettingsAsync`: `file` is the configuration file's text, None when
     * there is no file; a missing file gets the defaults, which are written
     * out and returned.
     */
    method LoadSettings(file: Option<string>, secs: Seconds) returns (written: Option<string>)
      modifies this
      ensures file.Some? ==> written.None?
      ensures file.Some? ==> settings == (if ParseThrows(file.value, secs) then Defaults() else ParseIniF(file.value, secs))
      ensures file.None? ==> settings == Defaults() && written == Some(CreateIniContent(Defaults(), secs))
    {
      if file.Some? {
        var parsed := ParseIniFile(file.value, secs);
        // The catch: whatever the parse threw, the settings are the defaults.
        settings := if parsed.Some? then parsed.value else Defaults();
        written := None;
      } else {
        settings := Defaults();
        var text := SaveSettings(secs);
        written := Some(text);
      }
    }

    /** `SaveSettingsAsync`: the text written to the file. */
    method SaveSettings(secs: Seconds) returns (text: string)
      ensures text == CreateIniContent(settings, secs)
    {
      text := CreateIniContent(settings, secs);
    }

    /** `ResetToDefaultsAsync`. */
    method ResetToDefaults(secs: Seconds) returns (text: string)
      modifies this
      ensures settings == Defaults() && text == CreateIniContent(Defaults(), secs)
    {
      settings := Defaults();
      text := SaveSettings(secs);
    }

    /**
     * `UpdateSettingAsync`: the key and value are only logged; the settings
     * are kept and written out as they are.
     */
    method UpdateSetting<T>(key: string, value: T, secs: Seconds) returns (text: string)
      ensures text == CreateIniContent(settings, secs)
    {
      text := SaveSettings(secs);
    }
  }

  // ---------------------------------------------------------------------
  // What the format promises.

  lemma {:induction false} FoldAppend(st: ParseState, a: seq<string>, b: seq<string>, secs: Seconds)
    ensures FoldFrom(st, a + b, secs) == FoldFrom(FoldFrom(st, a, secs), b, secs)
    decreases |a|
  {
    if |a| == 0 {
      assert a + b == b;
    } else {
      assert (a + b)[1..] == a[1..] + b;
      FoldAppend(Step(st, a[0], secs), a[1..], b, secs);
    }
  }

  /** Blank lines and ';' comments change nothing. */
  lemma CommentSkipped(st: ParseState, line: string, secs: Seconds)
    requires Trim(line) == [] || StartsWith(Trim(line), ';')
    ensures Step(st, line, secs) == st
  {
  }

  /** A "[name]" line, whatever the name, makes it the current section and changes no setting. */
  lemma HeaderSwitches(st: ParseState, name: string, secs: Seconds)
    ensures Classify("[" + name + "]") == Header(name)
    ensures Step(st, "[" + name + "]", secs) == st.(section := name)
  {
    var line := "[" + name + "]";
    TrimOfTrimmed(line);
    assert line[1..|line| - 1] == name;
  }

  /** A line without '=' after its first character, and not a section, changes nothing. */
  lemma NoAssignmentSkipped(st: ParseState, line: string, secs: Seconds)
    requires var t := Trim(line); !(StartsWith(t, '[') && EndsWith(t, ']'))
    requires forall j :: 1 <= j < |Trim(line)| ==> Trim(line)[j] != '='
    ensures Step(st, line, secs) == st
  {
  }

  /**
   * "key=value", with a key that has no '=' and cannot start a comment or a
   * section, assigns the key; the value may itself hold '='.
   */
  lemma EntryLine(key: string, value: string)
    requires |key| > 0 && Trimmed(key) && Trimmed(value)
    requires key[0] != ';' && key[0] != '[' && '=' !in key
    ensures Classify(key + "=" + value) == Entry(key, value)
  {
    var line := key + "=" + value;
    AssignmentLineShape(key, value, line);
    TrimOfTrimmed(line);
    TrimOfTrimmed(key);
    TrimOfTrimmed(value);
  }

  lemma AssignmentLineShape(key: string, value: string, line: string)
    requires |key| > 0 && Trimmed(key) && Trimmed(value) && key[0] != ';' && key[0] != '[' && '=' !in key
    requires line == key + "=" + value
    ensures Trimmed(line) && line[0] == key[0]
    ensures IndexOf(line, '=') == Some(|key|)
    ensures line[..|key|] == key && line[|key| + 1..] == value
  {
    assert line == key + ['='] + value;
    assert forall j :: 0 <= j < |key| ==> key[j] != '=';
    IndexOfJoined(key, '=', value);
  }

  /** Section names and keys are matched without regard to case. */
  lemma CaseInsensitive(section: string, s: AppSettings, key: string, value: string, secs: Seconds)
    ensures Apply(section, s, key, value, secs) == Apply(Lower(section), s, Lower(key), value, secs)
  {
    assert Lower(Lower(section)) == Lower(section);
    assert Lower(Lower(key)) == Lower(key);
  }

  /** A section other than NamedPipe, Injection and UI is ignored. */
  lemma UnknownSectionIgnored(section: string, s: AppSettings, key: string, value: string, secs: Seconds)
    requires Lower(section) != "namedpipe" && Lower(section) != "injection" && Lower(section) != "ui"
    ensures Apply(section, s, key, value, secs) == s
  {
  }

  /**
   * A value that neither the number, the boolean nor the seconds parser
   * accepts leaves every setting as it was, except the three text settings,
   * which take any value.
   */
  lemma RejectedValueKeeps(section: string, s: AppSettings, key: string, value: string, secs: Seconds)
    requires ParseInt32(value).None? && ParseBool(value).None? && secs.parse(value).Rejected?
    requires Lower(key) != "defaultprocessname" && Lower(key) != "defaultdllpath" && Lower(key) != "theme"
    ensures Apply(section, s, key, value, secs) == s
  {
  }

  /** An accepted value replaces the setting whatever it held before: the last assignment wins. */
  lemma AssignmentOverrides(st: ParseState, key: string, value: string, secs: Seconds)
    requires |key| > 0 && Trimmed(key) && Trimmed(value) && key[0] != ';' && key[0] != '[' && '=' !in key
    requires Lower(st.section) == "ui"
    ensures Lower(key) == "theme" ==> Step(st, key + "=" + value, secs).settings.ui.theme == value
    ensures Lower(key) == "maxloglines" && ParseInt32(value).Some? ==>
      Step(st, key + "=" + value, secs).settings.ui.maxLogLines == ParseInt32(value).value
    ensures Lower(key) == "autoscroll" && ParseBool(value).Some? ==>
      Step(st, key + "=" + value, secs).settings.ui.autoScroll == ParseBool(value).value
  {
    EntryStep(st, key, value, secs);
  }

  /** An assignment line applies its key and value in the current section. */
  lemma EntryStep(st: ParseState, key: string, value: string, secs: Seconds)
    requires |key| > 0 && Trimmed(key) && Trimmed(value) && key[0] != ';' && key[0] != '[' && '=' !in key
    ensures Step(st, key + "=" + value, secs) == st.(settings := Apply(st.section, st.settings, key, value, secs))
  {
    EntryLine(key, value);
  }

  /** One line of the fold. */
  lemma FoldAt(st: ParseState, lines: seq<string>, i: nat, secs: Seconds)
    requires i < |lines|
    ensures FoldFrom(st, lines[i..], secs) == FoldFrom(Step(st, lines[i], secs), lines[i + 1..], secs)
  {
    DropOne(lines, i);
  }

  /** The lines from `i` on throw when line `i` does, or a later one does. */
  lemma ThrowsAt(st: ParseState, lines: seq<string>, i: nat, secs: Seconds)
    requires i < |lines|
    ensures ThrowsFrom(st, lines[i..], secs)
      == (StepThrows(st, lines[i], secs) || ThrowsFrom(Step(st, lines[i], secs), lines[i + 1..], secs))
  {
    DropOne(lines, i);
  }

  /** Lines that assign nothing leave the settings as they were. */
  lemma {:induction false} NoEntriesKeep(st: ParseState, lines: seq<string>, secs: Seconds)
    requires forall k :: 0 <= k < |lines| ==> !Classify(lines[k]).Entry?
    ensures FoldFrom(st, lines, secs).settings == st.settings
    decreases |lines|
  {
    if |lines| > 0 {
      NoEntriesKeep(Step(st, lines[0], secs), lines[1..], secs);
    }
  }

  /** A text that assigns nothing gives the defaults. */
  lemma NoEntriesDefaults(content: string, secs: Seconds)
    requires forall k :: 0 <= k < |IniLines(content)| ==> !Classify(IniLines(content)[k]).Entry?
    ensures ParseIniF(content, secs) == Defaults()
  {
    NoEntriesKeep(INITIAL, IniLines(content), secs);
  }

  // ---------------------------------------------------------------------
  // Writing, then reading back.

  /** A value that survives a line of the file: no surrounding whitespace and no LF. */
  predicate Plain(v: string)
  {
    Trimmed(v) && '\n' !in v
  }

  /** The printed seconds of a tick count make a single trimmed line. */
  predicate ShowsPlain(secs: Seconds, t: Ticks)
  {
    Plain(secs.show(t))
  }

  /** A tick count that survives its printed seconds: the printed text is plain and parses back to the count. */
  predicate ReadsBack(secs: Seconds, t: Ticks)
  {
    ShowsPlain(secs, t) && secs.parse(secs.show(t)) == Read(t)
  }

  /** The four NamedPipe timeouts print as plain lines. */
  predicate NamedPipeTimesPlain(np: NamedPipeSettings, secs: Seconds)
  {
    ShowsPlain(secs, np.connectionTimeout) && ShowsPlain(secs, np.retryDelay)
    && ShowsPlain(secs, np.readTimeout) && ShowsPlain(secs, np.serverShutdownTimeout)
  }

  /** The four NamedPipe timeouts survive their printed seconds. */
  predicate NamedPipeTimesRead(np: NamedPipeSettings, secs: Seconds)
  {
    ReadsBack(secs, np.connectionTimeout) && ReadsBack(secs, np.retryDelay)
    && ReadsBack(secs, np.readTimeout) && ReadsBack(secs, np.serverShutdownTimeout)
  }

  /** The two Injection timeouts print as plain lines. */
  predicate InjectionTimesPlain(inj: InjectionSettings, secs: Seconds)
  {
    ShowsPlain(secs, inj.workflowTimeout) && ShowsPlain(secs, inj.processSearchTimeout)
  }

  /** The two Injection timeouts survive their printed seconds. */
  predicate InjectionTimesRead(inj: InjectionSettings, secs: Seconds)
  {
    ReadsBack(secs, inj.workflowTimeout) && ReadsBack(secs, inj.processSearchTimeout)
  }

  /** A key that "key=value" assigns. */
  predicate PlainKey(key: string)
  {
    |key| > 0 && Trimmed(key) && key[0] != ';' && key[0] != '[' && '=' !in key && '\n' !in key
  }

  /** The settings after a run of assignments, all in one section. */
  function ApplyAll(section: string, s: AppSettings, pairs: seq<(string, string)>, secs: Seconds): AppSettings
    decreases |pairs|
  {
    if |pairs| == 0 then s else ApplyAll(section, Apply(section, s, pairs[0].0, pairs[0].1, secs), pairs[1..], secs)
  }

  /** Assignment lines apply their pairs in order, in the current section. */
  lemma {:induction false} FoldAssignments(st: ParseState, pairs: seq<(string, string)>, secs: Seconds)
    requires forall k :: 0 <= k < |pairs| ==> PlainKey(pairs[k].0) && Trimmed(pairs[k].1)
    ensures FoldFrom(st, AssignLines(pairs), secs) == st.(settings := ApplyAll(st.section, st.settings, pairs, secs))
    decreases |pairs|
  {
    if |pairs| > 0 {
      AssignStep(st, pairs[0].0, pairs[0].1, secs);
      FoldAssignments(Step(st, AssignLines(pairs)[0], secs), pairs[1..], secs);
    }
  }

  /** One "key=value" line: the current section's setting named by the key, assigned. */
  lemma AssignStep(st: ParseState, key: string, value: string, secs: Seconds)
    requires PlainKey(key) && Trimmed(value)
    ensures Step(st, key + "=" + value, secs) == st.(settings := Apply(st.section, st.settings, key, value, secs))
  {
    EntryLine(key, value);
  }

  lemma {:induction false} ApplyAt(section: string, s: AppSettings, pairs: seq<(string, string)>, i: nat, secs: Seconds)
    requires i < |pairs|
    ensures ApplyAll(section, s, pairs[i..], secs)
      == ApplyAll(section, Apply(section, s, pairs[i].0, pairs[i].1, secs), pairs[i + 1..], secs)
  {
    assert pairs[i..][0] == pairs[i] && pairs[i..][1..] == pairs[i + 1..];
  }

  /** Each NamedPipe key, written by the writer, read back into its own setting. */
  lemma NamedPipeKeys(s: NamedPipeSettings, np: NamedPipeSettings, secs: Seconds)
    requires NamedPipeTimesRead(np, secs)
    ensures NamedPipeSetting(s, "connectiontimeout", secs.show(np.connectionTimeout), secs)
      == s.(connectionTimeout := np.connectionTimeout)
    ensures NamedPipeSetting(s, "retrydelay", secs.show(np.retryDelay), secs) == s.(retryDelay := np.retryDelay)
    ensures NamedPipeSetting(s, "maxretries", IntText(np.maxRetries as int), secs) == s.(maxRetries := np.maxRetries)
    ensures NamedPipeSetting(s, "readtimeout", secs.show(np.readTimeout), secs) == s.(readTimeout := np.readTimeout)
    ensures NamedPipeSetting(s, "servershutdowntimeout", secs.show(np.serverShutdownTimeout), secs)
      == s.(serverShutdownTimeout := np.serverShutdownTimeout)
  {
    IntRoundTrip(np.maxRetries);
  }

  /** The section and key names the writer uses, lower-cased as the reader compares them. */
  predicate NamedPipeNamesLowered()
  {
    Lower("NamedPipe") == "namedpipe" && Lower("ConnectionTimeout") == "connectiontimeout"
    && Lower("RetryDelay") == "retrydelay" && Lower("MaxRetries") == "maxretries"
    && Lower("ReadTimeout") == "readtimeout" && Lower("ServerShutdownTimeout") == "servershutdowntimeout"
  }

  lemma LowerNamedPipeNames()
    ensures NamedPipeNamesLowered()
  {
    LowerNamedPipeNamesFirst();
    LowerNamedPipeNamesLast();
  }

  lemma LowerNamedPipeNamesFirst()
    ensures Lower("NamedPipe") == "namedpipe" && Lower("ConnectionTimeout") == "connectiontimeout"
      && Lower("RetryDelay") == "retrydelay"
  {
    assert Lower("NamedPipe") == "namedpipe";
    assert Lower("ConnectionTimeout") == "connectiontimeout";
    assert Lower("RetryDelay") == "retrydelay";
  }

  lemma LowerNamedPipeNamesLast()
    ensures Lower("MaxRetries") == "maxretries" && Lower("ReadTimeout") == "readtimeout"
      && Lower("ServerShutdownTimeout") == "servershutdowntimeout"
  {
    assert Lower("MaxRetries") == "maxretries";
    assert Lower("ReadTimeout") == "readtimeout";
    assert Lower("ServerShutdownTimeout") == "servershutdowntimeout";
  }

  lemma NamedPipeApplied(s0: AppSettings, np: NamedPipeSettings, secs: Seconds)
    requires NamedPipeTimesRead(np, secs)
    ensures ApplyAll("NamedPipe", s0, NamedPipePairs(np, secs), secs) == s0.(namedPipe := np)
  {
    var ps := NamedPipePairs(np, secs);
    LowerNamedPipeNames();
    var s1 := s0.(namedPipe := s0.namedPipe.(connectionTimeout := np.connectionTimeout));
    var s2 := s1.(namedPipe := s1.namedPipe.(retryDelay := np.retryDelay));
    var s3 := s2.(namedPipe := s2.namedPipe.(maxRetries := np.maxRetries));
    var s4 := s3.(namedPipe := s3.namedPipe.(readTimeout := np.readTimeout));
    NamedPipeKeys(s0.namedPipe, np, secs);
    NamedPipeKeys(s1.namedPipe, np, secs);
    NamedPipeKeys(s2.namedPipe, np, secs);
    NamedPipeKeys(s3.namedPipe, np, secs);
    NamedPipeKeys(s4.namedPipe, np, secs);
    ApplyAt("NamedPipe", s0, ps, 0, secs);
    ApplyAt("NamedPipe", s1, ps, 1, secs);
    ApplyAt("NamedPipe", s2, ps, 2, secs);
    ApplyAt("NamedPipe", s3, ps, 3, secs);
    ApplyAt("NamedPipe", s4, ps, 4, secs);
    assert ps[5..] == [];
  }

  predicate InjectionNamesLowered()
  {
    Lower("Injection") == "injection" && Lower("WorkflowTimeout") == "workflowtimeout"
    && Lower("ProcessSearchTimeout") == "processsearchtimeout"
    && Lower("DefaultProcessName") == "defaultprocessname" && Lower("DefaultDllPath") == "defaultdllpath"
  }

  lemma LowerInjectionNames()
    ensures InjectionNamesLowered()
  {
    LowerInjectionNamesFirst();
    LowerInjectionNamesLast();
  }

  lemma LowerInjectionNamesFirst()
    ensures Lower("Injection") == "injection" && Lower("WorkflowTimeout") == "workflowtimeout"
      && Lower("ProcessSearchTimeout") == "processsearchtimeout"
  {
    assert Lower("Injection") == "injection";
    assert Lower("WorkflowTimeout") == "workflowtimeout";
    assert Lower("ProcessSearchTimeout") == "processsearchtimeout";
  }

  lemma LowerInjectionNamesLast()
    ensures Lower("DefaultProcessName") == "defaultprocessname" && Lower("DefaultDllPath") == "defaultdllpath"
  {
    assert Lower("DefaultProcessName") == "defaultprocessname";
    assert Lower("DefaultDllPath") == "defaultdllpath";
  }

  lemma InjectionKeys(s: InjectionSettings, inj: InjectionSettings, secs: Seconds)
    requires InjectionTimesRead(inj, secs)
    ensures InjectionSetting(s, "workflowtimeout", secs.show(inj.workflowTimeout), secs)
      == s.(workflowTimeout := inj.workflowTimeout)
    ensures InjectionSetting(s, "processsearchtimeout", secs.show(inj.processSearchTimeout), secs)
      == s.(processSearchTimeout := inj.processSearchTimeout)
    ensures InjectionSetting(s, "defaultprocessname", inj.defaultProcessName, secs)
      == s.(defaultProcessName := inj.defaultProcessName)
    ensures InjectionSetting(s, "defaultdllpath", inj.defaultDllPath, secs) == s.(defaultDllPath := inj.defaultDllPath)
  {
  }

  lemma InjectionApplied(s0: AppSettings, inj: InjectionSettings, secs: Seconds)
    requires InjectionTimesRead(inj, secs)
    ensures ApplyAll("Injection", s0, InjectionPairs(inj, secs), secs) == s0.(injection := inj)
  {
    var ps := InjectionPairs(inj, secs);
    LowerInjectionNames();
    var s1 := s0.(injection := s0.injection.(workflowTimeout := inj.workflowTimeout));
    var s2 := s1.(injection := s1.injection.(processSearchTimeout := inj.processSearchTimeout));
    var s3 := s2.(injection := s2.injection.(defaultProcessName := inj.defaultProcessName));
    InjectionKeys(s0.injection, inj, secs);
    InjectionKeys(s1.injection, inj, secs);
    InjectionKeys(s2.injection, inj, secs);
    InjectionKeys(s3.injection, inj, secs);
    ApplyAt("Injection", s0, ps, 0, secs);
    ApplyAt("Injection", s1, ps, 1, secs);
    ApplyAt("Injection", s2, ps, 2, secs);
    ApplyAt("Injection", s3, ps, 3, secs);
    assert ps[4..] == [];
  }

  predicate UINamesLowered()
  {
    Lower("UI") == "ui" && Lower("AutoScroll") == "autoscroll" && Lower("MaxLogLines") == "maxloglines"
    && Lower("ShowTimestamps") == "showtimestamps" && Lower("Theme") == "theme"
    && Lower("MinimizeToTray") == "minimizetotray" && Lower("AutoStartEnabled") == "autostartenabled"
  }

  lemma LowerUINames()
    ensures UINamesLowered()
  {
    LowerUINamesFirst();
    LowerUINamesLast();
  }

  lemma LowerUINamesFirst()
    ensures Lower("UI") == "ui" && Lower("AutoScroll") == "autoscroll" && Lower("MaxLogLines") == "maxloglines"
  {
    assert Lower("UI") == "ui";
    assert Lower("AutoScroll") == "autoscroll";
    assert Lower("MaxLogLines") == "maxloglines";
  }

  lemma LowerUINamesLast()
    ensures Lower("ShowTimestamps") == "showtimestamps" && Lower("Theme") == "theme"
      && Lower("MinimizeToTray") == "minimizetotray" && Lower("AutoStartEnabled") == "autostartenabled"
  {
    assert Lower("ShowTimestamps") == "showtimestamps";
    assert Lower("Theme") == "theme";
    assert Lower("MinimizeToTray") == "minimizetotray";
    assert Lower("AutoStartEnabled") == "autostartenabled";
  }

  lemma UIKeys(s: UISettings, ui: UISettings)
    ensures UISetting(s, "autoscroll", BoolText(ui.autoScroll)) == s.(autoScroll := ui.autoScroll)
    ensures UISetting(s, "maxloglines", IntText(ui.maxLogLines as int)) == s.(maxLogLines := ui.maxLogLines)
    ensures UISetting(s, "showtimestamps", BoolText(ui.showTimestamps)) == s.(showTimestamps := ui.showTimestamps)
    ensures UISetting(s, "theme", ui.theme) == s.(theme := ui.theme)
    ensures UISetting(s, "minimizetotray", BoolText(ui.minimizeToTray)) == s.(minimizeToTray := ui.minimizeToTray)
    ensures UISetting(s, "autostartenabled", BoolText(ui.autoStartEnabled)) == s.(autoStartEnabled := ui.autoStartEnabled)
  {
    BoolRoundTrip(ui.autoScroll);
    BoolRoundTrip(ui.showTimestamps);
    BoolRoundTrip(ui.minimizeToTray);
    BoolRoundTrip(ui.autoStartEnabled);
    IntRoundTrip(ui.maxLogLines);
  }

  lemma UIApplied(s0: AppSettings, ui: UISettings, secs: Seconds)
    ensures ApplyAll("UI", s0, UIPairs(ui), secs) == s0.(ui := ui)
  {
    var s3 := s0.(ui := s0.ui.(autoScroll := ui.autoScroll, maxLogLines := ui.maxLogLines, showTimestamps := ui.showTimestamps));
    UIAppliedFront(s0, ui, secs);
    UIAppliedBack(s3, ui, secs);
  }

  /** The first three UI pairs set their three settings. */
  lemma UIAppliedFront(s0: AppSettings, ui: UISettings, secs: Seconds)
    ensures ApplyAll("UI", s0, UIPairs(ui), secs) == ApplyAll("UI",
      s0.(ui := s0.ui.(autoScroll := ui.autoScroll, maxLogLines := ui.maxLogLines, showTimestamps := ui.showTimestamps)),
      UIPairs(ui)[3..], secs)
  {
    var ps := UIPairs(ui);
    LowerUINamesFirst();
    assert Lower("ShowTimestamps") == "showtimestamps";
    var s1 := s0.(ui := s0.ui.(autoScroll := ui.autoScroll));
    var s2 := s1.(ui := s1.ui.(maxLogLines := ui.maxLogLines));
    UIKeys(s0.ui, ui);
    UIKeys(s1.ui, ui);
    UIKeys(s2.ui, ui);
    ApplyAt("UI", s0, ps, 0, secs);
    ApplyAt("UI", s1, ps, 1, secs);
    ApplyAt("UI", s2, ps, 2, secs);
  }

  /** The last three UI pairs, after the first three, leave exactly the written UI settings. */
  lemma UIAppliedBack(s3: AppSettings, ui: UISettings, secs: Seconds)
    requires s3.ui.autoScroll == ui.autoScroll && s3.ui.maxLogLines == ui.maxLogLines
    requires s3.ui.showTimestamps == ui.showTimestamps
    ensures ApplyAll("UI", s3, UIPairs(ui)[3..], secs) == s3.(ui := ui)
  {
    var ps := UIPairs(ui);
    LowerUINamesLast();
    assert Lower("UI") == "ui";
    var s4 := s3.(ui := s3.ui.(theme := ui.theme));
    var s5 := s4.(ui := s4.ui.(minimizeToTray := ui.minimizeToTray));
    UIKeys(s3.ui, ui);
    UIKeys(s4.ui, ui);
    UIKeys(s5.ui, ui);
    ApplyAt("UI", s3, ps, 3, secs);
    ApplyAt("UI", s4, ps, 4, secs);
    ApplyAt("UI", s5, ps, 5, secs);
    assert ps[6..] == [];
  }

  /** Every pair is a plain key with a plain value. */
  predicate PairsPlain(pairs: seq<(string, string)>)
  {
    forall k :: 0 <= k < |pairs| ==> PlainKey(pairs[k].0) && Plain(pairs[k].1)
  }

  /** Each assignment line is its key, '=' and its value. */
  lemma {:induction false} AssignLinesAt(pairs: seq<(string, string)>)
    ensures forall k :: 0 <= k < |pairs| ==> AssignLines(pairs)[k] == pairs[k].0 + "=" + pairs[k].1
    decreases |pairs|
  {
    if |pairs| > 0 {
      AssignLinesAt(pairs[1..]);
    }
  }

  /** Lines none of which is empty or holds a LF. */
  predicate LinesOk(lines: seq<string>)
  {
    forall k :: 0 <= k < |lines| ==> |lines[k]| > 0 && '\n' !in lines[k]
  }

  /** Lines none of which holds a LF. */
  predicate NoLF(lines: seq<string>)
  {
    forall k :: 0 <= k < |lines| ==> '\n' !in lines[k]
  }

  /** A section as written: its header, then one line per pair, none empty and none holding a LF. */
  lemma BlockLines(header: string, pairs: seq<(string, string)>)
    requires |header| > 0 && '\n' !in header && PairsPlain(pairs)
    ensures LinesOk([header] + AssignLines(pairs))
  {
    AssignLinesAt(pairs);
    var b := [header] + AssignLines(pairs);
    forall k | 0 <= k < |b|
      ensures |b[k]| > 0 && '\n' !in b[k]
    {
      if k > 0 {
        var p := pairs[k - 1];
        assert b[k] == p.0 + "=" + p.1;
        assert '\n' !in p.0 && '\n' !in p.1;
      }
    }
  }

  /** A section as written, read back: the header switches to the section, then the pairs apply in order. */
  lemma SectionRead(st: ParseState, name: string, pairs: seq<(string, string)>, secs: Seconds)
    requires PairsPlain(pairs)
    ensures FoldFrom(st, ["[" + name + "]"] + AssignLines(pairs), secs)
      == ParseState(name, ApplyAll(name, st.settings, pairs, secs))
  {
    var lines := ["[" + name + "]"] + AssignLines(pairs);
    assert lines[0] == "[" + name + "]" && lines[1..] == AssignLines(pairs);
    HeaderSwitches(st, name, secs);
    FoldAssignments(st.(section := name), pairs, secs);
  }

  lemma NamedPipeKeysPlain()
    ensures PlainKey("ConnectionTimeout") && PlainKey("RetryDelay") && PlainKey("MaxRetries")
    ensures PlainKey("ReadTimeout") && PlainKey("ServerShutdownTimeout")
  {
  }

  lemma NamedPipePairsPlain(np: NamedPipeSettings, secs: Seconds)
    requires NamedPipeTimesPlain(np, secs)
    ensures PairsPlain(NamedPipePairs(np, secs))
  {
    NamedPipeKeysPlain();
    IntTextPlain(np.maxRetries as int);
  }

  lemma InjectionKeysPlain()
    ensures PlainKey("WorkflowTimeout") && PlainKey("ProcessSearchTimeout")
    ensures PlainKey("DefaultProcessName") && PlainKey("DefaultDllPath")
  {
  }

  lemma InjectionPairsPlain(inj: InjectionSettings, secs: Seconds)
    requires InjectionTimesPlain(inj, secs) && Plain(inj.defaultProcessName) && Plain(inj.defaultDllPath)
    ensures PairsPlain(InjectionPairs(inj, secs))
  {
    InjectionKeysPlain();
  }

  lemma UIKeysPlain()
    ensures PlainKey("AutoScroll") && PlainKey("MaxLogLines") && PlainKey("ShowTimestamps")
    ensures PlainKey("Theme") && PlainKey("MinimizeToTray") && PlainKey("AutoStartEnabled")
  {
  }

  lemma UIPairsPlain(ui: UISettings)
    requires Plain(ui.theme)
    ensures PairsPlain(UIPairs(ui))
  {
    UIKeysPlain();
    BoolRoundTrip(ui.autoScroll);
    BoolRoundTrip(ui.showTimestamps);
    BoolRoundTrip(ui.minimizeToTray);
    BoolRoundTrip(ui.autoStartEnabled);
    IntTextPlain(ui.maxLogLines as int);
  }

  /** The first comment line: a single line, skipped by the reader. */
  lemma Comment1Read()
    ensures |COMMENT_1| > 0 && '\n' !in COMMENT_1 && Classify(COMMENT_1) == Skip
  {
    CommentJoin("; L2Market ", "Configuration File");
    CommentLine(COMMENT_1);
  }

  /** The second comment line: a single line, skipped by the reader. */
  lemma Comment2Read()
    ensures |COMMENT_2| > 0 && '\n' !in COMMENT_2 && Classify(COMMENT_2) == Skip
  {
    CommentJoin("; Generated " + "automatically" + " - do not ", "edit manually" + " unless you " + "know what " + "you're doing");
    CommentLine(COMMENT_2);
  }

  /** A comment line written in two pieces: it starts with the first and ends with the second, and holds no LF when neither does. */
  lemma CommentJoin(a: string, b: string)
    requires |a| > 0 && a[0] == ';' && |b| > 0 && !IsWhite(b[|b| - 1]) && '\n' !in a && '\n' !in b
    ensures var line := a + b; line[0] == ';' && !IsWhite(line[|line| - 1]) && '\n' !in line
  {
  }

  /** A line that starts with ';' and does not end in whitespace is a comment the reader skips. */
  lemma CommentLine(line: string)
    requires |line| > 0 && line[0] == ';' && !IsWhite(line[|line| - 1])
    ensures Classify(line) == Skip
  {
    TrimOfTrimmed(line);
  }

  /** The comments and the empty line the writer puts first: the empty line is dropped, the comments apply nothing. */
  lemma HeadRead(secs: Seconds)
    ensures NonEmpty([COMMENT_1, COMMENT_2, ""]) == [COMMENT_1, COMMENT_2]
    ensures FoldFrom(INITIAL, [COMMENT_1, COMMENT_2], secs) == INITIAL
  {
    Comment1Read();
    Comment2Read();
    var head := [COMMENT_1, COMMENT_2, ""];
    assert head[1..] == [COMMENT_2, ""] && head[1..][1..] == [""] && [""][1..] == [];
    assert NonEmpty([""]) == [];
    assert NonEmpty([COMMENT_2, ""]) == [COMMENT_2];
    var comments := [COMMENT_1, COMMENT_2];
    assert comments[1..] == [COMMENT_2] && [COMMENT_2][1..] == [];
    assert FoldFrom(INITIAL, [COMMENT_2], secs) == INITIAL;
  }

  /** The NamedPipe section as written: lines none of which is empty or holds a LF. */
  lemma NamedPipeBlockOk(np: NamedPipeSettings, secs: Seconds)
    requires NamedPipeTimesPlain(np, secs)
    ensures LinesOk(NamedPipeBlock(np, secs))
  {
    NamedPipePairsPlain(np, secs);
    BlockLines("[NamedPipe]", NamedPipePairs(np, secs));
  }

  /** The NamedPipe section as written: plain lines that set exactly the NamedPipe settings. */
  lemma NamedPipeBlockRead(st: ParseState, np: NamedPipeSettings, secs: Seconds)
    requires NamedPipeTimesRead(np, secs)
    ensures FoldFrom(st, NamedPipeBlock(np, secs), secs) == ParseState("NamedPipe", st.settings.(namedPipe := np))
  {
    NamedPipePairsPlain(np, secs);
    assert "[NamedPipe]" == "[" + "NamedPipe" + "]";
    SectionRead(st, "NamedPipe", NamedPipePairs(np, secs), secs);
    NamedPipeApplied(st.settings, np, secs);
  }

  /** The Injection section as written: lines none of which is empty or holds a LF. */
  lemma InjectionBlockOk(inj: InjectionSettings, secs: Seconds)
    requires InjectionTimesPlain(inj, secs) && Plain(inj.defaultProcessName) && Plain(inj.defaultDllPath)
    ensures LinesOk(InjectionBlock(inj, secs))
  {
    InjectionPairsPlain(inj, secs);
    BlockLines("[Injection]", InjectionPairs(inj, secs));
  }

  /** The Injection section as written: plain lines that set exactly the Injection settings. */
  lemma InjectionBlockRead(st: ParseState, inj: InjectionSettings, secs: Seconds)
    requires InjectionTimesRead(inj, secs) && Plain(inj.defaultProcessName) && Plain(inj.defaultDllPath)
    ensures FoldFrom(st, InjectionBlock(inj, secs), secs) == ParseState("Injection", st.settings.(injection := inj))
  {
    InjectionPairsPlain(inj, secs);
    assert "[Injection]" == "[" + "Injection" + "]";
    SectionRead(st, "Injection", InjectionPairs(inj, secs), secs);
    InjectionApplied(st.settings, inj, secs);
  }

  /** The UI section as written: lines none of which is empty or holds a LF. */
  lemma UIBlockOk(ui: UISettings)
    requires Plain(ui.theme)
    ensures LinesOk(UIBlock(ui))
  {
    UIPairsPlain(ui);
    BlockLines("[UI]", UIPairs(ui));
  }

  /** The UI section as written: plain lines that set exactly the UI settings. */
  lemma UIBlockRead(st: ParseState, ui: UISettings, secs: Seconds)
    requires Plain(ui.theme)
    ensures FoldFrom(st, UIBlock(ui), secs) == ParseState("UI", st.settings.(ui := ui))
  {
    UIPairsPlain(ui);
    assert "[UI]" == "[" + "UI" + "]";
    SectionRead(st, "UI", UIPairs(ui), secs);
    UIApplied(st.settings, ui, secs);
  }

  lemma NoLFAppend(a: seq<string>, b: seq<string>)
    requires NoLF(a) && NoLF(b)
    ensures NoLF(a + b)
  {
  }

  /** A section followed by its empty line: the empty line is the only one dropped. */
  lemma BlockFiltered(b: seq<string>)
    requires LinesOk(b)
    ensures NonEmpty(b + [""]) == b && NoLF(b + [""])
  {
    NonEmptyKeeps(b);
    assert NonEmpty([""]) == [];
    NonEmptyAppend(b, [""]);
  }

  /** Filtering a head and three runs, one after another. */
  lemma Layout(head: seq<string>, t1: seq<string>, t2: seq<string>, t3: seq<string>)
    ensures NonEmpty(head + t1 + t2 + t3) == NonEmpty(head) + NonEmpty(t1) + NonEmpty(t2) + NonEmpty(t3)
  {
    NonEmptyAppend(head, t1);
    NonEmptyAppend(head + t1, t2);
    NonEmptyAppend(head + t1 + t2, t3);
  }

  /** Splitting a file `CreateIniContent` wrote on LF gives back the lines it joined. */
  lemma ContentSplit(s: AppSettings, secs: Seconds)
    requires NamedPipeTimesPlain(s.namedPipe, secs) && InjectionTimesPlain(s.injection, secs)
    requires Plain(s.injection.defaultProcessName) && Plain(s.injection.defaultDllPath) && Plain(s.ui.theme)
    ensures SplitOn(JoinWith(ContentLines(s, secs), "\n"), '\n') == ContentLines(s, secs)
  {
    var head := [COMMENT_1, COMMENT_2, ""];
    var b1, b2, b3 := NamedPipeBlock(s.namedPipe, secs), InjectionBlock(s.injection, secs), UIBlock(s.ui);
    NamedPipeBlockOk(s.namedPipe, secs);
    InjectionBlockOk(s.injection, secs);
    UIBlockOk(s.ui);
    BlockFiltered(b1);
    BlockFiltered(b2);
    BlockFiltered(b3);
    Comment1Read();
    Comment2Read();
    assert NoLF(head);
    NoLFAppend(head, b1 + [""]);
    NoLFAppend(head + (b1 + [""]), b2 + [""]);
    NoLFAppend(head + (b1 + [""]) + (b2 + [""]), b3 + [""]);
    SplitOfJoin(ContentLines(s, secs), '\n');
  }

  /** The lines `ParseIniFile` visits in a file `CreateIniContent` wrote: the comments, then the sections. */
  lemma ContentIniLines(s: AppSettings, secs: Seconds)
    requires NamedPipeTimesPlain(s.namedPipe, secs) && InjectionTimesPlain(s.injection, secs)
    requires Plain(s.injection.defaultProcessName) && Plain(s.injection.defaultDllPath) && Plain(s.ui.theme)
    ensures IniLines(CreateIniContent(s, secs))
      == [COMMENT_1, COMMENT_2] + NamedPipeBlock(s.namedPipe, secs) + InjectionBlock(s.injection, secs) + UIBlock(s.ui)
  {
    var head := [COMMENT_1, COMMENT_2, ""];
    var b1, b2, b3 := NamedPipeBlock(s.namedPipe, secs), InjectionBlock(s.injection, secs), UIBlock(s.ui);
    ContentSplit(s, secs);
    NamedPipeBlockOk(s.namedPipe, secs);
    InjectionBlockOk(s.injection, secs);
    UIBlockOk(s.ui);
    BlockFiltered(b1);
    BlockFiltered(b2);
    BlockFiltered(b3);
    Layout(head, b1 + [""], b2 + [""], b3 + [""]);
    HeadRead(secs);
  }

  /** Folding over four runs of lines, one run after another. */
  lemma FoldRuns(st: ParseState, a: seq<string>, b: seq<string>, c: seq<string>, d: seq<string>, secs: Seconds)
    ensures FoldFrom(st, a + b + c + d, secs)
      == FoldFrom(FoldFrom(FoldFrom(FoldFrom(st, a, secs), b, secs), c, secs), d, secs)
  {
    FoldAppend(st, a, b, secs);
    FoldAppend(st, a + b, c, secs);
    FoldAppend(st, a + b + c, d, secs);
  }

  // ---------------------------------------------------------------------
  // Timeouts that throw.

  /** A run of lines throws when its first part does, or its second part does in the state the first leaves. */
  lemma {:induction false} ThrowsAppend(st: ParseState, a: seq<string>, b: seq<string>, secs: Seconds)
    ensures ThrowsFrom(st, a + b, secs) == (ThrowsFrom(st, a, secs) || ThrowsFrom(FoldFrom(st, a, secs), b, secs))
    decreases |a|
  {
    if |a| > 0 {
      assert (a + b)[0] == a[0] && (a + b)[1..] == a[1..] + b;
      ThrowsAppend(Step(st, a[0], secs), a[1..], b, secs);
    } else {
      assert a + b == b;
    }
  }

  /**
   * A timeout of the current section set to a value `TimeSpan.FromSeconds`
   * throws on ends the parse there: nothing after it is read.
   */
  lemma TimeoutOverflowAborts(st: ParseState, key: string, value: string, rest: seq<string>, secs: Seconds)
    requires PlainKey(key) && Trimmed(value)
    requires TimeoutKey(st.section, key) && secs.parse(value).Throws?
    ensures ThrowsFrom(st, [key + "=" + value] + rest, secs)
  {
    EntryLine(key, value);
    assert ([key + "=" + value] + rest)[0] == key + "=" + value;
  }

  /** A section whose first line is a timeout of that section that throws: the parse throws, whatever follows. */
  lemma SectionOverflowThrows(st: ParseState, name: string, key: string, value: string, rest: seq<string>, secs: Seconds)
    requires PlainKey(key) && Trimmed(value)
    requires TimeoutKey(name, key) && secs.parse(value).Throws?
    ensures ThrowsFrom(st, ["[" + name + "]"] + ([key + "=" + value] + rest), secs)
  {
    TimeoutOverflowAborts(st.(section := name), key, value, rest, secs);
    HeaderThen(st, name, [key + "=" + value] + rest, secs);
  }

  /** A NamedPipe section whose first line is a connection timeout that throws: `ParseIniFile` throws, whatever follows. */
  lemma NamedPipeOverflowThrows(value: string, rest: seq<string>, secs: Seconds)
    requires Trimmed(value) && secs.parse(value).Throws?
    ensures ThrowsFrom(INITIAL, ["[" + "NamedPipe" + "]"] + (["ConnectionTimeout" + "=" + value] + rest), secs)
  {
    ConnectionTimeoutIsTimeout();
    SectionOverflowThrows(INITIAL, "NamedPipe", "ConnectionTimeout", value, rest, secs);
  }

  lemma ConnectionTimeoutIsTimeout()
    ensures PlainKey("ConnectionTimeout") && TimeoutKey("NamedPipe", "ConnectionTimeout")
  {
    LowerNamedPipeNamesFirst();
    NamedPipeKeysPlain();
  }

  /** A "[name]" line never throws; the lines after it are read in that section. */
  lemma HeaderThen(st: ParseState, name: string, rest: seq<string>, secs: Seconds)
    ensures ThrowsFrom(st, ["[" + name + "]"] + rest, secs) == ThrowsFrom(st.(section := name), rest, secs)
  {
    var lines := ["[" + name + "]"] + rest;
    assert lines[0] == "[" + name + "]" && lines[1..] == rest;
    HeaderSwitches(st, name, secs);
  }

  /** No pair sets a timeout of the section to a value that throws. */
  predicate PairsSafe(section: string, pairs: seq<(string, string)>, secs: Seconds)
  {
    forall k :: 0 <= k < |pairs| ==> !(TimeoutKey(section, pairs[k].0) && secs.parse(pairs[k].1).Throws?)
  }

  /** Assignment lines none of which sets a timeout that throws do not throw. */
  lemma {:induction false} AssignmentsSafe(st: ParseState, pairs: seq<(string, string)>, secs: Seconds)
    requires forall k :: 0 <= k < |pairs| ==> PlainKey(pairs[k].0) && Trimmed(pairs[k].1)
    requires PairsSafe(st.section, pairs, secs)
    ensures !ThrowsFrom(st, AssignLines(pairs), secs)
    decreases |pairs|
  {
    if |pairs| > 0 {
      var lines := AssignLines(pairs);
      assert lines[0] == pairs[0].0 + "=" + pairs[0].1 && lines[1..] == AssignLines(pairs[1..]);
      AssignSafe(st, pairs[0].0, pairs[0].1, secs);
      PairsSafeTail(st.section, pairs, secs);
      AssignmentsSafe(Step(st, lines[0], secs), pairs[1..], secs);
    }
  }

  /** One "key=value" line that does not set a timeout to a value that throws: no throw, and the section is kept. */
  lemma AssignSafe(st: ParseState, key: string, value: string, secs: Seconds)
    requires PlainKey(key) && Trimmed(value)
    requires !(TimeoutKey(st.section, key) && secs.parse(value).Throws?)
    ensures !StepThrows(st, key + "=" + value, secs)
    ensures Step(st, key + "=" + value, secs).section == st.section
  {
    EntryLine(key, value);
  }

  lemma PairsSafeTail(section: string, pairs: seq<(string, string)>, secs: Seconds)
    requires |pairs| > 0 && PairsSafe(section, pairs, secs)
    ensures !(TimeoutKey(section, pairs[0].0) && secs.parse(pairs[0].1).Throws?)
    ensures PairsSafe(section, pairs[1..], secs)
  {
    forall k | 0 <= k < |pairs[1..]|
      ensures !(TimeoutKey(section, pairs[1..][k].0) && secs.parse(pairs[1..][k].1).Throws?)
    {
      assert pairs[1..][k] == pairs[k + 1];
    }
  }

  /** A section as written, none of whose pairs sets a timeout that throws, does not throw. */
  lemma SectionSafe(st: ParseState, name: string, pairs: seq<(string, string)>, secs: Seconds)
    requires PairsPlain(pairs) && PairsSafe(name, pairs, secs)
    ensures !ThrowsFrom(st, ["[" + name + "]"] + AssignLines(pairs), secs)
  {
    HeaderThen(st, name, AssignLines(pairs), secs);
    AssignmentsSafe(st.(section := name), pairs, secs);
  }

  /** The NamedPipe section as written does not throw: its timeouts read back, and `MaxRetries` is no timeout. */
  lemma NamedPipeBlockSafe(st: ParseState, np: NamedPipeSettings, secs: Seconds)
    requires NamedPipeTimesRead(np, secs)
    ensures !ThrowsFrom(st, NamedPipeBlock(np, secs), secs)
  {
    NamedPipePairsPlain(np, secs);
    LowerNamedPipeNamesFirst();
    LowerNamedPipeNamesLast();
    assert "[NamedPipe]" == "[" + "NamedPipe" + "]";
    SectionSafe(st, "NamedPipe", NamedPipePairs(np, secs), secs);
  }

  /** The Injection section as written does not throw: its timeouts read back, and the two names are no timeouts. */
  lemma InjectionBlockSafe(st: ParseState, inj: InjectionSettings, secs: Seconds)
    requires InjectionTimesRead(inj, secs) && Plain(inj.defaultProcessName) && Plain(inj.defaultDllPath)
    ensures !ThrowsFrom(st, InjectionBlock(inj, secs), secs)
  {
    InjectionPairsPlain(inj, secs);
    LowerInjectionNamesFirst();
    LowerInjectionNamesLast();
    assert "[Injection]" == "[" + "Injection" + "]";
    SectionSafe(st, "Injection", InjectionPairs(inj, secs), secs);
  }

  /** The UI section as written does not throw: it has no timeouts. */
  lemma UIBlockSafe(st: ParseState, ui: UISettings, secs: Seconds)
    requires Plain(ui.theme)
    ensures !ThrowsFrom(st, UIBlock(ui), secs)
  {
    UIPairsPlain(ui);
    LowerUINamesFirst();
    assert "[UI]" == "[" + "UI" + "]";
    SectionSafe(st, "UI", UIPairs(ui), secs);
  }

  /** `ParseIniFile` does not throw on a file `CreateIniContent` wrote, whenever every stored setting survives its own line. */
  lemma WrittenNeverThrows(s: AppSettings, secs: Seconds)
    requires NamedPipeTimesRead(s.namedPipe, secs) && InjectionTimesRead(s.injection, secs)
    requires Plain(s.injection.defaultProcessName) && Plain(s.injection.defaultDllPath) && Plain(s.ui.theme)
    ensures !ParseThrows(CreateIniContent(s, secs), secs)
  {
    ContentIniLines(s, secs);
    HeadRead(secs);
    Comment1Read();
    Comment2Read();
    var head := [COMMENT_1, COMMENT_2];
    var b1, b2, b3 := NamedPipeBlock(s.namedPipe, secs), InjectionBlock(s.injection, secs), UIBlock(s.ui);
    assert head[1..] == [COMMENT_2] && [COMMENT_2][1..] == [];
    assert !StepThrows(INITIAL, COMMENT_1, secs) && Step(INITIAL, COMMENT_1, secs) == INITIAL;
    assert !StepThrows(INITIAL, COMMENT_2, secs) && Step(INITIAL, COMMENT_2, secs) == INITIAL;
    assert !ThrowsFrom(INITIAL, [COMMENT_2], secs);
    assert !ThrowsFrom(INITIAL, head, secs);
    var st1 := FoldFrom(INITIAL, head, secs);
    var st2 := FoldFrom(st1, b1, secs);
    var st3 := FoldFrom(st2, b2, secs);
    NamedPipeBlockSafe(st1, s.namedPipe, secs);
    InjectionBlockSafe(st2, s.injection, secs);
    UIBlockSafe(st3, s.ui, secs);
    ThrowsAppend(INITIAL, head, b1, secs);
    FoldAppend(INITIAL, head, b1, secs);
    ThrowsAppend(INITIAL, head + b1, b2, secs);
    FoldAppend(INITIAL, head + b1, b2, secs);
    ThrowsAppend(INITIAL, head + b1 + b2, b3, secs);
  }

  /**
   * `ParseIniFile` reads back what `CreateIniContent` wrote, without
   * throwing, whenever every stored setting survives its own line.
   */
  lemma RoundTrip(s: AppSettings, secs: Seconds)
    requires NamedPipeTimesRead(s.namedPipe, secs) && InjectionTimesRead(s.injection, secs)
    requires Plain(s.injection.defaultProcessName) && Plain(s.injection.defaultDllPath) && Plain(s.ui.theme)
    ensures !ParseThrows(CreateIniContent(s, secs), secs)
    ensures ParseIniF(CreateIniContent(s, secs), secs) == s
  {
    WrittenNeverThrows(s, secs);
    ContentIniLines(s, secs);
    HeadRead(secs);
    var d := Defaults();
    var st1 := ParseState("NamedPipe", d.(namedPipe := s.namedPipe));
    var st2 := ParseState("Injection", st1.settings.(injection := s.injection));
    NamedPipeBlockRead(INITIAL, s.namedPipe, secs);
    InjectionBlockRead(st1, s.injection, secs);
    UIBlockRead(st2, s.ui, secs);
    FoldRuns(INITIAL, [COMMENT_1, COMMENT_2], NamedPipeBlock(s.namedPipe, secs),
      InjectionBlock(s.injection, secs), UIBlock(s.ui), secs);
  }

  /**
   * The seconds pair on whole seconds: `TotalSeconds` of a whole number of
   * seconds is an integral double, printed as that number's digits, and
   * `double.TryParse` of the digits followed by `TimeSpan.FromSeconds` gives
   * that many seconds back. Fractions of a second, and numbers outside the
   * 32-bit range, are outside this pair; it never throws, as 2^31 seconds is
   * well within the range of a TimeSpan.
   */
  function WholeSeconds(): Seconds
  {
    Seconds(
      t => IntText(t / TICKS_PER_SECOND),
      v => match ParseInt32(v) case Some(n) => Read(n as int * TICKS_PER_SECOND) case None => Rejected)
  }

  /** A whole number of seconds within the 32-bit range survives its printed seconds. */
  lemma WholeSecondsReadBack(t: Ticks)
    requires t % TICKS_PER_SECOND == 0 && -0x8000_0000 <= t / TICKS_PER_SECOND < 0x8000_0000
    ensures ReadsBack(WholeSeconds(), t)
  {
    var n := (t / TICKS_PER_SECOND) as int32;
    IntRoundTrip(n);
    IntTextPlain(n as int);
  }

  /** The default timeouts are whole seconds, so they survive the whole-seconds pair. */
  lemma DefaultTimesRead()
    ensures NamedPipeTimesRead(Defaults().namedPipe, WholeSeconds())
    ensures InjectionTimesRead(Defaults().injection, WholeSeconds())
  {
    DefaultNamedPipeTimesRead();
    DefaultInjectionTimesRead();
  }

  lemma DefaultNamedPipeTimesRead()
    ensures NamedPipeTimesRead(Defaults().namedPipe, WholeSeconds())
  {
    WholeSecondsReadBack(15 * TICKS_PER_SECOND);
    WholeSecondsReadBack(5 * TICKS_PER_SECOND);
    WholeSecondsReadBack(1 * TICKS_PER_SECOND);
  }

  lemma DefaultInjectionTimesRead()
    ensures InjectionTimesRead(Defaults().injection, WholeSeconds())
  {
    WholeSecondsReadBack(30 * TICKS_PER_SECOND);
    WholeSecondsReadBack(10 * TICKS_PER_SECOND);
  }

  /** The default texts are plain lines. */
  lemma DefaultTextsPlain()
    ensures Plain(Defaults().injection.defaultProcessName) && Plain(Defaults().injection.defaultDllPath)
    ensures Plain(Defaults().ui.theme)
  {
    assert Plain("l2.exe") && Plain("") && Plain("Light");
  }

  /** The default settings, written and read back through the whole-seconds pair, come back unchanged. */
  lemma DefaultsRoundTrip()
    ensures !ParseThrows(CreateIniContent(Defaults(), WholeSeconds()), WholeSeconds())
    ensures ParseIniF(CreateIniContent(Defaults(), WholeSeconds()), WholeSeconds()) == Defaults()
  {
    DefaultTimesRead();
    DefaultTextsPlain();
    RoundTrip(Defaults(), WholeSeconds());
  }
}
