/**
 * `ProfileService`: one player profile per file in the profiles directory.
 * A profile is saved as a "[Profile]" header and six "Key=Value" lines, and
 * loaded by reading the lines back: blank lines and lines starting with '['
 * are skipped, each other line is cut at its first '=', and the trimmed key
 * picks the field (case-sensitively). A tracking flag that is not a boolean
 * makes the whole load fail.
 *
 * The directory is a map from file name to file text; the file name is the
 * player name with every character Windows refuses in a file name replaced
 * by '_', followed by ".ini".
 */
module Profiles {
  import opened Wrappers
  import opened Text

  /** `PlayerProfile`: the player, the server, and the four tracking switches. */
  datatype PlayerProfile = PlayerProfile(
    playerName: string, server: string,
    privateStoreTracking: bool, commissionTracking: bool, worldExchangeTracking: bool, autoStartTracking: bool)

  /** A new `PlayerProfile`: no name, the "Cadmus" server, every switch off. */
  function NewProfile(): PlayerProfile
  {
    PlayerProfile("", "Cadmus", false, false, false, false)
  }

  // ---------------------------------------------------------------------
  // File names.

  /** `Path.GetInvalidFileNameChars()` on Windows, in its order. */
  const INVALID_FILE_NAME_CHARS: seq<char> :=
    ['"', '<', '>', '|', '\0'] + seq(31, i requires 0 <= i < 31 => (i + 1) as char) + [':', '*', '?', '\\', '/']

  /** The characters Windows refuses in a file name: the controls below U+0020 and "<>:\"/\\|?*". */
  predicate InvalidFileNameChar(c: char)
  {
    c < ' ' || c == '"' || c == '<' || c == '>' || c == '|' || c == ':' || c == '*' || c == '?' || c == '\\' || c == '/'
  }

  lemma InvalidCharsListed(c: char)
    ensures c in INVALID_FILE_NAME_CHARS <==> InvalidFileNameChar(c)
  {
    var controls := seq(31, i requires 0 <= i < 31 => (i + 1) as char);
    assert INVALID_FILE_NAME_CHARS == ['"', '<', '>', '|', '\0'] + controls + [':', '*', '?', '\\', '/'];
    if '\0' < c < ' ' {
      assert controls[c as int - 1] == c;
    }
  }

  /** `SanitizeFileName`: every invalid character becomes '_', every other one stays. */
  function Sanitized(name: string): (r: string)
    ensures |r| == |name|
    ensures forall i :: 0 <= i < |r| ==> !InvalidFileNameChar(r[i])
    ensures forall i :: 0 <= i < |r| ==> r[i] == name[i] || (InvalidFileNameChar(name[i]) && r[i] == '_')
  {
    seq(|name|, i requires 0 <= i < |name| => if InvalidFileNameChar(name[i]) then '_' else name[i])
  }

  /** `string.Replace(c, d)` on characters. */
  function ReplaceChar(s: string, c: char, d: char): (r: string)
    ensures |r| == |s|
    ensures forall i :: 0 <= i < |s| ==> r[i] == (if s[i] == c then d else s[i])
  {
    seq(|s|, i requires 0 <= i < |s| => if s[i] == c then d else s[i])
  }

  /** `SanitizeFileName`, one invalid character after another. */
  method SanitizeFileName(fileName: string) returns (r: string)
    ensures r == Sanitized(fileName)
  {
    r := fileName;
    for k := 0 to |INVALID_FILE_NAME_CHARS|
      invariant |r| == |fileName|
      invariant forall i :: 0 <= i < |r| ==>
        r[i] == (if fileName[i] in INVALID_FILE_NAME_CHARS[..k] then '_' else fileName[i])
    {
      var c := INVALID_FILE_NAME_CHARS[k];
      assert INVALID_FILE_NAME_CHARS[..k + 1] == INVALID_FILE_NAME_CHARS[..k] + [c];
      InvalidCharsListed('_');
      r := ReplaceChar(r, c, '_');
    }
    assert INVALID_FILE_NAME_CHARS[..|INVALID_FILE_NAME_CHARS|] == INVALID_FILE_NAME_CHARS;
    forall i | 0 <= i < |r|
      ensures r[i] == Sanitized(fileName)[i]
    {
      InvalidCharsListed(fileName[i]);
    }
  }

  /** Sanitizing a sanitized name changes nothing. */
  lemma SanitizeIdempotent(name: string)
    ensures Sanitized(Sanitized(name)) == Sanitized(name)
  {
    var s := Sanitized(name);
    assert forall i :: 0 <= i < |s| ==> Sanitized(s)[i] == s[i];
  }

  /** The name of a player's profile file. */
  function ProfileFileName(playerName: string): (r: string)
    ensures |r| == |playerName| + 4 && r[|playerName|..] == ".ini"
    ensures forall i :: 0 <= i < |r| ==> !InvalidFileNameChar(r[i])
    ensures forall i :: 0 <= i < |playerName| && !InvalidFileNameChar(playerName[i]) ==> r[i] == playerName[i]
  {
    Sanitized(playerName) + ".ini"
  }

  /**
   * The key under which the profiles directory holds a player's file. Windows
   * compares file names ignoring case, so "Alice.ini" and "alice.ini" are one
   * file: the directory is keyed by the file name with its letters folded.
   */
  function ProfileKey(playerName: string): string
  {
    Lower(ProfileFileName(playerName))
  }

  /** Names that differ only in the case of their letters share one profile file. */
  lemma SameFileIgnoringCase(a: string, b: string)
    requires Lower(a) == Lower(b)
    ensures ProfileKey(a) == ProfileKey(b)
  {
    var fa, fb := ProfileFileName(a), ProfileFileName(b);
    assert |fa| == |fb| by {
      assert |Lower(a)| == |a| && |Lower(b)| == |b|;
    }
    forall i | 0 <= i < |fa|
      ensures LowerChar(fa[i]) == LowerChar(fb[i])
    {
      if i < |a| {
        assert LowerChar(a[i]) == Lower(a)[i] == Lower(b)[i] == LowerChar(b[i]);
      }
    }
  }

  /** "Alice" and "alice" load, save and delete the same file. */
  lemma AliceIsAlice()
    ensures ProfileKey("Alice") == ProfileKey("alice")
  {
    SameFileIgnoringCase("Alice", "alice");
  }

  // ---------------------------------------------------------------------
  // The saved text.

  /** One "Key=Value" line, as the interpolated string writes it. */
  function Assignment(key: string, value: string): string
  {
    key + "=" + value
  }

  /** The lines `SaveProfile` appends, in order. */
  function ProfileLines(p: PlayerProfile): seq<string>
  {
    ["[Profile]",
     Assignment("PlayerName", p.playerName),
     Assignment("Server", p.server),
     Assignment("PrivateStoreTracking", BoolText(p.privateStoreTracking)),
     Assignment("CommissionTracking", BoolText(p.commissionTracking)),
     Assignment("WorldExchangeTracking", BoolText(p.worldExchangeTracking)),
     Assignment("AutoStartTracking", BoolText(p.autoStartTracking))]
  }

  /** The text `SaveProfile` writes. */
  function ProfileText(p: PlayerProfile): string
  {
    WriteLines(ProfileLines(p))
  }

  /** `StringBuilder.AppendLine`. */
  function AppendLine(text: string, line: string): (r: string)
    ensures r == text + WriteLines([line])
  {
    text + line + "\r\n"
  }

  // ---------------------------------------------------------------------
  // Reading a profile back.

  /** `string.IsNullOrWhiteSpace`. */
  predicate Blank(line: string)
  {
    forall j :: 0 <= j < |line| ==> IsWhite(line[j])
  }

  /** The six fields a profile file sets. */
  datatype Field = PlayerName | Server | PrivateStoreTracking | CommissionTracking | WorldExchangeTracking | AutoStartTracking
  {
    predicate IsFlag()
    {
      !(this == PlayerName || this == Server)
    }
  }

  /** The `switch` on the trimmed key: the field it names, matched exactly, case included. */
  function FieldOf(key: string): Option<Field>
  {
    if key == "PlayerName" then Some(PlayerName)
    else if key == "Server" then Some(Server)
    else if key == "PrivateStoreTracking" then Some(PrivateStoreTracking)
    else if key == "CommissionTracking" then Some(CommissionTracking)
    else if key == "WorldExchangeTracking" then Some(WorldExchangeTracking)
    else if key == "AutoStartTracking" then Some(AutoStartTracking)
    else None
  }

  /** A field's value, as the text its line carries. */
  function FieldText(p: PlayerProfile, f: Field): string
  {
    match f
    case PlayerName => p.playerName
    case Server => p.server
    case PrivateStoreTracking => BoolText(p.privateStoreTracking)
    case CommissionTracking => BoolText(p.commissionTracking)
    case WorldExchangeTracking => BoolText(p.worldExchangeTracking)
    case AutoStartTracking => BoolText(p.autoStartTracking)
  }

  /** One field set from its already trimmed value; `bool.Parse` failing fails the load. */
  function SetField(p: PlayerProfile, f: Field, value: string): (r: Option<PlayerProfile>)
    ensures r.None? <==> f.IsFlag() && ParseBool(value).None?
  {
    match f
    case PlayerName => Some(p.(playerName := value))
    case Server => Some(p.(server := value))
    case PrivateStoreTracking =>
      (match ParseBool(value) case None => None case Some(b) => Some(p.(privateStoreTracking := b)))
    case CommissionTracking =>
      (match ParseBool(value) case None => None case Some(b) => Some(p.(commissionTracking := b)))
    case WorldExchangeTracking =>
      (match ParseBool(value) case None => None case Some(b) => Some(p.(worldExchangeTracking := b)))
    case AutoStartTracking =>
      (match ParseBool(value) case None => None case Some(b) => Some(p.(autoStartTracking := b)))
  }

  /** One key and value: an unknown key changes nothing. */
  function ProfileEntry(p: PlayerProfile, key: string, value: string): Option<PlayerProfile>
  {
    match FieldOf(key)
    case None => Some(p)
    case Some(f) => SetField(p, f, value)
  }

  /** A line's trimmed key and value, cut at its first '='; nothing for a blank line, a '[' line or a line without '='. */
  function LineEntry(line: string): (r: Option<(string, string)>)
    ensures r.Some? ==> Trimmed(r.value.0) && Trimmed(r.value.1)
  {
    if Blank(line) || StartsWith(line, '[') then None
    else
      match IndexOf(line, '=')
      case None => None
      case Some(i) => Some((Trim(line[..i]), Trim(line[i + 1..])))
  }

  /** One line of the file: skipped, or its key and value applied. */
  function ProfileStep(p: PlayerProfile, line: string): Option<PlayerProfile>
  {
    match LineEntry(line)
    case None => Some(p)
    case Some((key, value)) => ProfileEntry(p, key, value)
  }

  /** The lines applied in order; the first failure ends the load. */
  function ProfileFold(p: PlayerProfile, lines: seq<string>, from: nat): Option<PlayerProfile>
    decreases |lines| - from
  {
    if from >= |lines| then Some(p)
    else
      match ProfileStep(p, lines[from])
      case None => None
      case Some(q) => ProfileFold(q, lines, from + 1)
  }

  /** The profile a file's text holds, starting from a new profile. */
  function ParseProfile(text: string): (r: Option<PlayerProfile>)
    ensures r.None? <==> HasBadFlag(ReadLines(text))
  {
    var lines := ReadLines(text);
    FoldFailsIff(NewProfile(), lines);
    ProfileFold(NewProfile(), lines, 0)
  }

  /** `LoadProfile`: nothing for an empty name or a missing file, otherwise the file's profile. */
  function LoadResult(files: map<string, string>, playerName: string): (r: Option<PlayerProfile>)
    ensures playerName == [] ==> r.None?
    ensures playerName != [] && ProfileKey(playerName) !in files ==> r.None?
  {
    if playerName == [] then None
    else
      var key := ProfileKey(playerName);
      if key !in files then None else ParseProfile(files[key])
  }

  // ---------------------------------------------------------------------
  // The service.

  /** `ProfileService`: the profiles directory, as folded file name to file text. */
  class ProfileService {
    var files: map<string, string>

    /** The service over a profiles directory that already holds `existing`. */
    constructor(existing: map<string, string>)
      ensures files == existing
    {
      files := existing;
    }

    /** `SaveProfile`: refuses an empty name; otherwise writes the profile's text to its file. */
    method SaveProfile(profile: PlayerProfile) returns (saved: bool)
      modifies this
      ensures profile.playerName == [] ==> !saved && files == old(files)
      ensures profile.playerName != [] ==>
        saved && files == old(files)[ProfileKey(profile.playerName) := ProfileText(profile)]
    {
      if profile.playerName == [] {
        return false;
      }
      var name := SanitizeFileName(profile.playerName);
      var fileName := name + ".ini";
      var iniContent := "";
      iniContent := AppendLine(iniContent, "[Profile]");
      iniContent := AppendLine(iniContent, Assignment("PlayerName", profile.playerName));
      iniContent := AppendLine(iniContent, Assignment("Server", profile.server));
      iniContent := AppendLine(iniContent, Assignment("PrivateStoreTracking", BoolText(profile.privateStoreTracking)));
      iniContent := AppendLine(iniContent, Assignment("CommissionTracking", BoolText(profile.commissionTracking)));
      iniContent := AppendLine(iniContent, Assignment("WorldExchangeTracking", BoolText(profile.worldExchangeTracking)));
      iniContent := AppendLine(iniContent, Assignment("AutoStartTracking", BoolText(profile.autoStartTracking)));
      ProfileTextAppended(profile);
      files := files[Lower(fileName) := iniContent];
      return true;
    }

    /** `LoadProfile`, line by line. */
    method LoadProfile(playerName: string) returns (r: Option<PlayerProfile>)
      ensures r == LoadResult(files, playerName)
    {
      if playerName == [] {
        return None;
      }
      var name := SanitizeFileName(playerName);
      var key := Lower(name + ".ini");
      if key !in files {
        return None;
      }
      var profile := NewProfile();
      var lines := ReadLines(files[key]);
      for k := 0 to |lines|
        invariant ProfileFold(profile, lines, k) == ProfileFold(NewProfile(), lines, 0)
      {
        var line := lines[k];
        if Blank(line) || StartsWith(line, '[') {
          continue;
        }
        var equalIndex := IndexOf(line, '=');
        if equalIndex.None? {
          continue;
        }
        var key := Trim(line[..equalIndex.value]);
        var value := Trim(line[equalIndex.value + 1..]);
        assert LineEntry(line) == Some((key, value));
        match FieldOf(key) {
          case None =>
          case Some(PlayerName) =>
            profile := profile.(playerName := value);
          case Some(Server) =>
            profile := profile.(server := value);
          case Some(PrivateStoreTracking) =>
            var b := ParseBool(value);
            if b.None? {
              return None;
            }
            profile := profile.(privateStoreTracking := b.value);
          case Some(CommissionTracking) =>
            var b := ParseBool(value);
            if b.None? {
              return None;
            }
            profile := profile.(commissionTracking := b.value);
          case Some(WorldExchangeTracking) =>
            var b := ParseBool(value);
            if b.None? {
              return None;
            }
            profile := profile.(worldExchangeTracking := b.value);
          case Some(AutoStartTracking) =>
            var b := ParseBool(value);
            if b.None? {
              return None;
            }
            profile := profile.(autoStartTracking := b.value);
        }
      }
      return Some(profile);
    }

    /** `ProfileExists`: false for an empty name, otherwise whether the profile's file exists. */
    method ProfileExists(playerName: string) returns (b: bool)
      ensures b <==> playerName != [] && ProfileKey(playerName) in files
    {
      if playerName == [] {
        return false;
      }
      var name := SanitizeFileName(playerName);
      b := Lower(name + ".ini") in files;
    }

    /** `DeleteProfile`: false for an empty name or a missing file, otherwise the file is removed. */
    method DeleteProfile(playerName: string) returns (deleted: bool)
      modifies this
      ensures deleted <==> playerName != [] && ProfileKey(playerName) in old(files)
      ensures deleted ==> files == old(files) - {ProfileKey(playerName)}
      ensures !deleted ==> files == old(files)
    {
      if playerName == [] {
        return false;
      }
      var name := SanitizeFileName(playerName);
      var key := Lower(name + ".ini");
      if key !in files {
        return false;
      }
      files := files - {key};
      return true;
    }
  }

  // ---------------------------------------------------------------------
  // Properties.

  /** The profile text is its lines appended one after another. */
  lemma ProfileTextAppended(p: PlayerProfile)
    ensures ProfileText(p) == AppendLine(AppendLine(AppendLine(AppendLine(AppendLine(AppendLine(AppendLine("",
      "[Profile]"), ProfileLines(p)[1]), ProfileLines(p)[2]), ProfileLines(p)[3]), ProfileLines(p)[4]),
      ProfileLines(p)[5]), ProfileLines(p)[6])
  {
    var ls := ProfileLines(p);
    assert ls[..0] == [];
    forall k | 0 <= k < 7
      ensures WriteLines(ls[..k + 1]) == AppendLine(WriteLines(ls[..k]), ls[k])
    {
      WriteLinesSnoc(ls[..k], ls[k]);
      assert ls[..k + 1] == ls[..k] + [ls[k]];
    }
    assert ls[..7] == ls;
  }

  /** Appending one more line to text built by `AppendLine`. */
  lemma {:induction false} WriteLinesSnoc(lines: seq<string>, line: string)
    ensures WriteLines(lines + [line]) == WriteLines(lines) + line + "\r\n"
    decreases |lines|
  {
    if |lines| > 0 {
      assert (lines + [line])[1..] == lines[1..] + [line];
      WriteLinesSnoc(lines[1..], line);
    } else {
      assert WriteLines([line]) == line + "\r\n" + WriteLines([]);
    }
  }

  /** Blank lines, lines starting with '[' and lines without '=' change nothing. */
  lemma SkippedLine(p: PlayerProfile, line: string)
    requires Blank(line) || StartsWith(line, '[') || '=' !in line
    ensures LineEntry(line).None? && ProfileStep(p, line) == Some(p)
  {
    if !Blank(line) && !StartsWith(line, '[') {
      assert IndexOf(line, '=').None?;
    }
  }

  /** A key other than the six, including one of them in another case, changes nothing. */
  lemma UnknownKeyIgnored(p: PlayerProfile, key: string, value: string)
    requires FieldOf(key).None?
    ensures ProfileEntry(p, key, value) == Some(p)
  {
  }

  /** Keys are case-sensitive: "playername" and "SERVER" are unknown keys. */
  lemma KeysCaseSensitive()
    ensures FieldOf("playername").None? && FieldOf("SERVER").None?
  {
    assert "playername"[0] != "PlayerName"[0];
    assert "SERVER"[1] != "Server"[1];
  }

  /** The key a line assigns, if any. */
  function LineKey(line: string): Option<string>
  {
    match LineEntry(line)
    case None => None
    case Some((key, _)) => Some(key)
  }

  /** A line that names a field. */
  predicate Names(line: string, f: Field)
  {
    LineKey(line).Some? && FieldOf(LineKey(line).value) == Some(f)
  }

  /** A line that does not name a field leaves it as it was. */
  lemma StepKeeps(p: PlayerProfile, line: string, f: Field)
    requires !Names(line, f) && ProfileStep(p, line).Some?
    ensures FieldText(ProfileStep(p, line).value, f) == FieldText(p, f)
  {
    match LineEntry(line)
    case None =>
    case Some((key, value)) =>
      assert LineKey(line) == Some(key);
      match FieldOf(key)
      case None =>
      case Some(g) =>
        SetFieldKeeps(p, g, value, f);
  }

  /** Setting one field leaves every other field as it was. */
  lemma SetFieldKeeps(p: PlayerProfile, g: Field, value: string, f: Field)
    requires g != f && SetField(p, g, value).Some?
    ensures FieldText(SetField(p, g, value).value, f) == FieldText(p, f)
  {
  }

  /** A field no line names keeps its value (a new profile's default, when loading). */
  lemma {:induction false} MissingKeyKeeps(p: PlayerProfile, lines: seq<string>, from: nat, f: Field)
    requires forall k :: from <= k < |lines| ==> !Names(lines[k], f)
    ensures ProfileFold(p, lines, from).Some? ==> FieldText(ProfileFold(p, lines, from).value, f) == FieldText(p, f)
    decreases |lines| - from
  {
    if from < |lines| && ProfileStep(p, lines[from]).Some? {
      var q := ProfileStep(p, lines[from]).value;
      StepKeeps(p, lines[from], f);
      MissingKeyKeeps(q, lines, from + 1, f);
    }
  }

  /** A line that sets a tracking flag to something other than "true" or "false", in any case. */
  predicate BadFlag(line: string)
  {
    match LineEntry(line)
    case None => false
    case Some((key, value)) => FieldOf(key).Some? && FieldOf(key).value.IsFlag() && ParseBool(value).None?
  }

  lemma BadFlagStep(p: PlayerProfile, line: string)
    requires BadFlag(line)
    ensures ProfileStep(p, line) == None
  {
  }

  lemma FailedStep(p: PlayerProfile, lines: seq<string>, from: nat)
    requires from < |lines| && ProfileStep(p, lines[from]).None?
    ensures ProfileFold(p, lines, from) == None
  {
  }

  /** A line no profile gets past ends the load, wherever it stands. */
  lemma {:induction false} FailingLineFails(p: PlayerProfile, lines: seq<string>, from: nat, k: nat)
    requires from <= k < |lines| && forall q :: ProfileStep(q, lines[k]).None?
    ensures ProfileFold(p, lines, from) == None
    decreases k - from
  {
    if from == k || ProfileStep(p, lines[from]).None? {
      FailedStep(p, lines, from);
    } else {
      FailingLineFails(ProfileStep(p, lines[from]).value, lines, from + 1, k);
    }
  }

  /** One bad flag anywhere in the file makes the whole load fail. */
  lemma BadFlagFails(p: PlayerProfile, lines: seq<string>, k: nat)
    requires k < |lines| && BadFlag(lines[k])
    ensures ProfileFold(p, lines, 0) == None
  {
    forall q: PlayerProfile
      ensures ProfileStep(q, lines[k]).None?
    {
      BadFlagStep(q, lines[k]);
    }
    FailingLineFails(p, lines, 0, k);
  }

  /** Some line sets a tracking flag to a value that is not a boolean. */
  predicate HasBadFlag(lines: seq<string>)
  {
    exists k :: 0 <= k < |lines| && BadFlag(lines[k])
  }

  /** A step fails only on a flag line whose value is not a boolean. */
  lemma StepFailsOnBadFlag(p: PlayerProfile, line: string)
    requires ProfileStep(p, line).None?
    ensures BadFlag(line)
  {
  }

  /** A load that fails met a bad flag line on the way. */
  lemma {:induction false} FoldFailsOnBadFlag(p: PlayerProfile, lines: seq<string>, from: nat)
    requires ProfileFold(p, lines, from).None?
    ensures exists k :: from <= k < |lines| && BadFlag(lines[k])
    decreases |lines| - from
  {
    match ProfileStep(p, lines[from])
    case None =>
      StepFailsOnBadFlag(p, lines[from]);
    case Some(q) =>
      FoldFailsOnBadFlag(q, lines, from + 1);
  }

  /** A load fails exactly when one of its lines is a bad flag line. */
  lemma FoldFailsIff(p: PlayerProfile, lines: seq<string>)
    ensures ProfileFold(p, lines, 0).None? <==> HasBadFlag(lines)
  {
    if ProfileFold(p, lines, 0).None? {
      FoldFailsOnBadFlag(p, lines, 0);
    } else if k :| 0 <= k < |lines| && BadFlag(lines[k]) {
      BadFlagFails(p, lines, k);
    }
  }

  /** A key the writer uses: a single word, with no '=' and no line break. */
  predicate WriterKey(key: string)
  {
    |key| > 0 && Trimmed(key) && key[0] != '[' && '=' !in key && NoBreak(key)
  }

  /** The keys the writer puts down are keys the reader knows, each naming its own field. */
  lemma WriterKeysKnown()
    ensures FieldOf("PlayerName") == Some(PlayerName) && FieldOf("Server") == Some(Server)
    ensures FieldOf("PrivateStoreTracking") == Some(PrivateStoreTracking)
    ensures FieldOf("CommissionTracking") == Some(CommissionTracking)
    ensures FieldOf("WorldExchangeTracking") == Some(WorldExchangeTracking)
    ensures FieldOf("AutoStartTracking") == Some(AutoStartTracking)
  {
  }

  lemma WriterKeysPlain()
    ensures WriterKey("PlayerName") && WriterKey("Server") && WriterKey("PrivateStoreTracking")
    ensures WriterKey("CommissionTracking") && WriterKey("WorldExchangeTracking") && WriterKey("AutoStartTracking")
  {
  }

  /** A "Key=Value" line of a key and value without line breaks is a single line. */
  lemma AssignmentSingleLine(key: string, value: string)
    requires NoBreak(key) && NoBreak(value)
    ensures NoBreak(Assignment(key, value))
  {
    var line := Assignment(key, value);
    forall j | 0 <= j < |line|
      ensures line[j] != '\r' && line[j] != '\n'
    {
      if j < |key| {
        assert line[j] == key[j];
      } else if j > |key| {
        assert line[j] == value[j - |key| - 1];
      }
    }
  }

  /** A written "Key=Value" line is read back as that key and value. */
  lemma AssignmentRead(key: string, value: string)
    requires WriterKey(key) && Trimmed(value)
    ensures LineEntry(Assignment(key, value)) == Some((key, value))
  {
    var line := Assignment(key, value);
    assert line == key + ['='] + value;
    assert line[0] == key[0] && !IsWhite(line[0]);
    IndexOfJoined(key, '=', value);
    assert line[..|key|] == key && line[|key| + 1..] == value;
    TrimOfTrimmed(key);
    TrimOfTrimmed(value);
  }

  /** Name and server values the file carries unchanged: no surrounding whitespace and no line break. */
  predicate PlainValue(v: string)
  {
    Trimmed(v) && NoBreak(v)
  }

  lemma BoolTextSingleLine(b: bool)
    ensures NoBreak(BoolText(b))
  {
  }

  /** The saved text holds exactly the saved lines. */
  lemma ProfileLinesRead(p: PlayerProfile)
    requires PlainValue(p.playerName) && PlainValue(p.server)
    ensures ReadLines(ProfileText(p)) == ProfileLines(p)
  {
    var ls := ProfileLines(p);
    WriterKeysPlain();
    BoolTextSingleLine(p.privateStoreTracking);
    BoolTextSingleLine(p.commissionTracking);
    BoolTextSingleLine(p.worldExchangeTracking);
    BoolTextSingleLine(p.autoStartTracking);
    AssignmentSingleLine("PlayerName", p.playerName);
    AssignmentSingleLine("Server", p.server);
    AssignmentSingleLine("PrivateStoreTracking", BoolText(p.privateStoreTracking));
    AssignmentSingleLine("CommissionTracking", BoolText(p.commissionTracking));
    AssignmentSingleLine("WorldExchangeTracking", BoolText(p.worldExchangeTracking));
    AssignmentSingleLine("AutoStartTracking", BoolText(p.autoStartTracking));
    assert NoBreak(ls[0]);
    ReadWrittenLines(ls);
  }

  /** The key the writer puts down for a field. */
  function KeyName(f: Field): string
  {
    match f
    case PlayerName => "PlayerName"
    case Server => "Server"
    case PrivateStoreTracking => "PrivateStoreTracking"
    case CommissionTracking => "CommissionTracking"
    case WorldExchangeTracking => "WorldExchangeTracking"
    case AutoStartTracking => "AutoStartTracking"
  }

  /** Every written key is a plain key the reader maps back to its own field. */
  lemma KeyNameRead(f: Field)
    ensures WriterKey(KeyName(f)) && FieldOf(KeyName(f)) == Some(f)
  {
    WriterKeysPlain();
    WriterKeysKnown();
  }

  /** `q` with field `f` taken from `p`. */
  function CopyField(q: PlayerProfile, p: PlayerProfile, f: Field): PlayerProfile
  {
    match f
    case PlayerName => q.(playerName := p.playerName)
    case Server => q.(server := p.server)
    case PrivateStoreTracking => q.(privateStoreTracking := p.privateStoreTracking)
    case CommissionTracking => q.(commissionTracking := p.commissionTracking)
    case WorldExchangeTracking => q.(worldExchangeTracking := p.worldExchangeTracking)
    case AutoStartTracking => q.(autoStartTracking := p.autoStartTracking)
  }

  /** A field's written line, read back, copies that field. */
  lemma FieldLineRead(q: PlayerProfile, p: PlayerProfile, f: Field)
    requires f == PlayerName ==> Trimmed(p.playerName)
    requires f == Server ==> Trimmed(p.server)
    ensures ProfileStep(q, Assignment(KeyName(f), FieldText(p, f))) == Some(CopyField(q, p, f))
  {
    KeyNameRead(f);
    match f {
      case PlayerName =>
      case Server =>
      case PrivateStoreTracking => BoolRoundTrip(p.privateStoreTracking);
      case CommissionTracking => BoolRoundTrip(p.commissionTracking);
      case WorldExchangeTracking => BoolRoundTrip(p.worldExchangeTracking);
      case AutoStartTracking => BoolRoundTrip(p.autoStartTracking);
    }
    AssignmentRead(KeyName(f), FieldText(p, f));
  }

  /** The saved lines, field by field. */
  lemma ProfileLinesByField(p: PlayerProfile)
    ensures ProfileLines(p)[1] == Assignment(KeyName(PlayerName), FieldText(p, PlayerName))
    ensures ProfileLines(p)[2] == Assignment(KeyName(Server), FieldText(p, Server))
    ensures ProfileLines(p)[3] == Assignment(KeyName(PrivateStoreTracking), FieldText(p, PrivateStoreTracking))
    ensures ProfileLines(p)[4] == Assignment(KeyName(CommissionTracking), FieldText(p, CommissionTracking))
    ensures ProfileLines(p)[5] == Assignment(KeyName(WorldExchangeTracking), FieldText(p, WorldExchangeTracking))
    ensures ProfileLines(p)[6] == Assignment(KeyName(AutoStartTracking), FieldText(p, AutoStartTracking))
  {
  }

  /** Loading a saved profile gives back every field, when name and server are plain. */
  lemma ProfileRoundTrip(p: PlayerProfile)
    requires PlainValue(p.playerName) && PlainValue(p.server)
    ensures ParseProfile(ProfileText(p)) == Some(p)
  {
    ProfileLinesRead(p);
    SavedLinesRead(p);
  }

  /** The saved lines, applied to a new profile, rebuild the profile. */
  lemma SavedLinesRead(p: PlayerProfile)
    requires PlainValue(p.playerName) && PlainValue(p.server)
    ensures ProfileFold(NewProfile(), ProfileLines(p), 0) == Some(p)
  {
    var ls := ProfileLines(p);
    ProfileLinesByField(p);
    var q0 := NewProfile();
    SkippedLine(q0, ls[0]);
    var q1 := CopyField(q0, p, PlayerName);
    var q2 := CopyField(q1, p, Server);
    var q3 := CopyField(q2, p, PrivateStoreTracking);
    var q4 := CopyField(q3, p, CommissionTracking);
    var q5 := CopyField(q4, p, WorldExchangeTracking);
    FieldLineRead(q0, p, PlayerName);
    FieldLineRead(q1, p, Server);
    FieldLineRead(q2, p, PrivateStoreTracking);
    FieldLineRead(q3, p, CommissionTracking);
    FieldLineRead(q4, p, WorldExchangeTracking);
    FieldLineRead(q5, p, AutoStartTracking);
    assert ls == [ls[0], ls[1], ls[2], ls[3], ls[4], ls[5], ls[6]];
    FoldSeven(q0, q0, q1, q2, q3, q4, q5, p, ls[0], ls[1], ls[2], ls[3], ls[4], ls[5], ls[6]);
  }

  /** Seven lines, each taking one profile to the next. */
  lemma FoldSeven(q0: PlayerProfile, q1: PlayerProfile, q2: PlayerProfile, q3: PlayerProfile,
                  q4: PlayerProfile, q5: PlayerProfile, q6: PlayerProfile, q7: PlayerProfile,
                  l0: string, l1: string, l2: string, l3: string, l4: string, l5: string, l6: string)
    requires ProfileStep(q0, l0) == Some(q1) && ProfileStep(q1, l1) == Some(q2)
    requires ProfileStep(q2, l2) == Some(q3) && ProfileStep(q3, l3) == Some(q4)
    requires ProfileStep(q4, l4) == Some(q5) && ProfileStep(q5, l5) == Some(q6)
    requires ProfileStep(q6, l6) == Some(q7)
    ensures ProfileFold(q0, [l0, l1, l2, l3, l4, l5, l6], 0) == Some(q7)
  {
    var qs := [q0, q1, q2, q3, q4, q5, q6, q7];
    var lines := [l0, l1, l2, l3, l4, l5, l6];
    assert forall i :: 0 <= i < |lines| ==> ProfileStep(qs[i], lines[i]) == Some(qs[i + 1]);
    FoldSteps(qs, lines, 0);
  }

  /** Lines each of which takes one profile to the next take the first to the last. */
  lemma {:induction false} FoldSteps(qs: seq<PlayerProfile>, lines: seq<string>, from: nat)
    requires |qs| == |lines| + 1 && from <= |lines|
    requires forall i :: from <= i < |lines| ==> ProfileStep(qs[i], lines[i]) == Some(qs[i + 1])
    ensures ProfileFold(qs[from], lines, from) == Some(qs[|lines|])
    decreases |lines| - from
  {
    if from < |lines| {
      FoldSteps(qs, lines, from + 1);
    }
  }

  /**
   * After `SaveProfile`, `LoadProfile` of the same name, or of the name with
   * any letter in another case, gives the saved profile back.
   */
  lemma SaveThenLoad(files: map<string, string>, p: PlayerProfile, loadName: string)
    requires p.playerName != [] && PlainValue(p.playerName) && PlainValue(p.server)
    requires Lower(loadName) == Lower(p.playerName)
    ensures LoadResult(files[ProfileKey(p.playerName) := ProfileText(p)], loadName) == Some(p)
  {
    assert |loadName| == |Lower(loadName)|;
    SameFileIgnoringCase(loadName, p.playerName);
    ProfileRoundTrip(p);
  }

  /** After `DeleteProfile`, the profile is gone under every spelling of the name. */
  lemma DeleteThenLoad(files: map<string, string>, playerName: string, loadName: string)
    requires Lower(loadName) == Lower(playerName)
    ensures LoadResult(files - {ProfileKey(playerName)}, loadName).None?
  {
    SameFileIgnoringCase(loadName, playerName);
  }
}
