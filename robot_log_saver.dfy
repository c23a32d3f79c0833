/** Saving of robot logs (`RobotLogSaver`): the log file name is fixed once per run and
    formatted to `<stem>.log`; each save either appends to the file or replaces it.
    The log directory is modelled as a map from file name to contents. */
module RobotLogs {
  import opened Common

  /** The extension every log file gets. */
  const Extension: string := ".log"
  /** `Environment.NewLine` on Windows, the only platform the dashboard runs on. */
  const NewLine: string := "\r\n"

  /** `TypeOfSave`: replace the file, or append to it (creating it when missing). */
  datatype TypeOfSave = OverwriteOrCreate | AppendOrCreate

  /** The `sender` of `SetLogName`: null, the robot logging interface, or anything else. */
  datatype Sender = NullSender | RobotLogInterfaceSender | OtherSender

  /** `char.IsWhiteSpace`: the characters `string.Trim()` removes. */
  predicate IsWhiteSpace(c: char)
  {
    || '\U{0009}' <= c <= '\U{000D}' || c == ' ' || c == '\U{0085}' || c == '\U{00A0}'
    || c == '\U{1680}' || '\U{2000}' <= c <= '\U{200A}' || c == '\U{2028}' || c == '\U{2029}'
    || c == '\U{202F}' || c == '\U{205F}' || c == '\U{3000}'
  }

  /** `TrimStart()`: the suffix left after dropping the leading white space. */
  function TrimStart(s: string): (r: string)
    ensures |r| <= |s| && r == s[|s| - |r|..]
    ensures forall k :: 0 <= k < |s| - |r| ==> IsWhiteSpace(s[k])
    ensures r == [] || !IsWhiteSpace(r[0])
  {
    if s != [] && IsWhiteSpace(s[0]) then TrimStart(s[1..]) else s
  }

  /** `TrimEnd()`: the prefix left after dropping the trailing white space. */
  function TrimEnd(s: string): (r: string)
    ensures |r| <= |s| && r == s[..|r|]
    ensures forall k :: |r| <= k < |s| ==> IsWhiteSpace(s[k])
    ensures r == [] || !IsWhiteSpace(r[|r| - 1])
  {
    if s != [] && IsWhiteSpace(s[|s| - 1]) then TrimEnd(s[..|s| - 1]) else s
  }

  /** `r` is a piece of `s` from which only white space at the start and at the end
      was cut. */
  predicate IsTrimOf(r: string, s: string)
  {
    exists a, b :: 0 <= a <= b <= |s| && r == s[a..b]
      && (forall k :: 0 <= k < a ==> IsWhiteSpace(s[k]))
      && (forall k :: b <= k < |s| ==> IsWhiteSpace(s[k]))
  }

  /** Trimming the start and then the end cuts only outer white space. */
  lemma TrimEndOfTrimStart(s: string)
    ensures IsTrimOf(TrimEnd(TrimStart(s)), s)
  {
    var t := TrimStart(s);
    var r := TrimEnd(t);
    var a := |s| - |t|;
    var b := a + |r|;
    assert r == s[a..b];
    forall k | b <= k < |s| ensures IsWhiteSpace(s[k]) {
      assert s[k] == t[k - a];
    }
  }

  /** `Trim()`: `s` without its white space at either end. */
  function Trim(s: string): (r: string)
    ensures IsTrimOf(r, s)
    ensures r == [] || (!IsWhiteSpace(r[0]) && !IsWhiteSpace(r[|r| - 1]))
  {
    TrimEndOfTrimStart(s);
    TrimEnd(TrimStart(s))
  }

  /** Trimming a string without '.' gives a string without '.'. */
  lemma TrimKeepsNoDot(s: string)
    requires '.' !in s
    ensures '.' !in Trim(s)
  {
    var r := Trim(s);
    var a, b :| 0 <= a <= b <= |s| && r == s[a..b];
    forall k | 0 <= k < |r| ensures r[k] != '.' {
      assert r[k] == s[a + k];
    }
  }

  /** A string with no white space at either end is its own trim. */
  lemma TrimOfTrimmed(s: string)
    requires s == [] || (!IsWhiteSpace(s[0]) && !IsWhiteSpace(s[|s| - 1]))
    ensures Trim(s) == s
  {
  }

  /** `IndexOf(c)`: the position of the first `c` in `s`. */
  function IndexOf(s: string, c: char): (i: nat)
    requires c in s
    ensures i < |s| && s[i] == c
    ensures forall j :: 0 <= j < i ==> s[j] != c
  {
    if s[0] == c then 0 else 1 + IndexOf(s[1..], c)
  }

  /** The first step of `FormatFileName`: everything from the first '.' on is cut. */
  function StripExtension(fileName: string): (r: string)
    ensures |r| <= |fileName| && r == fileName[..|r|]
    ensures '.' !in r
    ensures |r| < |fileName| ==> fileName[|r|] == '.'
  {
    if '.' in fileName then fileName[..IndexOf(fileName, '.')] else fileName
  }

  /** `FormatFileName`: cut at the first '.', trim, append ".log". */
  function FormatFileName(fileName: string): (r: string)
    ensures |r| >= |Extension| && r[|r| - |Extension|..] == Extension
    ensures '.' !in r[..|r| - |Extension|]
    ensures var stem := r[..|r| - |Extension|];
      stem == [] || (!IsWhiteSpace(stem[0]) && !IsWhiteSpace(stem[|stem| - 1]))
    ensures IsTrimOf(r[..|r| - |Extension|], StripExtension(fileName))
  {
    var stripped := StripExtension(fileName);
    var stem := Trim(stripped);
    TrimKeepsNoDot(stripped);
    assert (stem + Extension)[..|stem|] == stem;
    stem + Extension
  }

  /** A stem without '.' followed by the extension is cut back to that stem. */
  lemma StripFormatted(stem: string)
    requires '.' !in stem
    ensures StripExtension(stem + Extension) == stem
  {
    var formatted := stem + Extension;
    assert formatted[|stem|] == '.';
    assert forall j :: 0 <= j < |stem| ==> formatted[j] == stem[j];
    assert IndexOf(formatted, '.') == |stem|;
  }

  /** Formatting an already formatted name gives it back unchanged. */
  lemma FormatFileNameIdempotent(fileName: string)
    ensures FormatFileName(FormatFileName(fileName)) == FormatFileName(fileName)
  {
    var formatted := FormatFileName(fileName);
    var stem := formatted[..|formatted| - |Extension|];
    assert formatted == stem + Extension;
    StripFormatted(stem);
    TrimOfTrimmed(stem);
  }

  /** `Replace("\n", Environment.NewLine)`: every line feed becomes CR LF. */
  function ReplaceNewlines(s: string): (r: string)
    ensures r == [] || r[0] != '\n'
    ensures '\n' !in s ==> r == s
  {
    if s == [] then []
    else (if s[0] == '\n' then NewLine else [s[0]]) + ReplaceNewlines(s[1..])
  }

  /** Reading a saved text back with CR LF turned into a line feed, scanning left to
      right. */
  function CollapseNewlines(t: string): string
  {
    if |t| >= 2 && t[0] == '\r' && t[1] == '\n' then "\n" + CollapseNewlines(t[2..])
    else if t == [] then []
    else [t[0]] + CollapseNewlines(t[1..])
  }

  /** No information is lost by the newline replacement: collapsing CR LF back to line
      feeds gives the original data, even when it already held CR characters. */
  lemma {:induction false} CollapseReplaceNewlines(s: string)
    ensures CollapseNewlines(ReplaceNewlines(s)) == s
  {
    if s != [] {
      var rest := ReplaceNewlines(s[1..]);
      CollapseReplaceNewlines(s[1..]);
      if s[0] == '\n' {
        assert ReplaceNewlines(s) == "\r\n" + rest;
        assert (NewLine + rest)[2..] == rest;
      } else {
        assert ReplaceNewlines(s) == [s[0]] + rest;
        assert ([s[0]] + rest)[1..] == rest;
      }
    }
  }

  /** After the replacement every line feed is preceded by a carriage return. */
  lemma {:induction false} ReplacedLineFeedsFollowCarriageReturns(s: string, i: nat)
    requires i < |ReplaceNewlines(s)| && ReplaceNewlines(s)[i] == '\n'
    ensures 0 < i && ReplaceNewlines(s)[i - 1] == '\r'
  {
    var head := if s[0] == '\n' then NewLine else [s[0]];
    var rest := ReplaceNewlines(s[1..]);
    assert ReplaceNewlines(s) == head + rest;
    if i >= |head| {
      assert rest[i - |head|] == '\n';
      if i - |head| > 0 {
        ReplacedLineFeedsFollowCarriageReturns(s[1..], i - |head|);
      }
    }
  }

  /** The text one save writes: the data with CR LF line ends, then `WriteLine`'s own
      line terminator. */
  function SavedText(dataToSave: string): (text: string)
    ensures |text| >= |NewLine| && text[|text| - |NewLine|..] == NewLine
    ensures CollapseNewlines(text[..|text| - |NewLine|]) == dataToSave
  {
    CollapseReplaceNewlines(dataToSave);
    var text := ReplaceNewlines(dataToSave) + NewLine;
    assert text[..|text| - |NewLine|] == ReplaceNewlines(dataToSave);
    text
  }

  /** The static state of `RobotLogSaver`. */
  class RobotLogSaver {
    /** `LogName`: None (null) until it is set. */
    var logName: Option<string>
    /** The log directory: file name to contents. */
    var files: map<string, string>

    /** A set name is always a formatted one, never empty. */
    ghost predicate Valid()
      reads this
    {
      logName != None ==> |logName.value| >= |Extension| && logName.value[|logName.value| - |Extension|..] == Extension
    }

    /** The state at program start: no name yet, the log directory as found on disk. */
    constructor (existingFiles: map<string, string>)
      ensures Valid() && logName == None && files == existingFiles
    {
      logName := None;
      files := existingFiles;
    }

    /** `string.IsNullOrEmpty(LogName)`. */
    predicate LogNameUnset()
      reads this
      ensures Valid() ==> (LogNameUnset() <==> logName == None)
    {
      logName == None || logName.value == ""
    }

    /** `SetLogName(name, sender)`: the name is taken, formatted, only while none is set
        and only from the robot logging interface; a null sender throws when the name is
        still unset. Once a name is set it never changes. */
    method SetLogName(name: string, sender: Sender) returns (outcome: Outcome)
      requires Valid()
      modifies this`logName
      ensures Valid()
      ensures !old(LogNameUnset()) ==> logName == old(logName) && outcome == Completed
      ensures old(LogNameUnset()) && sender == RobotLogInterfaceSender ==>
        logName == Some(FormatFileName(name)) && outcome == Completed
      ensures old(LogNameUnset()) && sender == OtherSender ==> logName == old(logName) && outcome == Completed
      ensures old(LogNameUnset()) && sender == NullSender ==> logName == old(logName) && outcome == Threw
      ensures logName != old(logName) ==> !LogNameUnset()
    {
      if LogNameUnset() {
        if sender == NullSender {
          return Threw;
        }
        if sender == RobotLogInterfaceSender {
          logName := Some(FormatFileName(name));
        }
      }
      outcome := Completed;
    }

    /** `SaveLogData(data, typeOfSave)`: null or empty data does nothing. Otherwise the
        file named `LogName` gets the saved text appended when it exists and the mode is
        `AppendOrCreate`, and is replaced by it otherwise; with no name set, building
        the path throws and nothing is written. */
    method SaveLogData(dataToSave: Option<string>, typeOfSave: TypeOfSave) returns (outcome: Outcome)
      requires Valid()
      modifies this`files
      ensures dataToSave == None || dataToSave.value == "" ==> files == old(files) && outcome == Completed
      ensures dataToSave != None && dataToSave.value != "" && logName == None ==>
        files == old(files) && outcome == Threw
      ensures dataToSave != None && dataToSave.value != "" && logName != None ==>
        && outcome == Completed
        && files == old(files)[logName.value :=
             if logName.value in old(files) && typeOfSave == AppendOrCreate
             then old(files)[logName.value] + SavedText(dataToSave.value)
             else SavedText(dataToSave.value)]
    {
      if dataToSave == None || dataToSave.value == "" {
        return Completed;
      }
      var data := ReplaceNewlines(dataToSave.value);
      if logName == None {
        return Threw;
      }
      var fileName := logName.value;
      var contents: string;
      if fileName !in files || typeOfSave == OverwriteOrCreate {
        contents := "";
      } else {
        contents := files[fileName];
      }
      files := files[fileName := contents + data + NewLine];
      assert contents + data + NewLine == contents + SavedText(dataToSave.value);
      assert "" + SavedText(dataToSave.value) == SavedText(dataToSave.value);
      outcome := Completed;
    }
  }
}
