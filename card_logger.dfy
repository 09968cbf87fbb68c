/** card_logger.py: the per-run log file. The clock is an input (each `datetime.now()` is
    a `DateTime` parameter) and the file system is a `FileSystem` object holding the
    directories and the contents of the files; whether a write succeeds is an input too. */
module CardLogger {
  import opened Wrappers
  import opened Text

  /** A reading of `datetime.now()`. */
  datatype DateTime = DateTime(year: nat, month: nat, day: nat, hour: nat, minute: nat, second: nat)

  /** A clock reading `datetime` can hold, with a four-digit year. */
  predicate FourDigitDateTime(t: DateTime) {
    1000 <= t.year <= 9999 && 1 <= t.month <= 12 && 1 <= t.day <= 31
    && t.hour < 24 && t.minute < 60 && t.second < 60
  }

  /** `strftime("%Y%m%d_%H%M%S")`. %Y is the decimal year (unpadded below 1000, as glibc writes it). */
  function FileStamp(t: DateTime): string {
    NatToString(t.year) + Pad2(t.month) + Pad2(t.day) + "_" + Pad2(t.hour) + Pad2(t.minute) + Pad2(t.second)
  }

  /** `strftime("%Y-%m-%d %H:%M:%S")`. */
  function LogStamp(t: DateTime): string {
    NatToString(t.year) + "-" + Pad2(t.month) + "-" + Pad2(t.day) + " "
    + Pad2(t.hour) + ":" + Pad2(t.minute) + ":" + Pad2(t.second)
  }

  const LogDir := "logs"
  const LogPrefix := "logs/card_processing_"
  const LogSuffix := ".log"

  /** `os.path.join("logs", f"card_processing_{timestamp}.log")`. */
  function LogPath(t: DateTime): string {
    LogPrefix + FileStamp(t) + LogSuffix
  }

  /** The first write of `create_log_file`: one header line, then a blank line. */
  function LogHeader(t: DateTime): string {
    "=== Card Processing Log - " + LogStamp(t) + " ===\n\n"
  }

  lemma {:induction false} NatToStringFourDigits(y: nat)
    requires 1000 <= y <= 9999
    ensures |NatToString(y)| == 4
  {
    assert 100 <= y / 10 <= 999;
    assert 10 <= y / 10 / 10 <= 99;
    assert 1 <= y / 10 / 10 / 10 <= 9;
    assert |NatToString(y / 10 / 10 / 10)| == 1;
    assert |NatToString(y / 10 / 10)| == 2;
    assert |NatToString(y / 10)| == 3;
  }

  lemma FileStampShape(t: DateTime)
    requires FourDigitDateTime(t)
    ensures var s := FileStamp(t);
      |s| == 15 && s[8] == '_'
      && s[0..4] == NatToString(t.year) && s[4..6] == Pad2(t.month) && s[6..8] == Pad2(t.day)
      && s[9..11] == Pad2(t.hour) && s[11..13] == Pad2(t.minute) && s[13..15] == Pad2(t.second)
  {
    NatToStringFourDigits(t.year);
    Pad2RoundTrip(t.month);
    Pad2RoundTrip(t.day);
    Pad2RoundTrip(t.hour);
    Pad2RoundTrip(t.minute);
    Pad2RoundTrip(t.second);
  }

  /** Distinct clock readings (to the second) give distinct file stamps. */
  lemma FileStampInjective(t1: DateTime, t2: DateTime)
    requires FourDigitDateTime(t1) && FourDigitDateTime(t2)
    requires FileStamp(t1) == FileStamp(t2)
    ensures t1 == t2
  {
    FileStampShape(t1);
    FileStampShape(t2);
    ParseNatToString(t1.year);
    ParseNatToString(t2.year);
    Pad2RoundTrip(t1.month); Pad2RoundTrip(t2.month);
    Pad2RoundTrip(t1.day); Pad2RoundTrip(t2.day);
    Pad2RoundTrip(t1.hour); Pad2RoundTrip(t2.hour);
    Pad2RoundTrip(t1.minute); Pad2RoundTrip(t2.minute);
    Pad2RoundTrip(t1.second); Pad2RoundTrip(t2.second);
  }

  /** The log path is `logs/card_processing_<timestamp>.log`, and runs started in different
      seconds write to different files. */
  lemma LogPathShape(t1: DateTime, t2: DateTime)
    requires FourDigitDateTime(t1) && FourDigitDateTime(t2)
    ensures |LogPath(t1)| == |LogPrefix| + 15 + |LogSuffix|
    ensures LogPath(t1)[..|LogPrefix|] == LogPrefix
    ensures LogPath(t1)[|LogPath(t1)| - |LogSuffix|..] == LogSuffix
    ensures LogPath(t1) == LogPath(t2) ==> t1 == t2
  {
    FileStampShape(t1);
    FileStampShape(t2);
    if LogPath(t1) == LogPath(t2) {
      assert LogPath(t1)[|LogPrefix|..|LogPrefix| + 15] == FileStamp(t1);
      assert LogPath(t2)[|LogPrefix|..|LogPrefix| + 15] == FileStamp(t2);
      FileStampInjective(t1, t2);
    }
  }

  // ---------------------------------------------------------------------------
  // Entry lines

  /** The line `log_card_status` writes, without its newline. */
  function EntryLine(t: DateTime, cardName: string, setName: string, status: string, message: string): string {
    "[" + LogStamp(t) + "] " + cardName + " (" + setName + "): " + status
    + (if message != "" then " - " + message else "")
  }

  /** The message part is ` - message`, present exactly when the message is non-empty. */
  lemma EntryLineMessage(t: DateTime, cardName: string, setName: string, status: string, message: string)
    ensures var base := EntryLine(t, cardName, setName, status, "");
      base == "[" + LogStamp(t) + "] " + cardName + " (" + setName + "): " + status
      && (message == "" ==> EntryLine(t, cardName, setName, status, message) == base)
      && (message != "" ==> EntryLine(t, cardName, setName, status, message) == base + " - " + message)
      && (|EntryLine(t, cardName, setName, status, message)| > |base| <==> message != "")
  {
  }

  lemma LogStampOneLine(t: DateTime)
    ensures '\n' !in LogStamp(t)
  {
    DigitsHaveNoNewline(NatToString(t.year));
    DigitsHaveNoNewline(NatToString(t.month));
    DigitsHaveNoNewline(NatToString(t.day));
    DigitsHaveNoNewline(NatToString(t.hour));
    DigitsHaveNoNewline(NatToString(t.minute));
    DigitsHaveNoNewline(NatToString(t.second));
  }

  /** When none of its fields holds a newline, an entry is one physical line: the text
      appended to the file holds exactly one newline, its last character. */
  lemma EntryIsOneLine(t: DateTime, cardName: string, setName: string, status: string, message: string)
    requires '\n' !in cardName && '\n' !in setName && '\n' !in status && '\n' !in message
    ensures var e := EntryLine(t, cardName, setName, status, message) + "\n";
      e[|e| - 1] == '\n' && forall i :: 0 <= i < |e| - 1 ==> e[i] != '\n'
  {
    LogStampOneLine(t);
    var e := EntryLine(t, cardName, setName, status, message);
    assert '\n' !in e;
  }

  // ---------------------------------------------------------------------------
  // The summary block

  /** The six counts `log_summary` writes. */
  datatype Counts = Counts(total: int, successful: int, failed: int, skipped: int, nonEnglish: int, foil: int)

  const SummaryHeader := "\n\n=== Processing Summary ===\n"

  /** The label of each count line, in the order they are written. */
  const SummaryLabels: seq<string> := [
    "Total cards: ",
    "Successfully processed: ",
    "Failed to process: ",
    "Skipped cards (not found): ",
    "Non-English cards (skipped): ",
    "Foil cards (skipped): "]

  function CountList(c: Counts): seq<int> {
    [c.total, c.successful, c.failed, c.skipped, c.nonEnglish, c.foil]
  }

  /** One `label + value` line per label, in order. */
  function CountLines(labels: seq<string>, values: seq<int>): string
    requires |labels| == |values|
  {
    if labels == [] then "" else labels[0] + IntToString(values[0]) + "\n" + CountLines(labels[1..], values[1..])
  }

  /** Everything `log_summary` appends. */
  function SummaryBlock(c: Counts): string {
    SummaryHeader + CountLines(SummaryLabels, CountList(c))
  }

  /** The text up to the first newline and the text after it; None without a newline. */
  function SplitLine(s: string): Option<(string, string)> {
    if s == [] then None
    else if s[0] == '\n' then Some(("", s[1..]))
    else
      match SplitLine(s[1..])
      case None => None
      case Some(p) => Some(([s[0]] + p.0, p.1))
  }

  lemma {:induction false} SplitLineAt(a: string, b: string)
    requires '\n' !in a
    ensures SplitLine(a + "\n" + b) == Some((a, b))
  {
    if a == [] {
      assert a + "\n" + b == ['\n'] + b;
    } else {
      assert (a + "\n" + b)[1..] == a[1..] + "\n" + b;
      SplitLineAt(a[1..], b);
      assert [a[0]] + a[1..] == a;
    }
  }

  /** Reads one count line per label, in order, up to the end of the text. */
  function ReadCounts(labels: seq<string>, s: string): (r: Option<seq<int>>)
    ensures r.Some? ==> |r.value| == |labels|
    decreases |labels|
  {
    if labels == [] then (if s == [] then Some([]) else None)
    else
      match SplitLine(s)
      case None => None
      case Some(p) =>
        var head := labels[0];
        if |head| <= |p.0| && p.0[..|head|] == head then
          match ParseInt(p.0[|head|..])
          case None => None
          case Some(v) =>
            match ReadCounts(labels[1..], p.1)
            case None => None
            case Some(vs) => Some([v] + vs)
        else None
  }

  /** Reads a summary block back into its counts. */
  function ParseSummary(s: string): Option<Counts> {
    if |SummaryHeader| <= |s| && s[..|SummaryHeader|] == SummaryHeader then
      match ReadCounts(SummaryLabels, s[|SummaryHeader|..])
      case None => None
      case Some(vs) => Some(Counts(vs[0], vs[1], vs[2], vs[3], vs[4], vs[5]))
    else None
  }

  /** One count line, followed by anything, reads back as its value and that rest. */
  lemma ReadOneCount(labels: seq<string>, v: int, rest: string)
    requires labels != [] && '\n' !in labels[0]
    ensures var line := labels[0] + IntToString(v);
      SplitLine(line + "\n" + rest) == Some((line, rest))
      && line[..|labels[0]|] == labels[0]
      && ParseInt(line[|labels[0]|..]) == Some(v)
  {
    var line := labels[0] + IntToString(v);
    IntToStringRoundTrip(v);
    SplitLineAt(line, rest);
    assert line[|labels[0]|..] == IntToString(v);
  }

  lemma {:induction false} ReadCountLines(labels: seq<string>, values: seq<int>)
    requires |labels| == |values|
    requires forall i :: 0 <= i < |labels| ==> '\n' !in labels[i]
    ensures ReadCounts(labels, CountLines(labels, values)) == Some(values)
    decreases |labels|
  {
    if labels != [] {
      var rest := CountLines(labels[1..], values[1..]);
      assert CountLines(labels, values) == labels[0] + IntToString(values[0]) + "\n" + rest;
      ReadOneCount(labels, values[0], rest);
      ReadCountLines(labels[1..], values[1..]);
      assert [values[0]] + values[1..] == values;
    }
  }

  /** The summary block holds the header and the six counts in the order total,
      successful, failed, skipped, non-English, foil: reading it back gives them again. */
  lemma SummaryRoundTrip(c: Counts)
    ensures ParseSummary(SummaryBlock(c)) == Some(c)
  {
    ReadCountLines(SummaryLabels, CountList(c));
    var s := SummaryBlock(c);
    assert s[..|SummaryHeader|] == SummaryHeader;
    assert s[|SummaryHeader|..] == CountLines(SummaryLabels, CountList(c));
  }

  // ---------------------------------------------------------------------------
  // The file system

  /** The file contents after appending `text` to `path` (mode 'a' creates a missing file):
      the old contents stay as they were, the text follows them, other files are untouched. */
  function Append(files: map<string, string>, path: string, text: string): (r: map<string, string>)
    ensures path in r && r[path] == (if path in files then files[path] else "") + text
    ensures forall p :: p != path ==> (p in r <==> p in files)
    ensures forall p :: p != path && p in files ==> r[p] == files[p]
  {
    files[path := (if path in files then files[path] else "") + text]
  }

  class FileSystem {
    var dirs: set<string>
    var files: map<string, string>

    constructor (dirs: set<string>, files: map<string, string>)
      ensures this.dirs == dirs && this.files == files
    {
      this.dirs := dirs;
      this.files := files;
    }

    /** `create_log_file`: makes the `logs` directory, then creates (or truncates) the log
        file with its header. `now` names the file, `headerTime` is the second clock
        reading printed in the header. A failed open propagates as an exception: `None`. */
    method CreateLogFile(now: DateTime, headerTime: DateTime, writable: bool) returns (path: Option<string>)
      modifies this
      ensures dirs == old(dirs) + {LogDir}
      ensures writable ==> path == Some(LogPath(now)) && files == old(files)[LogPath(now) := LogHeader(headerTime)]
      ensures !writable ==> path == None && files == old(files)
    {
      if LogDir !in dirs {
        dirs := dirs + {LogDir};
      }
      if !writable {
        return None;
      }
      var p := LogPath(now);
      files := files[p := LogHeader(headerTime)];
      path := Some(p);
    }

    /** `log_card_status`: appends one entry line and its newline; any write failure returns
        False and leaves the files as they were. */
    method LogCardStatus(path: string, now: DateTime, cardName: string, setName: string,
                         status: string, message: string, writable: bool) returns (ok: bool)
      modifies this
      ensures ok == writable
      ensures dirs == old(dirs)
      ensures ok ==> files == Append(old(files), path, EntryLine(now, cardName, setName, status, message) + "\n")
      ensures !ok ==> files == old(files)
    {
      if !writable {
        return false;
      }
      var entry := "[" + LogStamp(now) + "] " + cardName + " (" + setName + "): " + status;
      if message != "" {
        entry := entry + " - " + message;
      }
      assert entry == EntryLine(now, cardName, setName, status, message);
      files := Append(files, path, entry + "\n");
      ok := true;
    }

    /** `log_summary`: appends the summary block; a write failure returns False. */
    method LogSummary(path: string, counts: Counts, writable: bool) returns (ok: bool)
      modifies this
      ensures ok == writable
      ensures dirs == old(dirs)
      ensures ok ==> files == Append(old(files), path, SummaryBlock(counts))
      ensures !ok ==> files == old(files)
    {
      if !writable {
        return false;
      }
      files := Append(files, path, SummaryBlock(counts));
      ok := true;
    }
  }
}
