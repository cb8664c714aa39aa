/** Reading the session key out of the text `bw login` and `bw unlock`
    print (`__extractSessionFromStdOut__`). */
module Session {
  import opened Results
  import opened Text

  const ExportMarker := "export"

  /** The token on a line whose first '=' is at `idx`: `line[idx:]`, then
      Python's slice `[2:len-1]`, which drops the '=', the character after
      it (the opening quote) and the last character (the closing quote),
      and is empty when fewer than three characters remain. */
  function TokenAt(line: string, idx: nat): (t: string)
    requires idx <= |line|
    ensures |line| - idx >= 3 ==> t == line[idx + 2..|line| - 1]
    ensures |line| - idx < 3 ==> t == ""
  {
    var raw := line[idx..];
    if |raw| >= 3 then raw[2..|raw| - 1] else ""
  }

  /** One iteration of the loop over lines: a line containing `export`
      replaces the token, or raises ValueError (`ok` false, token kept)
      when it has no '='. */
  function StepLine(line: string, token: Option<string>): (Option<string>, bool) {
    if !Contains(line, ExportMarker) then (token, true)
    else
      match IndexOf(line, '=')
      case None => (token, false)
      case Some(idx) => (Some(TokenAt(line, idx)), true)
  }

  /** The loop over lines, stopping at the first ValueError with the token
      as the lines before it left it. */
  function Scan(lines: seq<string>, token: Option<string>): (Option<string>, bool)
    decreases |lines|
  {
    if lines == [] then (token, true)
    else
      var (t, ok) := StepLine(lines[0], token);
      if !ok then (t, false) else Scan(lines[1..], t)
  }

  /** `__extractSessionFromStdOut__(stdout)` starting from `token`. */
  function Extract(stdout: string, token: Option<string>): (Option<string>, bool) {
    Scan(Split(stdout, '\n'), token)
  }

  /** The last line mentioning `export`, if any: the reference the scan is
      checked against. */
  function LastExportLine(lines: seq<string>): (r: Option<string>)
    ensures r.Some? ==> Contains(r.value, ExportMarker) && r.value in lines
    decreases |lines|
  {
    if lines == [] then None
    else
      match LastExportLine(lines[1..])
      case Some(l) => Some(l)
      case None => if Contains(lines[0], ExportMarker) then Some(lines[0]) else None
  }

  /** No line mentioning `export` lacks an '='. */
  predicate WellFormed(lines: seq<string>) {
    forall k | 0 <= k < |lines| :: Contains(lines[k], ExportMarker) ==> '=' in lines[k]
  }

  /** The token a line mentioning `export` yields. */
  function LineToken(line: string): string
    requires '=' in line
  {
    TokenAt(line, IndexOf(line, '=').value)
  }

  /** The scan succeeds exactly when every `export` line has an '='; then
      the last `export` line wins, and with none the token is unchanged. */
  lemma {:induction false} LastExportWins(lines: seq<string>, token: Option<string>)
    ensures Scan(lines, token).1 <==> WellFormed(lines)
    ensures WellFormed(lines) ==>
      Scan(lines, token).0 == match LastExportLine(lines)
                              case None => token
                              case Some(l) => Some(LineToken(l))
    decreases |lines|
  {
    if lines != [] {
      var (t, ok) := StepLine(lines[0], token);
      assert WellFormed(lines) <==> (Contains(lines[0], ExportMarker) ==> '=' in lines[0]) && WellFormed(lines[1..]) by {
        if WellFormed(lines[1..]) && (Contains(lines[0], ExportMarker) ==> '=' in lines[0]) {
          forall k | 0 <= k < |lines| && Contains(lines[k], ExportMarker)
            ensures '=' in lines[k]
          {
            if k > 0 { assert lines[k] == lines[1..][k - 1]; }
          }
        }
      }
      if ok {
        LastExportWins(lines[1..], t);
      }
    }
  }

  /** A failed scan leaves the token as the lines before the offending one
      set it: the last `export` line among them, or the original token. */
  lemma {:induction false} ScanKeepsEarlierToken(lines: seq<string>, token: Option<string>, k: nat)
    requires k < |lines| && WellFormed(lines[..k])
    requires Contains(lines[k], ExportMarker) && '=' !in lines[k]
    ensures !Scan(lines, token).1
    ensures Scan(lines, token).0 == match LastExportLine(lines[..k])
                                    case None => token
                                    case Some(l) => Some(LineToken(l))
    decreases k
  {
    if k == 0 {
      assert IndexOf(lines[0], '=').None?;
    } else {
      var (t, ok) := StepLine(lines[0], token);
      assert lines[..k][0] == lines[0];
      assert ok by { assert lines[0] == lines[..k][0]; }
      var before := lines[1..][..k - 1];
      assert before == lines[..k][1..];
      assert WellFormed(before) by {
        forall j | 0 <= j < |before| && Contains(before[j], ExportMarker)
          ensures '=' in before[j]
        {
          assert before[j] == lines[..k][j + 1];
        }
      }
      ScanKeepsEarlierToken(lines[1..], t, k - 1);
      assert LastExportLine(lines[..k]) == match LastExportLine(lines[1..][..k - 1])
                                          case Some(l) => Some(l)
                                          case None => if Contains(lines[0], ExportMarker) then Some(lines[0]) else None;
    }
  }

  /** The quoted value after the first '=' comes back out, whatever it is. */
  lemma TokenRoundTrip(prefix: string, open: char, value: string, close: char)
    requires '=' !in prefix
    ensures LineToken(prefix + "=" + [open] + value + [close]) == value
  {
    var line := prefix + "=" + [open] + value + [close];
    assert line[..|prefix|] == prefix;
    assert line[|prefix|] == '=';
    assert IndexOf(line, '=') == Some(|prefix|);
    assert line[|prefix| + 2..|line| - 1] == value;
  }

  /** No line mentions `export`. */
  predicate Plain(lines: seq<string>) {
    forall k | 0 <= k < |lines| :: !Contains(lines[k], ExportMarker)
  }

  lemma {:induction false} PlainHasNoExportLine(lines: seq<string>)
    requires Plain(lines)
    ensures LastExportLine(lines) == None
    decreases |lines|
  {
    if lines != [] {
      assert Plain(lines[1..]) by {
        forall k | 0 <= k < |lines| - 1 ensures !Contains(lines[1..][k], ExportMarker) {
          assert lines[1..][k] == lines[k + 1];
        }
      }
      PlainHasNoExportLine(lines[1..]);
    }
  }

  /** With only plain lines after it, an `export` line is the last one. */
  lemma {:induction false} OnlyExportLineIsLast(before: seq<string>, line: string, after: seq<string>)
    requires Contains(line, ExportMarker) && Plain(after)
    ensures LastExportLine(before + [line] + after) == Some(line)
    decreases |before|
  {
    var lines := before + [line] + after;
    if before == [] {
      assert lines[1..] == after;
      PlainHasNoExportLine(after);
    } else {
      assert lines[1..] == before[1..] + [line] + after;
      OnlyExportLineIsLast(before[1..], line, after);
    }
  }

  /** When exactly one line mentions `export` and it has an '=', the scan
      succeeds with that line's token, whatever the token was before. */
  lemma ExportAmongPlainLines(before: seq<string>, line: string, after: seq<string>, token: Option<string>)
    requires Plain(before) && Plain(after)
    requires Contains(line, ExportMarker) && '=' in line
    ensures Scan(before + [line] + after, token) == (Some(LineToken(line)), true)
  {
    var lines := before + [line] + after;
    forall k | 0 <= k < |lines| && k != |before| ensures !Contains(lines[k], ExportMarker) {
      if k < |before| {
        assert lines[k] == before[k];
      } else {
        assert lines[k] == after[k - |before| - 1];
      }
    }
    assert lines[|before|] == line;
    assert WellFormed(lines);
    OnlyExportLineIsLast(before, line, after);
    LastExportWins(lines, token);
  }

  /** The sample `bw unlock` output documented with
      `__extractSessionFromStdOut__`, line by line; its export line carries
      an empty quoted value. The long lines are written word by word. */
  const DocumentedBanner := "Your vault " + "is now " + "unlocked!"
  const DocumentedHintStart := "To unlock " + "your vault, " + "set your " + "session key "
  const DocumentedHintEnd := "to the " + "`BW_SESSION` " + "environment " + "variable. " + "ex:"
  const DocumentedHint := DocumentedHintStart + DocumentedHintEnd
  const DocumentedExportPrefix := "$ export " + "BW_SESSION"
  const DocumentedExportLine := DocumentedExportPrefix + "=\"\""
  const DocumentedEnvLine := "> $env:" + "BW_SESSION=" + "\"\""
  const DocumentedOptionStart := "You can " + "also pass " + "the session " + "key to any "
  const DocumentedOptionEnd := "command " + "with the " + "`--session` " + "option. " + "ex:"
  const DocumentedOptionHint := DocumentedOptionStart + DocumentedOptionEnd
  const DocumentedListLine := "$ bw list " + "items " + "--session " + "<id>"

  function DocumentedBefore(): seq<string> {
    [DocumentedBanner, "", DocumentedHint]
  }

  function DocumentedAfter(): seq<string> {
    [DocumentedEnvLine, "", DocumentedOptionHint, DocumentedListLine]
  }

  function DocumentedUnlockLines(): (lines: seq<string>)
    ensures |lines| == 8
  {
    DocumentedBefore() + [DocumentedExportLine] + DocumentedAfter()
  }

  lemma DocumentedBannerChars()
    ensures 'x' !in DocumentedBanner && '\n' !in DocumentedBanner
  {
    assert 'x' !in "Your vault " && '\n' !in "Your vault ";
    assert 'x' !in "is now " && '\n' !in "is now ";
    assert 'x' !in "unlocked!" && '\n' !in "unlocked!";
  }

  lemma DocumentedHintStartChars()
    ensures 'p' !in DocumentedHintStart && '\n' !in DocumentedHintStart
  {
    assert 'p' !in "To unlock " && '\n' !in "To unlock ";
    assert 'p' !in "your vault, " && '\n' !in "your vault, ";
    assert 'p' !in "set your " && '\n' !in "set your ";
    assert 'p' !in "session key " && '\n' !in "session key ";
  }

  lemma DocumentedHintEndChars()
    ensures 'p' !in DocumentedHintEnd && '\n' !in DocumentedHintEnd
  {
    assert 'p' !in "to the " && '\n' !in "to the ";
    assert 'p' !in "`BW_SESSION` " && '\n' !in "`BW_SESSION` ";
    assert 'p' !in "environment " && '\n' !in "environment ";
    assert 'p' !in "variable. " && '\n' !in "variable. ";
    assert 'p' !in "ex:" && '\n' !in "ex:";
  }

  lemma DocumentedHintChars()
    ensures 'p' !in DocumentedHint && '\n' !in DocumentedHint
  {
    DocumentedHintStartChars();
    DocumentedHintEndChars();
  }

  lemma DocumentedEnvLineChars()
    ensures 'x' !in DocumentedEnvLine && '\n' !in DocumentedEnvLine
  {
    assert 'x' !in "> $env:" && '\n' !in "> $env:";
    assert 'x' !in "BW_SESSION=" && '\n' !in "BW_SESSION=";
  }

  lemma DocumentedOptionStartChars()
    ensures 'r' !in DocumentedOptionStart && '\n' !in DocumentedOptionStart
  {
    assert 'r' !in "You can " && '\n' !in "You can ";
    assert 'r' !in "also pass " && '\n' !in "also pass ";
    assert 'r' !in "the session " && '\n' !in "the session ";
    assert 'r' !in "key to any " && '\n' !in "key to any ";
  }

  lemma DocumentedOptionEndChars()
    ensures 'r' !in DocumentedOptionEnd && '\n' !in DocumentedOptionEnd
  {
    assert 'r' !in "command " && '\n' !in "command ";
    assert 'r' !in "with the " && '\n' !in "with the ";
    assert 'r' !in "`--session` " && '\n' !in "`--session` ";
    assert 'r' !in "option. " && '\n' !in "option. ";
    assert 'r' !in "ex:" && '\n' !in "ex:";
  }

  lemma DocumentedOptionHintChars()
    ensures 'r' !in DocumentedOptionHint && '\n' !in DocumentedOptionHint
  {
    DocumentedOptionStartChars();
    DocumentedOptionEndChars();
  }

  lemma DocumentedListLineChars()
    ensures 'x' !in DocumentedListLine && '\n' !in DocumentedListLine
  {
    assert 'x' !in "$ bw list " && '\n' !in "$ bw list ";
    assert 'x' !in "items " && '\n' !in "items ";
    assert 'x' !in "--session " && '\n' !in "--session ";
    assert 'x' !in "<id>" && '\n' !in "<id>";
  }

  lemma DocumentedBeforeIsPlain()
    ensures Plain(DocumentedBefore())
  {
    DocumentedBannerChars();
    DocumentedHintChars();
    MissingCharNotContained(DocumentedBanner, ExportMarker, 'x');
    MissingCharNotContained("", ExportMarker, 'x');
    MissingCharNotContained(DocumentedHint, ExportMarker, 'p');
  }

  lemma DocumentedAfterIsPlain()
    ensures Plain(DocumentedAfter())
  {
    DocumentedEnvLineChars();
    DocumentedOptionHintChars();
    DocumentedListLineChars();
    MissingCharNotContained(DocumentedEnvLine, ExportMarker, 'x');
    MissingCharNotContained("", ExportMarker, 'x');
    MissingCharNotContained(DocumentedOptionHint, ExportMarker, 'r');
    MissingCharNotContained(DocumentedListLine, ExportMarker, 'x');
  }

  /** The documented export line holds no newline and the value between
      its quotes is empty. */
  lemma DocumentedExportLineToken()
    ensures '\n' !in DocumentedExportLine
    ensures '=' in DocumentedExportLine && LineToken(DocumentedExportLine) == ""
  {
    var prefix := DocumentedExportPrefix;
    assert '\n' !in "$ export " && '\n' !in "BW_SESSION" && '\n' !in "=\"\"";
    assert '=' !in "$ export " && '=' !in "BW_SESSION";
    assert DocumentedExportLine == prefix + "=" + ['"'] + "" + ['"'];
    TokenRoundTrip(prefix, '"', "", '"');
  }

  /** The documented export line mentions `export`. */
  lemma DocumentedExportLineIsExport()
    ensures Contains(DocumentedExportLine, ExportMarker)
  {
    var line := DocumentedExportLine;
    assert line == "$ " + ExportMarker + (" BW_SESSION" + "=\"\"");
    assert line[2..2 + |ExportMarker|] == ExportMarker;
    ContainsAt(line, ExportMarker, 2);
  }

  lemma DocumentedLinesHaveNoNewline()
    ensures forall k | 0 <= k < |DocumentedUnlockLines()| :: '\n' !in DocumentedUnlockLines()[k]
  {
    DocumentedBannerChars();
    DocumentedHintChars();
    DocumentedExportLineToken();
    DocumentedEnvLineChars();
    DocumentedOptionHintChars();
    DocumentedListLineChars();
    var lines := DocumentedUnlockLines();
    assert lines == [DocumentedBanner, "", DocumentedHint, DocumentedExportLine,
                     DocumentedEnvLine, "", DocumentedOptionHint, DocumentedListLine];
  }

  /** The documented output, its lines joined by newlines, yields the empty
      token. The empty token is still a held session: the client tests the
      token against `None` only. */
  lemma DocumentedUnlockOutput()
    ensures Extract(Join(DocumentedUnlockLines(), '\n'), None) == (Some(""), true)
  {
    DocumentedLinesHaveNoNewline();
    SplitJoin(DocumentedUnlockLines(), '\n');
    DocumentedBeforeIsPlain();
    DocumentedAfterIsPlain();
    DocumentedExportLineToken();
    DocumentedExportLineIsExport();
    ExportAmongPlainLines(DocumentedBefore(), DocumentedExportLine, DocumentedAfter(), None);
  }

  /** Output without an `export` line leaves the token as it was. */
  lemma NoExportLineKeepsToken(stdout: string, token: Option<string>)
    requires forall k | 0 <= k < |Split(stdout, '\n')| :: !Contains(Split(stdout, '\n')[k], ExportMarker)
    ensures Extract(stdout, token) == (token, true)
  {
    var lines := Split(stdout, '\n');
    LastExportWins(lines, token);
    assert LastExportLine(lines).None?;
  }
}
