/**
 The unit file that `renderSystemdUnit` writes, against a reader of lines. A line ends at a line feed, a
 carriage return or a NUL. A line whose last backslash is not itself escaped is joined with the next
 one, that backslash becoming a space (systemd.syntax(7), and the loop over `escaped` in systemd's
 `config_parse`).
 */
module SystemdUnit {
  import opened Base
  import opened SystemdQuote

  /** The replacer applied to the description: line breaks become spaces, `%` is doubled. */
  function Flatten(s: string): string {
    if s == "" then "" else [if s[0] == '\r' || s[0] == '\n' then ' ' else s[0]] + Flatten(s[1..])
  }

  /** The text on one line: as long as the given one, a space for each line break, the same character elsewhere. */
  predicate OnOneLine(shown: string, s: string) {
    |shown| == |s| && forall i :: 0 <= i < |s| ==> shown[i] == if s[i] == '\r' || s[i] == '\n' then ' ' else s[i]
  }

  lemma {:induction false} FlattenAt(s: string)
    ensures OnOneLine(Flatten(s), s)
  {
    if s != "" { FlattenAt(s[1..]); }
  }

  function DescriptionText(s: string): string {
    Doubled(Flatten(s))
  }

  const WANTS := "Wants=network-online.target"
  const HEAD := ["After=network-online.target", "", "[Service]", "Type=simple"]
  const FOOT := ["Restart=on-failure", "RestartSec=5s", "KillSignal=SIGTERM", "TimeoutStopSec=30s", "", "[Install]",
    "WantedBy=multi-user.target"]

  function UnitLines(description: string, command: string): seq<string> {
    ["[Unit]", "Description=" + description, WANTS] + (HEAD + (["ExecStart=" + command] + FOOT))
  }

  function Join(lines: seq<string>): string {
    if lines == [] then "" else lines[0] + "\n" + Join(lines[1..])
  }

  function UnitText(exe: string, args: seq<string>, description: string): string {
    Join(UnitLines(DescriptionText(description), CommandLine(exe, args)))
  }

  // ---- The reader ----

  predicate EndOfLine(c: char) {
    c == '\n' || c == '\r' || c == NUL
  }

  function SplitLines(s: string, line: string): seq<string> {
    if s == "" then (if line == "" then [] else [line])
    else if EndOfLine(s[0]) then [line] + SplitLines(s[1..], "")
    else SplitLines(s[1..], line + [s[0]])
  }

  /** Whether a scan of `s` ends just after a backslash that escapes something. */
  function EndsEscaped(s: string, escaped: bool): bool {
    if s == "" then escaped else EndsEscaped(s[1..], !escaped && s[0] == '\\')
  }

  predicate Continues(line: string) {
    EndsEscaped(line, false)
  }

  function Logical(lines: seq<string>): seq<string>
    decreases |lines|
  {
    if lines == [] then []
    else if Continues(lines[0]) && |lines| > 1 then
      assert lines[0] != "";
      Logical([lines[0][..|lines[0]| - 1] + " " + lines[1]] + lines[2..])
    else [lines[0]] + Logical(lines[1..])
  }

  function ReadLines(text: string): seq<string> {
    Logical(SplitLines(text, ""))
  }

  // ---- When a line continues ----

  lemma {:induction false} EscapedAppend(s: string, t: string, escaped: bool)
    ensures EndsEscaped(s + t, escaped) == EndsEscaped(t, EndsEscaped(s, escaped))
  {
    if s == "" {
      assert s + t == t;
    } else {
      assert (s + t)[1..] == s[1..] + t;
      EscapedAppend(s[1..], t, !escaped && s[0] == '\\');
    }
  }

  /** A string that ends in another character does not end escaped. */
  lemma EscapedLast(s: string, c: char, escaped: bool)
    ensures EndsEscaped(s + [c], escaped) == (!EndsEscaped(s, escaped) && c == '\\')
  {
    EscapedAppend(s, [c], escaped);
    assert [c][1..] == "";
  }

  function TrailingBackslashes(s: string): nat {
    if s == "" || s[|s| - 1] != '\\' then 0 else 1 + TrailingBackslashes(s[..|s| - 1])
  }

  /** A line continues exactly when it ends in an odd number of backslashes. */
  lemma {:induction false} ContinuesIffOdd(s: string)
    ensures Continues(s) <==> TrailingBackslashes(s) % 2 == 1
  {
    if s != "" {
      var most := s[..|s| - 1];
      ContinuesIffOdd(most);
      assert s == most + [s[|s| - 1]];
      EscapedLast(most, s[|s| - 1], false);
    }
  }

  // ---- Splitting undoes joining ----

  predicate OneLine(s: string) {
    '\n' !in s && '\r' !in s && NUL !in s
  }

  lemma {:induction false} SplitLine(line: string, rest: string, begun: string)
    requires OneLine(line)
    ensures SplitLines(line + "\n" + rest, begun) == [begun + line] + SplitLines(rest, "")
  {
    var s := line + "\n" + rest;
    if line == "" {
      assert s[1..] == rest && begun + line == begun;
    } else {
      assert s[1..] == line[1..] + "\n" + rest;
      SplitLine(line[1..], rest, begun + [line[0]]);
      assert begun + [line[0]] + line[1..] == begun + line;
    }
  }

  lemma {:induction false} SplitJoin(lines: seq<string>)
    requires forall i :: 0 <= i < |lines| ==> OneLine(lines[i])
    ensures SplitLines(Join(lines), "") == lines
  {
    if lines != [] {
      SplitLine(lines[0], Join(lines[1..]), "");
      SplitJoin(lines[1..]);
      assert "" + lines[0] == lines[0];
    }
  }

  /** Lines survive joining exactly when no line but the last one continues. */
  lemma {:induction false} LogicalSame(lines: seq<string>)
    ensures |Logical(lines)| <= |lines|
    ensures Logical(lines) == lines <==> (forall i :: 0 <= i < |lines| - 1 ==> !Continues(lines[i]))
    decreases |lines|
  {
    if lines != [] {
      if Continues(lines[0]) && |lines| > 1 {
        assert lines[0] != "";
        LogicalSame([lines[0][..|lines[0]| - 1] + " " + lines[1]] + lines[2..]);
      } else {
        hide EndsEscaped;
        LogicalSame(lines[1..]);
        assert lines == [lines[0]] + lines[1..];
      }
    }
  }

  predicate AllOneLine(lines: seq<string>) {
    forall l :: l in lines ==> OneLine(l)
  }

  lemma {:induction false} SplitClean(s: string, line: string)
    requires OneLine(line)
    ensures AllOneLine(SplitLines(s, line))
  {
    if s != "" {
      SplitClean(s[1..], if EndOfLine(s[0]) then "" else line + [s[0]]);
    }
  }

  lemma JoinClean(a: string, b: string)
    requires OneLine(a) && OneLine(b) && a != ""
    ensures OneLine(a[..|a| - 1] + " " + b)
  {
  }

  lemma {:induction false} LogicalClean(lines: seq<string>)
    requires AllOneLine(lines)
    ensures AllOneLine(Logical(lines))
    decreases |lines|
  {
    if lines != [] {
      if Continues(lines[0]) && |lines| > 1 {
        assert lines[0] != "";
        JoinClean(lines[0], lines[1]);
        LogicalClean([lines[0][..|lines[0]| - 1] + " " + lines[1]] + lines[2..]);
      } else {
        LogicalClean(lines[1..]);
      }
    }
  }

  /** No line that is read holds a NUL. */
  lemma ReadLinesClean(text: string)
    ensures AllOneLine(ReadLines(text))
  {
    SplitClean(text, "");
    LogicalClean(SplitLines(text, ""));
  }

  // ---- The lines of a unit ----

  /** A line that ends in another character than a backslash does not continue. */
  lemma PlainEnd(l: string)
    requires l == "" || l[|l| - 1] != '\\'
    ensures !Continues(l)
  {
    if l != "" {
      assert l == l[..|l| - 1] + [l[|l| - 1]];
      EscapedLast(l[..|l| - 1], l[|l| - 1], false);
    }
  }

  lemma HeadChars(l: string, c: char)
    requires (l == "[Unit]" || l == WANTS || l in HEAD) && EndOfLine(c)
    ensures c !in l
  {
  }

  lemma FootChars(l: string, c: char)
    requires l in FOOT && EndOfLine(c)
    ensures c !in l
  {
  }

  lemma FixedEnds(l: string)
    requires l == "[Unit]" || l == WANTS || l in HEAD || l in FOOT
    ensures l == "" || l[|l| - 1] != '\\'
  {
  }

  lemma FixedLines(l: string)
    requires l == "[Unit]" || l == WANTS || l in HEAD || l in FOOT
    ensures OneLine(l) && !Continues(l)
  {
    hide Continues;
    forall c | EndOfLine(c) ensures c !in l { if l in FOOT { FootChars(l, c); } else { HeadChars(l, c); } }
    FixedEnds(l);
    PlainEnd(l);
  }

  lemma {:induction false} FlatChars(s: string)
    ensures NUL in Flatten(s) <==> NUL in s
    ensures '\n' !in Flatten(s) && '\r' !in Flatten(s)
  {
    if s != "" {
      FlatChars(s[1..]);
      assert s == [s[0]] + s[1..];
    }
  }

  lemma {:induction false} DoubledChars(s: string, c: char)
    ensures c in Doubled(s) <==> c in s
  {
    if s != "" {
      DoubledChars(s[1..], c);
      assert s == [s[0]] + s[1..];
    }
  }

  lemma {:induction false} DoubledEscaped(s: string, escaped: bool)
    ensures EndsEscaped(Doubled(s), escaped) == EndsEscaped(s, escaped)
  {
    if s != "" {
      var one := if s[0] == '%' then "%%" else [s[0]];
      EscapedAppend(one, Doubled(s[1..]), escaped);
      DoubledEscaped(s[1..], !escaped && s[0] == '\\');
      assert one[1..] == if s[0] == '%' then "%" else "";
      assert "%"[1..] == "";
    }
  }

  lemma {:induction false} FlattenEscaped(s: string, escaped: bool)
    ensures EndsEscaped(Flatten(s), escaped) == EndsEscaped(s, escaped)
  {
    if s != "" {
      FlattenEscaped(s[1..], !escaped && s[0] == '\\');
      assert Flatten(s)[1..] == Flatten(s[1..]);
    }
  }

  lemma DescriptionLine(s: string)
    ensures OneLine("Description=" + DescriptionText(s)) <==> NUL !in s
    ensures Continues("Description=" + DescriptionText(s)) <==> Continues(s)
  {
    FlatChars(s);
    DoubledChars(Flatten(s), '\n');
    DoubledChars(Flatten(s), '\r');
    DoubledChars(Flatten(s), NUL);
    FlattenEscaped(s, false);
    DoubledEscaped(Flatten(s), false);
    EscapedAppend("Description=", DescriptionText(s), false);
    NameEscaped();
    hide Flatten, Doubled, EndsEscaped;
    NameOneLine(DescriptionText(s));
  }

  lemma NameOneLine(t: string)
    ensures OneLine("Description=" + t) <==> OneLine(t)
  {
    forall c | c in t ensures c in "Description=" + t {}
  }

  lemma NameEscaped()
    ensures !EndsEscaped("Description=", false)
  {
    EscapedLast("Description", '=', false);
    assert "Description=" == "Description" + ['='];
  }

  lemma CommandRow(exe: string, args: seq<string>)
    ensures OneLine("ExecStart=" + CommandLine(exe, args)) && !Continues("ExecStart=" + CommandLine(exe, args))
  {
    CommandPrintable(exe, args);
    EndsQuoted(exe, args);
    hide CommandLine, EndsEscaped;
    var row := "ExecStart=" + CommandLine(exe, args);
    assert row == row[..|row| - 1] + [QUOTE];
    EscapedLast(row[..|row| - 1], QUOTE, false);
  }

  lemma {:induction false} TailEnds(args: seq<string>)
    ensures Tail(args) != "" ==> Tail(args)[|Tail(args)| - 1] == QUOTE
  {
    hide QuoteBody;
    if args != [] { TailEnds(args[1..]); }
  }

  lemma EndsQuoted(exe: string, args: seq<string>)
    ensures CommandLine(exe, args) != "" && CommandLine(exe, args)[|CommandLine(exe, args)| - 1] == QUOTE
  {
    hide QuoteBody, Tail;
    TailEnds(args);
  }

  lemma FixedRow(description: string, command: string, i: nat)
    requires i < |UnitLines(description, command)| && i != 1 && i != 7
    ensures var l := UnitLines(description, command)[i]; l == "[Unit]" || l == WANTS || l in HEAD || l in FOOT
  {
    if 3 <= i < 7 { assert UnitLines(description, command)[i] == HEAD[i - 3]; }
    if 7 < i { assert UnitLines(description, command)[i] == FOOT[i - 8]; }
  }

  /** Every line but the description is read as one line that ends there. */
  lemma OtherRows(exe: string, args: seq<string>, description: string, i: nat)
    requires var lines := UnitLines(DescriptionText(description), CommandLine(exe, args)); i < |lines| && i != 1
    ensures var l := UnitLines(DescriptionText(description), CommandLine(exe, args))[i]; OneLine(l) && !Continues(l)
  {
    hide DescriptionText, CommandLine, OneLine, Continues;
    var lines := UnitLines(DescriptionText(description), CommandLine(exe, args));
    if i == 7 {
      CommandRow(exe, args);
      assert lines[7] == "ExecStart=" + CommandLine(exe, args);
    } else {
      FixedRow(DescriptionText(description), CommandLine(exe, args), i);
      FixedLines(lines[i]);
    }
  }

  // ---- Results ----

  /** A description without NUL leaves the physical lines as they were meant. */
  lemma UnitSplits(exe: string, args: seq<string>, description: string)
    requires NUL !in description
    ensures SplitLines(UnitText(exe, args, description), "")
      == UnitLines(DescriptionText(description), CommandLine(exe, args))
  {
    hide DescriptionText, CommandLine, Join, SplitLines, OneLine;
    var lines := UnitLines(DescriptionText(description), CommandLine(exe, args));
    DescriptionLine(description);
    forall i | 0 <= i < |lines| ensures OneLine(lines[i]) {
      if i == 1 {
        assert lines[1] == "Description=" + DescriptionText(description);
      } else {
        OtherRows(exe, args, description, i);
      }
    }
    SplitJoin(lines);
  }

  /**
   A reader sees exactly the lines that were meant if and only if the description ends in an even number
   of backslashes and holds no NUL.
   */
  lemma UnitReadsBack(exe: string, args: seq<string>, description: string)
    ensures ReadLines(UnitText(exe, args, description))
      == UnitLines(DescriptionText(description), CommandLine(exe, args))
      <==> TrailingBackslashes(description) % 2 == 0 && NUL !in description
  {
    hide DescriptionText, CommandLine, SplitLines, Logical, OneLine, Continues, UnitText, TrailingBackslashes;
    var lines := UnitLines(DescriptionText(description), CommandLine(exe, args));
    DescriptionLine(description);
    ContinuesIffOdd(description);
    assert lines[1] == "Description=" + DescriptionText(description);
    if NUL in description {
      ReadLinesClean(UnitText(exe, args, description));
      assert lines[1] in lines && !OneLine(lines[1]);
    } else {
      UnitSplits(exe, args, description);
      LogicalSame(lines);
      forall i | 0 <= i < |lines| && i != 1 ensures !Continues(lines[i]) { OtherRows(exe, args, description, i); }
    }
  }

  /** What a reader that expands specifiers takes from a unit. */
  ghost predicate Means(text: string, exe: string, args: seq<string>, description: string) {
    var lines := ReadLines(text);
    && |lines| == 15
    && lines[0] == "[Unit]" && "Description=" <= lines[1]
    && lines[2] == "Wants=network-online.target" && lines[3] == "After=network-online.target"
    && lines[4] == "" && lines[5] == "[Service]" && lines[6] == "Type=simple" && "ExecStart=" <= lines[7]
    && lines[8] == "Restart=on-failure" && lines[9] == "RestartSec=5s"
    && lines[10] == "KillSignal=SIGTERM" && lines[11] == "TimeoutStopSec=30s"
    && lines[12] == "" && lines[13] == "[Install]" && lines[14] == "WantedBy=multi-user.target"
    && forall spec: char -> Option<string> ::
      && ReadCommand(spec, lines[7][|"ExecStart="|..]) == Some([exe] + args)
      && OnOneLine(Expand(spec, lines[1][|"Description="|..]), description)
  }

  /** The rendered file, read back, executes the given words and shows the description on one line. */
  lemma UnitMeans(exe: string, args: seq<string>, description: string)
    requires NulFree([exe] + args) && TrailingBackslashes(description) % 2 == 0 && NUL !in description
    ensures Means(UnitText(exe, args, description), exe, args, description)
  {
    hide ReadCommand, Expand, Flatten, CommandLine, Doubled, ReadLines, UnitText, TrailingBackslashes, OnOneLine;
    UnitReadsBack(exe, args, description);
    var lines := UnitLines(DescriptionText(description), CommandLine(exe, args));
    assert lines[7] == "ExecStart=" + CommandLine(exe, args);
    assert lines[7][|"ExecStart="|..] == CommandLine(exe, args);
    assert lines[1][|"Description="|..] == DescriptionText(description);
    forall spec: char -> Option<string>
      ensures ReadCommand(spec, lines[7][|"ExecStart="|..]) == Some([exe] + args)
      ensures OnOneLine(Expand(spec, lines[1][|"Description="|..]), description)
    {
      CommandRoundTrip(spec, exe, args);
      ExpandDoubled(spec, Flatten(description));
      FlattenAt(description);
    }
  }

  /** `renderSystemdUnit`: the executable must be an absolute path. */
  method RenderUnit(exe: string, args: seq<string>, description: string) returns (unit: Option<string>)
    ensures unit.Some? <==> ("/" <= exe)
    ensures unit.Some? ==> unit.value == UnitText(exe, args, description)
    ensures unit.Some? && NulFree([exe] + args) && TrailingBackslashes(description) % 2 == 0 && NUL !in description ==>
      Means(unit.value, exe, args, description)
  {
    hide Means;
    if exe == "" || exe[0] != '/' { return None; }
    var command := RenderCommand(exe, args);
    unit := Some(Join(UnitLines(DescriptionText(description), command)));
    if NulFree([exe] + args) && TrailingBackslashes(description) % 2 == 0 && NUL !in description {
      UnitMeans(exe, args, description);
    }
  }

  lemma LaterLines(command: string)
    ensures WANTS !in HEAD && WANTS !in FOOT && "ExecStart=" + command != WANTS
  {
    assert ("ExecStart=" + command)[0] == 'E' && WANTS[0] == 'W';
    forall l | l in HEAD ensures l != WANTS { if l != "" { assert l[0] != 'W'; } }
    forall l | l in FOOT
      ensures l != WANTS { assert l == "WantedBy=multi-user.target" ==> l[4] != WANTS[4];
        if l != "" && l[0] == 'W' { assert l == FOOT[6]; } }
  }

  /**
   A description with an odd number of backslashes at its end swallows the line after it: the unit no
   longer asks for the network.
   */
  lemma BackslashHidesNextLine(exe: string, args: seq<string>, description: string)
    requires TrailingBackslashes(description) % 2 == 1 && NUL !in description
    ensures var d := "Description=" + DescriptionText(description);
      && |DescriptionText(description)| > 0
      && ReadLines(UnitText(exe, args, description))
        == ["[Unit]", d[..|d| - 1] + " " + WANTS] + (HEAD + (["ExecStart=" + CommandLine(exe, args)] + FOOT))
      && WANTS !in ReadLines(UnitText(exe, args, description))
  {
    hide DescriptionText, CommandLine, SplitLines, OneLine, EndsEscaped, UnitText;
    var lines := UnitLines(DescriptionText(description), CommandLine(exe, args));
    var d := "Description=" + DescriptionText(description);
    DescriptionLine(description);
    ContinuesIffOdd(description);
    SomeText(description);
    UnitSplits(exe, args, description);
    assert lines[0] == "[Unit]" && lines[1] == d && lines[2] == WANTS;
    OtherRows(exe, args, description, 0);
    var joined := [d[..|d| - 1] + " " + WANTS] + lines[3..];
    assert lines[1..][2..] == lines[3..];
    assert Logical(lines) == [lines[0]] + Logical(lines[1..]);
    assert Logical(lines[1..]) == Logical(joined);
    JoinedRow(d[..|d| - 1]);
    forall i | 0 <= i < |joined| - 1
      ensures !Continues(joined[i]) { if i > 0 { OtherRows(exe, args, description, i + 2);
        assert joined[i] == lines[i + 2]; } }
    LogicalSame(joined);
    LaterLines(CommandLine(exe, args));
    assert (d[..|d| - 1] + " " + WANTS)[0] == 'D';
  }

  lemma SomeText(description: string)
    requires Continues(description)
    ensures |DescriptionText(description)| > 0
  {
    FlattenEscaped(description, false);
    DoubledEscaped(Flatten(description), false);
  }

  lemma JoinedRow(begin: string)
    ensures !Continues(begin + " " + WANTS)
  {
    hide EndsEscaped;
    var row := begin + " " + WANTS;
    assert row == row[..|row| - 1] + ['t'];
    EscapedLast(row[..|row| - 1], 't', false);
  }
}
