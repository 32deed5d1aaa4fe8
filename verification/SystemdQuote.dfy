/**
 `systemdQuote` and `renderSystemdUnit`, against a reader of unit files: line splitting and continuation,
 word splitting with quotes and C-style escapes (systemd.syntax(7), "QUOTING"), and specifier expansion
 (systemd.unit(5), "SPECIFIERS"). Text is a sequence of Unicode characters.
 */
module SystemdQuote {
  import opened Base

  const NUL: char := 0 as char
  const QUOTE: char := '"'

  // ---- The printer ----

  function HexDigit(n: nat): (c: char)
    requires n < 16
  {
    "0123456789abcdef"[n]
  }

  predicate Control(c: char) {
    c as int < 0x20 || c as int == 0x7f
  }

  function QuoteChar(c: char): string {
    if c == '\\' || c == '"' then ['\\', c]
    else if c == '%' then "%%"
    else if c == '\n' then "\\n"
    else if c == '\r' then "\\r"
    else if c == '\t' then "\\t"
    else if Control(c) then ['\\', 'x', HexDigit(c as int / 16), HexDigit(c as int % 16)]
    else [c]
  }

  function QuoteBody(s: string): string {
    if s == "" then "" else QuoteChar(s[0]) + QuoteBody(s[1..])
  }

  function Quoted(s: string): string {
    [QUOTE] + QuoteBody(s) + [QUOTE]
  }

  function Tail(args: seq<string>): string {
    if args == [] then "" else " " + Quoted(args[0]) + Tail(args[1..])
  }

  /** The text after `ExecStart=`. */
  function CommandLine(exe: string, args: seq<string>): string {
    Quoted(exe) + Tail(args)
  }

  lemma {:induction false} QuoteBodyAppend(s: string, c: char)
    ensures QuoteBody(s + [c]) == QuoteBody(s) + QuoteChar(c)
  {
    hide QuoteChar;
    if s == "" {
      assert (s + [c])[1..] == "";
    } else {
      QuoteBodyAppend(s[1..], c);
      assert (s + [c])[1..] == s[1..] + [c];
    }
  }

  /** The `switch` of `systemdQuote` on one character, appending to the builder. */
  method AppendQuoted(builder: string, c: char) returns (result: string)
    ensures result == builder + QuoteChar(c)
  {
    result := builder;
    if c == '\\' || c == '"' {
      result := result + ['\\'];
      result := result + [c];
    } else if c == '%' {
      result := result + "%%";
    } else if c == '\n' {
      result := result + "\\n";
    } else if c == '\r' {
      result := result + "\\r";
    } else if c == '\t' {
      result := result + "\\t";
    } else if c as int < 0x20 || c as int == 0x7f {
      result := result + ['\\', 'x', HexDigit(c as int / 16), HexDigit(c as int % 16)];
    } else {
      result := result + [c];
    }
  }

  /** `systemdQuote`. */
  method SystemdQuote(value: string) returns (result: string)
    ensures result == Quoted(value)
  {
    hide QuoteChar;
    result := [QUOTE];
    for i := 0 to |value|
      invariant result == [QUOTE] + QuoteBody(value[..i])
    {
      QuoteBodyAppend(value[..i], value[i]);
      assert value[..i + 1] == value[..i] + [value[i]];
      result := AppendQuoted(result, value[i]);
    }
    assert value[..|value|] == value;
    result := result + [QUOTE];
  }

  lemma {:induction false} TailAppend(args: seq<string>, last: string)
    ensures Tail(args + [last]) == Tail(args) + " " + Quoted(last)
  {
    hide Quoted;
    if args == [] {
      assert (args + [last])[1..] == [];
    } else {
      TailAppend(args[1..], last);
      assert (args + [last])[1..] == args[1..] + [last];
    }
  }

  /** The part of `renderSystemdUnit` that builds the command. */
  method RenderCommand(exe: string, args: seq<string>) returns (command: string)
    ensures command == CommandLine(exe, args)
  {
    hide Quoted;
    command := SystemdQuote(exe);
    for i := 0 to |args|
      invariant command == Quoted(exe) + Tail(args[..i])
    {
      TailAppend(args[..i], args[i]);
      assert args[..i + 1] == args[..i] + [args[i]];
      command := command + " ";
      var quoted := SystemdQuote(args[i]);
      command := command + quoted;
    }
    assert args[..|args|] == args;
  }

  /** Text without quotes, backslashes, percent signs and control characters is quoted as it is. */
  lemma {:induction false} OrdinaryQuoted(s: string)
    requires forall c :: c in s ==> c != '\\' && c != '"' && c != '%' && c as int >= 0x20 && c as int != 0x7f
    ensures QuoteBody(s) == s && Quoted(s) == "\"" + s + "\""
  {
    if s != "" {
      assert s[0] in s && [s[0]] + s[1..] == s;
      forall c | c in s[1..] ensures c in s {}
      OrdinaryQuoted(s[1..]);
    }
  }

  // ---- The reader: words ----

  predicate Space(c: char) {
    c == ' ' || c == '\t' || c == '\n' || c == '\r'
  }

  function HexValue(c: char): Option<nat> {
    if '0' <= c <= '9' then Some(c as int - '0' as int)
    else if 'a' <= c <= 'f' then Some(c as int - 'a' as int + 10)
    else if 'A' <= c <= 'F' then Some(c as int - 'A' as int + 10)
    else None
  }

  /** The value of a string of digits in base 8 or 16. */
  function Number(s: string, base: nat): Option<nat> {
    if s == "" then Some(0) else
    var most, d := Number(s[..|s| - 1], base), HexValue(s[|s| - 1]);
    if most.None? || d.None? || d.value >= base then None else Some(most.value * base + d.value)
  }

  /** The character of a numeric escape: not NUL, and at most `max`. */
  function Coded(n: Option<nat>, max: nat): Option<char> {
    if n.None? || n.value == 0 || n.value > max || 0xd800 <= n.value < 0xe000 || n.value >= 0x110000 then None
      else Some(n.value as char)
  }

  function Numeric(s: string, from: nat, count: nat, base: nat, max: nat): Option<(char, nat)>
    ensures var r := Numeric(s, from, count, base, max); r.Some? ==> r.value.1 == from + count <= |s|
  {
    if |s| < from + count then None else
    var c := Coded(Number(s[from..from + count], base), max);
    if c.None? then None else Some((c.value, from + count))
  }

  function Letter(c: char): Option<char> {
    match c
    case 'a' => Some(7 as char)
    case 'b' => Some(8 as char)
    case 'f' => Some(12 as char)
    case 'n' => Some('\n')
    case 'r' => Some('\r')
    case 't' => Some('\t')
    case 'v' => Some(11 as char)
    case '\\' => Some('\\')
    case '"' => Some('"')
    case '\'' => Some('\'')
    case 's' => Some(' ')
    case _ => None
  }

  /** One escape, after its backslash: the character it stands for and the length of the escape. */
  function Unescape(s: string): (r: Option<(char, nat)>)
    ensures r.Some? ==> 0 < r.value.1 <= |s|
  {
    if s == "" then None
    else if Letter(s[0]).Some? then Some((Letter(s[0]).value, 1))
    else if s[0] == 'x' then Numeric(s, 1, 2, 16, 0x7f)
    else if s[0] == 'u' then Numeric(s, 1, 4, 16, 0x10ffff)
    else if s[0] == 'U' then Numeric(s, 1, 8, 16, 0x10ffff)
    else Numeric(s, 0, 3, 8, 0x7f)
  }

  function Text(word: Option<string>): string {
    if word.Some? then word.value else ""
  }

  /** Split into words: `quote` is the open quotation mark, `word` the word begun. `None` is a syntax error. */
  function Scan(s: string, quote: Option<char>, word: Option<string>): Option<seq<string>>
    decreases |s|
  {
    if s == "" then (if quote.Some? then None else Some(if word.Some? then [word.value] else []))
    else if quote.None? && Space(s[0]) then
      var rest := Scan(s[1..], None, None);
      if rest.None? then None else Some((if word.Some? then [word.value] else []) + rest.value)
    else if quote.None? && (s[0] == '"' || s[0] == '\'') then Scan(s[1..], Some(s[0]), Some(Text(word)))
    else if quote == Some(s[0]) then Scan(s[1..], None, word)
    else if s[0] == '\\' then
      var u := Unescape(s[1..]);
      if u.None? then None else Scan(s[1 + u.value.1..], quote, Some(Text(word) + [u.value.0]))
    else Scan(s[1..], quote, Some(Text(word) + [s[0]]))
  }

  // ---- The reader: specifiers ----

  /** Replace `%%` by `%` and every specifier that `spec` knows by its value. */
  function Expand(spec: char -> Option<string>, w: string): string {
    if |w| < 2 then w
    else if w[0] != '%' then [w[0]] + Expand(spec, w[1..])
    else (if w[1] == '%' then "%" else if spec(w[1]).Some? then spec(w[1]).value else w[..2]) + Expand(spec, w[2..])
  }

  function ExpandAll(spec: char -> Option<string>, ws: seq<string>): (r: seq<string>)
    ensures |r| == |ws| && forall i :: 0 <= i < |ws| ==> r[i] == Expand(spec, ws[i])
  {
    seq(|ws|, i requires 0 <= i < |ws| => Expand(spec, ws[i]))
  }

  function ReadCommand(spec: char -> Option<string>, line: string): Option<seq<string>> {
    var ws := Scan(line, None, None);
    if ws.None? then None else Some(ExpandAll(spec, ws.value))
  }

  // ---- One character ----

  /** A string with every `%` doubled: what is left of a quoted string before specifiers are expanded. */
  function Doubled(s: string): string {
    if s == "" then "" else (if s[0] == '%' then "%%" else [s[0]]) + Doubled(s[1..])
  }

  lemma {:induction false} ExpandDoubled(spec: char -> Option<string>, s: string)
    ensures Expand(spec, Doubled(s)) == s
  {
    if s != "" {
      ExpandDoubled(spec, s[1..]);
      var d := Doubled(s);
      if s[0] == '%' {
        assert d[2..] == Doubled(s[1..]);
      } else {
        assert d[1..] == Doubled(s[1..]);
        if |d| < 2 { assert Doubled(s[1..]) == "" && s[1..] == "" by { DoubledEmpty(s[1..]); } }
      }
    }
  }

  lemma DoubledEmpty(s: string)
    ensures Doubled(s) == "" ==> s == ""
  {
  }

  lemma HexEscape(c: char)
    requires Control(c)
    ensures Number([HexDigit(c as int / 16), HexDigit(c as int % 16)], 16) == Some(c as int)
  {
    var h, l := HexDigit(c as int / 16), HexDigit(c as int % 16);
    HexDigitValue(c as int / 16);
    HexDigitValue(c as int % 16);
    assert [h, l][..1] == [h] && [h][..0] == "";
    assert Number("", 16) == Some(0);
    assert Number([h], 16) == Some(c as int / 16);
  }

  lemma HexDigitValue(n: nat)
    requires n < 16
    ensures HexValue(HexDigit(n)) == Some(n)
  {
  }

  /** An escape read inside quotes. */
  lemma ScanEscape(e: string, rest: string, w: string, c: Option<char>)
    requires |e| > 0
    requires Unescape(e + rest) == if c.Some? then Some((c.value, |e|)) else None
    ensures Scan(['\\'] + e + rest, Some(QUOTE), Some(w)) == if c.Some?
      then Scan(rest, Some(QUOTE), Some(w + [c.value])) else None
  {
    hide Unescape;
    var s := ['\\'] + e + rest;
    assert s[1..] == e + rest;
    if c.Some? { assert s[1 + |e|..] == rest; }
  }

  lemma ScanPlain(c: char, rest: string, w: string)
    requires c != '\\' && c != QUOTE
    ensures Scan([c] + rest, Some(QUOTE), Some(w)) == Scan(rest, Some(QUOTE), Some(w + [c]))
  {
    assert ([c] + rest)[1..] == rest;
  }

  lemma UnescapeControl(c: char, rest: string)
    requires Control(c)
    ensures Unescape(['x', HexDigit(c as int / 16), HexDigit(c as int % 16)] + rest) == if c == NUL then None
      else Some((c, 3))
  {
    HexEscape(c);
    var e := ['x', HexDigit(c as int / 16), HexDigit(c as int % 16)] + rest;
    assert e[1..3] == [HexDigit(c as int / 16), HexDigit(c as int % 16)];
    hide Number, HexDigit;
  }

  /** A character inside quotes reads as itself, with `%` doubled; NUL cannot be read back. */
  lemma ScanChar(c: char, rest: string, w: string)
    ensures Scan(QuoteChar(c) + rest, Some(QUOTE), Some(w))
      == if c == NUL then None else Scan(rest, Some(QUOTE), Some(w + if c == '%' then "%%" else [c]))
  {
    hide Scan, Unescape;
    if c == '\\' || c == '"' || c == '\n' || c == '\r' || c == '\t' {
      ScanLetter(c, rest, w);
    } else if c == '%' {
      assert QuoteChar(c) + rest == [c] + ([c] + rest) && w + [c] + [c] == w + "%%";
      ScanPlain(c, [c] + rest, w);
      ScanPlain(c, rest, w + [c]);
    } else if Control(c) {
      var e := ['x', HexDigit(c as int / 16), HexDigit(c as int % 16)];
      UnescapeControl(c, rest);
      ScanEscape(e, rest, w, if c == NUL then None else Some(c));
      assert QuoteChar(c) == ['\\'] + e;
    } else {
      ScanPlain(c, rest, w);
    }
  }

  lemma ScanLetter(c: char, rest: string, w: string)
    requires c == '\\' || c == '"' || c == '\n' || c == '\r' || c == '\t'
    ensures Scan(QuoteChar(c) + rest, Some(QUOTE), Some(w)) == Scan(rest, Some(QUOTE), Some(w + [c]))
  {
    hide Scan, Numeric;
    var e := [QuoteChar(c)[1]];
    assert QuoteChar(c) == ['\\'] + e;
    assert Letter(e[0]) == Some(c);
    ScanEscape(e, rest, w, Some(c));
  }

  // ---- Words ----

  lemma Grouped(a: string, b: string, c: string)
    ensures a + b + c == a + (b + c)
  {
  }

  lemma InHeadOrTail(s: string, c: char)
    requires s != ""
    ensures c in s <==> s[0] == c || c in s[1..]
  {
    if i :| 0 <= i < |s| && s[i] == c && i > 0 { assert s[1..][i - 1] == c; }
  }

  /** The first character of a body, its rest, and what is read of both. */
  lemma BodyParts(s: string, rest: string, w: string)
    requires s != ""
    ensures QuoteBody(s) + rest == QuoteChar(s[0]) + (QuoteBody(s[1..]) + rest)
    ensures w + Doubled(s) == w + (if s[0] == '%' then "%%" else [s[0]]) + Doubled(s[1..])
  {
    hide QuoteChar;
    Grouped(QuoteChar(s[0]), QuoteBody(s[1..]), rest);
    Grouped(w, if s[0] == '%' then "%%" else [s[0]], Doubled(s[1..]));
  }

  lemma {:induction false} ScanBody(s: string, rest: string, w: string)
    ensures Scan(QuoteBody(s) + rest, Some(QUOTE), Some(w)) == if NUL in s then None
      else Scan(rest, Some(QUOTE), Some(w + Doubled(s)))
  {
    hide Scan, QuoteChar;
    if s == "" {
      assert QuoteBody(s) + rest == rest && w + Doubled(s) == w;
    } else {
      BodyParts(s, rest, w);
      InHeadOrTail(s, NUL);
      ScanChar(s[0], QuoteBody(s[1..]) + rest, w);
      ScanBody(s[1..], rest, w + if s[0] == '%' then "%%" else [s[0]]);
      hide QuoteBody, Doubled;
    }
  }

  lemma ScanQuoted(s: string, rest: string)
    ensures Scan(Quoted(s) + rest, None, None) == if NUL in s then None else Scan(rest, None, Some(Doubled(s)))
  {
    hide QuoteBody, Doubled, Unescape;
    var q := Quoted(s) + rest;
    var close := [QUOTE] + rest;
    assert q[1..] == QuoteBody(s) + close;
    assert Scan(q, None, None) == Scan(q[1..], Some(QUOTE), Some(""));
    ScanBody(s, close, "");
    assert "" + Doubled(s) == Doubled(s);
    assert close[1..] == rest;
    assert Scan(close, Some(QUOTE), Some(Doubled(s))) == Scan(rest, None, Some(Doubled(s)));
  }

  predicate NulFree(args: seq<string>) {
    forall i :: 0 <= i < |args| ==> NUL !in args[i]
  }

  function DoubledAll(args: seq<string>): (r: seq<string>)
    ensures |r| == |args| && forall i :: 0 <= i < |args| ==> r[i] == Doubled(args[i])
  {
    seq(|args|, i requires 0 <= i < |args| => Doubled(args[i]))
  }

  lemma {:induction false} ScanTail(args: seq<string>, w: string)
    ensures Scan(Tail(args), None, Some(w)) == if NulFree(args) then Some([w] + DoubledAll(args)) else None
  {
    hide Quoted, Doubled, Unescape;
    if args == [] {
      assert Tail(args) == "" && [w] + DoubledAll(args) == [w];
    } else {
      var rest := Quoted(args[0]) + Tail(args[1..]);
      assert Tail(args) == [' '] + rest && Tail(args)[1..] == rest;
      ScanQuoted(args[0], Tail(args[1..]));
      ScanTail(args[1..], Doubled(args[0]));
      hide Scan, Tail;
      assert NulFree(args) <==> NUL !in args[0] && NulFree(args[1..]) by { NulFreeSplit(args); }
      assert DoubledAll(args) == [Doubled(args[0])] + DoubledAll(args[1..]);
    }
  }

  lemma NulFreeSplit(args: seq<string>)
    requires args != []
    ensures NulFree(args) <==> NUL !in args[0] && NulFree(args[1..])
  {
    if NUL !in args[0] && NulFree(args[1..]) {
      forall i | 0 <= i < |args| ensures NUL !in args[i] { if i > 0 { assert args[i] == args[1..][i - 1]; } }
    }
  }

  /** The command line reads back as exactly the executable and arguments, unless one of them holds a NUL. */
  lemma CommandRoundTrip(spec: char -> Option<string>, exe: string, args: seq<string>)
    ensures ReadCommand(spec, CommandLine(exe, args)) == if NulFree([exe] + args) then Some([exe] + args) else None
  {
    hide Scan, Quoted, Tail, Expand, Doubled;
    var all := [exe] + args;
    ScanQuoted(exe, Tail(args));
    ScanTail(args, Doubled(exe));
    NulFreeSplit(all);
    assert all[1..] == args;
    if NulFree(all) {
      var words := [Doubled(exe)] + DoubledAll(args);
      forall i | 0 <= i < |all| ensures ExpandAll(spec, words)[i] == all[i] { ExpandDoubled(spec, all[i]); }
      assert ExpandAll(spec, words) == all;
    }
  }

  /** Two different commands never have the same text. */
  lemma CommandInjective(exe: string, args: seq<string>, exe': string, args': seq<string>)
    requires NulFree([exe] + args) && NulFree([exe'] + args') && CommandLine(exe, args) == CommandLine(exe', args')
    ensures exe == exe' && args == args'
  {
    hide ReadCommand, CommandLine;
    CommandRoundTrip(_ => None, exe, args);
    CommandRoundTrip(_ => None, exe', args');
    assert exe == ([exe] + args)[0] && args == ([exe] + args)[1..] && exe' == ([exe'] + args')[0]
      && args' == ([exe'] + args')[1..];
  }

  // ---- No control characters ----

  predicate Printable(s: string) {
    forall i :: 0 <= i < |s| ==> !Control(s[i])
  }

  lemma {:induction false} BodyPrintable(s: string)
    ensures Printable(QuoteBody(s))
  {
    if s != "" {
      BodyPrintable(s[1..]);
      CharPrintable(s[0]);
    }
  }

  lemma CharPrintable(c: char)
    ensures Printable(QuoteChar(c))
  {
    if Control(c) {
      HexPrintable(c as int / 16);
      HexPrintable(c as int % 16);
    }
  }

  lemma HexPrintable(n: nat)
    requires n < 16
    ensures !Control(HexDigit(n))
  {
  }

  lemma {:induction false} TailPrintable(args: seq<string>)
    ensures Printable(Tail(args))
  {
    hide QuoteBody, Control;
    if args != [] {
      BodyPrintable(args[0]);
      TailPrintable(args[1..]);
      assert !Control(' ') && !Control(QUOTE) by { PlainMarks(); }
    }
  }

  lemma PlainMarks()
    ensures !Control(' ') && !Control(QUOTE)
  {
  }

  /** Whatever the words, the command is one line without control characters. */
  lemma CommandPrintable(exe: string, args: seq<string>)
    ensures Printable(CommandLine(exe, args))
  {
    hide QuoteBody, Tail, Control;
    BodyPrintable(exe);
    TailPrintable(args);
    PlainMarks();
  }
}
