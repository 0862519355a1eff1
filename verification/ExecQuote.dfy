/**
 Quoting of one argument on the `Exec=` line of a desktop entry
 (`exec_quote` and `autostart_entry` in crates/termland-client/src/desktop.rs),
 against the reader that the Desktop Entry Specification describes: the value
 is the rest of its line, string escapes are undone first (section "Possible
 value types"), then the line is cut into arguments and field codes are
 replaced (section "The Exec key").
 */
module ExecQuote {
  import opened Prelude

  const RESERVED: set<char> := {
    ' ', '\t', '\n', '"', '\'', '\\', '>', '<', '~', '|', '&', ';', '$', '*', '?', '#', '(', ')', '`'}

  // ----- The reader -----

  /** The value of a key: the text up to the end of its line. */
  function Line(text: string): string {
    if text == "" || text[0] == '\n' then "" else [text[0]] + Line(text[1..])
  }

  function Put(c: char, rest: Option<string>): Option<string> {
    if rest.Some? then Some([c] + rest.value) else None
  }

  /** String escapes; any other backslash makes the value unreadable. */
  function Unescape(s: string): Option<string> {
    if s == "" then Some("")
    else if s[0] != '\\' then Put(s[0], Unescape(s[1..]))
    else if |s| < 2 then None
    else match s[1]
      case 's' => Put(' ', Unescape(s[2..]))
      case 'n' => Put('\n', Unescape(s[2..]))
      case 't' => Put('\t', Unescape(s[2..]))
      case 'r' => Put('\r', Unescape(s[2..]))
      case '\\' => Put('\\', Unescape(s[2..]))
      case _ => None
  }

  function PutArg(arg: string, rest: Option<seq<string>>): Option<seq<string>> {
    if rest.Some? then Some([arg] + rest.value) else None
  }

  /** The command line cut into arguments at spaces; quotes go around a whole argument. */
  function Args(s: string): Option<seq<string>>
    decreases |s|, 2
  {
    if s == "" then Some([])
    else if s[0] == ' ' then Args(s[1..])
    else if s[0] == '"' then Quoted(s[1..], "")
    else Bare(s, "")
  }

  /** Inside quotes the four special characters are escaped by a backslash. */
  function Quoted(s: string, arg: string): Option<seq<string>>
    decreases |s|, 1
  {
    if s == "" then None
    else if s[0] == '"' then (if Separated(s[1..]) then PutArg(arg, Args(s[1..])) else None)
    else if s[0] == '\\' then
      if |s| >= 2 && s[1] in {'"', '`', '$', '\\'} then Quoted(s[2..], arg + [s[1]]) else None
    else if s[0] in {'`', '$'} then None
    else Quoted(s[1..], arg + [s[0]])
  }

  /** Outside quotes no reserved character may appear. */
  function Bare(s: string, arg: string): Option<seq<string>>
    decreases |s|, 1
  {
    if s == "" then Some([arg])
    else if s[0] == ' ' then PutArg(arg, Args(s[1..]))
    else if s[0] in RESERVED then None
    else Bare(s[1..], arg + [s[0]])
  }

  /** Where an argument may end. */
  predicate Separated(s: string) {
    s == "" || s[0] == ' '
  }

  /** Field codes; only `%%` stands for text of its own. */
  function Codes(arg: string): Option<string> {
    if arg == "" then Some("")
    else if arg[0] != '%' then Put(arg[0], Codes(arg[1..]))
    else if |arg| >= 2 && arg[1] == '%' then Put('%', Codes(arg[2..]))
    else None
  }

  function AllCodes(args: seq<string>): Option<seq<string>> {
    if args == [] then Some([])
    else if Codes(args[0]).None? then None
    else PutArg(Codes(args[0]).value, AllCodes(args[1..]))
  }

  /** What an `Exec=` key starts, read off the text behind the equals sign. */
  function Launches(text: string): Option<seq<string>> {
    var value := Unescape(Line(text));
    if value.None? then None
    else
      var args := Args(value.value);
      if args.None? then None else AllCodes(args.value)
  }

  // ----- The writer -----

  /** `%` doubled. */
  function Percents(arg: string): string {
    if arg == "" then "" else (if arg[0] == '%' then "%%" else [arg[0]]) + Percents(arg[1..])
  }

  predicate Plain(arg: string) {
    forall k :: 0 <= k < |arg| ==> arg[k] !in RESERVED
  }

  /** One character inside the quotes, escaped twice over. */
  function EscapedChar(c: char): string {
    match c
    case '"' => "\\\\\""
    case '`' => "\\\\`"
    case '$' => "\\\\$"
    case '\\' => "\\\\\\\\"
    case _ => [c]
  }

  function Escaped(arg: string): string {
    if arg == "" then "" else EscapedChar(arg[0]) + Escaped(arg[1..])
  }

  function Quote(arg: string): string {
    var doubled := Percents(arg);
    if Plain(doubled) then doubled else "\"" + Escaped(doubled) + "\""
  }

  // ----- Reading back what was written -----

  /** One character inside the quotes once string escapes are undone. */
  function InnerChar(c: char): string {
    if c in {'"', '`', '$', '\\'} then ['\\', c] else [c]
  }

  function Inner(arg: string): string {
    if arg == "" then "" else InnerChar(arg[0]) + Inner(arg[1..])
  }

  function Prefixed(p: string, rest: Option<string>): Option<string> {
    if rest.Some? then Some(p + rest.value) else None
  }

  lemma PrefixedTwice(p: string, q: string, rest: Option<string>)
    ensures Prefixed(p, Prefixed(q, rest)) == Prefixed(p + q, rest)
  {
    if rest.Some? {
      assert p + (q + rest.value) == (p + q) + rest.value;
    }
  }

  lemma PrefixedNothing(rest: Option<string>)
    ensures Prefixed("", rest) == rest
  {
    if rest.Some? {
      assert "" + rest.value == rest.value;
    }
  }

  lemma PutTwice(c: char, d: char, rest: Option<string>)
    ensures Put(c, Put(d, rest)) == Prefixed([c, d], rest)
  {
    if rest.Some? {
      assert [c] + ([d] + rest.value) == [c, d] + rest.value;
    }
  }

  lemma {:induction false} UnescapeEscaped(s: string, rest: string)
    ensures Unescape(Escaped(s) + rest) == Prefixed(Inner(s), Unescape(rest))
  {
    if s == "" {
      assert Escaped(s) + rest == rest;
      PrefixedNothing(Unescape(rest));
    } else {
      var e, tail := EscapedChar(s[0]), Escaped(s[1..]) + rest;
      assert Escaped(s) + rest == e + tail;
      UnescapeEscaped(s[1..], rest);
      UnescapeOne(s[0], tail);
      PrefixedTwice(InnerChar(s[0]), Inner(s[1..]), Unescape(rest));
    }
  }

  lemma UnescapeOne(c: char, tail: string)
    ensures Unescape(EscapedChar(c) + tail) == Prefixed(InnerChar(c), Unescape(tail))
  {
    if c == '\\' {
      UnescapeBackslash(tail);
    } else if c in {'"', '`', '$'} {
      assert EscapedChar(c) == ['\\', '\\', c];
      UnescapeSpecial(c, tail);
    } else {
      assert ([c] + tail)[1..] == tail;
    }
  }

  lemma UnescapeBackslash(tail: string)
    ensures Unescape("\\\\\\\\" + tail) == Prefixed(['\\', '\\'], Unescape(tail))
  {
    var text := "\\\\\\\\" + tail;
    assert text[2..] == "\\\\" + tail && text[2..][2..] == tail;
    PutTwice('\\', '\\', Unescape(tail));
  }

  lemma UnescapeSpecial(c: char, tail: string)
    requires c != '\\'
    ensures Unescape(['\\', '\\', c] + tail) == Prefixed(['\\', c], Unescape(tail))
  {
    var text := ['\\', '\\', c] + tail;
    assert text[2..] == [c] + tail && text[2..][1..] == tail;
    PutTwice('\\', c, Unescape(tail));
  }

  lemma {:induction false} UnescapePlain(s: string, rest: string)
    requires Plain(s)
    ensures Unescape(s + rest) == Prefixed(s, Unescape(rest))
  {
    if s == "" {
      assert s + rest == rest;
      PrefixedNothing(Unescape(rest));
    } else {
      assert (s + rest)[1..] == s[1..] + rest && [s[0]] + s[1..] == s;
      UnescapePlain(s[1..], rest);
      PrefixedTwice([s[0]], s[1..], Unescape(rest));
    }
  }

  lemma {:induction false} QuotedInner(s: string, arg: string, rest: string)
    ensures Quoted(Inner(s) + rest, arg) == Quoted(rest, arg + s)
  {
    if s == "" {
      assert Inner(s) + rest == rest && arg + s == arg;
    } else {
      hide Quoted;
      assert Inner(s) + rest == InnerChar(s[0]) + (Inner(s[1..]) + rest);
      assert (arg + [s[0]]) + s[1..] == arg + s;
      QuotedOne(s[0], arg, Inner(s[1..]) + rest);
      QuotedInner(s[1..], arg + [s[0]], rest);
    }
  }

  lemma QuotedOne(c: char, arg: string, rest: string)
    ensures Quoted(InnerChar(c) + rest, arg) == Quoted(rest, arg + [c])
  {
    var text := InnerChar(c) + rest;
    assert text[|InnerChar(c)|..] == rest;
  }

  lemma {:induction false} BarePlain(s: string, arg: string, rest: string)
    requires Plain(s) && Separated(rest)
    ensures Bare(s + rest, arg) == PutArg(arg + s, Args(rest))
  {
    if s == "" {
      assert s + rest == rest && arg + s == arg && [arg] + [] == [arg];
    } else {
      assert (s + rest)[1..] == s[1..] + rest && (arg + [s[0]]) + s[1..] == arg + s;
      BarePlain(s[1..], arg + [s[0]], rest);
    }
  }

  lemma {:induction false} CodesPercents(s: string)
    ensures Codes(Percents(s)) == Some(s)
  {
    if s != "" {
      CodesPercents(s[1..]);
      var text := Percents(s);
      assert [s[0]] + s[1..] == s;
      if s[0] == '%' {
        assert text[2..] == Percents(s[1..]);
      } else {
        assert text[1..] == Percents(s[1..]);
      }
    }
  }

  lemma {:induction false} LineGoesOn(s: string, rest: string)
    requires '\n' !in s
    ensures Line(s + rest) == s + Line(rest)
  {
    if s == "" {
      assert s + rest == rest;
    } else {
      assert (s + rest)[1..] == s[1..] + rest;
      LineGoesOn(s[1..], rest);
    }
  }

  lemma {:induction false} Breaks(s: string)
    ensures '\n' in Percents(s) <==> '\n' in s
    ensures '\n' in Escaped(s) <==> '\n' in s
    ensures Percents(s) == "" <==> s == ""
  {
    if s != "" {
      Breaks(s[1..]);
      assert s == [s[0]] + s[1..];
    }
  }

  /** The argument as the reader meets it, string escapes undone. */
  function Written(d: string): string {
    if Plain(d) then d else "\"" + Inner(d) + "\""
  }

  lemma ArgsWritten(d: string, rest: string)
    requires d != "" && Separated(rest)
    ensures Args(Written(d) + rest) == PutArg(d, Args(rest))
  {
    if Plain(d) {
      ArgsBare(d, rest);
    } else {
      assert "\"" + Inner(d) + "\"" + rest == "\"" + (Inner(d) + ("\"" + rest));
      ArgsQuoted(d, rest);
    }
  }

  lemma ArgsBare(d: string, rest: string)
    requires d != "" && Separated(rest) && Plain(d)
    ensures Args(d + rest) == PutArg(d, Args(rest))
  {
    assert (d + rest)[0] == d[0];
    BarePlain(d, "", rest);
    assert "" + d == d;
  }

  lemma ArgsQuoted(d: string, rest: string)
    requires Separated(rest)
    ensures Args("\"" + (Inner(d) + ("\"" + rest))) == PutArg(d, Args(rest))
  {
    assert ("\"" + (Inner(d) + ("\"" + rest)))[1..] == Inner(d) + ("\"" + rest);
    hide Inner;
    QuotedInner(d, "", "\"" + rest);
    assert "" + d == d;
    assert ("\"" + rest)[1..] == rest;
  }

  lemma UnescapeQuote(d: string, rest: string)
    ensures Unescape((if Plain(d) then d else "\"" + Escaped(d) + "\"") + rest) == Prefixed(Written(d), Unescape(rest))
  {
    if Plain(d) {
      UnescapePlain(d, rest);
    } else {
      hide Escaped, Inner, Unescape, Prefixed;
      var closing := "\"" + rest;
      Regrouped(Escaped(d), rest);
      UnescapeMark(Escaped(d) + closing);
      UnescapeEscaped(d, closing);
      UnescapeMark(rest);
      BetweenMarks(Inner(d), Unescape(rest));
    }
  }

  lemma Regrouped(s: string, rest: string)
    ensures "\"" + s + "\"" + rest == "\"" + (s + ("\"" + rest))
  {
  }

  lemma UnescapeMark(rest: string)
    ensures Unescape("\"" + rest) == Put('"', Unescape(rest))
  {
    assert ("\"" + rest)[1..] == rest;
  }

  lemma BetweenMarks(s: string, rest: Option<string>)
    ensures Put('"', Prefixed(s, Put('"', rest))) == Prefixed("\"" + s + "\"", rest)
  {
    if rest.Some? {
      Regrouped(s, rest.value);
    }
  }

  /** A non-empty argument on one line comes back, whatever follows it on the line. */
  lemma ReadsBack(arg: string, rest: string, more: string)
    requires arg != "" && '\n' !in arg
    requires Unescape(Line(rest)) == Some(more) && Separated(more)
    ensures Launches(Quote(arg) + rest) == if Args(more).None? then None else PutArg(arg, AllCodes(Args(more).value))
  {
    var d := Percents(arg);
    Breaks(arg);
    Breaks(d);
    LineGoesOn(Quote(arg), rest);
    UnescapeQuote(d, Line(rest));
    ArgsWritten(d, more);
    CodesPercents(arg);
    if Args(more).Some? {
      var args := [d] + Args(more).value;
      assert args[1..] == Args(more).value;
    }
  }

  /** A line break ends the value inside the quotes, and nothing can be read. */
  lemma BreaksOff(arg: string, rest: string)
    requires '\n' in arg
    ensures Launches(Quote(arg) + rest) == None
  {
    var d := Percents(arg);
    Breaks(arg);
    var k :| 0 <= k < |d| && d[k] == '\n';
    assert !Plain(d);
    hide Percents, Escaped, Plain, Line, Unescape, Args;
    var tail := "\"" + rest;
    assert Quote(arg) + rest == "\"" + (Escaped(d) + tail);
    LineGoesOn("\"", Escaped(d) + tail);
    var kept := LineCut(d, tail);
    NotClosed(kept);
  }

  /** A quoted argument whose closing quote is missing cannot be read. */
  lemma NotClosed(d: string)
    ensures var value := Unescape("\"" + Escaped(d)); value.Some? && Args(value.value) == None
  {
    hide Escaped, Inner;
    assert ("\"" + Escaped(d))[1..] == Escaped(d);
    UnescapeEscaped(d, "");
    assert Escaped(d) + "" == Escaped(d) && Inner(d) + "" == Inner(d);
    assert ("\"" + Inner(d))[1..] == Inner(d);
    QuotedInner(d, "", "");
  }

  lemma {:induction false} LineCut(d: string, tail: string) returns (kept: string)
    requires '\n' in d
    ensures Line(Escaped(d) + tail) == Escaped(kept)
  {
    hide Line, Escaped;
    LineOfOne(d, tail);
    if d[0] == '\n' {
      kept := "";
      EscapedOne("");
    } else {
      kept := LineCut(d[1..], tail);
      EscapedOne([d[0]] + kept);
      assert ([d[0]] + kept)[1..] == kept;
      kept := [d[0]] + kept;
    }
  }

  lemma LineOfOne(d: string, tail: string)
    requires d != ""
    ensures Line(Escaped(d) + tail) ==
            if d[0] == '\n' then "" else EscapedChar(d[0]) + Line(Escaped(d[1..]) + tail)
  {
    var e, rest := EscapedChar(d[0]), Escaped(d[1..]) + tail;
    assert Escaped(d) + tail == e + rest;
    if d[0] != '\n' {
      hide Line, Escaped;
      LineGoesOn(e, rest);
    }
  }

  lemma ComesBackIff(arg: string)
    ensures Launches(Quote(arg)) == Some([arg]) <==> arg != "" && '\n' !in arg
  {
    assert Quote(arg) + "" == Quote(arg);
    if '\n' in arg {
      BreaksOff(arg, "");
    } else if arg != "" {
      ReadsBack(arg, "", "");
      assert [arg] + [] == [arg];
    }
  }

  const MANAGER: string := "--manager"
  const MINIMIZED: string := "--minimized"

  /** The autostart entry's command line, up to the end of the file. */
  function AutostartExec(exe: string, tail: string): string {
    Quote(exe) + (Flags() + ("\n" + tail))
  }

  function Flags(): string {
    " " + (MANAGER + (" " + MINIMIZED))
  }

  /** Logging in starts this very executable as the minimized manager, exactly when its path is one non-empty line. */
  lemma AutostartLaunchesIff(exe: string, tail: string)
    ensures Launches(AutostartExec(exe, tail)) == Some([exe, MANAGER, MINIMIZED])
            <==> exe != "" && '\n' !in exe
  {
    var rest := Flags() + ("\n" + tail);
    FlagsAreOneLine();
    LineGoesOn(Flags(), "\n" + tail);
    assert Line("\n" + tail) == "" && Flags() + "" == Flags();
    NoEscapes(Flags());
    TwoFlags(MANAGER, MINIMIZED);
    if '\n' in exe {
      BreaksOff(exe, rest);
    } else if exe != "" {
      ReadsBack(exe, rest, Flags());
      assert [exe] + [MANAGER, MINIMIZED] == [exe, MANAGER, MINIMIZED];
    } else {
      assert Quote(exe) + rest == rest;
      assert Launches(rest) == Some([MANAGER, MINIMIZED]);
    }
  }

  lemma FlagsAreOneLine()
    ensures Plain(MANAGER) && MANAGER != "" && '%' !in MANAGER
    ensures Plain(MINIMIZED) && MINIMIZED != "" && '%' !in MINIMIZED
    ensures '\n' !in Flags() && '\\' !in Flags()
    ensures Separated(Flags())
  {
    assert forall k :: 0 <= k < |MANAGER| ==> MANAGER[k] == '-' || 'a' <= MANAGER[k] <= 'z';
    assert forall k :: 0 <= k < |MINIMIZED| ==> MINIMIZED[k] == '-' || 'a' <= MINIMIZED[k] <= 'z';
    PlainTwo(MANAGER, MINIMIZED);
  }

  lemma PlainTwo(first: string, second: string)
    requires forall k :: 0 <= k < |first| ==> first[k] == '-' || 'a' <= first[k] <= 'z'
    requires forall k :: 0 <= k < |second| ==> second[k] == '-' || 'a' <= second[k] <= 'z'
    ensures Plain(first) && '%' !in first && Plain(second) && '%' !in second
    ensures '\n' !in " " + (first + (" " + second)) && '\\' !in " " + (first + (" " + second))
    ensures Separated(" " + (first + (" " + second)))
  {
  }

  lemma TwoFlags(first: string, second: string)
    requires Plain(first) && Plain(second) && first != "" && second != "" && '%' !in first && '%' !in second
    ensures Args(" " + (first + (" " + second))) == Some([first, second])
    ensures AllCodes([first, second]) == Some([first, second])
  {
    OneFlag(second, "", []);
    assert second + "" == second && [second] + [] == [second];
    assert (" " + second)[1..] == second;
    OneFlag(first, " " + second, [second]);
    assert (" " + (first + (" " + second)))[1..] == first + (" " + second);
    assert [first] + [second] == [first, second];
    TwoPlain(first, second);
  }

  lemma TwoPlain(first: string, second: string)
    requires '%' !in first && '%' !in second
    ensures AllCodes([first, second]) == Some([first, second])
  {
    NoCodes(first);
    NoCodes(second);
    assert [first, second][1..] == [second] && [second][1..] == [];
    assert AllCodes([second]) == PutArg(second, AllCodes([]));
    assert [second] + [] == [second] && [first] + [second] == [first, second];
  }

  lemma OneFlag(flag: string, rest: string, args: seq<string>)
    requires Plain(flag) && flag != "" && Separated(rest) && Args(rest) == Some(args)
    ensures Args(flag + rest) == Some([flag] + args)
  {
    BarePlain(flag, "", rest);
    assert "" + flag == flag && (flag + rest)[0] == flag[0];
  }

  lemma {:induction false} NoEscapes(s: string)
    requires '\\' !in s
    ensures Unescape(s) == Some(s)
  {
    if s != "" {
      NoEscapes(s[1..]);
      assert [s[0]] + s[1..] == s;
    }
  }

  lemma {:induction false} NoCodes(s: string)
    requires '%' !in s
    ensures Codes(s) == Some(s)
  {
    if s != "" {
      NoCodes(s[1..]);
      assert [s[0]] + s[1..] == s;
    }
  }

  // ----- The code -----

  method Replace(arg: string) returns (out: string)
    ensures out == Percents(arg)
  {
    out := "";
    for i := 0 to |arg|
      invariant Percents(arg) == out + Percents(arg[i..])
    {
      assert arg[i..][1..] == arg[i + 1..];
      out := out + if arg[i] == '%' then "%%" else [arg[i]];
    }
  }

  /** `exec_quote`. Only an empty argument or one with a line break does not come back. */
  method ExecQuote(arg: string) returns (out: string)
    ensures out == Quote(arg)
    ensures Launches(out) == Some([arg]) <==> arg != "" && '\n' !in arg
  {
    hide Launches, Percents;
    ComesBackIff(arg);
    var doubled := Replace(arg);
    if Plain(doubled) {
      return doubled;
    }
    out := InQuotes(doubled);
  }

  lemma Associates(a: string, b: string, c: string)
    ensures a + (b + c) == a + b + c
  {
  }

  lemma CharEscapes(c: char)
    ensures EscapedChar(c) == if c in "\"`$" then "\\\\" + [c] else if c == '\\' then "\\\\\\\\" else [c]
  {
  }

  /** The loop over the characters, and the quotes around it. */
  method InQuotes(arg: string) returns (out: string)
    ensures out == "\"" + Escaped(arg) + "\""
  {
    hide Escaped, EscapedChar;
    out := "\"";
    assert arg[0..] == arg;
    for i := 0 to |arg|
      invariant "\"" + Escaped(arg) == out + Escaped(arg[i..])
    {
      EscapedOne(arg[i..]);
      assert arg[i..][1..] == arg[i + 1..];
      ghost var was, rest := out, Escaped(arg[i + 1..]);
      CharEscapes(arg[i]);
      match arg[i] {
        case '"' | '`' | '$' =>
          out := out + ("\\\\" + [arg[i]]);
        case '\\' =>
          out := out + "\\\\\\\\";
        case _ =>
          out := out + [arg[i]];
      }
      assert out == was + EscapedChar(arg[i]);
      Associates(was, EscapedChar(arg[i]), rest);
    }
    EscapedOne(arg[|arg|..]);
    out := out + "\"";
  }

  lemma EscapedOne(arg: string)
    ensures Escaped(arg) == if arg == "" then "" else EscapedChar(arg[0]) + Escaped(arg[1..])
  {
  }

  /** One character on its own is quoted exactly when the specification reserves it. */
  lemma ReservedIsQuoted(c: char)
    requires c != '%'
    ensures Quote([c]) == [c] <==> c !in " \t\n\"'\\><~|&;$*?#()`"
  {
    assert Percents([c]) == [c] + Percents([c][1..]);
    assert [c][1..] == "" && Percents([c]) == [c];
    assert Plain([c]) <==> [c][0] !in RESERVED;
    if !Plain([c]) {
      assert |Quote([c])| >= 2;
    }
  }
}
