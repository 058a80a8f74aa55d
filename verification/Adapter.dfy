/**
 * The OpenSSH adapter's argument handling (`quarters-cli/src/adapter.rs`).
 * Arguments are octet strings; an octet is the character with the same code.
 */
module Adapter {
  import opened Base

  datatype Tool = Ssh | Scp | Sftp | OtherTool

  function OptionTakesValue(tool: Tool, option: char): bool {
    match tool
    case Ssh => option in "BbcDEeFIiJLlmOoPpQRSWw"
    case Scp => option in "cDFiJloPSX"
    case Sftp => option in "BbcDFiJloPRSsX"
    case OtherTool => false
  }

  /** An argument that ends option parsing: `--`, `-`, or an operand. */
  predicate EndsOptions(argument: string) {
    argument == "--" || argument == "-" || argument == "" || argument[0] != '-'
  }

  // ------------------------------------------------------- a getopt reading

  datatype Parsed = Parsed(letter: char, value: Option<string>)

  /**
   * The options a getopt reading yields, as in XBD section 12.2 of
   * POSIX.1-2017: options may be grouped behind one hyphen, an option's value
   * is the rest of its argument or else the next argument, and the first
   * operand or `--` ends the options.
   */
  function Getopt(tool: Tool, arguments: seq<string>): seq<Parsed>
    decreases |arguments|, 0
  {
    if arguments == [] || |arguments[0]| < 2 || arguments[0][0] != '-' || arguments[0] == "--" then []
    else Group(tool, arguments[0][1..], arguments[1..])
  }

  function Group(tool: Tool, letters: string, rest: seq<string>): seq<Parsed>
    decreases |rest|, 1, |letters|
  {
    if letters == "" then Getopt(tool, rest)
    else if !OptionTakesValue(tool, letters[0]) then [Parsed(letters[0], None)] + Group(tool, letters[1..], rest)
    else if |letters| > 1 then [Parsed(letters[0], Some(letters[1..]))] + Getopt(tool, rest)
    else if rest == [] then [Parsed(letters[0], None)]
    else [Parsed(letters[0], Some(rest[0]))] + Getopt(tool, rest[1..])
  }

  ghost predicate Yields(options: seq<Parsed>, letter: char) {
    exists i :: 0 <= i < |options| && options[i].letter == letter
  }

  lemma YieldsFirst(first: Parsed, rest: seq<Parsed>, letter: char)
    ensures Yields([first] + rest, letter) <==> first.letter == letter || Yields(rest, letter)
  {
    var all := [first] + rest;
    assert all[0] == first;
    assert forall i :: 0 <= i < |rest| ==> rest[i] == all[i + 1];
  }

  /** What the rest of a group still yields, given whether its last option waits for a value. */
  ghost predicate Remains(tool: Tool, expectsValue: bool, rest: seq<string>) {
    Yields(Getopt(tool, if expectsValue && rest != [] then rest[1..] else rest), 'F')
  }

  lemma GroupStep(tool: Tool, letters: string, rest: seq<string>)
    requires letters != ""
    ensures letters[0] == 'F' ==> Yields(Group(tool, letters, rest), 'F')
    ensures letters[0] != 'F' && !OptionTakesValue(tool, letters[0])
            ==> (Yields(Group(tool, letters, rest), 'F') <==> Yields(Group(tool, letters[1..], rest), 'F'))
    ensures letters[0] != 'F' && OptionTakesValue(tool, letters[0])
            ==> (Yields(Group(tool, letters, rest), 'F') <==> Remains(tool, |letters| == 1, rest))
  {
    if !OptionTakesValue(tool, letters[0]) {
      YieldsFirst(Parsed(letters[0], None), Group(tool, letters[1..], rest), 'F');
    } else if |letters| > 1 {
      YieldsFirst(Parsed(letters[0], Some(letters[1..])), Getopt(tool, rest), 'F');
    } else if rest != [] {
      YieldsFirst(Parsed(letters[0], Some(rest[0])), Getopt(tool, rest[1..]), 'F');
    }
  }

  /** One argument of the scan: whether it holds `-F`, and whether it leaves an option waiting for its value. */
  method ScanGroup(tool: Tool, argument: string, ghost rest: seq<string>) returns (found: bool, expectsValue: bool)
    requires !EndsOptions(argument)
    ensures Yields(Group(tool, argument[1..], rest), 'F') <==> found || Remains(tool, expectsValue, rest)
  {
    found, expectsValue := false, false;
    var index := 0;
    while index < |argument| - 1
      invariant 0 <= index <= |argument| - 1
      invariant Yields(Group(tool, argument[1..], rest), 'F') <==> Yields(Group(tool, argument[index + 1..], rest), 'F')
    {
      var option := argument[index + 1];
      GroupStep(tool, argument[index + 1..], rest);
      if option == 'F' { found := true; return; }
      if OptionTakesValue(tool, option) {
        expectsValue := index + 2 == |argument|;
        return;
      }
      assert argument[index + 1..][1..] == argument[index + 2..];
      index := index + 1;
    }
  }

  /** The scan finds an override exactly when a getopt reading of the leading arguments yields `-F`. */
  method LeadingOptionsContainConfigOverride(tool: Tool, arguments: seq<string>) returns (found: bool)
    ensures found <==> Yields(Getopt(tool, arguments), 'F')
  {
    var expectsValue := false;
    for i := 0 to |arguments|
      invariant Yields(Getopt(tool, arguments), 'F') <==> Remains(tool, expectsValue, arguments[i..])
    {
      var argument := arguments[i];
      assert arguments[i..][1..] == arguments[i + 1..];
      if expectsValue {
        expectsValue := false;
      } else {
        if EndsOptions(argument) { return false; }
        found, expectsValue := ScanGroup(tool, argument, arguments[i + 1..]);
        if found { return true; }
      }
    }
    return false;
  }

  // --------------------------------------------------- the tools' own grammars

  /** Nine options take a value in all three tools; the others belong to one or two of them. */
  lemma OptionTables(tool: Tool, option: char)
    ensures OptionTakesValue(tool, option)
       <==> (tool != OtherTool && option in "cDFiJloPS") || (tool == Ssh && option in "BbEeILmOpQRWw")
            || (tool == Scp && option == 'X') || (tool == Sftp && option in "BbRsX")
  {
  }

  /** `-F` always takes a value, so its argument is never read as an option. */
  lemma ConfigOptionTakesAValue(tool: Tool)
    ensures tool != OtherTool ==> OptionTakesValue(tool, 'F')
  {
  }

  lemma {:induction false} BundleYields(tool: Tool, flags: string, after: string, rest: seq<string>)
    requires forall i :: 0 <= i < |flags| ==> !OptionTakesValue(tool, flags[i])
    ensures Yields(Group(tool, flags + "F" + after, rest), 'F')
    decreases |flags|
  {
    var letters := flags + "F" + after;
    GroupStep(tool, letters, rest);
    if flags != "" {
      BundleYields(tool, flags[1..], after, rest);
      assert letters[1..] == flags[1..] + "F" + after;
    }
  }

  /** `-F` is found behind flags bundled with it, with its value attached or not. */
  lemma BundledConfigIsFound(tool: Tool, flags: string, after: string, rest: seq<string>)
    requires forall i :: 0 <= i < |flags| ==> !OptionTakesValue(tool, flags[i])
    ensures Yields(Getopt(tool, ["-" + flags + "F" + after] + rest), 'F')
  {
    var argument := "-" + flags + "F" + after;
    BundleYields(tool, flags, after, rest);
    assert argument[1..] == flags + "F" + after && ([argument] + rest)[1..] == rest;
    assert argument[|flags| + 1] == 'F';
  }

  /** The value of another option is never mistaken for an option, whatever it looks like. */
  lemma ValuesAreSkipped(tool: Tool, option: char, value: string, rest: seq<string>)
    requires OptionTakesValue(tool, option) && option != 'F' && option != '-'
    ensures Yields(Getopt(tool, [['-', option], value] + rest), 'F') <==> Yields(Getopt(tool, rest), 'F')
  {
    var arguments := [['-', option], value] + rest;
    assert arguments[0][1..] == [option] && arguments[1..] == [value] + rest && ([value] + rest)[1..] == rest;
    GroupStep(tool, [option], [value] + rest);
  }

  /** The first operand, a lone hyphen and a double hyphen end the options. */
  lemma OperandsEndTheOptions(tool: Tool, argument: string, rest: seq<string>)
    requires argument == "--" || argument == "-" || argument == "" || argument[0] != '-'
    ensures Getopt(tool, [argument] + rest) == []
  {
  }

  // ------------------------------------------------------------ quoted options

  predicate Special(c: char) {
    c == '\\' || c == '"'
  }

  predicate HasLineBreak(path: string) {
    '\n' in path || '\r' in path
  }

  /** A double-quoted string: the inside with every backslash and quote escaped. */
  function Escaped(path: string): string
    decreases |path|
  {
    if path == "" then ""
    else Escaped(path[..|path| - 1]) + (if Special(path[|path| - 1]) then "\\" else "") + [path[|path| - 1]]
  }

  method QuotedPathOption(name: string, path: string) returns (option: Option<string>)
    ensures option.None? <==> HasLineBreak(path)
    ensures option.Some? ==> option.value == name + "=\"" + Escaped(path) + "\""
  {
    if '\n' in path || '\r' in path { return None; }
    var text := name;
    text := text + "=\"";
    for i := 0 to |path|
      invariant text == name + "=\"" + Escaped(path[..i])
    {
      assert path[..i + 1][..i] == path[..i];
      if Special(path[i]) { text := text + "\\"; }
      text := text + [path[i]];
    }
    assert path[..|path|] == path;
    return Some(text + "\"");
  }

  /**
   * How an option reader takes a quoted value apart: a backslash keeps the
   * character after it, and the first bare quote must end the text.
   */
  function Unquote(text: string): Option<string>
    decreases |text|
  {
    if text == "" then None
    else if text[0] == '"' then (if |text| == 1 then Some("") else None)
    else if text[0] == '\\' then
      if |text| == 1 || !Special(text[1]) then None
      else
        var rest := Unquote(text[2..]);
        if rest.None? then None else Some([text[1]] + rest.value)
    else
      var rest := Unquote(text[1..]);
      if rest.None? then None else Some([text[0]] + rest.value)
  }

  function EscapedChar(c: char): string {
    if Special(c) then ['\\', c] else [c]
  }

  lemma {:induction false} EscapedFront(path: string)
    requires path != ""
    ensures Escaped(path) == EscapedChar(path[0]) + Escaped(path[1..])
    decreases |path|
  {
    if |path| == 1 {
      assert path[..0] == "" && path[1..] == "";
    } else {
      var front, last := path[..|path| - 1], path[|path| - 1];
      EscapedFront(front);
      assert path[1..][..|path| - 2] == front[1..];
      assert path[1..][|path| - 2] == last;
    }
  }

  lemma {:induction false} UnquoteReadsBack(path: string)
    ensures Unquote(Escaped(path) + "\"") == Some(path)
    decreases |path|
  {
    if path != "" {
      UnquoteReadsBack(path[1..]);
      EscapedFront(path);
      var text, rest := Escaped(path) + "\"", Escaped(path[1..]) + "\"";
      assert text == EscapedChar(path[0]) + rest;
      if Special(path[0]) {
        assert text[2..] == rest && text[0] == '\\' && text[1] == path[0];
      } else {
        assert text[1..] == rest && text[0] == path[0];
      }
      assert path == [path[0]] + path[1..];
    }
  }

  /** The quoted option never leaves its quotes: it reads back as the very path, whatever octets the path holds. */
  lemma QuotedOptionRoundTrips(name: string, path: string, option: string)
    requires option == name + "=\"" + Escaped(path) + "\""
    ensures |name| + 2 <= |option| && Unquote(option[|name| + 2..]) == Some(path)
  {
    UnquoteReadsBack(path);
    assert option[|name| + 2..] == Escaped(path) + "\"";
  }
}
