/** The exception list of the audit gate: a line-oriented parser, and the text it reads back. */
module ExceptionsFile {
  import opened Sequences

  // -------------------------------------------------------------------- strings

  /** Characters str.strip removes. */
  predicate IsSpace(c: char) {
    || '\t' <= c <= '\r' || '\U{1C}' <= c <= '\U{1F}' || c == ' ' || c == '\U{85}' || c == '\U{A0}' || c == '\U{1680}'
    || '\U{2000}' <= c <= '\U{200A}' || c == '\U{2028}' || c == '\U{2029}' || c == '\U{202F}'
    || c == '\U{205F}' || c == '\U{3000}'
  }

  const SPACES: string :=
    "\t\n\U{B}\U{C}\r\U{1C}\U{1D}\U{1E}\U{1F} \U{85}\U{A0}\U{1680}\U{2000}\U{2001}\U{2002}\U{2003}\U{2004}\U{2005}"
    + "\U{2006}\U{2007}\U{2008}\U{2009}\U{200A}\U{2028}\U{2029}\U{202F}\U{205F}\U{3000}"

  lemma SpacesAre(c: char)
    ensures IsSpace(c) <==> c in SPACES
  {
  }

  function StripLeft(s: string): (r: string)
    ensures r == [] || !IsSpace(r[0])
  {
    if s != [] && IsSpace(s[0]) then StripLeft(s[1..]) else s
  }

  function StripRight(s: string): (r: string)
    ensures r == [] || !IsSpace(r[|r| - 1])
    ensures r <= s
  {
    if s != [] && IsSpace(s[|s| - 1]) then StripRight(s[..|s| - 1]) else s
  }

  function Strip(s: string): (r: string)
    ensures |r| <= |s|
  {
    StripLeftShrinks(s);
    StripRight(StripLeft(s))
  }

  lemma {:induction false} StripLeftShrinks(s: string)
    ensures |StripLeft(s)| <= |s|
  {
    if s != [] && IsSpace(s[0]) {
      StripLeftShrinks(s[1..]);
    }
  }

  /** Nothing to strip at either end. */
  predicate Trimmed(s: string) {
    s == [] || (!IsSpace(s[0]) && !IsSpace(s[|s| - 1]))
  }

  lemma {:induction false} StripLeftKeepsEnd(s: string)
    requires s != [] && !IsSpace(s[|s| - 1])
    ensures var r := StripLeft(s); r != [] && r[|r| - 1] == s[|s| - 1]
  {
    if IsSpace(s[0]) {
      StripLeftKeepsEnd(s[1..]);
    }
  }

  /** Stripping gives a trimmed string and is the identity on those. */
  lemma StripIsTrimmed(s: string)
    ensures Trimmed(Strip(s))
    ensures Strip(s) == s <==> Trimmed(s)
  {
    var l := StripLeft(s);
    if Strip(s) != [] {
      assert Strip(s)[0] == l[0];
    }
    if Trimmed(s) {
      assert l == s && StripRight(l) == s;
    }
  }

  predicate Blank(s: string) {
    forall i :: 0 <= i < |s| ==> IsSpace(s[i])
  }

  /** Leading spaces do not matter. */
  lemma {:induction false} StripIndented(pad: string, s: string)
    requires Blank(pad)
    ensures Strip(pad + s) == Strip(s)
  {
    if pad == [] {
      assert pad + s == s;
    } else {
      assert (pad + s)[1..] == pad[1..] + s;
      StripIndented(pad[1..], s);
      assert StripLeft(pad + s) == StripLeft(pad[1..] + s);
    }
  }

  lemma {:induction false} StripRightOf(s: string, pad: string)
    requires Blank(pad) && (s == [] || !IsSpace(s[|s| - 1]))
    ensures StripRight(s + pad) == s
  {
    if pad == [] {
      assert s + pad == s;
    } else {
      var n := |pad| - 1;
      assert (s + pad)[..|s + pad| - 1] == s + pad[..n];
      StripRightOf(s, pad[..n]);
    }
  }

  lemma {:induction false} StripLeftOf(pad: string)
    requires Blank(pad)
    ensures StripLeft(pad) == ""
  {
    if pad != [] {
      StripLeftOf(pad[1..]);
    }
  }

  /** Stripping takes away the blanks at both ends. */
  lemma StripIs(pre: string, t: string, post: string)
    requires Blank(pre) && Trimmed(t) && Blank(post)
    ensures Strip(pre + t + post) == t
  {
    assert pre + t + post == pre + (t + post);
    StripIndented(pre, t + post);
    if t == "" {
      assert t + post == post;
      StripLeftOf(post);
    } else {
      assert (t + post)[0] == t[0];
      StripRightOf(t, post);
    }
  }

  lemma {:induction false} LeftPart(s: string) returns (pre: string)
    ensures Blank(pre) && s == pre + StripLeft(s)
  {
    if s != [] && IsSpace(s[0]) {
      var rest := LeftPart(s[1..]);
      pre := [s[0]] + rest;
      assert s == [s[0]] + s[1..];
    } else {
      pre := "";
    }
  }

  lemma {:induction false} RightPart(s: string) returns (post: string)
    ensures Blank(post) && s == StripRight(s) + post
  {
    if s != [] && IsSpace(s[|s| - 1]) {
      var rest := RightPart(s[..|s| - 1]);
      post := rest + [s[|s| - 1]];
      assert s == s[..|s| - 1] + [s[|s| - 1]];
    } else {
      post := "";
    }
  }

  lemma StripParts(s: string) returns (pre: string, post: string)
    ensures Blank(pre) && Blank(post) && s == pre + Strip(s) + post
  {
    pre := LeftPart(s);
    post := RightPart(StripLeft(s));
  }

  /** Stripping gives the one trimmed string that blanks around it make up the whole with. */
  lemma StripIff(s: string, t: string)
    ensures Strip(s) == t <==> Trimmed(t) && exists pre, post :: Blank(pre) && Blank(post) && s == pre + t + post
  {
    StripIsTrimmed(s);
    var pre, post := StripParts(s);
    if Trimmed(t) && exists pre, post :: Blank(pre) && Blank(post) && s == pre + t + post {
      var pre', post' :| Blank(pre') && Blank(post') && s == pre' + t + post';
      StripIs(pre', t, post');
    }
  }

  predicate StartsWith(s: string, prefix: string) {
    prefix <= s
  }

  /** The position of the first colon, or the length. */
  function Colon(s: string): (n: nat)
    ensures n <= |s|
    ensures n < |s| ==> s[n] == ':'
    ensures forall i :: 0 <= i < n ==> s[i] != ':'
  {
    if s == [] || s[0] == ':' then 0 else 1 + Colon(s[1..])
  }

  // -------------------------------------------------------------------- parsing

  type Item = map<string, string>

  /** A line to be split has no colon: unpacking the split raises ValueError. */
  datatype ParseError = NoColon(line: string)

  function Unquote(value: string): string {
    if |value| > 0 && (value[0] == value[|value| - 1] == '"' || value[0] == value[|value| - 1] == '\'') then
      if |value| == 1 then "" else value[1..|value| - 1]
    else value
  }

  function SplitKv(line: string): Result<(string, string), ParseError> {
    var n := Colon(line);
    if n == |line| then Failure(NoColon(line))
    else Success((Strip(line[..n]), Unquote(Strip(line[n + 1..]))))
  }

  datatype Kind = Ignored | Dash(text: string) | Setting(line: string)

  /** What a raw line is to the parser. */
  function Classify(raw: string): Kind {
    var line := Strip(raw);
    if line == "" || StartsWith(line, "#") then Ignored
    else if StartsWith(line, "version:") || StartsWith(line, "exceptions:") then Ignored
    else if StartsWith(line, "- ") then Dash(Strip(line[2..]))
    else if ':' in line then Setting(line)
    else Ignored
  }

  datatype Progress = Progress(items: seq<Item>, current: Option<Item>)

  const START := Progress([], None)

  /** The items including the current one, unless it is missing or empty. */
  function Flush(p: Progress): seq<Item> {
    if p.current.Some? && p.current.value != map[] then p.items + [p.current.value] else p.items
  }

  function Step(p: Progress, raw: string): Result<Progress, ParseError> {
    match Classify(raw)
    case Ignored => Success(p)
    case Dash(text) =>
      if text == "" then Success(Progress(Flush(p), Some(map[])))
      else
        var (key, value) :- SplitKv(text);
        Success(Progress(Flush(p), Some(map[key := value])))
    case Setting(line) =>
      if p.current == None then Success(p)
      else
        var (key, value) :- SplitKv(line);
        Success(p.(current := Some(p.current.value[key := value])))
  }

  /** The state after a list of lines. */
  function Steps(p: Progress, lines: seq<string>): Result<Progress, ParseError> {
    if lines == [] then Success(p)
    else
      var before :- Steps(p, lines[..|lines| - 1]);
      Step(before, lines[|lines| - 1])
  }

  function Parse(lines: seq<string>): Result<seq<Item>, ParseError> {
    var p :- Steps(START, lines);
    Success(Flush(p))
  }

  /** The parser: reads line by line, keeping the current item apart from the finished ones. */
  method ParseExceptions(lines: seq<string>) returns (r: Result<seq<Item>, ParseError>)
    ensures r == Parse(lines)
  {
    var exceptions: seq<Item> := [];
    var current: Option<Item> := None;
    for i := 0 to |lines|
      invariant Steps(START, lines[..i]) == Success(Progress(exceptions, current))
    {
      assert lines[..i+1][..i] == lines[..i];
      if Step(Progress(exceptions, current), lines[i]).Failure? {
        StepsFailEarly(START, lines, i + 1);
      }
      var line := Strip(lines[i]);
      if line == "" || StartsWith(line, "#") {
        continue;
      }
      if StartsWith(line, "version:") || StartsWith(line, "exceptions:") {
        continue;
      }
      if StartsWith(line, "- ") {
        if current.Some? && current.value != map[] {
          exceptions := exceptions + [current.value];
        }
        current := Some(map[]);
        line := Strip(line[2..]);
        if line != "" {
          var kv :- SplitKv(line);
          current := Some(current.value[kv.0 := kv.1]);
        }
        continue;
      }
      if current.Some? && ':' in line {
        assert Colon(line) < |line|;
        var kv := SplitKv(line).value;
        current := Some(current.value[kv.0 := kv.1]);
      }
    }
    assert lines[..|lines|] == lines;
    if current.Some? && current.value != map[] {
      exceptions := exceptions + [current.value];
    }
    return Success(exceptions);
  }

  lemma {:induction false} StepsFailEarly(p: Progress, lines: seq<string>, k: nat)
    requires k <= |lines| && Steps(p, lines[..k]).Failure?
    ensures Steps(p, lines) == Steps(p, lines[..k])
    decreases |lines|
  {
    if k == |lines| {
      assert lines[..k] == lines;
    } else {
      var n := |lines| - 1;
      assert lines[..n][..k] == lines[..k];
      StepsFailEarly(p, lines[..n], k);
    }
  }

  // ----------------------------------------------------------------- text files

  /** The position of the first line break, or the length. */
  function LineEnd(s: string): (n: nat)
    ensures n <= |s|
    ensures n < |s| ==> s[n] == '\n' || s[n] == '\r'
    ensures forall i :: 0 <= i < n ==> s[i] != '\n' && s[i] != '\r'
  {
    if s == [] || s[0] == '\n' || s[0] == '\r' then 0 else 1 + LineEnd(s[1..])
  }

  /** The lines a text file is read in, without their breaks: a line feed, a carriage return, or both. */
  function Lines(text: string): seq<string>
    decreases |text|
  {
    if text == [] then []
    else
      var n := LineEnd(text);
      if n == |text| then [text]
      else
        var skip := if text[n] == '\r' && n + 1 < |text| && text[n+1] == '\n' then 2 else 1;
        [text[..n]] + Lines(text[n + skip..])
  }

  function ParseText(text: string): Result<seq<Item>, ParseError> {
    Parse(Lines(text))
  }
}
