/** Reading back what was written: pairs in three styles of quotes, with blanks before and behind the lines, as
    items and as text; and the lines that change nothing. */
module ExceptionsText {
  import opened Sequences
  import opened ExceptionsFile
  import opened ExceptionsLaws

  // ------------------------------------------------------------------- one pair

  datatype Style = Bare | Single | Double

  /** A pair as it stands in a file: blanks before its line and behind it, and the value's quotes. */
  datatype Pair = Pair(key: string, value: string, style: Style, indent: string, behind: string)

  function Written(v: string, style: Style): string {
    match style
    case Bare => v
    case Single => "'" + v + "'"
    case Double => "\"" + v + "\""
  }

  /** The value begins and ends with the same quote. */
  predicate Enclosed(v: string) {
    v != "" && (v[0] == v[|v| - 1] == '"' || v[0] == v[|v| - 1] == '\'')
  }

  /** Without quotes a value must be trimmed and not look quoted; with quotes it may be anything. */
  predicate Writable(v: string, style: Style) {
    style.Bare? ==> Trimmed(v) && !Enclosed(v)
  }

  /** Keys a pair can be read back with at any place of an item. */
  predicate PlainKey(k: string) {
    Trimmed(k) && !HasColon(k)
  }

  function PairText(k: string, v: string, style: Style): string {
    k + ": " + Written(v, style)
  }

  /** A value keeps what is between its quotes, and all of it if it has none. */
  lemma UnquoteIs(v: string)
    ensures Unquote(Written(v, Single)) == v && Unquote(Written(v, Double)) == v
    ensures Unquote(v) == v <==> !Enclosed(v)
    ensures |Unquote(v)| <= |v|
  {
    var s, d := Written(v, Single), Written(v, Double);
    assert s[0] == s[|s| - 1] == '\'' && s[1..|s| - 1] == v;
    assert d[0] == d[|d| - 1] == '"' && d[1..|d| - 1] == v;
  }

  lemma WrittenIsRead(v: string, style: Style)
    ensures Unquote(Strip(" " + Written(v, style))) == v <==> Writable(v, style)
  {
    var w := Written(v, style);
    StripIndented(" ", w);
    StripIsTrimmed(w);
    UnquoteIs(v);
    if style.Bare? {
      if !Trimmed(v) {
        var pre, post := StripParts(v);
        UnquoteIs(Strip(v));
      }
    } else {
      assert w[0] == w[|w| - 1] && !IsSpace(w[0]);
    }
  }

  lemma {:induction false} ColonAfter(k: string, rest: string)
    ensures !HasColon(k) ==> Colon(k + ":" + rest) == |k|
    ensures HasColon(k) ==> Colon(k + ":" + rest) < |k|
  {
    var s := k + ":" + rest;
    if !HasColon(k) {
      assert s[|k|] == ':';
      assert forall i :: 0 <= i < |k| ==> s[i] == k[i] && s[i] != ':';
    } else {
      var i :| 0 <= i < |k| && k[i] == ':';
      assert s[i] == ':';
    }
  }

  lemma SplitAt(a: string, rest: string)
    requires !HasColon(a)
    ensures SplitKv(a + ":" + rest) == Success((Strip(a), Unquote(Strip(rest))))
  {
    var s := a + ":" + rest;
    ColonAfter(a, rest);
    assert s[..|a|] == a && s[|a| + 1..] == rest;
  }

  /** A written pair splits back into itself exactly when the key is trimmed and has no colon and the value can
      be written in its style. */
  lemma PairRoundTripIff(k: string, v: string, style: Style)
    ensures SplitKv(PairText(k, v, style)) == Success((k, v)) <==> PlainKey(k) && Writable(v, style)
  {
    var line, rest := PairText(k, v, style), " " + Written(v, style);
    assert line == k + ":" + rest;
    WrittenIsRead(v, style);
    StripIsTrimmed(k);
    if HasColon(k) {
      ColonAfter(k, rest);
      assert |Strip(line[..Colon(line)])| <= Colon(line) < |k|;
    } else {
      SplitAt(k, rest);
    }
  }

  /** The part of a text around its first colon. */
  lemma AroundColon(s: string) returns (a: string, b: string)
    requires HasColon(s)
    ensures s == a + ":" + b && !HasColon(a)
  {
    ColonIff(s);
    var n := Colon(s);
    a, b := s[..n], s[n + 1..];
    assert s == a + ":" + b;
  }

  lemma LeftOfColon(a: string) returns (front: string, a': string)
    requires !HasColon(a)
    ensures a == front + a' && Blank(front) && !HasColon(a') && Strip(a') == Strip(a)
    ensures (a' == "" || !IsSpace(a'[0])) && (Trimmed(a) ==> a' == a)
  {
    var pre, mid := StripParts(a);
    var t := Strip(a);
    StripIsTrimmed(a);
    if t == "" {
      front, a' := a, "";
    } else {
      front, a' := pre, t + mid;
      assert a == front + a' && "" + t + mid == a';
      StripIs("", t, mid);
    }
  }

  lemma RightOfColon(b: string) returns (b': string, back: string)
    ensures b == b' + back && Blank(back) && Strip(b') == Strip(b) && (b' == "" || !IsSpace(b'[|b'| - 1]))
  {
    var gap, post := StripParts(b);
    var u := Strip(b);
    StripIsTrimmed(b);
    if u == "" {
      b', back := "", b;
    } else {
      b', back := gap + u, post;
      assert gap + u + "" == b';
      StripIs(gap, u, "");
    }
  }

  /** What is left of a text with a colon when its blanks are stripped: the same around the colon, up to blanks at
      the ends. */
  lemma StripAround(a: string, b: string) returns (a': string, b': string)
    requires !HasColon(a)
    ensures Strip(a + ":" + b) == a' + ":" + b' && !HasColon(a')
    ensures Strip(a') == Strip(a) && Strip(b') == Strip(b)
    ensures Trimmed(a) ==> a' == a
  {
    var front, back;
    front, a' := LeftOfColon(a);
    b', back := RightOfColon(b);
    Bracketed(front, a', b', back);
  }

  lemma Bracketed(front: string, a: string, b: string, back: string)
    requires Blank(front) && Blank(back) && (a == "" || !IsSpace(a[0])) && (b == "" || !IsSpace(b[|b| - 1]))
    ensures Strip(front + a + ":" + (b + back)) == a + ":" + b
  {
    var t := a + ":" + b;
    assert t[0] == (if a == "" then ':' else a[0]) && t[|t| - 1] == if b == "" then ':' else b[|b| - 1];
    assert front + a + ":" + (b + back) == front + t + back;
    StripIs(front, t, back);
  }

  /** Blanks around a line do not matter to its key and value. */
  lemma SplitStripped(s: string)
    requires HasColon(s)
    ensures HasColon(Strip(s)) && SplitKv(Strip(s)) == SplitKv(s)
  {
    var a, b := AroundColon(s);
    var a', b' := StripAround(a, b);
    SplitAt(a, b);
    SplitAt(a', b');
    assert Strip(s)[|a'|] == ':';
  }

  // --------------------------------------------------------------------- one line

  function PairOf(kv: Pair): string {
    PairText(kv.key, kv.value, kv.style)
  }

  /** The line of a pair: a dash before the first pair of an item. */
  function LineOf(kv: Pair, first: bool): string {
    kv.indent + (if first then "- " else "") + PairOf(kv) + kv.behind
  }

  /** Keys that can also stand behind an item's first line. */
  predicate LaterKey(k: string) {
    PlainKey(k) && !StartsWith(k, "#") && !StartsWith(k, "- ") && k != "version" && k != "exceptions"
  }

  predicate Padded(kv: Pair) {
    Blank(kv.indent) && Blank(kv.behind)
  }

  lemma PairHasColon(kv: Pair)
    ensures HasColon(PairOf(kv)) && HasColon(Strip(PairOf(kv))) && Strip(PairOf(kv)) != ""
  {
    assert PairOf(kv)[|kv.key|] == ':';
    SplitStripped(PairOf(kv));
  }

  /** The first line of an item is a dash line, whatever its key. */
  lemma FirstLineIsDash(kv: Pair)
    requires Padded(kv)
    ensures Classify(LineOf(kv, true)) == Dash(Strip(PairOf(kv)))
  {
    PairHasColon(kv);
    DashLine(kv.indent, PairOf(kv), kv.behind);
  }

  lemma DashLine(indent: string, text: string, behind: string)
    requires Blank(indent) && Blank(behind) && Strip(text) != ""
    ensures Classify(indent + "- " + text + behind) == Dash(Strip(text))
  {
    var pre, post := StripParts(text);
    var t := Strip(text);
    StripIsTrimmed(text);
    DashStripped(indent, pre, t, post + behind);
    DashParts(indent, pre, t, post, behind);
    StripIs(pre, t, "");
    DashClassified(indent + "- " + text + behind, "- " + pre + t);
  }

  lemma DashParts(indent: string, pre: string, t: string, post: string, behind: string)
    ensures indent + "- " + (pre + t + post) + behind == indent + ("- " + pre + t) + (post + behind)
    ensures "- " <= "- " + pre + t && ("- " + pre + t)[2..] == pre + t + ""
  {
  }

  lemma DashClassified(raw: string, line: string)
    requires Strip(raw) == line && "- " <= line
    ensures Classify(raw) == Dash(Strip(line[2..]))
  {
    assert line[0] == '-';
    NotAHeader(line);
  }

  lemma DashStripped(indent: string, pre: string, t: string, behind: string)
    requires Blank(indent) && Blank(behind) && t != "" && Trimmed(t)
    ensures Strip(indent + ("- " + pre + t) + behind) == "- " + pre + t
  {
    var line := "- " + pre + t;
    assert line[0] == '-' && line[|line| - 1] == t[|t| - 1];
    StripIs(indent, line, behind);
  }

  lemma NotAHeader(line: string)
    requires line != "" && line[0] == '-'
    ensures !StartsWith(line, "#") && !StartsWith(line, "version:") && !StartsWith(line, "exceptions:")
  {
    assert "#"[0] != line[0] && "version:"[0] != line[0] && "exceptions:"[0] != line[0];
  }

  lemma PrefixWithColon(k: string, rest: string, word: string)
    requires !HasColon(k) && !HasColon(word)
    ensures StartsWith(k + ":" + rest, word + ":") <==> k == word
  {
    var line := k + ":" + rest;
    ColonAfter(k, rest);
    if StartsWith(line, word + ":") {
      var n := |word| + 1;
      assert line == word + ":" + line[n..];
      ColonAfter(word, line[n..]);
      assert k == line[..|k|] && word == line[..|word|];
    }
  }

  lemma HashStartsKey(k: string, rest: string)
    ensures StartsWith(k + ":" + rest, "#") <==> StartsWith(k, "#")
  {
    assert (k + ":" + rest)[0] == if k == "" then ':' else k[0];
  }

  lemma DashStartsKey(k: string, rest: string)
    ensures StartsWith(k + ":" + rest, "- ") <==> StartsWith(k, "- ")
  {
    var line := k + ":" + rest;
    if |k| >= 2 {
      assert line[..2] == k[..2];
    } else if |k| == 1 {
      assert line[1] == ':';
    } else {
      assert line[0] == ':';
    }
  }

  /** A later line of an item is a setting exactly when its key is not one the parser reads as something else. */
  lemma LaterLineIsSettingIff(kv: Pair)
    requires Padded(kv) && PlainKey(kv.key)
    ensures Classify(LineOf(kv, false)) == Setting(Strip(PairOf(kv))) <==> LaterKey(kv.key)
  {
    var rest := " " + Written(kv.value, kv.style);
    assert PairOf(kv) == kv.key + ":" + rest && LineOf(kv, false) == kv.indent + PairOf(kv) + kv.behind;
    StripPadded(kv.indent, PairOf(kv), kv.behind);
    var k, rest' := StripAround(kv.key, rest);
    SettingTextIff(k, rest', LineOf(kv, false));
  }

  lemma StripPadded(indent: string, text: string, behind: string)
    requires Blank(indent) && Blank(behind)
    ensures Strip(indent + text + behind) == Strip(text)
  {
    var pre, post := StripParts(text);
    var t := Strip(text);
    StripIsTrimmed(text);
    assert indent + text + behind == (indent + pre) + t + (post + behind);
    StripIs(indent + pre, t, post + behind);
  }

  lemma SettingTextIff(k: string, rest: string, raw: string)
    requires !HasColon(k) && Trimmed(k) && Strip(raw) == k + ":" + rest
    ensures Classify(raw) == Setting(k + ":" + rest) <==> LaterKey(k)
  {
    assert "version:" == "version" + ":" && "exceptions:" == "exceptions" + ":";
    PrefixWithColon(k, rest, "version");
    PrefixWithColon(k, rest, "exceptions");
    HashStartsKey(k, rest);
    DashStartsKey(k, rest);
    assert (k + ":" + rest)[|k|] == ':';
  }

  lemma PairIsRead(kv: Pair)
    requires PlainKey(kv.key) && Writable(kv.value, kv.style)
    ensures SplitKv(Strip(PairOf(kv))) == Success((kv.key, kv.value))
  {
    PairHasColon(kv);
    SplitStripped(PairOf(kv));
    PairRoundTripIff(kv.key, kv.value, kv.style);
  }

  // --------------------------------------------------------------------- one item

  predicate Fine(kv: Pair) {
    Padded(kv) && Writable(kv.value, kv.style)
  }

  predicate Renderable(item: seq<Pair>) {
    && item != [] && PlainKey(item[0].key)
    && (forall i :: 0 < i < |item| ==> LaterKey(item[i].key))
    && (forall i :: 0 <= i < |item| ==> Fine(item[i]))
  }

  function RenderItem(item: seq<Pair>): (r: seq<string>)
    ensures |r| == |item|
  {
    seq(|item|, i requires 0 <= i < |item| => LineOf(item[i], i == 0))
  }

  function Render(items: seq<seq<Pair>>): seq<string> {
    if items == [] then [] else Render(items[..|items| - 1]) + RenderItem(items[|items| - 1])
  }

  /** The dictionary a list of pairs makes; the last value of a key wins. */
  function ToItem(item: seq<Pair>): Item {
    if item == [] then map[] else ToItem(item[..|item| - 1])[item[|item| - 1].key := item[|item| - 1].value]
  }

  function ToItems(items: seq<seq<Pair>>): (r: seq<Item>)
    ensures |r| == |items|
  {
    seq(|items|, i requires 0 <= i < |items| => ToItem(items[i]))
  }

  lemma FirstLineStep(p: Progress, kv: Pair)
    requires PlainKey(kv.key) && Fine(kv)
    ensures Step(p, LineOf(kv, true)) == Success(Progress(Flush(p), Some(map[kv.key := kv.value])))
  {
    FirstLineIsDash(kv);
    PairIsRead(kv);
    PairHasColon(kv);
  }

  lemma LaterLineStep(p: Progress, kv: Pair)
    requires LaterKey(kv.key) && Fine(kv) && p.current.Some?
    ensures Step(p, LineOf(kv, false)) == Success(p.(current := Some(p.current.value[kv.key := kv.value])))
  {
    LaterLineIsSettingIff(kv);
    PairIsRead(kv);
    SettingStep(p, LineOf(kv, false), Strip(PairOf(kv)), kv.key, kv.value);
  }

  lemma SettingStep(p: Progress, raw: string, line: string, k: string, v: string)
    requires Classify(raw) == Setting(line) && SplitKv(line) == Success((k, v)) && p.current.Some?
    ensures Step(p, raw) == Success(p.(current := Some(p.current.value[k := v])))
  {
  }

  lemma StepsSnoc(p: Progress, lines: seq<string>, line: string)
    requires Steps(p, lines).Success?
    ensures Steps(p, lines + [line]) == Step(Steps(p, lines).value, line)
  {
    assert (lines + [line])[..|lines|] == lines;
  }

  lemma RenderOneMore(item: seq<Pair>)
    requires |item| > 1
    ensures var n := |item| - 1; RenderItem(item) == RenderItem(item[..n]) + [LineOf(item[n], false)]
  {
  }

  /** Reading an item's lines, from any state, closes the open item and leaves this one open. */
  lemma {:induction false} ItemRoundTrip(p: Progress, item: seq<Pair>)
    requires Renderable(item)
    ensures Steps(p, RenderItem(item)) == Success(Progress(Flush(p), Some(ToItem(item))))
    decreases |item|
  {
    var n := |item| - 1;
    var kv := item[n];
    if n == 0 {
      FirstLineStep(p, kv);
      StepsSnoc(p, [], LineOf(kv, true));
      assert RenderItem(item) == [] + [LineOf(kv, true)] && item[..0] == [];
    } else {
      ItemRoundTrip(p, item[..n]);
      LaterLineStep(Progress(Flush(p), Some(ToItem(item[..n]))), kv);
      StepsSnoc(p, RenderItem(item[..n]), LineOf(kv, false));
      RenderOneMore(item);
    }
  }

  lemma ItemIsNotEmpty(item: seq<Pair>)
    requires item != []
    ensures ToItem(item) != map[]
  {
    assert item[|item| - 1].key in ToItem(item);
  }

  lemma ToItemsSnoc(items: seq<seq<Pair>>)
    requires items != []
    ensures ToItems(items) == ToItems(items[..|items| - 1]) + [ToItem(items[|items| - 1])]
  {
  }

  lemma {:induction false} ItemsRoundTrip(items: seq<seq<Pair>>)
    requires forall i :: 0 <= i < |items| ==> Renderable(items[i])
    ensures Steps(START, Render(items)).Success?
    ensures Flush(Steps(START, Render(items)).value) == ToItems(items)
  {
    if items != [] {
      var n := |items| - 1;
      var before := items[..n];
      assert forall i :: 0 <= i < n ==> before[i] == items[i];
      ItemsRoundTrip(before);
      OneMoreItem(Render(before), items[n]);
      assert Render(items) == Render(before) + RenderItem(items[n]);
      ToItemsSnoc(items);
    }
  }

  lemma OneMoreItem(lines: seq<string>, item: seq<Pair>)
    requires Renderable(item) && Steps(START, lines).Success?
    ensures Steps(START, lines + RenderItem(item)).Success?
    ensures Flush(Steps(START, lines + RenderItem(item)).value) == Flush(Steps(START, lines).value) + [ToItem(item)]
  {
    var p := Steps(START, lines).value;
    StepsConcat(START, lines, RenderItem(item));
    ItemRoundTrip(p, item);
    ItemIsNotEmpty(item);
    assert Flush(Progress(Flush(p), Some(ToItem(item)))) == Flush(p) + [ToItem(item)];
  }

  // ------------------------------------------------------------- lines that say nothing

  /** A blank line, a comment and the two headers are ignored, wherever they are indented to. */
  lemma IgnoredLines(indent: string, text: string)
    requires Blank(indent)
    ensures Classify(indent) == Ignored && Classify(indent + "#" + text) == Ignored
    ensures Classify(indent + "version:" + text) == Ignored && Classify(indent + "exceptions:" + text) == Ignored
  {
    StripIs(indent, "", "");
    assert indent + "" + "" == indent;
    OpensAs(indent, "#", text);
    OpensAs(indent, "version:", text);
    OpensAs(indent, "exceptions:", text);
  }

  lemma OpensAs(indent: string, word: string, text: string)
    requires Blank(indent) && word != "" && Trimmed(word)
    ensures StartsWith(Strip(indent + word + text), word)
  {
    var gap, post := StripParts(text);
    StripIsTrimmed(text);
    var t := Strip(text);
    var line, rest := if t == "" then word else word + gap + t, if t == "" then text else post;
    assert line[0] == word[0] && line[|line| - 1] == if t == "" then word[|word| - 1] else t[|t| - 1];
    assert indent + word + text == indent + line + rest;
    StripIs(indent, line, rest);
  }

  /** Such a line changes nothing, wherever it stands. */
  lemma IgnoredChangesNothing(p: Progress, before: seq<string>, raw: string, after: seq<string>)
    requires Classify(raw) == Ignored && Steps(p, before).Success?
    ensures Steps(p, before + [raw] + after) == Steps(p, before + after)
  {
    StepsSnoc(p, before, raw);
    StepsConcat(p, before, after);
    StepsConcat(p, before + [raw], after);
  }

  // ------------------------------------------------------------------------- as text

  /** How a line ends; the last one of a text may not end at all. */
  datatype Break = Feed | Return | ReturnFeed | NoBreak {
    function Text(): string {
      match this
      case Feed => "\n"
      case Return => "\r"
      case ReturnFeed => "\r\n"
      case NoBreak => ""
    }
  }

  predicate LineBreakFree(s: string) {
    '\n' !in s && '\r' !in s
  }

  function Joined(lines: seq<string>, breaks: seq<Break>): string
    requires |lines| == |breaks|
  {
    if lines == [] then "" else lines[0] + breaks[0].Text() + Joined(lines[1..], breaks[1..])
  }

  /** Every line is ended, but perhaps the last one. */
  predicate Ended(breaks: seq<Break>) {
    forall i :: 0 <= i < |breaks| - 1 ==> breaks[i] != NoBreak
  }

  lemma {:induction false} LineEndIs(line: string, rest: string)
    requires LineBreakFree(line) && rest != "" && !LineBreakFree(rest[..1])
    ensures LineEnd(line + rest) == |line|
  {
    var text := line + rest;
    assert text[|line|] == rest[0] && rest[0] in rest[..1];
    assert rest[..1] == [rest[0]];
    assert forall i :: 0 <= i < |line| ==> text[i] == line[i] && line[i] in line;
  }

  lemma LinesCons(line: string, ending: Break, rest: string)
    requires LineBreakFree(line) && (ending == NoBreak ==> line != "" && rest == "")
    requires ending == Return ==> rest == "" || rest[0] != '\n'
    ensures Lines(line + ending.Text() + rest) == [line] + Lines(rest)
  {
    if ending == NoBreak {
      LastLine(line);
      assert line + "" + "" == line;
    } else {
      var tail := ending.Text() + rest;
      BreakIs(ending, rest);
      assert line + ending.Text() + rest == line + tail;
      LineBefore(line, tail, |ending.Text()|);
    }
  }

  lemma BreakIs(ending: Break, rest: string)
    requires ending != NoBreak && (ending == Return ==> rest == "" || rest[0] != '\n')
    ensures var tail, skip := ending.Text() + rest, |ending.Text()|;
      && tail != "" && (tail[0] == '\n' || tail[0] == '\r') && skip <= |tail| && tail[skip..] == rest
      && skip == if tail[0] == '\r' && |tail| > 1 && tail[1] == '\n' then 2 else 1
  {
  }

  lemma LastLine(line: string)
    requires LineBreakFree(line) && line != ""
    ensures Lines(line) == [line]
  {
    assert forall i :: 0 <= i < |line| ==> line[i] in line;
  }

  /** A line before the text that begins with its break of `skip` characters. */
  lemma LineBefore(line: string, tail: string, skip: nat)
    requires LineBreakFree(line) && tail != "" && (tail[0] == '\n' || tail[0] == '\r') && skip <= |tail|
    requires skip == if tail[0] == '\r' && |tail| > 1 && tail[1] == '\n' then 2 else 1
    ensures Lines(line + tail) == [line] + Lines(tail[skip..])
  {
    var text := line + tail;
    assert tail[..1] == [tail[0]] && tail[0] in tail[..1];
    LineEndIs(line, tail);
    assert text[|line|] == tail[0] && text[..|line|] == line && text[|line| + skip..] == tail[skip..];
    assert |line| + 1 < |text| ==> text[|line| + 1] == tail[1];
  }

  lemma {:induction false} LinesOfJoined(lines: seq<string>, breaks: seq<Break>)
    requires |lines| == |breaks| && Ended(breaks)
    requires forall i :: 0 <= i < |lines| ==> LineBreakFree(lines[i]) && lines[i] != ""
    ensures Lines(Joined(lines, breaks)) == lines
  {
    if lines != [] {
      var rest := Joined(lines[1..], breaks[1..]);
      if |lines| > 1 {
        JoinedStarts(lines[1..], breaks[1..]);
      }
      LinesCons(lines[0], breaks[0], rest);
      LinesOfJoined(lines[1..], breaks[1..]);
    }
  }

  lemma JoinedStarts(lines: seq<string>, breaks: seq<Break>)
    requires |lines| == |breaks| && lines != [] && lines[0] != "" && LineBreakFree(lines[0])
    ensures Joined(lines, breaks) != "" && Joined(lines, breaks)[0] != '\n'
  {
    assert lines[0][0] in lines[0];
  }

  predicate OnOneLine(kv: Pair) {
    LineBreakFree(kv.key) && LineBreakFree(kv.value) && LineBreakFree(kv.indent) && LineBreakFree(kv.behind)
  }

  lemma LineIsFree(kv: Pair, first: bool)
    requires OnOneLine(kv)
    ensures LineBreakFree(LineOf(kv, first)) && LineOf(kv, first) != ""
  {
    var line := LineOf(kv, first);
    assert LineBreakFree(": ") && LineBreakFree("- ") && LineBreakFree("'") && LineBreakFree("\"");
    assert LineBreakFree(PairOf(kv));
    assert ':' in PairOf(kv);
  }

  lemma {:induction false} RenderedLinesAreFree(items: seq<seq<Pair>>)
    requires forall i :: 0 <= i < |items| ==> forall j :: 0 <= j < |items[i]| ==> OnOneLine(items[i][j])
    ensures forall j :: 0 <= j < |Render(items)| ==> LineBreakFree(Render(items)[j]) && Render(items)[j] != ""
  {
    if items != [] {
      var n := |items| - 1;
      RenderedLinesAreFree(items[..n]);
      forall j | 0 <= j < |items[n]|
        ensures LineBreakFree(RenderItem(items[n])[j]) && RenderItem(items[n])[j] != ""
      {
        LineIsFree(items[n][j], j == 0);
      }
    }
  }

  /** Rendering items and reading the text back gives their dictionaries: for values without line breaks, in
      whatever style each is written, with whatever blanks around the lines, and however the lines end. */
  lemma TextRoundTrip(items: seq<seq<Pair>>, breaks: seq<Break>)
    requires forall i :: 0 <= i < |items| ==> Renderable(items[i])
    requires forall i :: 0 <= i < |items| ==> forall j :: 0 <= j < |items[i]| ==> OnOneLine(items[i][j])
    requires |breaks| == |Render(items)| && Ended(breaks)
    ensures ParseText(Joined(Render(items), breaks)) == Success(ToItems(items))
  {
    RenderedLinesAreFree(items);
    LinesOfJoined(Render(items), breaks);
    ItemsRoundTrip(items);
  }

  /** Lines that are ignored may stand before a file, like its header and comments. */
  lemma {:induction false} HeaderChangesNothing(header: seq<string>, lines: seq<string>)
    requires forall i :: 0 <= i < |header| ==> Classify(header[i]) == Ignored
    ensures Steps(START, header + lines) == Steps(START, lines)
  {
    if header == [] {
      assert header + lines == lines;
    } else {
      HeaderChangesNothing(header[1..], lines);
      FirstIgnored(header[0], header[1..] + lines);
      HeadFirst(header, lines);
    }
  }

  lemma HeadFirst<T>(xs: seq<T>, ys: seq<T>)
    requires xs != []
    ensures xs + ys == [xs[0]] + (xs[1..] + ys)
  {
  }

  lemma FirstIgnored(raw: string, lines: seq<string>)
    requires Classify(raw) == Ignored
    ensures Steps(START, [raw] + lines) == Steps(START, lines)
  {
    IgnoredChangesNothing(START, [], raw, lines);
    assert [] + [raw] + lines == [raw] + lines && [] + lines == lines;
  }

  /** The way the file that is shipped writes its entries: package and severity bare, the others in quotes. */
  function Shipped(package: string, advisory: string, severity: string, reason: string, mitigation: string,
                   expires: string, owner: string): seq<Pair>
  {
    [Pair("package", package, Bare, "  ", ""), Pair("advisory", advisory, Double, "    ", ""),
     Pair("severity", severity, Bare, "    ", ""), Pair("reason", reason, Double, "    ", ""),
     Pair("mitigation", mitigation, Double, "    ", ""), Pair("expires_on", expires, Double, "    ", ""),
     Pair("owner", owner, Double, "    ", "")]
  }

  lemma WordIsPlain(k: string)
    requires k != "" && (forall i :: 0 <= i < |k| ==> 'a' <= k[i] <= 'z' || k[i] == '_') && k != "version"
    requires k != "exceptions"
    ensures LaterKey(k)
  {
    assert forall c :: c in k ==> 'a' <= c <= 'z' || c == '_';
    assert k[0] in k && k[|k| - 1] in k;
    assert "#"[0] == '#' && "- "[0] == '-';
  }

  lemma FirstKeysArePlain()
    ensures LaterKey("package") && LaterKey("advisory") && LaterKey("severity") && LaterKey("reason")
  {
    WordIsPlain("package");
    WordIsPlain("advisory");
    WordIsPlain("severity");
    WordIsPlain("reason");
  }

  lemma LastKeysArePlain()
    ensures LaterKey("mitigation") && LaterKey("expires_on") && LaterKey("owner")
  {
    WordIsPlain("mitigation");
    WordIsPlain("expires_on");
    WordIsPlain("owner");
  }

  lemma ShippedIsRenderable(package: string, advisory: string, severity: string, reason: string, mitigation: string,
                            expires: string, owner: string)
    requires Writable(package, Bare) && Writable(severity, Bare)
    ensures Renderable(Shipped(package, advisory, severity, reason, mitigation, expires, owner))
  {
    var item := Shipped(package, advisory, severity, reason, mitigation, expires, owner);
    FirstKeysArePlain();
    LastKeysArePlain();
    assert Blank("") && Blank("  ") && Blank("    ");
    SevenAreRenderable(item);
  }

  lemma SevenAreRenderable(item: seq<Pair>)
    requires |item| == 7
    requires LaterKey(item[0].key) && LaterKey(item[1].key) && LaterKey(item[2].key) && LaterKey(item[3].key)
    requires LaterKey(item[4].key) && LaterKey(item[5].key) && LaterKey(item[6].key)
    requires Fine(item[0]) && Fine(item[1]) && Fine(item[2]) && Fine(item[3]) && Fine(item[4]) && Fine(item[5])
    requires Fine(item[6])
    ensures Renderable(item)
  {
  }

  /** An item holds the last value that is given for a key. */
  lemma {:induction false} ItemHolds(item: seq<Pair>, i: nat)
    requires i < |item| && forall j :: i < j < |item| ==> item[j].key != item[i].key
    ensures Get(ToItem(item), item[i].key) == Some(item[i].value)
  {
    var n := |item| - 1;
    if i < n {
      ItemHolds(item[..n], i);
    }
  }

  lemma ShippedKeysDiffer(item: seq<Pair>)
    requires |item| == 7 && item[0].key == "package" && item[1].key == "advisory" && item[2].key == "severity"
    requires item[3].key == "reason" && item[4].key == "mitigation" && item[5].key == "expires_on"
    requires item[6].key == "owner"
    ensures forall i, j :: 0 <= i < j < 7 ==> item[i].key != item[j].key
  {
    assert item[0].key[0] == 'p' && item[1].key[0] == 'a' && item[2].key[0] == 's' && item[3].key[0] == 'r';
    assert item[4].key[0] == 'm' && item[5].key[0] == 'e' && item[6].key[0] == 'o';
  }

  /** Such an entry is read with all its fields, whatever the quoted ones are and for every package and severity
      that can stand without quotes, behind any header that is ignored. */
  lemma ShippedIsRead(header: seq<string>, package: string, advisory: string, severity: string, reason: string,
                      mitigation: string, expires: string, owner: string)
    requires forall i :: 0 <= i < |header| ==> Classify(header[i]) == Ignored
    requires Writable(package, Bare) && Writable(severity, Bare)
    ensures var item := Shipped(package, advisory, severity, reason, mitigation, expires, owner);
      && Parse(header + Render([item])) == Success([ToItem(item)])
      && forall i :: 0 <= i < |item| ==> Get(ToItem(item), item[i].key) == Some(item[i].value)
  {
    var item := Shipped(package, advisory, severity, reason, mitigation, expires, owner);
    ShippedIsRenderable(package, advisory, severity, reason, mitigation, expires, owner);
    ShippedKeysDiffer(item);
    OneIsRead(header, item);
    forall i | 0 <= i < |item|
      ensures Get(ToItem(item), item[i].key) == Some(item[i].value)
    {
      ItemHolds(item, i);
    }
  }

  lemma OneIsRead(header: seq<string>, item: seq<Pair>)
    requires forall i :: 0 <= i < |header| ==> Classify(header[i]) == Ignored
    requires Renderable(item)
    ensures Parse(header + Render([item])) == Success([ToItem(item)])
  {
    HeaderChangesNothing(header, Render([item]));
    ItemsRoundTrip([item]);
    SingleItem(item);
  }

  lemma SingleItem(item: seq<Pair>)
    ensures ToItems([item]) == [ToItem(item)]
  {
  }

  // ------------------------------------------------------------------- appending files

  /** A file of one item with one setting. */
  lemma OneSetting(key: string)
    requires PlainKey(key)
    ensures exists a :: Parse(a) == Success([map[key := "v"]])
  {
    var item := [Pair(key, "v", Double, "", "")];
    ItemsRoundTrip([item]);
    OnePair(item[0]);
    assert Parse(Render([item])) == Success(ToItems([item]));
  }

  lemma OnePair(kv: Pair)
    ensures ToItems([[kv]]) == [map[kv.key := kv.value]]
  {
    assert [kv][..0] == [];
    assert ToItem([kv]) == map[kv.key := kv.value];
  }

  lemma LeadingShows(k: string, b: seq<string>) returns (a: seq<string>)
    requires Parse(b).Success? && k in Leading(b)
    ensures Parse(a).Success? && Parse(a + b) != Success(Parse(a).value + Parse(b).value)
  {
    var other := if k == "x" then "y" else "x";
    OneSetting(other);
    a :| Parse(a) == Success([map[other := "v"]]);
    ParseIsAdditiveIff(a, b);
    assert k in map[other := "v"] + Leading(b);
  }

  lemma NothingLeads(a: seq<string>, b: seq<string>)
    requires Parse(a).Success? && Parse(b).Success? && Leading(b) == map[]
    ensures Parse(a + b) == Success(Parse(a).value + Parse(b).value)
  {
    ParseIsAdditiveIff(a, b);
    var xs := Parse(a).value;
    if xs != [] {
      var x := xs[|xs| - 1];
      assert x + map[] == x;
    }
  }

  /** A file can be appended to any other exactly if no setting stands before its first dash line: the items
      then are those of the one and of the other. */
  lemma AppendsToAnythingIff(b: seq<string>)
    requires Parse(b).Success?
    ensures DashFirst(b) <==>
      forall a :: Parse(a).Success? ==> Parse(a + b) == Success(Parse(a).value + Parse(b).value)
  {
    LeadingIsNoneIff(b);
    if DashFirst(b) {
      forall a | Parse(a).Success?
        ensures Parse(a + b) == Success(Parse(a).value + Parse(b).value)
      {
        NothingLeads(a, b);
      }
    } else {
      var k :| k in Leading(b);
      var a := LeadingShows(k, b);
    }
  }
}
