/** Laws of the exception-list parser: when it fails, how many items it finds, and how files concatenate. */
module ExceptionsLaws {
  import opened Sequences
  import opened ExceptionsFile

  // ------------------------------------------------------------ dash lines

  predicate HasColon(s: string) {
    ':' in s
  }

  lemma {:induction false} ColonIff(s: string)
    ensures Colon(s) < |s| <==> HasColon(s)
  {
    if Colon(s) < |s| {
      assert s[Colon(s)] == ':';
    }
  }

  /** Stripping a dash line leaves text behind the dash: the parser's test for an empty rest never fails. */
  lemma DashHasText(raw: string)
    requires Classify(raw).Dash?
    ensures Classify(raw).text != ""
  {
    var line := Strip(raw);
    StripIsTrimmed(raw);
    assert line[0] == '-' && line[1] == ' ';
    var rest := line[2..];
    assert line[|line| - 1] != ' ';
    assert rest[|rest| - 1] == line[|line| - 1];
    StripLeftKeepsEnd(rest);
  }

  /** A dash line the parser cannot split. */
  predicate BadDash(raw: string) {
    Classify(raw).Dash? && !HasColon(Classify(raw).text)
  }

  lemma StepFailsIff(p: Progress, raw: string)
    ensures Step(p, raw).Failure? <==> BadDash(raw)
  {
    match Classify(raw)
    case Ignored =>
    case Dash(text) =>
      DashHasText(raw);
      ColonIff(text);
    case Setting(line) =>
      ColonIff(line);
  }

  /** Parsing fails exactly when some dash line has no colon. */
  lemma {:induction false} ParseFailsIff(p: Progress, lines: seq<string>)
    ensures Steps(p, lines).Failure? <==> exists i :: 0 <= i < |lines| && BadDash(lines[i])
  {
    if lines != [] {
      var n := |lines| - 1;
      ParseFailsIff(p, lines[..n]);
      if Steps(p, lines[..n]).Success? {
        StepFailsIff(Steps(p, lines[..n]).value, lines[n]);
      }
      SomeBadSnoc(lines[..n], lines[n]);
      assert lines == lines[..n] + [lines[n]];
    }
  }

  lemma SomeBadSnoc(lines: seq<string>, line: string)
    ensures (exists i :: 0 <= i < |lines + [line]| && BadDash((lines + [line])[i]))
       <==> (exists i :: 0 <= i < |lines| && BadDash(lines[i])) || BadDash(line)
  {
    var all := lines + [line];
    assert all[|lines|] == line;
    if i :| 0 <= i < |lines| && BadDash(lines[i]) {
      assert BadDash(all[i]);
    }
  }

  lemma StepFailsWith(p: Progress, raw: string)
    requires BadDash(raw)
    ensures Step(p, raw) == Failure(NoColon(Classify(raw).text))
  {
    DashHasText(raw);
    ColonIff(Classify(raw).text);
  }

  /** The error is the text of the first dash line that has no colon. */
  lemma ParseErrorIs(p: Progress, lines: seq<string>, j: nat)
    requires j < |lines| && BadDash(lines[j]) && forall i :: 0 <= i < j ==> !BadDash(lines[i])
    ensures Steps(p, lines) == Failure(NoColon(Classify(lines[j]).text))
  {
    ParseFailsIff(p, lines[..j]);
    StepFailsWith(Steps(p, lines[..j]).value, lines[j]);
    assert lines[..j+1][..j] == lines[..j];
    StepsFailEarly(p, lines, j + 1);
  }

  // --------------------------------------------------------------- counting

  function DashLines(lines: seq<string>): nat {
    if lines == [] then 0
    else DashLines(lines[..|lines| - 1]) + if Classify(lines[|lines| - 1]).Dash? then 1 else 0
  }

  /** The current item is never empty: the guards that drop empty items drop none. */
  lemma {:induction false} CurrentIsNeverEmpty(lines: seq<string>)
    requires Steps(START, lines).Success?
    ensures var p := Steps(START, lines).value;
      && p.current != Some(map[])
      && |p.items| + (if p.current.Some? then 1 else 0) == DashLines(lines)
      && (p.current == None ==> p.items == [])
  {
    if lines != [] {
      var n := |lines| - 1;
      CurrentIsNeverEmpty(lines[..n]);
      var before := Steps(START, lines[..n]).value;
      match Classify(lines[n])
      case Ignored =>
      case Dash(text) =>
        DashHasText(lines[n]);
        var kv := SplitKv(text).value;
        assert kv.0 in map[kv.0 := kv.1];
      case Setting(line) =>
        if before.current.Some? {
          var kv := SplitKv(line).value;
          assert kv.0 in before.current.value[kv.0 := kv.1];
        }
    }
  }

  /** A parsed file has one item per dash line. */
  lemma OneItemPerDash(lines: seq<string>)
    requires Parse(lines).Success?
    ensures |Parse(lines).value| == DashLines(lines)
  {
    CurrentIsNeverEmpty(lines);
  }

  // --------------------------------------------------------------- concatenation

  lemma {:induction false} StepsConcat(p: Progress, a: seq<string>, b: seq<string>)
    requires Steps(p, a).Success?
    ensures Steps(p, a + b) == Steps(Steps(p, a).value, b)
  {
    if b == [] {
      assert a + b == a;
    } else {
      var n := |b| - 1;
      assert (a + b)[..|a + b| - 1] == a + b[..n];
      StepsConcat(p, a, b[..n]);
    }
  }

  /** The settings before the first dash line: what a file adds to the item a previous file left open. */
  function Leading(lines: seq<string>): Item {
    if lines == [] then map[]
    else
      var n := |lines| - 1;
      AddLeading(Leading(lines[..n]), DashLines(lines[..n]), lines[n])
  }

  function AddLeading(lead: Item, dashes: nat, raw: string): Item {
    if dashes == 0 && Classify(raw).Setting? && SplitKv(Classify(raw).line).Success? then
      var kv := SplitKv(Classify(raw).line).value;
      lead[kv.0 := kv.1]
    else lead
  }

  /** The item a parse resumes with, settings added. */
  function Grafted(start: Progress, lead: Item): Progress {
    if start.current == None then start else start.(current := Some(start.current.value + lead))
  }

  /** Where a parse that starts inside an item stands, told by a parse that starts afresh. */
  ghost predicate Resumed(start: Progress, anew: Progress, lead: Item, now: Progress) {
    if anew.current == None then now == Grafted(start, lead)
    else now.current == anew.current && now.items == Flush(Grafted(start, lead)) + anew.items
  }

  /** Parsing on from any state is parsing afresh and grafting: leading settings go to the open item. */
  lemma {:induction false} ParsingResumes(start: Progress, lines: seq<string>)
    requires Steps(START, lines).Success?
    ensures Steps(start, lines).Success?
    ensures Resumed(start, Steps(START, lines).value, Leading(lines), Steps(start, lines).value)
  {
    ParseFailsIff(START, lines);
    ParseFailsIff(start, lines);
    if lines == [] {
      if start.current.Some? {
        assert start.current.value + map[] == start.current.value;
      }
    } else {
      var n := |lines| - 1;
      ParsingResumes(start, lines[..n]);
      CurrentIsNeverEmpty(lines[..n]);
      ResumedStep(start, Steps(START, lines[..n]).value, Leading(lines[..n]), Steps(start, lines[..n]).value, lines[n],
                  DashLines(lines[..n]));
    }
  }

  lemma GraftOneMore(m: Item, lead: Item, key: string, value: string)
    ensures (m + lead)[key := value] == m + lead[key := value]
  {
  }

  lemma ResumedSetting(start: Progress, f: Progress, lead: Item, now: Progress, line: string)
    requires Resumed(start, f, lead, now) && (f.current == None ==> f.items == []) && SplitKv(line).Success?
    ensures var kv := SplitKv(line).value;
      if f.current == None then
        now.current.Some? ==>
          Resumed(start, f, lead[kv.0 := kv.1], now.(current := Some(now.current.value[kv.0 := kv.1])))
      else
        Resumed(start, f.(current := Some(f.current.value[kv.0 := kv.1])), lead,
                now.(current := Some(now.current.value[kv.0 := kv.1])))
  {
    var kv := SplitKv(line).value;
    if f.current == None && start.current.Some? {
      GraftOneMore(start.current.value, lead, kv.0, kv.1);
    }
  }

  lemma ResumedDash(start: Progress, f: Progress, lead: Item, now: Progress, item: Item)
    requires Resumed(start, f, lead, now) && f.current != Some(map[]) && (f.current == None ==> f.items == [])
    ensures Resumed(start, Progress(Flush(f), Some(item)), lead, Progress(Flush(now), Some(item)))
  {
    if f.current == None {
      assert now == Grafted(start, lead);
      assert Flush(f) == [];
    } else {
      assert Flush(now) == now.items + [f.current.value] && Flush(f) == f.items + [f.current.value];
    }
  }

  lemma ResumedStep(start: Progress, f: Progress, lead: Item, now: Progress, raw: string, dashes: nat)
    requires Resumed(start, f, lead, now) && f.current != Some(map[]) && (f.current == None <==> dashes == 0)
    requires f.current == None ==> f.items == []
    requires Step(f, raw).Success? && Step(now, raw).Success?
    ensures Resumed(start, Step(f, raw).value, AddLeading(lead, dashes, raw), Step(now, raw).value)
  {
    match Classify(raw)
    case Ignored =>
    case Dash(text) =>
      DashHasText(raw);
      var kv := SplitKv(text).value;
      ResumedDash(start, f, lead, now, map[kv.0 := kv.1]);
    case Setting(line) =>
      ColonIff(line);
      ResumedSetting(start, f, lead, now, line);
  }

  // the laws

  lemma FlushGrafted(p: Progress, lead: Item)
    requires p.current != Some(map[]) && (p.current == None ==> p.items == [])
    ensures var xs := Flush(p);
      Flush(Grafted(p, lead)) == if xs == [] then [] else xs[..|xs| - 1] + [xs[|xs| - 1] + lead]
  {
    if p.current.Some? {
      var m := p.current.value;
      assert m + lead != map[] by {
        var k :| k in m;
        assert k in m + lead;
      }
      assert Flush(p)[..|p.items|] == p.items;
    }
  }

  lemma FlushResumed(p: Progress, f: Progress, lead: Item, now: Progress)
    requires Resumed(p, f, lead, now) && f.current != Some(map[]) && (f.current == None ==> f.items == [])
    ensures Flush(now) == Flush(Grafted(p, lead)) + Flush(f)
  {
  }

  /** Two files in a row: the settings before the second file's first dash line join the last item of the
      first file, and otherwise the items follow each other. */
  lemma ParseConcat(a: seq<string>, b: seq<string>)
    requires Parse(a).Success? && Parse(b).Success?
    ensures Parse(a + b).Success?
    ensures var xs, ys := Parse(a).value, Parse(b).value;
      Parse(a + b).value ==
        if xs == [] then ys else xs[..|xs| - 1] + [xs[|xs| - 1] + Leading(b)] + ys
  {
    var p, f := Steps(START, a).value, Steps(START, b).value;
    StepsConcat(START, a, b);
    CurrentIsNeverEmpty(a);
    CurrentIsNeverEmpty(b);
    ParsingResumes(p, b);
    FlushResumed(p, f, Leading(b), Steps(p, b).value);
    FlushGrafted(p, Leading(b));
  }

  /** Two files concatenate exactly when the first has no items, or the second's leading settings change
      nothing. */
  lemma ParseIsAdditiveIff(a: seq<string>, b: seq<string>)
    requires Parse(a).Success? && Parse(b).Success?
    ensures Parse(a + b) == Success(Parse(a).value + Parse(b).value) <==>
      var xs := Parse(a).value; xs == [] || xs[|xs| - 1] + Leading(b) == xs[|xs| - 1]
  {
    ParseConcat(a, b);
    var xs, ys := Parse(a).value, Parse(b).value;
    if xs == [] {
      assert xs + ys == ys;
    } else {
      ReplacedLast(xs, xs[|xs| - 1] + Leading(b), ys);
    }
  }

  lemma ReplacedLast<T>(xs: seq<T>, x: T, ys: seq<T>)
    requires xs != []
    ensures xs[..|xs| - 1] + [x] + ys == xs + ys <==> x == xs[|xs| - 1]
  {
    var n := |xs| - 1;
    var joined := xs[..n] + [x] + ys;
    assert joined[n] == x && (xs + ys)[n] == xs[n];
    if x == xs[n] {
      assert xs[..n] + [x] == xs;
    }
  }

  /** No setting stands before the first dash line. */
  predicate DashFirst(lines: seq<string>) {
    forall i :: 0 <= i < |lines| && Classify(lines[i]).Setting? ==> DashLines(lines[..i]) > 0
  }

  lemma AddLeadingIff(lead: Item, dashes: nat, raw: string)
    ensures AddLeading(lead, dashes, raw) == map[] <==> lead == map[] && (Classify(raw).Setting? ==> dashes > 0)
  {
    if dashes == 0 && Classify(raw).Setting? {
      ColonIff(Classify(raw).line);
      var kv := SplitKv(Classify(raw).line).value;
      assert kv.0 in lead[kv.0 := kv.1];
    }
  }

  lemma DashFirstSnoc(lines: seq<string>, raw: string)
    ensures DashFirst(lines + [raw]) <==> DashFirst(lines) && (Classify(raw).Setting? ==> DashLines(lines) > 0)
  {
    var all := lines + [raw];
    assert all[..|lines|] == lines && all[|lines|] == raw;
    assert forall i :: 0 <= i < |lines| ==> lines[..i] == all[..i] && lines[i] == all[i];
  }

  lemma {:induction false} LeadingIsNoneIff(lines: seq<string>)
    ensures Leading(lines) == map[] <==> DashFirst(lines)
  {
    if lines != [] {
      var n := |lines| - 1;
      assert lines == lines[..n] + [lines[n]];
      LeadingIsNoneIff(lines[..n]);
      DashFirstSnoc(lines[..n], lines[n]);
      AddLeadingIff(Leading(lines[..n]), DashLines(lines[..n]), lines[n]);
    }
  }
}
