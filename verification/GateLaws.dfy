/** The gate in plain terms: which findings count, what an exception must have, and which values are the same, told
    by the texts of the file and of the audit alone. */
module GateLaws {
  import opened Sequences
  import opened ExceptionsFile
  import opened AuditGate
  import opened AuditLaws

  // ------------------------------------------------------------------ plain readings

  function SeverityOf(env: Env, v: Option<string>): string {
    env.lower(env.strip(if v.Some? then v.value else ""))
  }

  function PackageOf(env: Env, v: Option<string>): string {
    if v.Some? then env.strip(v.value) else ""
  }

  function AdvisoryOf(env: Env, v: Option<string>): string {
    if v.Some? then env.lower(env.strip(v.value)) else ""
  }

  function DateOf(env: Env, exc: Item): Option<int> {
    env.parseDate(if "expires_on" in exc then exc["expires_on"] else "")
  }

  /** A named finding of high or critical severity: the only kind the gate looks at. */
  predicate Serious(env: Env, f: Finding) {
    && f.name.Some? && f.name.value != ""
    && (SeverityOf(env, f.severity) == "high" || SeverityOf(env, f.severity) == "critical")
  }

  predicate Filled(exc: Item, field: string) {
    field in exc && exc[field] != ""
  }

  /** The five fields an exception must have. */
  predicate Complete(exc: Item) {
    && Filled(exc, "package") && Filled(exc, "advisory") && Filled(exc, "severity") && Filled(exc, "mitigation")
    && Filled(exc, "expires_on")
  }

  /** Complete, with a date that can be read, and a package and an advisory that are not blank. */
  predicate Proper(env: Env, exc: Item) {
    && Complete(exc) && DateOf(env, exc).Some?
    && PackageOf(env, Get(exc, "package")) != "" && AdvisoryOf(env, Get(exc, "advisory")) != ""
  }

  /** Of one package and one advisory. */
  predicate Concerns(env: Env, exc: Item, f: Finding) {
    && PackageOf(env, Get(exc, "package")) == PackageOf(env, f.name)
    && AdvisoryOf(env, Get(exc, "advisory")) == AdvisoryOf(env, f.advisory)
  }

  predicate SameException(env: Env, a: Item, b: Item) {
    && PackageOf(env, Get(a, "package")) == PackageOf(env, Get(b, "package"))
    && AdvisoryOf(env, Get(a, "advisory")) == AdvisoryOf(env, Get(b, "advisory"))
  }

  predicate SameFinding(env: Env, f: Finding, g: Finding) {
    PackageOf(env, f.name) == PackageOf(env, g.name) && AdvisoryOf(env, f.advisory) == AdvisoryOf(env, g.advisory)
  }

  /** The exception is for the finding, for its severity or for any, and in force. */
  predicate Allows(env: Env, exc: Item, f: Finding) {
    && Concerns(env, exc, f)
    && (SeverityOf(env, Get(exc, "severity")) == ""
        || SeverityOf(env, Get(exc, "severity")) == SeverityOf(env, f.severity))
    && DateOf(env, exc).Some? && env.today <= DateOf(env, exc).value
  }

  predicate Identified(env: Env, f: Finding) {
    Serious(env, f) && AdvisoryOf(env, f.advisory) != ""
  }

  /** A serious finding of the same package and advisory stands before. */
  predicate FoundBefore(env: Env, findings: seq<Finding>, i: nat)
    requires i < |findings|
  {
    exists j :: 0 <= j < i && Identified(env, findings[j]) && SameFinding(env, findings[j], findings[i])
  }

  // --------------------------------------------------------------- the gate reads so

  lemma FindingsReadPlainly(env: Env, f: Finding, g: Finding)
    ensures Relevant(env, f) <==> Serious(env, f)
    ensures Keyed(env, f) <==> Identified(env, f)
    ensures FindingKey(env, f) == FindingKey(env, g) <==> SameFinding(env, f, g)
  {
  }

  lemma ExceptionsReadPlainly(env: Env, a: Item, b: Item)
    ensures Usable(env, a) <==> Proper(env, a)
    ensures ExceptionKey(env, a) == ExceptionKey(env, b) <==> SameException(env, a, b)
  {
    CompleteIff(a);
  }

  lemma CompleteIff(exc: Item)
    ensures Complete(exc) <==> forall field :: field in REQUIRED_FIELDS ==> Text(Get(exc, field)) != ""
  {
    assert "package" in REQUIRED_FIELDS && "advisory" in REQUIRED_FIELDS && "severity" in REQUIRED_FIELDS;
    assert "mitigation" in REQUIRED_FIELDS && "expires_on" in REQUIRED_FIELDS;
  }

  lemma PermitsReadPlainly(env: Env, exc: Item, f: Finding)
    ensures Permits(env, exc, f) <==> Allows(env, exc, f)
    ensures ExceptionKey(env, exc) == FindingKey(env, f) <==> Concerns(env, exc, f)
  {
  }

  // --------------------------------------------------------------------- the verdict

  /** Every exception is proper, and no two are for one package and advisory. */
  ghost predicate AllProper(env: Env, excs: seq<Item>) {
    && (forall i :: 0 <= i < |excs| ==> Proper(env, excs[i]))
    && (forall i, j :: 0 <= i < j < |excs| ==> !SameException(env, excs[i], excs[j]))
  }

  /** Every serious finding has an advisory and, unless it was found before, an exception that allows it. */
  ghost predicate AllAllowed(env: Env, excs: seq<Item>, findings: seq<Finding>) {
    forall i :: 0 <= i < |findings| && Serious(env, findings[i]) ==>
      && AdvisoryOf(env, findings[i].advisory) != ""
      && (FoundBefore(env, findings, i) || exists e :: e in excs && Allows(env, e, findings[i]))
  }

  lemma OrderlyIsPlain(env: Env, excs: seq<Item>)
    ensures Orderly(env, excs) <==> AllProper(env, excs)
  {
    forall i, j | 0 <= i < |excs| && 0 <= j < |excs|
      ensures Usable(env, excs[i]) <==> Proper(env, excs[i])
      ensures ExceptionKey(env, excs[i]) == ExceptionKey(env, excs[j]) <==> SameException(env, excs[i], excs[j])
    {
      ExceptionsReadPlainly(env, excs[i], excs[j]);
    }
  }

  lemma AcceptableIsPlain(env: Env, excs: seq<Item>, f: Finding)
    ensures Acceptable(env, excs, f) <==> exists e :: e in excs && Allows(env, e, f)
  {
    if i :| 0 <= i < |excs| && Permits(env, excs[i], f) {
      PermitsReadPlainly(env, excs[i], f);
      assert excs[i] in excs;
    }
    if e :| e in excs && Allows(env, e, f) {
      var i :| 0 <= i < |excs| && excs[i] == e;
      PermitsReadPlainly(env, excs[i], f);
    }
  }

  lemma FirstIsPlain(env: Env, findings: seq<Finding>, i: nat)
    requires i < |findings| && Identified(env, findings[i])
    ensures IsFirst(env, findings, i) <==> !FoundBefore(env, findings, i)
  {
    forall j | 0 <= j <= i
      ensures Keyed(env, findings[j]) <==> Identified(env, findings[j])
      ensures FindingKey(env, findings[j]) == FindingKey(env, findings[i])
         <==> SameFinding(env, findings[j], findings[i])
    {
      FindingsReadPlainly(env, findings[j], findings[i]);
    }
  }

  lemma CoveredIsPlain(env: Env, excs: seq<Item>, findings: seq<Finding>)
    ensures Covered(env, excs, findings) <==> AllAllowed(env, excs, findings)
  {
    forall i | 0 <= i < |findings|
      ensures Relevant(env, findings[i]) <==> Serious(env, findings[i])
      ensures Keyed(env, findings[i]) <==> Identified(env, findings[i])
      ensures Identified(env, findings[i]) ==>
        (IsFirst(env, findings, i) ==> Acceptable(env, excs, findings[i])) ==
        (FoundBefore(env, findings, i) || exists e :: e in excs && Allows(env, e, findings[i]))
    {
      FindingsReadPlainly(env, findings[i], findings[i]);
      AcceptableIsPlain(env, excs, findings[i]);
      if Identified(env, findings[i]) {
        FirstIsPlain(env, findings, i);
      }
    }
  }

  /** The gate exits with 0 exactly if the file is read, every exception is proper and alone for its package and
      advisory, and every serious finding has an advisory and, unless it was found before, an exception that is
      for it, for its severity or any, and in force. */
  lemma GateExitsCleanIff(env: Env, text: string, findings: seq<Finding>)
    ensures GateOf(env, text, findings).Success? <==> ParseText(text).Success?
    ensures GateOf(env, text, findings).Success? ==>
      && GateOf(env, text, findings).value.0 in {0, 1}
      && (GateOf(env, text, findings).value.0 == 0 <==> GateOf(env, text, findings).value.1 == [])
      && (GateOf(env, text, findings).value.0 == 0 <==>
            AllProper(env, ParseText(text).value) && AllAllowed(env, ParseText(text).value, findings))
  {
    if ParseText(text).Success? {
      var excs := ParseText(text).value;
      VerdictIff(env, excs, findings);
      OrderlyIsPlain(env, excs);
      CoveredIsPlain(env, excs, findings);
    }
  }

  // ---------------------------------------------------------------- what makes it fail

  /** Serious findings need an exception: if none is for the package and advisory of one, the gate exits with 1. */
  lemma UncoveredFindingFails(env: Env, text: string, findings: seq<Finding>, f: Finding)
    requires ParseText(text).Success? && f in findings && Serious(env, f)
    requires forall e :: e in ParseText(text).value ==> !Concerns(env, e, f)
    ensures GateOf(env, text, findings).value.0 == 1
  {
    GateExitsCleanIff(env, text, findings);
    NoneAllowsIt(env, ParseText(text).value, findings, f);
  }

  lemma NoneAllowsIt(env: Env, excs: seq<Item>, findings: seq<Finding>, f: Finding)
    requires f in findings && Serious(env, f) && forall e :: e in excs ==> !Concerns(env, e, f)
    ensures !AllAllowed(env, excs, findings)
  {
    var i :| 0 <= i < |findings| && findings[i] == f;
    if Identified(env, f) {
      var k := FirstFound(env, findings, i);
      assert forall e :: e in excs ==> !Allows(env, e, findings[k]);
    }
  }

  /** Of the findings of one package and advisory, the first. */
  lemma {:induction false} FirstFound(env: Env, findings: seq<Finding>, i: nat) returns (k: nat)
    requires i < |findings| && Identified(env, findings[i])
    ensures k <= i && Identified(env, findings[k]) && SameFinding(env, findings[k], findings[i])
    ensures !FoundBefore(env, findings, k)
    decreases i
  {
    k := i;
    if FoundBefore(env, findings, i) {
      var j :| 0 <= j < i && Identified(env, findings[j]) && SameFinding(env, findings[j], findings[i]);
      k := FirstFound(env, findings, j);
    }
  }

  /** Serious findings need an advisory. */
  lemma NamelessAdvisoryFails(env: Env, text: string, findings: seq<Finding>, f: Finding)
    requires ParseText(text).Success? && f in findings && Serious(env, f) && AdvisoryOf(env, f.advisory) == ""
    ensures GateOf(env, text, findings).value.0 == 1
  {
    GateExitsCleanIff(env, text, findings);
    var i :| 0 <= i < |findings| && findings[i] == f;
  }

  /** An exception without its package, advisory, severity, mitigation or date makes the gate exit with 1,
      whatever was found. */
  lemma MissingFieldFails(env: Env, text: string, findings: seq<Finding>, exc: Item, field: string)
    requires ParseText(text).Success? && exc in ParseText(text).value && !Filled(exc, field)
    requires field in {"package", "advisory", "severity", "mitigation", "expires_on"}
    ensures GateOf(env, text, findings).value.0 == 1
  {
    GateExitsCleanIff(env, text, findings);
    var i :| 0 <= i < |ParseText(text).value| && ParseText(text).value[i] == exc;
  }

  // ------------------------------------------------------------- what does not matter

  /** The serious findings, in order. */
  function SeriousOnes(env: Env, findings: seq<Finding>): seq<Finding> {
    if findings == [] then []
    else
      var n := |findings| - 1;
      SeriousOnes(env, findings[..n]) + if Serious(env, findings[n]) then [findings[n]] else []
  }

  lemma {:induction false} SeriousOnesMembers(env: Env, findings: seq<Finding>, f: Finding)
    ensures f in SeriousOnes(env, findings) <==> f in findings && Serious(env, f)
  {
    if findings != [] {
      SeriousOnesMembers(env, findings[..|findings| - 1], f);
      assert findings == findings[..|findings| - 1] + [findings[|findings| - 1]];
    }
  }

  lemma SameKeysMet(env: Env, findings: seq<Finding>, key: Key)
    ensures var ones := SeriousOnes(env, findings);
      MetBefore(env, ones, |ones|, key) <==> MetBefore(env, findings, |findings|, key)
  {
    var ones := SeriousOnes(env, findings);
    if j :| 0 <= j < |findings| && About(env, findings[j], key) {
      FindingsReadPlainly(env, findings[j], findings[j]);
      SeriousOnesMembers(env, findings, findings[j]);
      var k :| 0 <= k < |ones| && ones[k] == findings[j];
    }
    if k :| 0 <= k < |ones| && About(env, ones[k], key) {
      SeriousOnesMembers(env, findings, ones[k]);
      var j :| 0 <= j < |findings| && findings[j] == ones[k];
    }
  }

  /** The verdict on a finding behind others depends only on whether its key was met among them. */
  lemma LastVerdict(env: Env, es: seq<Entry>, a: seq<Finding>, b: seq<Finding>, f: Finding)
    requires MetBefore(env, a, |a|, FindingKey(env, f)) <==> MetBefore(env, b, |b|, FindingKey(env, f))
    ensures Verdict(env, es, a + [f], |a|) == Verdict(env, es, b + [f], |b|)
  {
    SameBefore(env, a + [f], a, |a|, FindingKey(env, f));
    SameBefore(env, b + [f], b, |b|, FindingKey(env, f));
  }

  lemma {:induction false} SeriousOnesDecide(env: Env, es: seq<Entry>, findings: seq<Finding>)
    ensures var ones := SeriousOnes(env, findings);
      Verdicts(env, es, findings, |findings|) == Verdicts(env, es, ones, |ones|)
  {
    if findings != [] {
      var n := |findings| - 1;
      var before, f := findings[..n], findings[n];
      var ones := SeriousOnes(env, before);
      SeriousOnesDecide(env, es, before);
      assert findings == before + [f];
      SameVerdicts(env, es, before, [f], n);
      FindingsReadPlainly(env, f, f);
      if Serious(env, f) {
        SameVerdicts(env, es, ones, [f], |ones|);
        SameKeysMet(env, before, FindingKey(env, f));
        LastVerdict(env, es, before, ones, f);
      } else {
        PlusClean(Verdicts(env, es, before, n));
        assert Verdict(env, es, findings, n) == CLEAN && ones + [] == ones;
      }
    }
  }

  /** Findings of any other severity, and findings without a name, change neither the exit code nor a single
      complaint. */
  lemma OtherFindingsChangeNothing(env: Env, text: string, findings: seq<Finding>)
    ensures GateOf(env, text, findings) == GateOf(env, text, SeriousOnes(env, findings))
  {
    if ParseText(text).Success? {
      SeriousOnesDecide(env, Entries(env, ParseText(text).value), findings);
    }
  }

  /** The same package, and the same advisory and severity up to case, blanks around them aside; the same date. */
  predicate AlikeExceptions(env: Env, a: Item, b: Item) {
    && (Filled(a, "package") <==> Filled(b, "package")) && (Filled(a, "advisory") <==> Filled(b, "advisory"))
    && (Filled(a, "severity") <==> Filled(b, "severity")) && (Filled(a, "mitigation") <==> Filled(b, "mitigation"))
    && Get(a, "expires_on") == Get(b, "expires_on")
    && SameException(env, a, b) && SeverityOf(env, Get(a, "severity")) == SeverityOf(env, Get(b, "severity"))
  }

  predicate AlikeFindings(env: Env, f: Finding, g: Finding) {
    && (f.name.Some? && f.name.value != "" <==> g.name.Some? && g.name.value != "")
    && SameFinding(env, f, g) && SeverityOf(env, f.severity) == SeverityOf(env, g.severity)
  }

  lemma AlikeAllowed(env: Env, excs: seq<Item>, excs': seq<Item>, findings: seq<Finding>, findings': seq<Finding>)
    requires |excs| == |excs'| && |findings| == |findings'|
    requires forall i :: 0 <= i < |excs| ==> AlikeExceptions(env, excs[i], excs'[i])
    requires forall i :: 0 <= i < |findings| ==> AlikeFindings(env, findings[i], findings'[i])
    requires AllAllowed(env, excs, findings)
    ensures AllAllowed(env, excs', findings')
  {
    forall i | 0 <= i < |findings'| && Serious(env, findings'[i])
      ensures AdvisoryOf(env, findings'[i].advisory) != ""
      ensures FoundBefore(env, findings', i) || exists e :: e in excs' && Allows(env, e, findings'[i])
    {
      assert AlikeFindings(env, findings[i], findings'[i]) && Serious(env, findings[i]);
      if FoundBefore(env, findings, i) {
        AlikeFoundBefore(env, findings, findings', i);
      } else {
        AlikeAllows(env, excs, excs', findings[i], findings'[i]);
      }
    }
  }

  lemma AlikeFoundBefore(env: Env, findings: seq<Finding>, findings': seq<Finding>, i: nat)
    requires i < |findings| == |findings'| && FoundBefore(env, findings, i)
    requires forall j :: 0 <= j < |findings| ==> AlikeFindings(env, findings[j], findings'[j])
    ensures FoundBefore(env, findings', i)
  {
    var j :| 0 <= j < i && Identified(env, findings[j]) && SameFinding(env, findings[j], findings[i]);
    assert AlikeFindings(env, findings[j], findings'[j]) && AlikeFindings(env, findings[i], findings'[i]);
    assert Identified(env, findings'[j]) && SameFinding(env, findings'[j], findings'[i]);
  }

  lemma AlikeAllows(env: Env, excs: seq<Item>, excs': seq<Item>, f: Finding, f': Finding)
    requires |excs| == |excs'| && forall i :: 0 <= i < |excs| ==> AlikeExceptions(env, excs[i], excs'[i])
    requires AlikeFindings(env, f, f') && exists e :: e in excs && Allows(env, e, f)
    ensures exists e :: e in excs' && Allows(env, e, f')
  {
    var e :| e in excs && Allows(env, e, f);
    var k :| 0 <= k < |excs| && excs[k] == e;
    assert AlikeExceptions(env, excs[k], excs'[k]);
    AllowsAlike(env, e, excs'[k], f, f');
    assert excs'[k] in excs';
  }

  lemma AllowsAlike(env: Env, a: Item, b: Item, f: Finding, g: Finding)
    requires AlikeExceptions(env, a, b) && AlikeFindings(env, f, g) && Allows(env, a, f)
    ensures Allows(env, b, g)
  {
    assert DateOf(env, a) == DateOf(env, b);
  }

  lemma AlikeProper(env: Env, excs: seq<Item>, excs': seq<Item>)
    requires |excs| == |excs'| && forall i :: 0 <= i < |excs| ==> AlikeExceptions(env, excs[i], excs'[i])
    requires AllProper(env, excs)
    ensures AllProper(env, excs')
  {
  }

  /** The verdict is the same for values that agree after stripping and, severities and advisories, after
      lowering: neither the case nor blanks around them matter. */
  lemma CaseAndBlanksDoNotMatter(env: Env, text: string, text': string, findings: seq<Finding>, findings': seq<Finding>)
    requires ParseText(text).Success? && ParseText(text').Success?
    requires |ParseText(text).value| == |ParseText(text').value| && |findings| == |findings'|
    requires forall i :: 0 <= i < |ParseText(text).value| ==>
      AlikeExceptions(env, ParseText(text).value[i], ParseText(text').value[i])
    requires forall i :: 0 <= i < |findings| ==> AlikeFindings(env, findings[i], findings'[i])
    ensures GateOf(env, text, findings).value.0 == GateOf(env, text', findings').value.0
  {
    var excs, excs' := ParseText(text).value, ParseText(text').value;
    GateExitsCleanIff(env, text, findings);
    GateExitsCleanIff(env, text', findings');
    if GateOf(env, text, findings).value.0 == 0 {
      AlikeProper(env, excs, excs');
      AlikeAllowed(env, excs, excs', findings, findings');
    }
    if GateOf(env, text', findings').value.0 == 0 {
      AlikeProper(env, excs', excs);
      AlikeAllowed(env, excs', excs, findings', findings);
    }
  }
}
