/** What the gate complains about, complaint by complaint, told by the texts of the file and of the audit alone, and
    the order the complaints come in. */
module GateComplaints {
  import opened Sequences
  import opened ExceptionsFile
  import opened AuditGate
  import opened AuditLaws
  import opened GateLaws

  // ------------------------------------------------------------- what is complained about

  /** The complaint is about the exception at `i`. */
  ghost predicate SaidOfException(env: Env, excs: seq<Item>, i: nat, c: Complaint)
    requires i < |excs|
  {
    var exc := excs[i];
    match c
    case MissingFields(fields, owner) =>
      && !Complete(exc) && owner == Get(exc, "package")
      && forall field :: field in fields <==>
        !Filled(exc, field) && field in {"package", "advisory", "severity", "mitigation", "expires_on"}
    case BadDate(package) => Complete(exc) && DateOf(env, exc).None? && Get(exc, "package") == Some(package)
    case BlankKey => Complete(exc) && DateOf(env, exc).Some? && !Proper(env, exc)
    case Duplicate(package, advisory) =>
      && Proper(env, exc) && package == PackageOf(env, Get(exc, "package")) && Get(exc, "advisory") == Some(advisory)
      && exists j :: 0 <= j < i && Proper(env, excs[j]) && SameException(env, excs[j], exc)
    case _ => false
  }

  /** The first serious finding of its package and advisory. */
  predicate FirstOfItsKind(env: Env, findings: seq<Finding>, i: nat)
    requires i < |findings|
  {
    Identified(env, findings[i]) && !FoundBefore(env, findings, i)
  }

  /** The first proper exception for the finding's package and advisory. */
  predicate GrantedBy(env: Env, excs: seq<Item>, k: nat, f: Finding)
    requires k < |excs|
  {
    && Proper(env, excs[k]) && Concerns(env, excs[k], f)
    && forall j :: 0 <= j < k ==> !(Proper(env, excs[j]) && Concerns(env, excs[j], f))
  }

  predicate Ungranted(env: Env, excs: seq<Item>, f: Finding) {
    forall k :: 0 <= k < |excs| ==> !(Proper(env, excs[k]) && Concerns(env, excs[k], f))
  }

  /** The exception names another severity. */
  predicate Disagrees(env: Env, exc: Item, f: Finding) {
    SeverityOf(env, Get(exc, "severity")) != "" && SeverityOf(env, Get(exc, "severity")) != SeverityOf(env, f.severity)
  }

  predicate Outdated(env: Env, exc: Item) {
    DateOf(env, exc).Some? && DateOf(env, exc).value < env.today
  }

  /** The complaint is about the finding at `i`. */
  predicate SaidOfFinding(env: Env, excs: seq<Item>, findings: seq<Finding>, i: nat, c: Complaint)
    requires i < |findings|
  {
    var f := findings[i];
    match c
    case NoAdvisory(name, severity) =>
      && Serious(env, f) && AdvisoryOf(env, f.advisory) == ""
      && f.name == Some(name) && severity == SeverityOf(env, f.severity)
    case Uncovered(name, severity, advisory, title) =>
      && FirstOfItsKind(env, findings, i) && Ungranted(env, excs, f)
      && f.name == Some(name) && severity == SeverityOf(env, f.severity) && f.advisory == Some(advisory)
      && title == f.title
    case Mismatch(name, advisory, expected, got) =>
      && FirstOfItsKind(env, findings, i)
      && (exists k :: 0 <= k < |excs| && GrantedBy(env, excs, k, f) && Disagrees(env, excs[k], f)
                      && got == SeverityOf(env, Get(excs[k], "severity")))
      && f.name == Some(name) && f.advisory == Some(advisory) && expected == SeverityOf(env, f.severity)
    case Expired(name, severity, advisory, expires) =>
      && FirstOfItsKind(env, findings, i)
      && (exists k :: 0 <= k < |excs| && GrantedBy(env, excs, k, f) && Outdated(env, excs[k])
                      && Some(expires) == DateOf(env, excs[k]))
      && f.name == Some(name) && f.advisory == Some(advisory) && severity == SeverityOf(env, f.severity)
    case _ => false
  }

  // ------------------------------------------------------------------------ one exception

  lemma EntryReads(env: Env, exc: Item)
    ensures Proper(env, exc) ==>
      Read(env, exc) == Granting((PackageOf(env, Get(exc, "package")), AdvisoryOf(env, Get(exc, "advisory"))),
                                 Grant(SeverityOf(env, Get(exc, "severity")), DateOf(env, exc).value), exc["advisory"])
    ensures !Proper(env, exc) ==> Read(env, exc).Bad?
  {
    ReadsIffUsable(env, exc);
    ExceptionsReadPlainly(env, exc, exc);
  }

  lemma EntryIsBad(env: Env, excs: seq<Item>, i: nat, c: Complaint)
    requires i < |excs| && !Proper(env, excs[i])
    ensures Read(env, excs[i]) == Bad(c) <==> SaidOfException(env, excs, i, c)
  {
    var exc := excs[i];
    CompleteIff(exc);
    AbsentAre(exc);
    ReadsIffUsable(env, exc);
    ExceptionsReadPlainly(env, exc, exc);
  }

  lemma AbsentAre(exc: Item)
    ensures forall field :: field in Absent(exc) <==>
      !Filled(exc, field) && field in {"package", "advisory", "severity", "mitigation", "expires_on"}
    ensures Complete(exc) <==> Absent(exc) == {}
  {
    CompleteIff(exc);
    if Absent(exc) != {} {
      var field :| field in Absent(exc);
      assert Text(Get(exc, field)) == "" && field in REQUIRED_FIELDS;
    }
  }

  lemma ForReads(env: Env, exc: Item, f: Finding)
    requires Identified(env, f)
    ensures For(Read(env, exc), FindingKey(env, f)) <==> Proper(env, exc) && Concerns(env, exc, f)
  {
    EntryReads(env, exc);
  }

  lemma TakenReads(env: Env, excs: seq<Item>, i: nat)
    requires i < |excs| && Proper(env, excs[i])
    ensures TakenBefore(Entries(env, excs), i, ExceptionKey(env, excs[i]))
       <==> exists j :: 0 <= j < i && Proper(env, excs[j]) && SameException(env, excs[j], excs[i])
  {
    var es := Entries(env, excs);
    forall j | 0 <= j < i
      ensures For(es[j], ExceptionKey(env, excs[i])) <==> Proper(env, excs[j]) && SameException(env, excs[j], excs[i])
    {
      EntryReads(env, excs[j]);
      ExceptionsReadPlainly(env, excs[j], excs[i]);
    }
  }

  lemma FlawSays(env: Env, excs: seq<Item>, i: nat, c: Complaint)
    requires i < |excs|
    ensures c in Flaw(Entries(env, excs), i) <==> SaidOfException(env, excs, i, c)
  {
    EntryReads(env, excs[i]);
    if Proper(env, excs[i]) {
      TakenReads(env, excs, i);
    } else {
      EntryIsBad(env, excs, i, c);
    }
  }

  /** The complaint is about one of the first `n` exceptions. */
  ghost predicate SaidBefore(env: Env, excs: seq<Item>, n: nat, c: Complaint)
    requires n <= |excs|
  {
    n > 0 && (SaidBefore(env, excs, n - 1, c) || SaidOfException(env, excs, n - 1, c))
  }

  lemma {:induction false} SaidBeforeIff(env: Env, excs: seq<Item>, n: nat, c: Complaint)
    requires n <= |excs|
    ensures SaidBefore(env, excs, n, c) <==> exists i :: 0 <= i < n && SaidOfException(env, excs, i, c)
  {
    if n > 0 {
      SaidBeforeIff(env, excs, n - 1, c);
    }
  }

  lemma {:induction false} FlawsSay(env: Env, excs: seq<Item>, n: nat, c: Complaint)
    requires n <= |excs|
    ensures c in Flaws(Entries(env, excs), n) <==> SaidBefore(env, excs, n, c)
  {
    if n > 0 {
      FlawsSay(env, excs, n - 1, c);
      FlawsStepSays(env, excs, n, c);
    }
  }

  lemma FlawsStepSays(env: Env, excs: seq<Item>, n: nat, c: Complaint)
    requires 0 < n <= |excs|
    ensures c in Flaws(Entries(env, excs), n)
       <==> c in Flaws(Entries(env, excs), n - 1) || SaidOfException(env, excs, n - 1, c)
  {
    FlawSays(env, excs, n - 1, c);
  }

  // -------------------------------------------------------------------------- one finding

  predicate Tells(r: Report, c: Complaint) {
    c in r.errors || c in r.missing || c in r.expired
  }

  /** What covers a key: the grant of the first entry for it. */
  lemma {:induction false} CoverIsFirst(es: seq<Entry>, key: Key)
    ensures Cover(es, key) == None <==> forall k :: 0 <= k < |es| ==> !For(es[k], key)
    ensures forall k :: 0 <= k < |es| && For(es[k], key) && (forall j :: 0 <= j < k ==> !For(es[j], key)) ==>
      Cover(es, key) == Some(es[k].grant)
  {
    if es != [] {
      var n := |es| - 1;
      CoverIsFirst(es[..n], key);
      assert forall k :: 0 <= k < n ==> es[..n][k] == es[k];
    }
  }

  lemma EntriesRead(env: Env, excs: seq<Item>, f: Finding, k: nat)
    requires k < |excs| && Identified(env, f)
    ensures For(Entries(env, excs)[k], FindingKey(env, f)) <==> Proper(env, excs[k]) && Concerns(env, excs[k], f)
    ensures Proper(env, excs[k]) ==>
      Entries(env, excs)[k].grant == Grant(SeverityOf(env, Get(excs[k], "severity")), DateOf(env, excs[k]).value)
  {
    ForReads(env, excs[k], f);
    EntryReads(env, excs[k]);
  }

  /** Without an exception for the finding nothing covers its key. */
  lemma NoCover(env: Env, excs: seq<Item>, f: Finding)
    requires Identified(env, f) && Ungranted(env, excs, f)
    ensures Cover(Entries(env, excs), FindingKey(env, f)) == None
  {
    CoverIsFirst(Entries(env, excs), FindingKey(env, f));
    forall k | 0 <= k < |excs|
      ensures !For(Entries(env, excs)[k], FindingKey(env, f))
    {
      EntriesRead(env, excs, f, k);
    }
  }

  /** With one, it is the grant of the first. */
  lemma FirstCovers(env: Env, excs: seq<Item>, f: Finding, k: nat)
    requires Identified(env, f) && k < |excs| && GrantedBy(env, excs, k, f)
    ensures Cover(Entries(env, excs), FindingKey(env, f))
         == Some(Grant(SeverityOf(env, Get(excs[k], "severity")), DateOf(env, excs[k]).value))
  {
    CoverIsFirst(Entries(env, excs), FindingKey(env, f));
    forall j | 0 <= j <= k
      ensures For(Entries(env, excs)[j], FindingKey(env, f)) <==> j == k
    {
      EntriesRead(env, excs, f, j);
    }
    EntriesRead(env, excs, f, k);
  }

  /** The first of the exceptions for the finding. */
  lemma {:induction false} SomeGrant(env: Env, excs: seq<Item>, f: Finding, n: nat) returns (k: nat)
    requires n <= |excs| && exists j :: 0 <= j < n && Proper(env, excs[j]) && Concerns(env, excs[j], f)
    ensures k < n && GrantedBy(env, excs, k, f)
  {
    if j :| 0 <= j < n - 1 && Proper(env, excs[j]) && Concerns(env, excs[j], f) {
      k := SomeGrant(env, excs, f, n - 1);
    } else {
      k := n - 1;
    }
  }

  lemma JudgeSays(env: Env, excs: seq<Item>, findings: seq<Finding>, i: nat, c: Complaint)
    requires i < |findings| && FirstOfItsKind(env, findings, i)
    ensures Tells(Judge(env, findings[i], Cover(Entries(env, excs), FindingKey(env, findings[i]))), c)
       <==> SaidOfFinding(env, excs, findings, i, c)
  {
    var f := findings[i];
    if Ungranted(env, excs, f) {
      NoCover(env, excs, f);
    } else {
      var k := SomeGrant(env, excs, f, |excs|);
      FirstCovers(env, excs, f, k);
      OneGrant(env, excs, f, k);
      GrantSays(env, excs, findings, i, k, c);
    }
  }

  lemma OneGrant(env: Env, excs: seq<Item>, f: Finding, k: nat)
    requires k < |excs| && GrantedBy(env, excs, k, f)
    ensures forall j :: 0 <= j < |excs| && GrantedBy(env, excs, j, f) ==> j == k
  {
  }

  lemma GrantSays(env: Env, excs: seq<Item>, findings: seq<Finding>, i: nat, k: nat, c: Complaint)
    requires i < |findings| && FirstOfItsKind(env, findings, i) && k < |excs| && GrantedBy(env, excs, k, findings[i])
    requires forall j :: 0 <= j < |excs| && GrantedBy(env, excs, j, findings[i]) ==> j == k
    ensures var g := Grant(SeverityOf(env, Get(excs[k], "severity")), DateOf(env, excs[k]).value);
      Tells(Judge(env, findings[i], Some(g)), c) <==> SaidOfFinding(env, excs, findings, i, c)
  {
  }

  lemma VerdictSays(env: Env, excs: seq<Item>, findings: seq<Finding>, i: nat, c: Complaint)
    requires i < |findings|
    ensures Tells(Verdict(env, Entries(env, excs), findings, i), c) <==> SaidOfFinding(env, excs, findings, i, c)
  {
    var f := findings[i];
    FindingsReadPlainly(env, f, f);
    if Identified(env, f) {
      FirstIsPlain(env, findings, i);
      if FirstOfItsKind(env, findings, i) {
        JudgeSays(env, excs, findings, i, c);
      }
    }
  }

  // --------------------------------------------------------------------------- all of it

  predicate SomeTrue(bs: seq<bool>, n: nat)
    requires n <= |bs|
  {
    exists i :: 0 <= i < n && bs[i]
  }

  lemma PlusHasBoth(a: Report, b: Report, c: Complaint)
    ensures Tells(a.Plus(b), c) <==> Tells(a, c) || Tells(b, c)
  {
  }

  /** The verdicts together tell what one of them tells. */
  lemma {:induction false} VerdictsTell(env: Env, es: seq<Entry>, findings: seq<Finding>, n: nat, c: Complaint,
                                        said: seq<bool>)
    requires n <= |findings| == |said|
    requires forall i :: 0 <= i < |said| ==> (said[i] <==> Tells(Verdict(env, es, findings, i), c))
    ensures Tells(Verdicts(env, es, findings, n), c) <==> SomeTrue(said, n)
  {
    if n > 0 {
      VerdictsTell(env, es, findings, n - 1, c, said);
      VerdictsGrow(env, es, findings, n, c);
      OneMoreTrue(said, n);
      assert said[n-1] <==> Tells(Verdict(env, es, findings, n - 1), c);
    }
  }

  lemma OneMoreTrue(bs: seq<bool>, n: nat)
    requires 0 < n <= |bs|
    ensures SomeTrue(bs, n) <==> SomeTrue(bs, n - 1) || bs[n-1]
  {
  }

  lemma VerdictsSay(env: Env, excs: seq<Item>, findings: seq<Finding>, c: Complaint)
    ensures Tells(Verdicts(env, Entries(env, excs), findings, |findings|), c)
       <==> exists i :: 0 <= i < |findings| && SaidOfFinding(env, excs, findings, i, c)
  {
    var said := seq(|findings|, i requires 0 <= i < |findings| => SaidOfFinding(env, excs, findings, i, c));
    forall i | 0 <= i < |said|
      ensures said[i] <==> Tells(Verdict(env, Entries(env, excs), findings, i), c)
    {
      VerdictSays(env, excs, findings, i, c);
    }
    VerdictsTell(env, Entries(env, excs), findings, |findings|, c, said);
    assert forall i :: 0 <= i < |findings| ==> said[i] == SaidOfFinding(env, excs, findings, i, c);
  }

  lemma VerdictsGrow(env: Env, es: seq<Entry>, findings: seq<Finding>, n: nat, c: Complaint)
    requires 0 < n <= |findings|
    ensures Tells(Verdicts(env, es, findings, n), c)
       <==> Tells(Verdicts(env, es, findings, n - 1), c) || Tells(Verdict(env, es, findings, n - 1), c)
  {
    PlusHasBoth(Verdicts(env, es, findings, n - 1), Verdict(env, es, findings, n - 1), c);
  }

  /** Which kind a complaint is of: about an exception, a finding, a finding without exception, an expired one. */
  predicate OfException(c: Complaint) {
    c.MissingFields? || c.BadDate? || c.BlankKey? || c.Duplicate?
  }

  predicate OfFinding(c: Complaint) {
    c.NoAdvisory? || c.Mismatch?
  }

  lemma FlawKinds(env: Env, excs: seq<Item>, n: nat)
    requires n <= |excs|
    ensures forall c :: c in Flaws(Entries(env, excs), n) ==> OfException(c)
  {
    forall c | c in Flaws(Entries(env, excs), n)
      ensures OfException(c)
    {
      FlawsSay(env, excs, n, c);
      SaidBeforeIff(env, excs, n, c);
    }
  }

  ghost predicate Sorted(r: Report) {
    && (forall c :: c in r.errors ==> OfFinding(c)) && (forall c :: c in r.missing ==> c.Uncovered?)
    && (forall c :: c in r.expired ==> c.Expired?)
  }

  lemma {:induction false} VerdictKinds(env: Env, es: seq<Entry>, findings: seq<Finding>, n: nat)
    requires n <= |findings|
    ensures Sorted(Verdicts(env, es, findings, n))
  {
    if n > 0 {
      VerdictKinds(env, es, findings, n - 1);
      OneKinds(env, es, findings, n - 1);
      PlusSorted(Verdicts(env, es, findings, n - 1), Verdict(env, es, findings, n - 1));
    }
  }

  lemma OneKinds(env: Env, es: seq<Entry>, findings: seq<Finding>, i: nat)
    requires i < |findings|
    ensures Sorted(Verdict(env, es, findings, i))
  {
  }

  lemma PlusSorted(a: Report, b: Report)
    requires Sorted(a) && Sorted(b)
    ensures Sorted(a.Plus(b))
  {
  }

  /** Four lists: about exceptions, about findings, findings without an exception, expired exceptions. */
  ghost predicate FourKinds(a: seq<Complaint>, b: seq<Complaint>, m: seq<Complaint>, x: seq<Complaint>) {
    && (forall c :: c in a ==> OfException(c)) && (forall c :: c in b ==> OfFinding(c))
    && (forall c :: c in m ==> c.Uncovered?) && (forall c :: c in x ==> c.Expired?)
  }

  /** The lists one after the other, a header before each of the last two unless it is empty. */
  function Headed(a: seq<Complaint>, b: seq<Complaint>, m: seq<Complaint>, x: seq<Complaint>): seq<Complaint> {
    a + b + (if m == [] then [] else [UncoveredHeader] + m) + (if x == [] then [] else [ExpiredHeader] + x)
  }

  /** The complaints come in four lists: what is wrong with exceptions, with findings, which findings have no
      exception, and which exceptions have expired; the last two stand under a header, if there are any. */
  lemma ComplaintsComeInOrder(env: Env, excs: seq<Item>, findings: seq<Finding>)
    returns (a: seq<Complaint>, b: seq<Complaint>, m: seq<Complaint>, x: seq<Complaint>)
    ensures Complaints(env, excs, findings) == Headed(a, b, m, x) && FourKinds(a, b, m, x)
    ensures a == Flaws(Entries(env, excs), |excs|)
    ensures Report(b, m, x) == Verdicts(env, Entries(env, excs), findings, |findings|)
  {
    var es := Entries(env, excs);
    var r := Verdicts(env, es, findings, |findings|);
    a, b, m, x := Flaws(es, |excs|), r.errors, r.missing, r.expired;
    FlawKinds(env, excs, |excs|);
    VerdictKinds(env, es, findings, |findings|);
  }

  lemma HeadedHas(a: seq<Complaint>, b: seq<Complaint>, m: seq<Complaint>, x: seq<Complaint>, c: Complaint)
    requires FourKinds(a, b, m, x)
    ensures c.UncoveredHeader? ==> (c in Headed(a, b, m, x) <==> m != [])
    ensures c.ExpiredHeader? ==> (c in Headed(a, b, m, x) <==> x != [])
    ensures !c.UncoveredHeader? && !c.ExpiredHeader? ==>
      (c in Headed(a, b, m, x) <==> c in a || Tells(Report(b, m, x), c))
  {
  }

  /** A complaint other than a header is made exactly if it is about some exception or some finding. */
  lemma ComplaintIsMadeIff(env: Env, excs: seq<Item>, findings: seq<Finding>, c: Complaint)
    requires c != UncoveredHeader && c != ExpiredHeader
    ensures c in Complaints(env, excs, findings) <==>
      || (exists i :: 0 <= i < |excs| && SaidOfException(env, excs, i, c))
      || (exists i :: 0 <= i < |findings| && SaidOfFinding(env, excs, findings, i, c))
  {
    var a, b, m, x := ComplaintsComeInOrder(env, excs, findings);
    HeadedHas(a, b, m, x, c);
    FlawsSay(env, excs, |excs|, c);
    SaidBeforeIff(env, excs, |excs|, c);
    VerdictsSay(env, excs, findings, c);
  }

  // ---------------------------------------------------------------- order within the lists

  predicate Continues(a: Report, b: Report) {
    a.errors <= b.errors && a.missing <= b.missing && a.expired <= b.expired
  }

  lemma {:induction false} VerdictsContinue(env: Env, es: seq<Entry>, findings: seq<Finding>, m: nat, n: nat)
    requires m <= n <= |findings|
    ensures Continues(Verdicts(env, es, findings, m), Verdicts(env, es, findings, n))
  {
    if m < n {
      VerdictsContinue(env, es, findings, m, n - 1);
    }
  }

  lemma {:induction false} FlawsContinue(env: Env, excs: seq<Item>, more: seq<Item>, n: nat)
    requires n <= |excs|
    ensures Flaws(Entries(env, excs + more), n) == Flaws(Entries(env, excs), n)
  {
    if n > 0 {
      FlawsContinue(env, excs, more, n - 1);
      SameFlaw(Entries(env, excs), Entries(env, excs + more), n - 1);
    }
  }

  lemma SameFlaw(a: seq<Entry>, b: seq<Entry>, i: nat)
    requires i < |a| && i < |b| && forall j :: 0 <= j <= i ==> a[j] == b[j]
    ensures Flaw(a, i) == Flaw(b, i)
  {
  }

  lemma {:induction false} FlawsGrowBehind(es: seq<Entry>, m: nat, n: nat)
    requires m <= n <= |es|
    ensures Flaws(es, m) <= Flaws(es, n)
  {
    if m < n {
      FlawsGrowBehind(es, m, n - 1);
    }
  }

  /** More exceptions and more findings add to the four lists at their ends: within each list the complaints come
      in the order of what they are about. */
  lemma ListsGrowAtTheEnd(env: Env, excs: seq<Item>, moreExcs: seq<Item>, findings: seq<Finding>, more: seq<Finding>)
    ensures Flaws(Entries(env, excs), |excs|) <= Flaws(Entries(env, excs + moreExcs), |excs + moreExcs|)
    ensures Continues(Verdicts(env, Entries(env, excs), findings, |findings|),
                      Verdicts(env, Entries(env, excs), findings + more, |findings + more|))
  {
    FlawsContinue(env, excs, moreExcs, |excs|);
    FlawsGrowBehind(Entries(env, excs + moreExcs), |excs|, |excs + moreExcs|);
    SameVerdicts(env, Entries(env, excs), findings, more, |findings|);
    VerdictsContinue(env, Entries(env, excs), findings + more, |findings|, |findings + more|);
  }

  /** One more exception adds at most one complaint, one more finding at most one to each list. */
  lemma AtMostOneEach(env: Env, es: seq<Entry>, findings: seq<Finding>, i: nat)
    ensures i < |es| ==> |Flaws(es, i + 1)| <= |Flaws(es, i)| + 1
    ensures i < |findings| ==>
      var a, b := Verdicts(env, es, findings, i), Verdicts(env, es, findings, i + 1);
      |b.errors| <= |a.errors| + 1 && |b.missing| <= |a.missing| + 1 && |b.expired| <= |a.expired| + 1
  {
  }
}
