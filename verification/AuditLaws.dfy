/** What the gate decides, stated over all exceptions and findings, and how far their order matters. */
module AuditLaws {
  import opened Sequences
  import opened ExceptionsFile
  import opened AuditGate

  // ------------------------------------------------------------- verdict by quantifiers

  /** Every exception is usable, and no two share a key. */
  ghost predicate Orderly(env: Env, excs: seq<Item>) {
    && (forall i :: 0 <= i < |excs| ==> Usable(env, excs[i]))
    && (forall i, j :: 0 <= i < j < |excs| ==> ExceptionKey(env, excs[i]) != ExceptionKey(env, excs[j]))
  }

  /** The exception has the finding's key, an empty or equal severity, and is not expired. */
  predicate Permits(env: Env, exc: Item, f: Finding) {
    && ExceptionKey(env, exc) == FindingKey(env, f)
    && NormalizeSeverity(env, Get(exc, "severity")) in {"", NormalizeSeverity(env, f.severity)}
    && ExpiryOf(env, exc).Some? && env.today <= ExpiryOf(env, exc).value
  }

  predicate Acceptable(env: Env, excs: seq<Item>, f: Finding) {
    exists i :: 0 <= i < |excs| && Permits(env, excs[i], f)
  }

  /** Every entry grants something, each for a key of its own. */
  ghost predicate KeysApart(es: seq<Entry>) {
    ApartBelow(es, |es|)
  }

  /** Every entry below `n` grants something, each for a key of its own. */
  ghost predicate ApartBelow(es: seq<Entry>, n: nat)
    requires n <= |es|
  {
    && (forall i :: 0 <= i < n ==> es[i].Granting?)
    && (forall i, j :: 0 <= i < j < n ==> es[i].key != es[j].key)
  }

  lemma ApartStep(es: seq<Entry>, n: nat)
    requires 0 < n <= |es|
    ensures ApartBelow(es, n - 1) ==> (Flaw(es, n - 1) == [] <==> ApartBelow(es, n))
    ensures ApartBelow(es, n) ==> ApartBelow(es, n - 1)
  {
  }

  /** There is nothing to say of the entries exactly when each grants something for a key of its own. */
  lemma {:induction false} FlawlessIffApart(es: seq<Entry>, n: nat)
    requires n <= |es|
    ensures Flaws(es, n) == [] <==> ApartBelow(es, n)
  {
    if n == 0 {
      NoEntriesNoFlaws(es);
    } else {
      FlawlessIffApart(es, n - 1);
      FlawsStep(es, n);
    }
  }

  lemma NoEntriesNoFlaws(es: seq<Entry>)
    ensures Flaws(es, 0) == [] <==> ApartBelow(es, 0)
  {
  }

  lemma FlawsStep(es: seq<Entry>, n: nat)
    requires 0 < n <= |es|
    requires Flaws(es, n - 1) == [] <==> ApartBelow(es, n - 1)
    ensures Flaws(es, n) == [] <==> ApartBelow(es, n)
  {
    EmptySum(Flaws(es, n - 1), Flaw(es, n - 1));
    ApartStep(es, n);
  }

  lemma EmptySum<T>(a: seq<T>, b: seq<T>)
    ensures a + b == [] <==> a == [] && b == []
  {
  }

  lemma {:induction false} AllCleanIff(env: Env, es: seq<Entry>, findings: seq<Finding>, n: nat)
    requires n <= |findings|
    ensures Verdicts(env, es, findings, n) == CLEAN
       <==> forall i :: 0 <= i < n ==> Verdict(env, es, findings, i) == CLEAN
  {
    if n > 0 {
      AllCleanIff(env, es, findings, n - 1);
      CleanSum(Verdicts(env, es, findings, n - 1), Verdict(env, es, findings, n - 1));
    }
  }

  lemma CleanSum(a: Report, b: Report)
    ensures a.Plus(b) == CLEAN <==> a == CLEAN && b == CLEAN
  {
    EmptySum(a.errors, b.errors);
    EmptySum(a.missing, b.missing);
  }

  lemma PassesIff(env: Env, excs: seq<Item>, findings: seq<Finding>)
    ensures var es := Entries(env, excs);
      Passes(env, excs, findings) <==> Flaws(es, |es|) == [] && Verdicts(env, es, findings, |findings|) == CLEAN
  {
  }

  lemma PassesIffNothingIsSaid(env: Env, excs: seq<Item>, findings: seq<Finding>)
    ensures var es := Entries(env, excs);
      Passes(env, excs, findings) <==>
        && KeysApart(es)
        && (forall i :: 0 <= i < |findings| ==> Verdict(env, es, findings, i) == CLEAN)
  {
    PassesIff(env, excs, findings);
    FlawlessIffApart(Entries(env, excs), |excs|);
    AllCleanIff(env, Entries(env, excs), findings, |findings|);
  }

  lemma ApartIff(es: seq<Entry>, usable: seq<bool>, keys: seq<Key>)
    requires |es| == |usable| == |keys|
    requires forall i :: 0 <= i < |es| ==> (es[i].Granting? <==> usable[i])
    requires forall i :: 0 <= i < |es| && usable[i] ==> es[i].key == keys[i]
    ensures KeysApart(es) <==>
      (forall i :: 0 <= i < |es| ==> usable[i]) && forall i, j :: 0 <= i < j < |es| ==> keys[i] != keys[j]
  {
  }

  lemma OrderlyIffKeysApart(env: Env, excs: seq<Item>)
    ensures Orderly(env, excs) <==> KeysApart(Entries(env, excs))
  {
    var es := Entries(env, excs);
    var usable := seq(|excs|, i requires 0 <= i < |excs| => Usable(env, excs[i]));
    var keys := seq(|excs|, i requires 0 <= i < |excs| => ExceptionKey(env, excs[i]));
    forall i | 0 <= i < |excs|
      ensures es[i].Granting? <==> usable[i]
      ensures usable[i] ==> es[i].key == keys[i]
    {
      ReadsIffUsable(env, excs[i]);
    }
    ApartIff(es, usable, keys);
    assert forall i :: 0 <= i < |excs| ==> usable[i] == Usable(env, excs[i]) && keys[i] == ExceptionKey(env, excs[i]);
  }

  /** With distinct keys the index holds each entry under its own key. */
  lemma {:induction false} CoverIsTheEntry(es: seq<Entry>, i: nat)
    requires KeysApart(es) && i < |es|
    ensures Cover(es, es[i].key) == Some(es[i].grant)
  {
    var n := |es| - 1;
    if i < n {
      CoverIsTheEntry(es[..n], i);
    } else {
      CoveredIffTaken(es, n, es[n].key);
    }
  }

  lemma JudgeIsClean(env: Env, exc: Item, f: Finding)
    ensures For(Read(env, exc), FindingKey(env, f)) ==>
      (Judge(env, f, Some(Read(env, exc).grant)) == CLEAN <==> Permits(env, exc, f))
    ensures Usable(env, exc) && !For(Read(env, exc), FindingKey(env, f)) ==> !Permits(env, exc, f)
  {
    ReadsIffUsable(env, exc);
  }

  lemma AcceptableIffClean(env: Env, excs: seq<Item>, f: Finding)
    requires Orderly(env, excs)
    ensures Judge(env, f, Cover(Entries(env, excs), FindingKey(env, f))) == CLEAN <==> Acceptable(env, excs, f)
  {
    var key, es := FindingKey(env, f), Entries(env, excs);
    OrderlyIffKeysApart(env, excs);
    assert es[..|es|] == es;
    CoveredIffTaken(es, |es|, key);
    forall i | 0 <= i < |excs|
      ensures For(es[i], key) ==> (Judge(env, f, Some(es[i].grant)) == CLEAN <==> Permits(env, excs[i], f))
      ensures !For(es[i], key) ==> !Permits(env, excs[i], f)
    {
      JudgeIsClean(env, excs[i], f);
    }
    if i :| 0 <= i < |es| && For(es[i], key) {
      CoverIsTheEntry(es, i);
      assert forall j :: 0 <= j < |es| && j != i ==> !For(es[j], key);
      assert Acceptable(env, excs, f) <==> Permits(env, excs[i], f);
    }
  }

  /** What passing asks of the findings. */
  ghost predicate Covered(env: Env, excs: seq<Item>, findings: seq<Finding>) {
    forall i :: 0 <= i < |findings| && Relevant(env, findings[i]) ==>
      Keyed(env, findings[i]) && (IsFirst(env, findings, i) ==> Acceptable(env, excs, findings[i]))
  }

  /**
   * The verdict: every exception is usable with a key of its own, every high or critical named finding has
   * an advisory, and at the first occurrence of each key some exception permits it.
   */
  lemma VerdictIff(env: Env, excs: seq<Item>, findings: seq<Finding>)
    ensures Passes(env, excs, findings) <==> Orderly(env, excs) && Covered(env, excs, findings)
  {
    PassesIffNothingIsSaid(env, excs, findings);
    OrderlyIffKeysApart(env, excs);
    if Orderly(env, excs) {
      forall i | 0 <= i < |findings|
        ensures Verdict(env, Entries(env, excs), findings, i) == CLEAN <==>
          (Relevant(env, findings[i]) ==>
            Keyed(env, findings[i]) && (IsFirst(env, findings, i) ==> Acceptable(env, excs, findings[i])))
      {
        AcceptableIffClean(env, excs, findings[i]);
      }
    }
  }

  // ------------------------------------------------------------------ exception order

  lemma {:induction false} KeysOfPermutation<T, K>(xs: seq<T>, ys: seq<T>, key: T -> K)
    requires multiset(xs) == multiset(ys)
    requires forall i, j :: 0 <= i < j < |xs| ==> key(xs[i]) != key(xs[j])
    ensures forall i, j :: 0 <= i < j < |ys| ==> key(ys[i]) != key(ys[j])
  {
    forall i, j | 0 <= i < j < |ys|
      ensures key(ys[i]) != key(ys[j])
    {
      SameMembers(xs, ys);
      if key(ys[i]) == key(ys[j]) {
        var a :| 0 <= a < |xs| && xs[a] == ys[i];
        var b :| 0 <= b < |xs| && xs[b] == ys[j];
        assert a == b && ys[i] == ys[j];
        TwiceCounts(ys, i, j);
        OnceCounts(xs, a);
      }
    }
  }

  lemma SameMembers<T>(xs: seq<T>, ys: seq<T>)
    requires multiset(xs) == multiset(ys)
    ensures |xs| == |ys|
    ensures forall j :: 0 <= j < |ys| ==> exists i :: 0 <= i < |xs| && xs[i] == ys[j]
  {
    assert |multiset(xs)| == |xs| && |multiset(ys)| == |ys|;
    forall j | 0 <= j < |ys| ensures ys[j] in xs {
      assert ys[j] in multiset(ys);
    }
  }

  lemma TwiceCounts<T>(ys: seq<T>, i: nat, j: nat)
    requires i < j < |ys| && ys[i] == ys[j]
    ensures multiset(ys)[ys[i]] >= 2
  {
    assert ys == ys[..j] + ys[j..];
    assert ys[i] == ys[..j][i] && ys[j] == ys[j..][0];
    assert ys[i] in multiset(ys[..j]) && ys[j] in multiset(ys[j..]);
  }

  lemma {:induction false} OnceCounts<T>(xs: seq<T>, a: nat)
    requires a < |xs| && forall i :: 0 <= i < |xs| && i != a ==> xs[i] != xs[a]
    ensures multiset(xs)[xs[a]] == 1
  {
    assert xs == xs[..a] + [xs[a]] + xs[a+1..];
    assert xs[a] !in xs[..a] && xs[a] !in xs[a+1..];
  }

  lemma AcceptableUnderPermutation(env: Env, excs: seq<Item>, other: seq<Item>, f: Finding)
    requires multiset(excs) == multiset(other)
    ensures Acceptable(env, excs, f) ==> Acceptable(env, other, f)
  {
    SameMembers(other, excs);
    if i :| 0 <= i < |excs| && Permits(env, excs[i], f) {
      var j :| 0 <= j < |other| && other[j] == excs[i];
    }
  }

  lemma OrderlyUnderPermutation(env: Env, excs: seq<Item>, other: seq<Item>)
    requires multiset(excs) == multiset(other) && Orderly(env, excs)
    ensures Orderly(env, other)
  {
    KeysOfPermutation(excs, other, exc => ExceptionKey(env, exc));
    SameMembers(excs, other);
  }

  lemma CoveredUnderPermutation(env: Env, excs: seq<Item>, other: seq<Item>, findings: seq<Finding>)
    requires multiset(excs) == multiset(other) && Covered(env, excs, findings)
    ensures Covered(env, other, findings)
  {
    forall i | 0 <= i < |findings| && Relevant(env, findings[i])
      ensures Keyed(env, findings[i]) && (IsFirst(env, findings, i) ==> Acceptable(env, other, findings[i]))
    {
      AcceptableUnderPermutation(env, excs, other, findings[i]);
    }
  }

  lemma PassesUnderPermutation(env: Env, excs: seq<Item>, other: seq<Item>, findings: seq<Finding>)
    requires multiset(excs) == multiset(other) && Passes(env, excs, findings)
    ensures Passes(env, other, findings)
  {
    VerdictIff(env, excs, findings);
    VerdictIff(env, other, findings);
    OrderlyUnderPermutation(env, excs, other);
    CoveredUnderPermutation(env, excs, other, findings);
  }

  /** The order of the exceptions never matters to the verdict. */
  lemma ExceptionOrderIrrelevant(env: Env, excs: seq<Item>, other: seq<Item>, findings: seq<Finding>)
    requires multiset(excs) == multiset(other)
    ensures Passes(env, excs, findings) <==> Passes(env, other, findings)
  {
    if Passes(env, excs, findings) {
      PassesUnderPermutation(env, excs, other, findings);
    }
    if Passes(env, other, findings) {
      PassesUnderPermutation(env, other, excs, findings);
    }
  }

  // -------------------------------------------------------------------- finding order

  /** If it is high or critical and named, it has an advisory and some exception permits it. */
  predicate Permitted(env: Env, excs: seq<Item>, f: Finding) {
    Relevant(env, f) ==> Keyed(env, f) && Acceptable(env, excs, f)
  }

  /** If it is high or critical and named, it has an advisory and some exception permits a finding of its key. */
  ghost predicate KeyPermitted(env: Env, excs: seq<Item>, findings: seq<Finding>, f: Finding) {
    Relevant(env, f) ==>
      Keyed(env, f) && exists g :: g in findings && About(env, g, FindingKey(env, f)) && Acceptable(env, excs, g)
  }

  lemma SameElements<T>(xs: seq<T>, ys: seq<T>, x: T)
    requires multiset(xs) == multiset(ys)
    ensures x in xs <==> x in ys
  {
    assert x in xs <==> x in multiset(xs);
    assert x in ys <==> x in multiset(ys);
  }

  lemma PassesWithEveryOccurrence(env: Env, excs: seq<Item>, findings: seq<Finding>, order: seq<Finding>)
    requires Orderly(env, excs) && multiset(order) == multiset(findings)
    requires forall f :: f in findings ==> Permitted(env, excs, f)
    ensures Passes(env, excs, order)
  {
    VerdictIff(env, excs, order);
    forall i | 0 <= i < |order| ensures Permitted(env, excs, order[i]) {
      SameElements(findings, order, order[i]);
    }
  }

  /** Moving a finding to the front makes it the first of its key. */
  lemma FrontedIsJudged(env: Env, excs: seq<Item>, findings: seq<Finding>, i: nat)
    requires i < |findings|
    requires Passes(env, excs, [findings[i]] + findings[..i] + findings[i+1..])
    ensures Orderly(env, excs) && Permitted(env, excs, findings[i])
  {
    var order := [findings[i]] + findings[..i] + findings[i+1..];
    VerdictIff(env, excs, order);
    assert order[0] == findings[i];
    assert IsFirst(env, order, 0) <==> Keyed(env, order[0]);
  }

  lemma FrontedIsPermutation<T>(xs: seq<T>, i: nat)
    requires i < |xs|
    ensures multiset([xs[i]] + xs[..i] + xs[i+1..]) == multiset(xs)
  {
    assert xs == xs[..i] + [xs[i]] + xs[i+1..];
  }

  ghost predicate PassesInEveryOrder(env: Env, excs: seq<Item>, findings: seq<Finding>) {
    forall order :: multiset(order) == multiset(findings) ==> Passes(env, excs, order)
  }

  ghost predicate PassesInSomeOrder(env: Env, excs: seq<Item>, findings: seq<Finding>) {
    exists order :: multiset(order) == multiset(findings) && Passes(env, excs, order)
  }

  lemma EveryOrderJudges(env: Env, excs: seq<Item>, findings: seq<Finding>, i: nat)
    requires i < |findings| && PassesInEveryOrder(env, excs, findings)
    ensures Permitted(env, excs, findings[i])
  {
    var order := [findings[i]] + findings[..i] + findings[i+1..];
    FrontedIsPermutation(findings, i);
    assert Passes(env, excs, order);
    FrontedIsJudged(env, excs, findings, i);
  }

  /** The findings pass in every order exactly when no occurrence relies on one before it. */
  lemma PassesInEveryOrderIff(env: Env, excs: seq<Item>, findings: seq<Finding>)
    ensures PassesInEveryOrder(env, excs, findings)
       <==> Orderly(env, excs) && forall f :: f in findings ==> Permitted(env, excs, f)
  {
    if PassesInEveryOrder(env, excs, findings) {
      assert Passes(env, excs, findings);
      VerdictIff(env, excs, findings);
      forall f | f in findings ensures Permitted(env, excs, f) {
        var i :| 0 <= i < |findings| && findings[i] == f;
        EveryOrderJudges(env, excs, findings, i);
      }
    } else if Orderly(env, excs) && forall f :: f in findings ==> Permitted(env, excs, f) {
      var order :| multiset(order) == multiset(findings) && !Passes(env, excs, order);
      PassesWithEveryOccurrence(env, excs, findings, order);
      assert false;
    }
  }

  /** The findings an exception permits, or the others, in order. */
  function Favoured(env: Env, excs: seq<Item>, findings: seq<Finding>, wanted: bool): (r: seq<Finding>)
    ensures forall f :: f in r ==> Acceptable(env, excs, f) == wanted
  {
    if findings == [] then []
    else
      var n := |findings| - 1;
      Favoured(env, excs, findings[..n], wanted)
      + if Acceptable(env, excs, findings[n]) == wanted then [findings[n]] else []
  }

  lemma LastCounts<T>(xs: seq<T>)
    requires xs != []
    ensures multiset(xs) == multiset(xs[..|xs|-1]) + multiset{xs[|xs|-1]}
  {
    assert xs == xs[..|xs|-1] + [xs[|xs|-1]];
  }

  lemma OneMore(env: Env, excs: seq<Item>, findings: seq<Finding>)
    requires findings != []
    ensures multiset(Favoured(env, excs, findings, true) + Favoured(env, excs, findings, false))
         == multiset(Favoured(env, excs, findings[..|findings|-1], true)
                     + Favoured(env, excs, findings[..|findings|-1], false)) + multiset{findings[|findings|-1]}
  {
    var f := findings[|findings|-1];
    if Acceptable(env, excs, f) {
      assert Favoured(env, excs, findings, false) == Favoured(env, excs, findings[..|findings|-1], false);
    }
  }

  lemma {:induction false} FavouredIsPermutation(env: Env, excs: seq<Item>, findings: seq<Finding>)
    ensures multiset(Favoured(env, excs, findings, true) + Favoured(env, excs, findings, false)) == multiset(findings)
  {
    if findings != [] {
      FavouredIsPermutation(env, excs, findings[..|findings|-1]);
      OneMore(env, excs, findings);
      LastCounts(findings);
    }
  }

  /** The first of a key with an acceptable occurrence is acceptable when those go first. */
  lemma FavouredFirstIsAcceptable(env: Env, excs: seq<Item>, good: seq<Finding>, bad: seq<Finding>, i: nat, g: Finding)
    requires forall f :: f in good ==> Acceptable(env, excs, f)
    requires forall f :: f in bad ==> !Acceptable(env, excs, f)
    requires i < |good + bad| && IsFirst(env, good + bad, i)
    requires g in good + bad && About(env, g, FindingKey(env, (good + bad)[i])) && Acceptable(env, excs, g)
    ensures Acceptable(env, excs, (good + bad)[i])
  {
    var order := good + bad;
    assert g in good;
    var j :| 0 <= j < |good| && good[j] == g;
    assert order[j] == g;
    if i < |good| {
      assert order[i] in good;
    } else {
      assert false;
    }
  }

  lemma FavouredIsCovered(env: Env, excs: seq<Item>, findings: seq<Finding>, good: seq<Finding>, bad: seq<Finding>,
                          i: nat)
    requires forall f :: f in good ==> Acceptable(env, excs, f)
    requires forall f :: f in bad ==> !Acceptable(env, excs, f)
    requires multiset(good + bad) == multiset(findings) && i < |good + bad|
    requires KeyPermitted(env, excs, findings, (good + bad)[i]) && Relevant(env, (good + bad)[i])
    ensures Keyed(env, (good + bad)[i])
    ensures IsFirst(env, good + bad, i) ==> Acceptable(env, excs, (good + bad)[i])
  {
    var order := good + bad;
    if IsFirst(env, order, i) {
      var g :| g in findings && About(env, g, FindingKey(env, order[i])) && Acceptable(env, excs, g);
      SameElements(order, findings, g);
      FavouredFirstIsAcceptable(env, excs, good, bad, i, g);
    }
  }

  lemma FavouredPasses(env: Env, excs: seq<Item>, findings: seq<Finding>)
    requires Orderly(env, excs) && forall f :: f in findings ==> KeyPermitted(env, excs, findings, f)
    ensures PassesInSomeOrder(env, excs, findings)
  {
    var good, bad := Favoured(env, excs, findings, true), Favoured(env, excs, findings, false);
    FavouredIsPermutation(env, excs, findings);
    assert Covered(env, excs, good + bad) by {
      forall i | 0 <= i < |good + bad| && Relevant(env, (good + bad)[i])
        ensures Keyed(env, (good + bad)[i])
        ensures IsFirst(env, good + bad, i) ==> Acceptable(env, excs, (good + bad)[i])
      {
        SameElements(good + bad, findings, (good + bad)[i]);
        FavouredIsCovered(env, excs, findings, good, bad, i);
      }
    }
    VerdictIff(env, excs, good + bad);
  }

  /** The findings pass in some order exactly when each key has an occurrence that could stand first. */
  lemma PassesInSomeOrderIff(env: Env, excs: seq<Item>, findings: seq<Finding>)
    ensures PassesInSomeOrder(env, excs, findings)
       <==> Orderly(env, excs) && forall f :: f in findings ==> KeyPermitted(env, excs, findings, f)
  {
    if PassesInSomeOrder(env, excs, findings) {
      var order :| multiset(order) == multiset(findings) && Passes(env, excs, order);
      PassingKeysArePermitted(env, excs, findings, order);
    } else if Orderly(env, excs) && forall f :: f in findings ==> KeyPermitted(env, excs, findings, f) {
      FavouredPasses(env, excs, findings);
      assert false;
    }
  }

  /** Before or at a keyed finding stands the first of its key. */
  lemma {:induction false} FirstOfKey(env: Env, findings: seq<Finding>, i: nat) returns (f: nat)
    requires i < |findings| && Keyed(env, findings[i])
    ensures f <= i && IsFirst(env, findings, f) && FindingKey(env, findings[f]) == FindingKey(env, findings[i])
    decreases i
  {
    f := i;
    if !IsFirst(env, findings, i) {
      var j :| 0 <= j < i && About(env, findings[j], FindingKey(env, findings[i]));
      f := FirstOfKey(env, findings, j);
    }
  }

  lemma PassingKeysArePermitted(env: Env, excs: seq<Item>, findings: seq<Finding>, order: seq<Finding>)
    requires multiset(order) == multiset(findings) && Passes(env, excs, order)
    ensures Orderly(env, excs) && forall f :: f in findings ==> KeyPermitted(env, excs, findings, f)
  {
    VerdictIff(env, excs, order);
    forall f | f in findings ensures KeyPermitted(env, excs, findings, f) {
      SameElements(order, findings, f);
      if Relevant(env, f) {
        var k :| 0 <= k < |order| && order[k] == f;
        var first := FirstOfKey(env, order, k);
        SameElements(order, findings, order[first]);
        assert About(env, order[first], FindingKey(env, f));
      }
    }
  }

  /** Findings of one key agree on their severity. */
  ghost predicate OneSeverityPerKey(env: Env, findings: seq<Finding>) {
    forall f, g :: f in findings && g in findings && Keyed(env, f) && About(env, g, FindingKey(env, f)) ==>
      NormalizeSeverity(env, f.severity) == NormalizeSeverity(env, g.severity)
  }

  lemma PermittedByKey(env: Env, excs: seq<Item>, findings: seq<Finding>, f: Finding)
    requires OneSeverityPerKey(env, findings) && f in findings && KeyPermitted(env, excs, findings, f)
    ensures Permitted(env, excs, f)
  {
    if Relevant(env, f) {
      var g :| g in findings && About(env, g, FindingKey(env, f)) && Acceptable(env, excs, g);
      var e :| 0 <= e < |excs| && Permits(env, excs[e], g);
      assert Permits(env, excs[e], f);
    }
  }

  /** With one severity per key the order of the findings does not matter either. */
  lemma FindingOrderIrrelevant(env: Env, excs: seq<Item>, findings: seq<Finding>, order: seq<Finding>)
    requires multiset(order) == multiset(findings) && OneSeverityPerKey(env, findings)
    ensures Passes(env, excs, findings) <==> Passes(env, excs, order)
  {
    if Passes(env, excs, findings) || Passes(env, excs, order) {
      var passing := if Passes(env, excs, findings) then findings else order;
      PassingKeysArePermitted(env, excs, findings, passing);
      forall f | f in findings ensures Permitted(env, excs, f) {
        PermittedByKey(env, excs, findings, f);
      }
      PassesWithEveryOccurrence(env, excs, findings, findings);
      PassesWithEveryOccurrence(env, excs, findings, order);
    }
  }

  /** One key found twice, permitted at one severity only: the one that comes first decides. */
  lemma FirstOccurrenceDecides(env: Env, excs: seq<Item>, first: Finding, second: Finding)
    requires Orderly(env, excs) && Keyed(env, first) && About(env, second, FindingKey(env, first))
    ensures Passes(env, excs, [first, second]) <==> Acceptable(env, excs, first)
  {
    VerdictIff(env, excs, [first, second]);
    FirstOfTwo(env, first, second);
  }

  lemma FirstOfTwo(env: Env, first: Finding, second: Finding)
    requires Keyed(env, first) && About(env, second, FindingKey(env, first))
    ensures IsFirst(env, [first, second], 0) && !IsFirst(env, [first, second], 1)
  {
    assert [first, second][0] == first && [first, second][1] == second;
    assert About(env, [first, second][0], FindingKey(env, second));
  }

  // ---------------------------------------------------------------- more findings

  /** More findings never turn a failure into a pass. */
  lemma MoreFindingsNeverHelp(env: Env, excs: seq<Item>, findings: seq<Finding>, more: seq<Finding>)
    requires Passes(env, excs, findings + more)
    ensures Passes(env, excs, findings)
  {
    PassesIffNothingIsSaid(env, excs, findings + more);
    PassesIffNothingIsSaid(env, excs, findings);
    VerdictsStay(env, Entries(env, excs), findings, more);
  }

  /** More findings change nothing about those before. */
  lemma VerdictsStay(env: Env, es: seq<Entry>, findings: seq<Finding>, more: seq<Finding>)
    ensures forall i :: 0 <= i < |findings| ==>
      Verdict(env, es, findings, i) == Verdict(env, es, findings + more, i)
  {
    forall i | 0 <= i < |findings|
      ensures Verdict(env, es, findings, i) == Verdict(env, es, findings + more, i)
    {
      SameVerdict(env, es, findings, findings + more, i);
    }
  }

  /** A verdict depends on the findings up to its own. */
  lemma SameVerdict(env: Env, es: seq<Entry>, a: seq<Finding>, b: seq<Finding>, i: nat)
    requires i < |a| && i < |b| && a[..i+1] == b[..i+1]
    ensures Verdict(env, es, a, i) == Verdict(env, es, b, i)
  {
    assert a[..i] == a[..i+1][..i] && b[..i] == b[..i+1][..i];
    assert a[i] == a[..i+1][i] && b[i] == b[..i+1][i];
    SameBefore(env, a, b, i, FindingKey(env, a[i]));
  }

  lemma SameBefore(env: Env, a: seq<Finding>, b: seq<Finding>, n: nat, key: Key)
    requires n <= |a| && n <= |b| && a[..n] == b[..n]
    ensures MetBefore(env, a, n, key) <==> MetBefore(env, b, n, key)
  {
    assert forall j :: 0 <= j < n ==> a[j] == a[..n][j] && b[j] == b[..n][j];
  }

  /** A finding nothing is reported about, or one of a key already met. */
  predicate Repeats(env: Env, findings: seq<Finding>, f: Finding) {
    Relevant(env, f) ==> Keyed(env, f) && MetBefore(env, findings, |findings|, FindingKey(env, f))
  }

  /** Findings of keys already met change nothing, whatever severity they carry. */
  lemma RepeatsChangeNothing(env: Env, excs: seq<Item>, findings: seq<Finding>, more: seq<Finding>)
    requires forall k :: 0 <= k < |more| ==> Repeats(env, findings, more[k])
    ensures Complaints(env, excs, findings + more) == Complaints(env, excs, findings)
  {
    var es := Entries(env, excs);
    SameVerdicts(env, es, findings, more, |findings|);
    forall k | |findings| <= k < |findings + more| ensures Verdict(env, es, findings + more, k) == CLEAN {
      RepeatIsClean(env, es, findings, more, k - |findings|);
    }
    CleanTail(env, es, findings + more, |findings|, |findings + more|);
  }

  lemma {:induction false} SameVerdicts(env: Env, es: seq<Entry>, findings: seq<Finding>, more: seq<Finding>, n: nat)
    requires n <= |findings|
    ensures Verdicts(env, es, findings + more, n) == Verdicts(env, es, findings, n)
  {
    if n > 0 {
      SameVerdicts(env, es, findings, more, n - 1);
      SameVerdict(env, es, findings + more, findings, n - 1);
    }
  }

  lemma {:induction false} CleanTail(env: Env, es: seq<Entry>, findings: seq<Finding>, m: nat, n: nat)
    requires m <= n <= |findings| && forall k :: m <= k < n ==> Verdict(env, es, findings, k) == CLEAN
    ensures Verdicts(env, es, findings, n) == Verdicts(env, es, findings, m)
  {
    if m < n {
      CleanTail(env, es, findings, m, n - 1);
      PlusClean(Verdicts(env, es, findings, n - 1));
    }
  }

  lemma PlusClean(a: Report)
    ensures a.Plus(CLEAN) == a
  {
  }

  lemma RepeatIsClean(env: Env, es: seq<Entry>, findings: seq<Finding>, more: seq<Finding>, k: nat)
    requires k < |more| && Repeats(env, findings, more[k])
    ensures Verdict(env, es, findings + more, |findings| + k) == CLEAN
  {
    var f, all := more[k], findings + more;
    assert all[|findings| + k] == f;
    if Relevant(env, f) {
      var j :| 0 <= j < |findings| && About(env, findings[j], FindingKey(env, f));
      assert all[j] == findings[j] && MetBefore(env, all, |findings| + k, FindingKey(env, f));
    }
  }

  // ----------------------------------------------------------------- what is listed

  /** Keys without an exception. */
  function Bare(es: seq<Entry>, keys: set<Key>): set<Key> {
    set key | key in keys && Cover(es, key) == None
  }

  lemma BareOneMore(es: seq<Entry>, keys: set<Key>, key: Key)
    ensures Bare(es, keys + {key}) == if Cover(es, key) == None then Bare(es, keys) + {key} else Bare(es, keys)
  {
  }

  /** The finding at `i` is the first of a key that no usable exception has. */
  predicate BareFirst(env: Env, es: seq<Entry>, findings: seq<Finding>, i: nat)
    requires i < |findings|
  {
    IsFirst(env, findings, i) && Cover(es, FindingKey(env, findings[i])) == None
  }

  /** The positions of such findings below `n`, in order. */
  function BareFirsts(env: Env, es: seq<Entry>, findings: seq<Finding>, n: nat): (r: seq<nat>)
    requires n <= |findings|
    ensures forall a :: 0 <= a < |r| ==> r[a] < n && BareFirst(env, es, findings, r[a])
    ensures forall a, b :: 0 <= a < b < |r| ==> r[a] < r[b]
  {
    if n == 0 then []
    else BareFirsts(env, es, findings, n - 1) + if BareFirst(env, es, findings, n - 1) then [n - 1] else []
  }

  lemma {:induction false} BareFirstsAreAll(env: Env, es: seq<Entry>, findings: seq<Finding>, n: nat, i: nat)
    requires i < n <= |findings| && BareFirst(env, es, findings, i)
    ensures i in BareFirsts(env, es, findings, n)
  {
    if i < n - 1 {
      BareFirstsAreAll(env, es, findings, n - 1, i);
    }
  }

  function UncoveredFinding(env: Env, f: Finding): Complaint {
    Uncovered(Text(f.name), NormalizeSeverity(env, f.severity), Text(f.advisory), f.title)
  }

  /** The findings at such positions as they are listed. */
  function Listed(env: Env, findings: seq<Finding>, firsts: seq<nat>): (r: seq<Complaint>)
    requires forall a :: 0 <= a < |firsts| ==> firsts[a] < |findings|
    ensures |r| == |firsts|
  {
    seq(|firsts|, a requires 0 <= a < |firsts| => UncoveredFinding(env, findings[firsts[a]]))
  }

  /** The first findings of the keys without an exception, below `n`. */
  function BareList(env: Env, es: seq<Entry>, findings: seq<Finding>, n: nat): (r: seq<Complaint>)
    requires n <= |findings|
  {
    Listed(env, findings, BareFirsts(env, es, findings, n))
  }

  /** Each key found without an exception is listed exactly once, at its first finding, however often it
      occurs: the list is that of the first findings of these keys, in order, and no two have the same key. */
  lemma BareKeysAreListedOnce(env: Env, es: seq<Entry>, findings: seq<Finding>, n: nat)
    requires n <= |findings|
    ensures Verdicts(env, es, findings, n).missing == BareList(env, es, findings, n)
    ensures |BareFirsts(env, es, findings, n)| == BareCount(env, es, findings, n)
    ensures var firsts := BareFirsts(env, es, findings, n);
      && (forall a :: 0 <= a < |firsts| ==> firsts[a] < n && BareFirst(env, es, findings, firsts[a]))
      && (forall i :: 0 <= i < n && BareFirst(env, es, findings, i) ==> i in firsts)
      && (forall a, b :: 0 <= a < b < |firsts| ==>
            FindingKey(env, findings[firsts[a]]) != FindingKey(env, findings[firsts[b]]))
  {
    MissingAreListed(env, es, findings, n);
    BareKeysAreCounted(env, es, findings, n);
    forall i | 0 <= i < n && BareFirst(env, es, findings, i)
      ensures i in BareFirsts(env, es, findings, n)
    {
      BareFirstsAreAll(env, es, findings, n, i);
    }
    FirstsDiffer(env, es, findings, n);
  }

  lemma {:induction false} MissingAreListed(env: Env, es: seq<Entry>, findings: seq<Finding>, n: nat)
    requires n <= |findings|
    ensures Verdicts(env, es, findings, n).missing == BareList(env, es, findings, n)
  {
    if n > 0 {
      MissingAreListed(env, es, findings, n - 1);
      MissingIs(env, es, findings, n - 1);
      MissingGrows(Verdicts(env, es, findings, n - 1), Verdict(env, es, findings, n - 1));
    }
  }

  lemma BareKeysAreCounted(env: Env, es: seq<Entry>, findings: seq<Finding>, n: nat)
    requires n <= |findings|
    ensures |BareFirsts(env, es, findings, n)| == BareCount(env, es, findings, n)
  {
    var firsts: seq<int> := seq(n + 1, i requires 0 <= i <= n => |BareFirsts(env, es, findings, i)|);
    var keys: seq<int> := seq(n + 1, i requires 0 <= i <= n => BareCount(env, es, findings, i));
    forall i | 0 <= i < n
      ensures firsts[i+1] - firsts[i] == keys[i+1] - keys[i]
    {
      BareStep(env, es, findings, i);
      BareFirstsStep(env, es, findings, i);
    }
    assert keys[0] == 0;
    SameSteps(firsts, keys, n);
  }

  lemma {:induction false} SameSteps(a: seq<int>, b: seq<int>, n: nat)
    requires n < |a| == |b| && a[0] == b[0]
    requires forall i :: 0 <= i < n ==> a[i+1] - a[i] == b[i+1] - b[i]
    ensures a[n] == b[n]
    decreases n
  {
    if n > 0 {
      SameSteps(a, b, n - 1);
      assert a[n-1+1] - a[n-1] == b[n-1+1] - b[n-1];
    }
  }

  lemma BareFirstsStep(env: Env, es: seq<Entry>, findings: seq<Finding>, i: nat)
    requires i < |findings|
    ensures |BareFirsts(env, es, findings, i + 1)|
      == |BareFirsts(env, es, findings, i)| + if BareFirst(env, es, findings, i) then 1 else 0
  {
  }

  /** How many keys without an exception are found below `n`. */
  function BareCount(env: Env, es: seq<Entry>, findings: seq<Finding>, n: nat): nat
    requires n <= |findings|
  {
    |Bare(es, KeysBefore(env, findings, n))|
  }

  lemma MissingIs(env: Env, es: seq<Entry>, findings: seq<Finding>, i: nat)
    requires i < |findings|
    ensures Verdict(env, es, findings, i).missing
         == if BareFirst(env, es, findings, i) then [UncoveredFinding(env, findings[i])] else []
  {
  }

  lemma FirstsDiffer(env: Env, es: seq<Entry>, findings: seq<Finding>, n: nat)
    requires n <= |findings|
    ensures var firsts := BareFirsts(env, es, findings, n);
      forall a, b :: 0 <= a < b < |firsts| ==>
        FindingKey(env, findings[firsts[a]]) != FindingKey(env, findings[firsts[b]])
  {
    var firsts := BareFirsts(env, es, findings, n);
    forall a, b | 0 <= a < b < |firsts|
      ensures FindingKey(env, findings[firsts[a]]) != FindingKey(env, findings[firsts[b]])
    {
      assert About(env, findings[firsts[a]], FindingKey(env, findings[firsts[a]]));
    }
  }

  lemma MissingGrows(a: Report, b: Report)
    ensures a.Plus(b).missing == a.missing + b.missing
  {
  }

  lemma BareStep(env: Env, es: seq<Entry>, findings: seq<Finding>, i: nat)
    requires i < |findings|
    ensures BareCount(env, es, findings, i + 1)
      == BareCount(env, es, findings, i) + if BareFirst(env, es, findings, i) then 1 else 0
  {
    if Keyed(env, findings[i]) {
      var key, before := FindingKey(env, findings[i]), KeysBefore(env, findings, i);
      FirstIffUnseen(env, findings, i);
      assert KeysBefore(env, findings, i + 1) == before + {key};
      BareOneMore(es, before, key);
      assert key in before ==> before + {key} == before;
    } else {
      assert KeysBefore(env, findings, i + 1) == KeysBefore(env, findings, i);
    }
  }
}
