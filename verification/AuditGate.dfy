/**
 * The audit gate: an index of granted exceptions, a de-duplicating scan of the findings, and a verdict.
 * Each loop is proved against a form without index or `seen` set: the first usable exception for a key,
 * and the first occurrence of a key among the findings.
 */
module AuditGate {
  import opened Sequences
  import opened ExceptionsFile

  /** What the gate takes from its surroundings: stripping and lower-casing, ISO dates as day numbers, and the
      current day. The laws hold whatever these are. */
  datatype Env = Env(strip: string -> string, lower: string -> string, parseDate: string -> Option<int>, today: int)

  /** One reported vulnerability; any of its values may be missing. */
  datatype Finding = Finding(
    name: Option<string>,
    severity: Option<string>,
    advisory: Option<string>,
    title: Option<string>)

  type Key = (string, string)

  /** What an exception grants for its key: an empty severity stands for any. */
  datatype Grant = Grant(severity: string, expires: int)

  datatype Complaint =
    | MissingFields(fields: set<string>, owner: Option<string>)
    | BadDate(package: string)
    | BlankKey
    | Duplicate(package: string, advisory: string)
    | NoAdvisory(name: string, severity: string)
    | Mismatch(name: string, advisory: string, expected: string, got: string)
    | UncoveredHeader
    | Uncovered(name: string, severity: string, advisory: string, title: Option<string>)
    | ExpiredHeader
    | Expired(name: string, severity: string, advisory: string, expires: int)

  const HIGH_SEVERITIES: set<string> := {"high", "critical"}
  const REQUIRED_FIELDS: set<string> := {"package", "advisory", "severity", "mitigation", "expires_on"}

  function Text(value: Option<string>): string {
    if value.Some? then value.value else ""
  }

  function NormalizeSeverity(env: Env, severity: Option<string>): string {
    env.lower(env.strip(Text(severity)))
  }

  function NormalizePackage(env: Env, name: Option<string>): string {
    if name == None then "" else env.strip(name.value)
  }

  function NormalizeAdvisory(env: Env, advisory: Option<string>): string {
    if advisory == None then "" else env.lower(env.strip(advisory.value))
  }

  // ----------------------------------------------------------------- exceptions

  function Absent(exc: Item): set<string> {
    set field | field in REQUIRED_FIELDS && Text(Get(exc, field)) == "" :: field
  }

  function ExceptionKey(env: Env, exc: Item): Key {
    (NormalizePackage(env, Get(exc, "package")), NormalizeAdvisory(env, Get(exc, "advisory")))
  }

  function ExpiryOf(env: Env, exc: Item): Option<int> {
    env.parseDate(Text(Get(exc, "expires_on")))
  }

  /** An exception after the checks on it alone: what it grants for which key, or the first complaint. */
  datatype Entry = Granting(key: Key, grant: Grant, advisory: string) | Bad(complaint: Complaint)

  function Read(env: Env, exc: Item): Entry {
    if Absent(exc) != {} then Bad(MissingFields(Absent(exc), Get(exc, "package")))
    else if ExpiryOf(env, exc) == None then Bad(BadDate(Text(Get(exc, "package"))))
    else if ExceptionKey(env, exc).0 == "" || ExceptionKey(env, exc).1 == "" then Bad(BlankKey)
    else
      Granting(ExceptionKey(env, exc), Grant(NormalizeSeverity(env, Get(exc, "severity")), ExpiryOf(env, exc).value),
               Text(Get(exc, "advisory")))
  }

  function Entries(env: Env, excs: seq<Item>): (r: seq<Entry>)
    ensures |r| == |excs|
  {
    seq(|excs|, i requires 0 <= i < |excs| => Read(env, excs[i]))
  }

  /** All required fields, a valid date, and a key that is not blank. */
  predicate Usable(env: Env, exc: Item) {
    && (forall field :: field in REQUIRED_FIELDS ==> Text(Get(exc, field)) != "")
    && ExpiryOf(env, exc).Some?
    && ExceptionKey(env, exc).0 != "" && ExceptionKey(env, exc).1 != ""
  }

  lemma ReadsIffUsable(env: Env, exc: Item)
    ensures Read(env, exc).Granting? <==> Usable(env, exc)
    ensures Usable(env, exc) ==> Read(env, exc).key == ExceptionKey(env, exc)
  {
    if field :| field in Absent(exc) {
      assert !Usable(env, exc);
    } else {
      assert forall field :: field in REQUIRED_FIELDS ==> field !in Absent(exc);
    }
  }

  /** A usable exception for this key. */
  predicate For(e: Entry, key: Key) {
    e.Granting? && e.key == key
  }

  /** What the first usable exception for a key grants. */
  function Cover(es: seq<Entry>, key: Key): Option<Grant> {
    if es == [] then None
    else
      var n := |es| - 1;
      CoverStep(Cover(es[..n], key), es[n], key)
  }

  function CoverStep(before: Option<Grant>, e: Entry, key: Key): Option<Grant> {
    if before == None && For(e, key) then Some(e.grant) else before
  }

  /** A usable exception with this key stands before position i. */
  predicate TakenBefore(es: seq<Entry>, i: nat, key: Key)
    requires i <= |es|
  {
    exists j :: 0 <= j < i && For(es[j], key)
  }

  /** What is wrong with the exception at position i. */
  function Flaw(es: seq<Entry>, i: nat): seq<Complaint>
    requires i < |es|
  {
    match es[i]
    case Bad(complaint) => [complaint]
    case Granting(key, _, advisory) => if TakenBefore(es, i, key) then [Duplicate(key.0, advisory)] else []
  }

  /** The flaws before position n, in order. */
  function Flaws(es: seq<Entry>, n: nat): seq<Complaint>
    requires n <= |es|
  {
    if n == 0 then [] else Flaws(es, n - 1) + Flaw(es, n - 1)
  }

  ghost predicate Indexes(index: map<Key, Grant>, es: seq<Entry>) {
    forall key :: Get(index, key) == Cover(es, key)
  }

  lemma CoverSnoc(es: seq<Entry>, i: nat, key: Key)
    requires i < |es|
    ensures Cover(es[..i+1], key) == CoverStep(Cover(es[..i], key), es[i], key)
  {
    assert es[..i+1][..i] == es[..i];
  }

  /** A key is covered exactly when a usable exception has it. */
  lemma {:induction false} CoveredIffTaken(es: seq<Entry>, i: nat, key: Key)
    requires i <= |es|
    ensures Cover(es[..i], key).Some? <==> TakenBefore(es, i, key)
  {
    if i > 0 {
      CoverSnoc(es, i - 1, key);
      CoveredIffTaken(es, i - 1, key);
    }
  }

  lemma IndexStep(index: map<Key, Grant>, es: seq<Entry>, i: nat, next: map<Key, Grant>)
    requires i < |es| && Indexes(index, es[..i])
    requires forall key :: Get(next, key) == CoverStep(Get(index, key), es[i], key)
    ensures Indexes(next, es[..i+1])
  {
    forall key ensures Get(next, key) == Cover(es[..i+1], key) {
      CoverSnoc(es, i, key);
      assert Get(index, key) == Cover(es[..i], key);
    }
  }

  /** One turn of the index loop: a bad or repeated exception is reported, another one is granted. */
  method Enter(entry: Entry, index: map<Key, Grant>, errors: seq<Complaint>, ghost es: seq<Entry>, ghost i: nat)
    returns (newIndex: map<Key, Grant>, newErrors: seq<Complaint>)
    requires i < |es| && es[i] == entry && Indexes(index, es[..i])
    ensures Indexes(newIndex, es[..i+1])
    ensures newErrors == errors + Flaw(es, i)
  {
    newIndex, newErrors := index, errors;
    match entry {
      case Bad(complaint) =>
        newErrors := errors + [complaint];
      case Granting(key, grant, advisory) =>
        assert Get(index, key) == Cover(es[..i], key);
        CoveredIffTaken(es, i, key);
        if key in index {
          newErrors := errors + [Duplicate(key.0, advisory)];
        } else {
          newIndex := index[key := grant];
        }
    }
    IndexStep(index, es, i, newIndex);
  }

  method BuildIndex(env: Env, exceptions: seq<Item>) returns (index: map<Key, Grant>, errors: seq<Complaint>)
    ensures Indexes(index, Entries(env, exceptions))
    ensures errors == Flaws(Entries(env, exceptions), |exceptions|)
  {
    index, errors := map[], [];
    ghost var es := Entries(env, exceptions);
    assert es[..0] == [];
    for i := 0 to |exceptions|
      invariant Indexes(index, es[..i])
      invariant errors == Flaws(es, i)
    {
      var entry := Read(env, exceptions[i]);
      assert entry == es[i];
      index, errors := Enter(entry, index, errors, es, i);
    }
    assert es[..|es|] == es;
  }

  // ------------------------------------------------------------------- findings

  /** High or critical, with a name. */
  predicate Relevant(env: Env, f: Finding) {
    NormalizeSeverity(env, f.severity) in HIGH_SEVERITIES && Text(f.name) != ""
  }

  predicate Keyed(env: Env, f: Finding) {
    Relevant(env, f) && NormalizeAdvisory(env, f.advisory) != ""
  }

  function FindingKey(env: Env, f: Finding): Key {
    (NormalizePackage(env, f.name), NormalizeAdvisory(env, f.advisory))
  }

  predicate About(env: Env, f: Finding, key: Key) {
    Keyed(env, f) && FindingKey(env, f) == key
  }

  predicate MetBefore(env: Env, findings: seq<Finding>, n: nat, key: Key)
    requires n <= |findings|
  {
    exists j :: 0 <= j < n && About(env, findings[j], key)
  }

  /** The first finding of its key. */
  predicate IsFirst(env: Env, findings: seq<Finding>, i: nat)
    requires i < |findings|
  {
    Keyed(env, findings[i]) && !MetBefore(env, findings, i, FindingKey(env, findings[i]))
  }

  predicate Contradicts(grant: Grant, severity: string) {
    grant.severity != "" && grant.severity != severity
  }

  /** The three lists the scan fills. */
  datatype Report = Report(errors: seq<Complaint>, missing: seq<Complaint>, expired: seq<Complaint>) {
    function Plus(other: Report): Report {
      Report(errors + other.errors, missing + other.missing, expired + other.expired)
    }
  }

  const CLEAN := Report([], [], [])

  /** What a finding is told about the exception granted for its key. */
  function Judge(env: Env, f: Finding, grant: Option<Grant>): Report {
    var severity := NormalizeSeverity(env, f.severity);
    if grant == None then CLEAN.(missing := [Uncovered(Text(f.name), severity, Text(f.advisory), f.title)])
    else
      Report(
        if Contradicts(grant.value, severity)
          then [Mismatch(Text(f.name), Text(f.advisory), severity, grant.value.severity)] else [],
        [],
        if grant.value.expires < env.today
          then [Expired(Text(f.name), severity, Text(f.advisory), grant.value.expires)] else [])
  }

  function Verdict(env: Env, es: seq<Entry>, findings: seq<Finding>, i: nat): Report
    requires i < |findings|
  {
    var f := findings[i];
    if !Relevant(env, f) then CLEAN
    else if !Keyed(env, f) then CLEAN.(errors := [NoAdvisory(Text(f.name), NormalizeSeverity(env, f.severity))])
    else if IsFirst(env, findings, i) then Judge(env, f, Cover(es, FindingKey(env, f)))
    else CLEAN
  }

  /** The verdicts on the findings before position n, in order. */
  function Verdicts(env: Env, es: seq<Entry>, findings: seq<Finding>, n: nat): Report
    requires n <= |findings|
  {
    if n == 0 then CLEAN
    else Verdicts(env, es, findings, n - 1).Plus(Verdict(env, es, findings, n - 1))
  }

  /** The keys met before position n. */
  function KeysBefore(env: Env, findings: seq<Finding>, n: nat): set<Key>
    requires n <= |findings|
  {
    if n == 0 then {}
    else KeysBefore(env, findings, n - 1) + if Keyed(env, findings[n-1]) then {FindingKey(env, findings[n-1])} else {}
  }

  lemma {:induction false} KeysBeforeAre(env: Env, findings: seq<Finding>, n: nat, key: Key)
    requires n <= |findings|
    ensures key in KeysBefore(env, findings, n) <==> MetBefore(env, findings, n, key)
  {
    if n > 0 {
      KeysBeforeAre(env, findings, n - 1, key);
      assert MetBefore(env, findings, n, key)
        <==> MetBefore(env, findings, n - 1, key) || About(env, findings[n-1], key);
    }
  }

  lemma FirstIffUnseen(env: Env, findings: seq<Finding>, i: nat)
    requires i < |findings| && Keyed(env, findings[i])
    ensures IsFirst(env, findings, i) <==> FindingKey(env, findings[i]) !in KeysBefore(env, findings, i)
  {
    KeysBeforeAre(env, findings, i, FindingKey(env, findings[i]));
  }

  /** With an index of the exceptions, the scan reports what the verdicts on first occurrences say. */
  method Scan(env: Env, index: map<Key, Grant>, ghost es: seq<Entry>, findings: seq<Finding>) returns (r: Report)
    requires Indexes(index, es)
    ensures r == Verdicts(env, es, findings, |findings|)
  {
    var seen: set<Key> := {};
    r := CLEAN;
    for i := 0 to |findings|
      invariant seen == KeysBefore(env, findings, i)
      invariant r == Verdicts(env, es, findings, i)
    {
      var f := findings[i];
      if !Relevant(env, f) {
        continue;
      }
      if NormalizeAdvisory(env, f.advisory) == "" {
        r := r.(errors := r.errors + [NoAdvisory(Text(f.name), NormalizeSeverity(env, f.severity))]);
        continue;
      }
      var key := FindingKey(env, f);
      FirstIffUnseen(env, findings, i);
      if key in seen {
        continue;
      }
      seen := seen + {key};
      assert Get(index, key) == Cover(es, key);
      r := r.Plus(Judge(env, f, Get(index, key)));
    }
  }

  // -------------------------------------------------------------------- verdict

  /** Everything the gate complains about, in the order it is written out. */
  function Complaints(env: Env, excs: seq<Item>, findings: seq<Finding>): seq<Complaint> {
    var es := Entries(env, excs);
    var report := Verdicts(env, es, findings, |findings|);
    Flaws(es, |es|) + report.errors
    + (if report.missing != [] then [UncoveredHeader] + report.missing else [])
    + (if report.expired != [] then [ExpiredHeader] + report.expired else [])
  }

  predicate Passes(env: Env, excs: seq<Item>, findings: seq<Finding>) {
    Complaints(env, excs, findings) == []
  }

  /** The gate on parsed exceptions: an exit code and the complaints. */
  method Decide(env: Env, exceptions: seq<Item>, findings: seq<Finding>) returns (code: int, errors: seq<Complaint>)
    ensures errors == Complaints(env, exceptions, findings)
    ensures code == if Passes(env, exceptions, findings) then 0 else 1
  {
    var index;
    index, errors := BuildIndex(env, exceptions);
    var report := Scan(env, index, Entries(env, exceptions), findings);
    errors := errors + report.errors;
    if report.missing != [] {
      errors := errors + ([UncoveredHeader] + report.missing);
    }
    if report.expired != [] {
      errors := errors + ([ExpiredHeader] + report.expired);
    }
    code := if errors != [] then 1 else 0;
  }

  /** What the gate answers: an exit code and the complaints, or the parse error of the exception file. */
  function GateOf(env: Env, text: string, findings: seq<Finding>): Result<(int, seq<Complaint>), ParseError> {
    var excs :- ParseText(text);
    Success((if Passes(env, excs, findings) then 0 else 1, Complaints(env, excs, findings)))
  }

  /** The whole gate on an exception file, which may fail to parse. */
  method Gate(env: Env, text: string, findings: seq<Finding>) returns (r: Result<(int, seq<Complaint>), ParseError>)
    ensures r == GateOf(env, text, findings)
  {
    var parsed := ParseExceptions(Lines(text));
    if parsed.Failure? {
      return Failure(parsed.error);
    }
    var code, errors := Decide(env, parsed.value, findings);
    return Success((code, errors));
  }
}
