/** The compliance report of a household: which checks it holds, and how each stands. */
module ComplianceReport {
  import opened Text
  import opened Compliance

  // ---- the checks ----

  datatype Status = Pass | Warn | Fail

  datatype CheckResult = CheckResult(id: string, status: Status, remediation: bool)

  datatype CustomCheck = CustomCheck(id: string, keyword: string, failStatus: Status)

  datatype AccountType = Trust | Entity | Retirement | OtherAccount

  type KeywordMap = map<string, seq<string>>

  /** What a run of the checks looks at. */
  datatype Scan = Scan(
    tasks: seq<TaskText>,
    lower: string -> string,
    keywords: KeywordMap,
    accountType: AccountType,
    daysSinceCreation: int,
    customChecks: seq<CustomCheck>,
    remediable: set<string>)

  predicate HasCheck(s: Scan, id: string) {
    id in s.keywords && exists i :: 0 <= i < |s.keywords[id]| && HasTask(s.tasks, s.lower, s.keywords[id][i])
  }

  function StatusOf(found: bool, otherwise: Status): Status {
    if found then Pass else otherwise
  }

  function Check(s: Scan, id: string, otherwise: Status): CheckResult {
    CheckResult(id, StatusOf(HasCheck(s, id), otherwise), false)
  }

  function Results(s: Scan, specs: seq<(string, Status)>): (r: seq<CheckResult>)
    ensures |r| == |specs| && forall i :: 0 <= i < |r| ==> r[i] == Check(s, specs[i].0, specs[i].1)
  {
    seq(|specs|, i requires 0 <= i < |specs| => Check(s, specs[i].0, specs[i].1))
  }

  const IDENTITY: seq<(string, Status)> := [
    ("kyc-profile", Fail), ("trusted-contact", Warn), ("identity-verified", Fail), ("suitability-profile", Fail)]

  const DOCUMENTS: seq<(string, Status)> := [
    ("form-crs", Fail), ("adv-delivery", Warn), ("privacy-notice", Warn), ("beneficiary-designation", Warn), ("signatures", Fail)]

  const PTE: seq<(string, Status)> := [("pte-compliance", Warn)]
  const ACH: seq<(string, Status)> := [("ach-authorization", Fail)]
  const COMPLETENESS: seq<(string, Status)> := [("completeness-check", Fail)]

  function TypeChecks(a: AccountType): seq<(string, Status)> {
    match a
    case Trust => [("trust-certification", Fail), ("trustee-verification", Warn), ("trust-agreement", Warn)]
    case Entity => [("authorized-signers", Fail), ("erisa-compliance", Warn), ("entity-resolution", Fail)]
    case Retirement => [("rmd-tracking", Warn)]
    case OtherAccount => []
  }

  /** The keyword checks before the age warning: the rollover and ACH checks appear only on evidence. */
  function GeneralSpecs(s: Scan): seq<(string, Status)> {
    IDENTITY + (if HasCheck(s, "pte-trigger") then PTE else []) + DOCUMENTS
    + (if HasCheck(s, "ach-authorization") then ACH else []) + COMPLETENESS
  }

  /** The keyword checks after it: retirement accounts get the rollover check even without evidence. */
  function AccountSpecs(s: Scan): seq<(string, Status)> {
    (if s.accountType == Retirement && !HasCheck(s, "pte-trigger") then PTE else []) + TypeChecks(s.accountType)
  }

  const ANNUAL := CheckResult("annual-review", Warn, false)

  function AgeWarning(s: Scan): seq<CheckResult> {
    if s.daysSinceCreation > 365 then [ANNUAL] else []
  }

  function CustomResult(s: Scan, cc: CustomCheck): CheckResult {
    CheckResult("custom-" + cc.id, StatusOf(HasTask(s.tasks, s.lower, cc.keyword), cc.failStatus), false)
  }

  function CustomResults(s: Scan): (r: seq<CheckResult>)
    ensures |r| == |s.customChecks| && forall i :: 0 <= i < |r| ==> r[i] == CustomResult(s, s.customChecks[i])
  {
    seq(|s.customChecks|, i requires 0 <= i < |s.customChecks| => CustomResult(s, s.customChecks[i]))
  }

  function Unremediated(s: Scan): seq<CheckResult> {
    Results(s, GeneralSpecs(s)) + AgeWarning(s) + Results(s, AccountSpecs(s)) + CustomResults(s)
  }

  function Remediated(s: Scan, c: CheckResult): CheckResult {
    if (c.status == Fail || c.status == Warn) && c.id in s.remediable then c.(remediation := true) else c
  }

  /** The report: every check in order, with remediation attached to the open ones that have a template. */
  function Report(s: Scan): (r: seq<CheckResult>)
    ensures |r| == |Unremediated(s)| && forall i :: 0 <= i < |r| ==> r[i] == Remediated(s, Unremediated(s)[i])
  {
    var checks := Unremediated(s);
    seq(|checks|, i requires 0 <= i < |checks| => Remediated(s, checks[i]))
  }

  /** What has been pushed so far: the results of the specs `done`, after the checks `start`. */
  ghost predicate Pushed(s: Scan, start: seq<CheckResult>, done: seq<(string, Status)>, checks: seq<CheckResult>) {
    checks == start + Results(s, done)
  }

  lemma OnePushed(s: Scan, start: seq<CheckResult>, done: seq<(string, Status)>, checks: seq<CheckResult>,
                  spec: (string, Status))
    requires Pushed(s, start, done, checks)
    ensures Pushed(s, start, done + [spec], checks + [Check(s, spec.0, spec.1)])
  {
    assert Results(s, done + [spec]) == Results(s, done) + [Check(s, spec.0, spec.1)];
  }

  method PushChecks(s: Scan, ghost start: seq<CheckResult>, ghost done: seq<(string, Status)>, before: seq<CheckResult>,
                    specs: seq<(string, Status)>)
    returns (checks: seq<CheckResult>)
    requires Pushed(s, start, done, before)
    ensures Pushed(s, start, done + specs, checks)
  {
    checks := before;
    assert done + specs[..0] == done;
    for i := 0 to |specs|
      invariant Pushed(s, start, done + specs[..i], checks)
    {
      OnePushed(s, start, done + specs[..i], checks, specs[i]);
      assert done + specs[..i + 1] == done + specs[..i] + [specs[i]];
      checks := checks + [Check(s, specs[i].0, specs[i].1)];
    }
    assert specs[..|specs|] == specs;
  }

  /** A group of checks that appears only under a condition. */
  method PushIf(s: Scan, ghost start: seq<CheckResult>, ghost done: seq<(string, Status)>, before: seq<CheckResult>,
                condition: bool, specs: seq<(string, Status)>)
    returns (checks: seq<CheckResult>)
    requires Pushed(s, start, done, before)
    ensures Pushed(s, start, done + (if condition then specs else []), checks)
  {
    checks := before;
    if condition {
      checks := PushChecks(s, start, done, checks, specs);
    } else {
      assert done + [] == done;
    }
  }

  method PushGeneralChecks(s: Scan) returns (checks: seq<CheckResult>)
    ensures checks == Results(s, GeneralSpecs(s))
  {
    checks := PushGroups(s, IDENTITY, PTE, HasCheck(s, "pte-trigger"), DOCUMENTS, ACH, HasCheck(s, "ach-authorization"), COMPLETENESS);
  }

  /** Five groups of checks, one after the other, two of them conditional. */
  method PushGroups(s: Scan, a: seq<(string, Status)>, b: seq<(string, Status)>, withB: bool, c: seq<(string, Status)>,
                    d: seq<(string, Status)>, withD: bool, e: seq<(string, Status)>)
    returns (checks: seq<CheckResult>)
    ensures checks == Results(s, a + (if withB then b else []) + c + (if withD then d else []) + e)
  {
    ghost var b', d' := if withB then b else [], if withD then d else [];
    assert Pushed(s, [], [], []);
    checks := PushChecks(s, [], [], [], a);
    assert [] + a == a;
    checks := PushIf(s, [], a, checks, withB, b);
    checks := PushChecks(s, [], a + b', checks, c);
    checks := PushIf(s, [], a + b' + c, checks, withD, d);
    checks := PushChecks(s, [], a + b' + c + d', checks, e);
    NothingBefore(Results(s, a + b' + c + d' + e));
  }

  lemma NothingBefore(checks: seq<CheckResult>)
    ensures [] + checks == checks
  {
  }

  method PushAccountChecks(s: Scan, before: seq<CheckResult>) returns (checks: seq<CheckResult>)
    ensures checks == before + Results(s, AccountSpecs(s)) + CustomResults(s)
  {
    checks := PushTypeChecks(s, before, s.accountType == Retirement && !HasCheck(s, "pte-trigger"));
    checks := PushCustomChecks(s, checks);
  }

  method PushCustomChecks(s: Scan, before: seq<CheckResult>) returns (checks: seq<CheckResult>)
    ensures checks == before + CustomResults(s)
  {
    ghost var custom := CustomResults(s);
    checks := before;
    for i := 0 to |s.customChecks|
      invariant checks == before + custom[..i]
    {
      assert custom[..i + 1] == custom[..i] + [custom[i]];
      checks := checks + [CustomResult(s, s.customChecks[i])];
    }
    assert custom[..|custom|] == custom;
  }

  method PushTypeChecks(s: Scan, before: seq<CheckResult>, rollover: bool) returns (checks: seq<CheckResult>)
    ensures checks == before + Results(s, (if rollover then PTE else []) + TypeChecks(s.accountType))
  {
    assert Pushed(s, before, [], before);
    checks := PushIf(s, before, [], before, rollover, PTE);
    assert [] + (if rollover then PTE else []) == if rollover then PTE else [];
    checks := PushChecks(s, before, if rollover then PTE else [], checks, TypeChecks(s.accountType));
  }

  /** The second pass, over the checks already pushed. */
  method AttachRemediation(s: Scan, before: seq<CheckResult>) returns (checks: seq<CheckResult>)
    ensures |checks| == |before| && forall i :: 0 <= i < |checks| ==> checks[i] == Remediated(s, before[i])
  {
    checks := before;
    for i := 0 to |checks|
      invariant |checks| == |before|
      invariant forall j :: 0 <= j < |checks| ==> checks[j] == if j < i then Remediated(s, before[j]) else before[j]
    {
      checks := checks[i := Remediated(s, checks[i])];
    }
  }

  // ---- adding tasks ----

  predicate Spaceless(s: Scan, keywords: seq<string>) {
    forall i :: 0 <= i < |keywords| ==> ' ' !in s.lower(keywords[i])
  }

  predicate Arrived(s: Scan, more: seq<TaskText>) {
    forall i :: 0 <= i < |s.tasks| ==> s.tasks[i] in more
  }

  lemma HasTaskIsMonotone(tasks: seq<TaskText>, more: seq<TaskText>, lower: string -> string, keyword: string)
    requires forall i :: 0 <= i < |tasks| ==> tasks[i] in more
    requires ' ' !in lower(keyword) && HasTask(tasks, lower, keyword)
    ensures HasTask(more, lower, keyword)
  {
    if lower(keyword) != "" {
      ScanIsFieldwise(tasks, lower, keyword);
      ScanIsFieldwise(more, lower, keyword);
    }
  }

  lemma HasCheckIsMonotone(s: Scan, more: seq<TaskText>, id: string)
    requires Arrived(s, more) && HasCheck(s, id) && Spaceless(s, s.keywords[id])
    ensures HasCheck(s.(tasks := more), id)
  {
    var s' := s.(tasks := more);
    var i :| 0 <= i < |s.keywords[id]| && HasTask(s.tasks, s.lower, s.keywords[id][i]);
    HasTaskIsMonotone(s.tasks, more, s.lower, s.keywords[id][i]);
    assert HasTask(s'.tasks, s'.lower, s'.keywords[id][i]);
  }

  /** The check is met however tasks are added or moved around. */
  ghost predicate CheckSurvives(s: Scan, id: string) {
    forall more: seq<TaskText> :: Arrived(s, more) ==> HasCheck(s.(tasks := more), id)
  }

  /** No keyword of the check has a blank at an end, or uses the letter `c`. */
  predicate TrimmedKeywords(s: Scan, id: string, c: char) {
    id in s.keywords &&
    forall i :: 0 <= i < |s.keywords[id]| ==> Trimmed(s.lower(s.keywords[id][i])) && c !in s.lower(s.keywords[id][i])
  }

  /**
   * A check with such keywords is met whatever tasks are added if and only if a single field contains one of them. (`c` is
   * any letter that none of the keywords uses.)
   */
  lemma CheckSurvivesIff(s: Scan, id: string, c: char)
    requires TrimmedKeywords(s, id, c) && c != ' ' && s.lower([c]) == [c]
    ensures CheckSurvives(s, id) <==> exists i :: 0 <= i < |s.keywords[id]| && InSomeTask(s.tasks, s.lower, s.keywords[id][i])
  {
    if i :| 0 <= i < |s.keywords[id]| && InSomeTask(s.tasks, s.lower, s.keywords[id][i]) {
      InFieldSurvives(s, id, i, c);
    } else {
      var more := Interleaved(s.tasks, TaskText([c], [c]));
      forall i | 0 <= i < |s.tasks|
        ensures s.tasks[i] in more
      {
        assert more[2 * i] == s.tasks[(2 * i) / 2];
      }
      forall i | 0 <= i < |s.keywords[id]|
        ensures !HasTask(more, s.lower, s.keywords[id][i])
      {
        FillersMatchNothing(s.tasks, s.lower, s.keywords[id][i], c);
      }
      assert Arrived(s, more) && !HasCheck(s.(tasks := more), id);
    }
  }

  lemma InFieldSurvives(s: Scan, id: string, i: nat, c: char)
    requires TrimmedKeywords(s, id, c) && c != ' ' && s.lower([c]) == [c]
    requires i < |s.keywords[id]| && InSomeTask(s.tasks, s.lower, s.keywords[id][i])
    ensures CheckSurvives(s, id)
  {
    SurvivesIffInOneField(s.tasks, s.lower, s.keywords[id][i], c);
    forall more: seq<TaskText> | Arrived(s, more)
      ensures HasCheck(s.(tasks := more), id)
    {
      assert HasTask(more, s.lower, s.keywords[id][i]);
    }
  }

  /** A result of the report that passes and is not custom is backed by its keywords; one that does not is not. */
  lemma ReportedStatus(s: Scan, c: CheckResult)
    requires c in Report(s) && !("custom-" <= c.id)
    ensures c.id != "annual-review" ==> (c.status == Pass <==> HasCheck(s, c.id))
  {
    var checks := Unremediated(s);
    var i :| 0 <= i < |checks| && c == Remediated(s, checks[i]);
    UnremediatedElement(s, checks[i]);
  }

  lemma SpecsNeverPass(s: Scan)
    ensures forall i :: 0 <= i < |GeneralSpecs(s)| ==> GeneralSpecs(s)[i].1 != Pass
    ensures forall i :: 0 <= i < |AccountSpecs(s)| ==> AccountSpecs(s)[i].1 != Pass
  {
  }

  lemma UnremediatedElement(s: Scan, c: CheckResult)
    requires c in Unremediated(s)
    ensures (exists otherwise :: otherwise != Pass && c == Check(s, c.id, otherwise)) || c == ANNUAL || "custom-" <= c.id
  {
    var a, b, d, e := Results(s, GeneralSpecs(s)), AgeWarning(s), Results(s, AccountSpecs(s)), CustomResults(s);
    SpecsNeverPass(s);
    if c in a {
      var i :| 0 <= i < |a| && a[i] == c;
      assert c == Check(s, c.id, GeneralSpecs(s)[i].1);
    } else if c in d {
      var i :| 0 <= i < |d| && d[i] == c;
      assert c == Check(s, c.id, AccountSpecs(s)[i].1);
    } else {
      assert c in b || c in e;
    }
  }

  /** The ids of the keyword checks belong to no custom check and are not that of the age warning. */
  predicate IsBuiltIn(id: string) {
    !("custom-" <= id) && id != "annual-review"
  }

  predicate BuiltInStart(id: string) {
    |id| >= 2 && !(id[0] == 'c' && id[1] == 'u') && !(id[0] == 'a' && id[1] == 'n')
  }

  lemma StartDecides(id: string)
    requires BuiltInStart(id)
    ensures IsBuiltIn(id)
  {
    assert "custom-"[0] == 'c' && "custom-"[1] == 'u';
    assert "annual-review"[0] == 'a' && "annual-review"[1] == 'n';
  }

  lemma SpecsAreBuiltIn(s: Scan)
    ensures forall i :: 0 <= i < |GeneralSpecs(s)| ==> BuiltInStart(GeneralSpecs(s)[i].0)
    ensures forall i :: 0 <= i < |AccountSpecs(s)| ==> BuiltInStart(AccountSpecs(s)[i].0)
  {
  }

  lemma KeywordResultsAreBuiltIn(s: Scan, c: CheckResult)
    requires c in Results(s, GeneralSpecs(s)) || c in Results(s, AccountSpecs(s))
    ensures IsBuiltIn(c.id)
  {
    SpecsAreBuiltIn(s);
    StartDecides(c.id);
  }

  /** A result with a custom id is the result of a custom check, and the age warning is none of the others. */
  lemma OtherElement(s: Scan, c: CheckResult)
    requires c in Unremediated(s) && !IsBuiltIn(c.id)
    ensures if "custom-" <= c.id then c in CustomResults(s) else c == ANNUAL
  {
    var a, b, d, e := Results(s, GeneralSpecs(s)), AgeWarning(s), Results(s, AccountSpecs(s)), CustomResults(s);
    assert c in a || c in b || c in d || c in e;
    if c in a || c in d {
      KeywordResultsAreBuiltIn(s, c);
    } else if c in b {
      AnnualIsNotCustom();
    }
  }

  lemma AnnualIsNotCustom()
    ensures !("custom-" <= ANNUAL.id)
  {
    assert "custom-"[0] == 'c' && ANNUAL.id[0] == 'a';
  }

  predicate DistinctCustomIds(s: Scan) {
    forall i, j :: 0 <= i < j < |s.customChecks| ==> s.customChecks[i].id != s.customChecks[j].id
  }

  /** The keywords of the check with this id, built in or custom, hold no space. */
  predicate SpacelessCheck(s: Scan, id: string) {
    if "custom-" <= id then
      forall i :: 0 <= i < |s.customChecks| && id == "custom-" + s.customChecks[i].id ==> ' ' !in s.lower(s.customChecks[i].keyword)
    else id in s.keywords ==> Spaceless(s, s.keywords[id])
  }

  lemma CustomWhere(s: Scan, c: CheckResult) returns (i: nat)
    requires c in CustomResults(s)
    ensures i < |s.customChecks| && c == CustomResult(s, s.customChecks[i])
  {
    i :| 0 <= i < |CustomResults(s)| && CustomResults(s)[i] == c;
  }

  /** A reported result that passes is that of a check whose keyword is found. */
  lemma CustomPasses(s: Scan, c: CheckResult) returns (i: nat)
    requires c in Report(s) && "custom-" <= c.id
    ensures i < |s.customChecks| && c.id == "custom-" + s.customChecks[i].id
    ensures HasTask(s.tasks, s.lower, s.customChecks[i].keyword) ==> c.status == Pass
    ensures c.status == Pass ==> HasTask(s.tasks, s.lower, s.customChecks[i].keyword) || s.customChecks[i].failStatus == Pass
    ensures s.customChecks[i].failStatus == Pass ==> c.status == Pass
  {
    var checks := Unremediated(s);
    var k :| 0 <= k < |checks| && c == Remediated(s, checks[k]);
    OtherElement(s, checks[k]);
    i := CustomWhere(s, checks[k]);
  }

  lemma SameCustom(s: Scan, id: string, i: nat, j: nat)
    requires DistinctCustomIds(s) && i < |s.customChecks| && j < |s.customChecks|
    requires id == "custom-" + s.customChecks[i].id && id == "custom-" + s.customChecks[j].id
    ensures i == j
  {
    assert id[7..] == s.customChecks[i].id && id[7..] == s.customChecks[j].id;
  }

  lemma CustomKeepsPass(s: Scan, more: seq<TaskText>, c: CheckResult, c': CheckResult)
    requires Arrived(s, more) && c in Report(s) && c' in Report(s.(tasks := more)) && c.id == c'.id
    requires "custom-" <= c.id && DistinctCustomIds(s) && SpacelessCheck(s, c.id) && c.status == Pass
    ensures c'.status == Pass
  {
    var i := CustomPasses(s, c);
    var j := CustomPasses(s.(tasks := more), c');
    SameCustom(s, c.id, i, j);
    if HasTask(s.tasks, s.lower, s.customChecks[i].keyword) {
      HasTaskIsMonotone(s.tasks, more, s.lower, s.customChecks[i].keyword);
    }
  }

  lemma AnnualNeverPasses(s: Scan, c: CheckResult)
    requires c in Report(s) && c.id == "annual-review"
    ensures c.status != Pass
  {
    var checks := Unremediated(s);
    var k :| 0 <= k < |checks| && c == Remediated(s, checks[k]);
    AnnualIsNotCustom();
    OtherElement(s, checks[k]);
  }

  /**
   * However tasks are added or moved around, no check with space-free keywords goes from pass to warn or fail: no built-in
   * one, and, when their ids are distinct, none of the firm's own.
   */
  lemma AddingTasksKeepsPasses(s: Scan, more: seq<TaskText>, c: CheckResult, c': CheckResult)
    requires Arrived(s, more) && c in Report(s) && c' in Report(s.(tasks := more)) && c.id == c'.id
    requires SpacelessCheck(s, c.id) && ("custom-" <= c.id ==> DistinctCustomIds(s))
    requires c.status == Pass
    ensures c'.status == Pass
  {
    if "custom-" <= c.id {
      CustomKeepsPass(s, more, c, c');
    } else if c.id == "annual-review" {
      AnnualNeverPasses(s, c);
    } else {
      ReportedStatus(s, c);
      HasCheckIsMonotone(s, more, c.id);
      ReportedStatus(s.(tasks := more), c');
    }
  }

  // ---- which checks a report holds ----

  /** How many results carry this id. */
  function Times(checks: seq<CheckResult>, id: string): nat {
    if checks == [] then 0 else Bit(checks[0].id == id) + Times(checks[1..], id)
  }

  lemma {:induction false} TimesConcat(a: seq<CheckResult>, b: seq<CheckResult>, id: string)
    ensures Times(a + b, id) == Times(a, id) + Times(b, id)
  {
    if a == [] {
      assert a + b == b;
    } else {
      assert (a + b)[1..] == a[1..] + b;
      TimesConcat(a[1..], b, id);
    }
  }

  lemma {:induction false} SameIdsSameTimes(a: seq<CheckResult>, b: seq<CheckResult>, id: string)
    requires |a| == |b| && forall i :: 0 <= i < |a| ==> a[i].id == b[i].id
    ensures Times(a, id) == Times(b, id)
  {
    if a != [] {
      SameIdsSameTimes(a[1..], b[1..], id);
    }
  }

  lemma {:induction false} AbsentTimes(a: seq<CheckResult>, id: string)
    requires forall i :: 0 <= i < |a| ==> a[i].id != id
    ensures Times(a, id) == 0
  {
    if a != [] {
      AbsentTimes(a[1..], id);
    }
  }

  lemma {:induction false} OnceTimes(a: seq<CheckResult>, k: nat)
    requires k < |a| && forall i :: 0 <= i < |a| && i != k ==> a[i].id != a[k].id
    ensures Times(a, a[k].id) == 1
  {
    if k > 0 {
      OnceTimes(a[1..], k - 1);
    } else {
      AbsentTimes(a[1..], a[0].id);
    }
  }

  lemma ResultsConcat(s: Scan, a: seq<(string, Status)>, b: seq<(string, Status)>)
    ensures Results(s, a + b) == Results(s, a) + Results(s, b)
  {
  }

  /** How many times a list of specs gives a result with this id. */
  function Listed(s: Scan, specs: seq<(string, Status)>, id: string): nat {
    Times(Results(s, specs), id)
  }

  lemma ListedConcat(s: Scan, a: seq<(string, Status)>, b: seq<(string, Status)>, id: string)
    ensures Listed(s, a + b, id) == Listed(s, a, id) + Listed(s, b, id)
  {
    ResultsConcat(s, a, b);
    TimesConcat(Results(s, a), Results(s, b), id);
  }

  lemma ListedIf(s: Scan, a: seq<(string, Status)>, when: bool, id: string)
    ensures Listed(s, if when then a else [], id) == if when then Listed(s, a, id) else 0
  {
  }

  lemma FiveGroups(s: Scan, a: seq<(string, Status)>, b: seq<(string, Status)>, withB: bool, c: seq<(string, Status)>,
                   d: seq<(string, Status)>, withD: bool, e: seq<(string, Status)>, id: string)
    ensures Listed(s, a + (if withB then b else []) + c + (if withD then d else []) + e, id)
         == Listed(s, a, id) + (if withB then Listed(s, b, id) else 0) + Listed(s, c, id)
            + (if withD then Listed(s, d, id) else 0) + Listed(s, e, id)
  {
    var b', d' := if withB then b else [], if withD then d else [];
    ListedIf(s, b, withB, id);
    ListedIf(s, d, withD, id);
    ListedConcat(s, a + b' + c + d', e, id);
    ListedConcat(s, a + b' + c, d', id);
    ListedConcat(s, a + b', c, id);
    ListedConcat(s, a, b', id);
  }

  /** The groups of the report, told apart by the first and the seventh letter of an id. */
  datatype Group = NoGroup | Identity | Documents | Completeness | Pte | Ach | Annual | Trusts | Entities | Rmd

  function GroupOf(id: string): Group {
    if |id| < 7 then NoGroup else GroupOfLetters(id[0], id[6])
  }

  function GroupOfLetters(a: char, b: char): Group {
    if (a == 'k' && b == 'o') || (a == 't' && b == 'd') || (a == 'i' && b == 't') || (a == 's' && b == 'i') then Identity
    else if (a == 'f' && b == 'r') || (a == 'a' && b == 'l') || (a == 'p' && b == 'y') || (a == 'b' && b == 'c') || (a == 's' && b == 'u') then Documents
    else if (a == 'c' && b == 't') then Completeness
    else if (a == 'p' && b == 'm') then Pte
    else if (a == 'a' && b == 't') then Ach
    else if (a == 'a' && b == '-') then Annual
    else if (a == 't' && b == 'c') || (a == 't' && b == 'e') || (a == 't' && b == 'a') then Trusts
    else if (a == 'a' && b == 'i') || (a == 'e' && b == 'c') || (a == 'e' && b == '-') then Entities
    else if (a == 'r' && b == 'a') then Rmd
    else NoGroup
  }

  /** Every id of the list is in the group, and no two have the same letters. */
  predicate Forms(specs: seq<(string, Status)>, g: Group) {
    && (forall i :: 0 <= i < |specs| ==> |specs[i].0| >= 7 && GroupOf(specs[i].0) == g)
    && (forall i, j :: 0 <= i < j < |specs| ==> specs[i].0[0] != specs[j].0[0] || specs[i].0[6] != specs[j].0[6])
  }

  lemma MemberListed(s: Scan, specs: seq<(string, Status)>, g: Group, k: nat)
    requires Forms(specs, g) && k < |specs|
    ensures Listed(s, specs, specs[k].0) == 1
  {
    OnceTimes(Results(s, specs), k);
  }

  lemma ForeignListed(s: Scan, specs: seq<(string, Status)>, g: Group, id: string)
    requires Forms(specs, g) && GroupOf(id) != g
    ensures Listed(s, specs, id) == 0
  {
    AbsentTimes(Results(s, specs), id);
  }

  predicate Spelled(id: string, a: char, b: char) {
    |id| >= 7 && id[0] == a && id[6] == b
  }

  /** Ids spelled with these letters form a group when the letters do. */
  lemma LettersForm(specs: seq<(string, Status)>, letters: seq<(char, char)>, g: Group)
    requires |letters| == |specs|
    requires forall i :: 0 <= i < |specs| ==> Spelled(specs[i].0, letters[i].0, letters[i].1) && GroupOfLetters(letters[i].0, letters[i].1) == g
    requires forall i, j :: 0 <= i < j < |letters| ==> letters[i] != letters[j]
    ensures Forms(specs, g)
  {
    forall i, j | 0 <= i < j < |specs|
      ensures specs[i].0[0] != specs[j].0[0] || specs[i].0[6] != specs[j].0[6]
    {
      assert letters[i] != letters[j];
    }
  }

  lemma IdentityLetters()
    ensures Spelled("kyc-profile", 'k', 'o')
    ensures Spelled("trusted-contact", 't', 'd')
    ensures Spelled("identity-verified", 'i', 't')
    ensures Spelled("suitability-profile", 's', 'i')
  {
  }

  lemma IdentityGroup()
    ensures Forms(IDENTITY, Identity)
  {
    IdentityLetters();
    LettersForm(IDENTITY, [('k', 'o'), ('t', 'd'), ('i', 't'), ('s', 'i')], Identity);
  }

  lemma DocumentsLetters()
    ensures Spelled("form-crs", 'f', 'r')
    ensures Spelled("adv-delivery", 'a', 'l')
    ensures Spelled("privacy-notice", 'p', 'y')
    ensures Spelled("beneficiary-designation", 'b', 'c')
    ensures Spelled("signatures", 's', 'u')
  {
  }

  lemma DocumentsGroup()
    ensures Forms(DOCUMENTS, Documents)
  {
    DocumentsLetters();
    LettersForm(DOCUMENTS, [('f', 'r'), ('a', 'l'), ('p', 'y'), ('b', 'c'), ('s', 'u')], Documents);
  }

  lemma TrustsLetters()
    ensures Spelled("trust-certification", 't', 'c')
    ensures Spelled("trustee-verification", 't', 'e')
    ensures Spelled("trust-agreement", 't', 'a')
  {
  }

  lemma TrustsGroup()
    ensures Forms(TypeChecks(Trust), Trusts)
  {
    TrustsLetters();
    LettersForm(TypeChecks(Trust), [('t', 'c'), ('t', 'e'), ('t', 'a')], Trusts);
  }

  lemma EntitiesLetters()
    ensures Spelled("authorized-signers", 'a', 'i')
    ensures Spelled("erisa-compliance", 'e', 'c')
    ensures Spelled("entity-resolution", 'e', '-')
  {
  }

  lemma EntitiesGroup()
    ensures Forms(TypeChecks(Entity), Entities)
  {
    EntitiesLetters();
    LettersForm(TypeChecks(Entity), [('a', 'i'), ('e', 'c'), ('e', '-')], Entities);
  }

  lemma SingleGroups()
    ensures Forms(COMPLETENESS, Completeness) && Forms(PTE, Pte) && Forms(ACH, Ach)
  {
  }

  lemma RetirementGroup()
    ensures Forms(TypeChecks(Retirement), Rmd) && TypeChecks(OtherAccount) == []
  {
  }

  /** Adds up: a list gives one result for each of its ids and none for the ids of other groups. */
  lemma GroupListed(s: Scan, specs: seq<(string, Status)>, g: Group, id: string)
    requires Forms(specs, g)
    ensures GroupOf(id) != g ==> Listed(s, specs, id) == 0
    ensures forall k :: 0 <= k < |specs| && specs[k].0 == id ==> Listed(s, specs, id) == 1
  {
    if GroupOf(id) != g {
      ForeignListed(s, specs, g, id);
    }
    forall k | 0 <= k < |specs| && specs[k].0 == id
      ensures Listed(s, specs, id) == 1
    {
      MemberListed(s, specs, g, k);
    }
  }

  /** The specs of a group. */
  function ListOf(g: Group): seq<(string, Status)> {
    match g
    case NoGroup => []
    case Identity => IDENTITY
    case Documents => DOCUMENTS
    case Completeness => COMPLETENESS
    case Pte => PTE
    case Ach => ACH
    case Annual => [("annual-review", Warn)]
    case Trusts => TypeChecks(Trust)
    case Entities => TypeChecks(Entity)
    case Rmd => TypeChecks(Retirement)
  }

  lemma GroupsForm(g: Group)
    ensures Forms(ListOf(g), g)
  {
    match g
    case Identity => IdentityGroup();
    case Documents => DocumentsGroup();
    case Trusts => TrustsGroup();
    case Entities => EntitiesGroup();
    case Completeness => SingleGroups();
    case Pte => SingleGroups();
    case Ach => SingleGroups();
    case Rmd => RetirementGroup();
    case Annual =>
    case NoGroup =>
  }

  /** When a group is part of the report. */
  predicate IsIn(s: Scan, g: Group) {
    match g
    case NoGroup => false
    case Identity => true
    case Documents => true
    case Completeness => true
    case Pte => HasCheck(s, "pte-trigger") || s.accountType == Retirement
    case Ach => HasCheck(s, "ach-authorization")
    case Annual => s.daysSinceCreation > 365
    case Trusts => s.accountType == Trust
    case Entities => s.accountType == Entity
    case Rmd => s.accountType == Retirement
  }

  lemma ListedIn(s: Scan, g: Group, h: Group, k: nat)
    requires k < |ListOf(g)|
    ensures Listed(s, ListOf(h), ListOf(g)[k].0) == Bit(g == h)
  {
    GroupsForm(g);
    GroupsForm(h);
    GroupListed(s, ListOf(h), h, ListOf(g)[k].0);
  }

  lemma GeneralTimes(s: Scan, id: string)
    ensures Listed(s, GeneralSpecs(s), id) == Listed(s, IDENTITY, id) + (if HasCheck(s, "pte-trigger") then Listed(s, PTE, id) else 0)
              + Listed(s, DOCUMENTS, id) + (if HasCheck(s, "ach-authorization") then Listed(s, ACH, id) else 0)
              + Listed(s, COMPLETENESS, id)
  {
    FiveGroups(s, IDENTITY, PTE, HasCheck(s, "pte-trigger"), DOCUMENTS, ACH, HasCheck(s, "ach-authorization"), COMPLETENESS, id);
  }

  lemma AccountTimes(s: Scan, id: string)
    ensures Listed(s, AccountSpecs(s), id)
         == (if s.accountType == Retirement && !HasCheck(s, "pte-trigger") then Listed(s, PTE, id) else 0)
            + Listed(s, TypeChecks(s.accountType), id)
  {
    var rollover := s.accountType == Retirement && !HasCheck(s, "pte-trigger");
    ListedIf(s, PTE, rollover, id);
    ListedConcat(s, if rollover then PTE else [], TypeChecks(s.accountType), id);
  }

  lemma AgeTimes(s: Scan, id: string)
    ensures Times(AgeWarning(s), id) == Bit(s.daysSinceCreation > 365 && id == "annual-review")
  {
    if s.daysSinceCreation > 365 {
      assert [ANNUAL][1..] == [];
    }
  }

  lemma CustomTimes(s: Scan, id: string)
    requires !("custom-" <= id)
    ensures Times(CustomResults(s), id) == 0
  {
    forall i | 0 <= i < |CustomResults(s)|
      ensures CustomResults(s)[i].id != id
    {
      assert "custom-" <= "custom-" + s.customChecks[i].id;
    }
    AbsentTimes(CustomResults(s), id);
  }

  lemma ReportTimes(s: Scan, id: string)
    requires !("custom-" <= id)
    ensures Times(Report(s), id) == Listed(s, GeneralSpecs(s), id) + Times(AgeWarning(s), id) + Listed(s, AccountSpecs(s), id)
  {
    var a, b, d, e := Results(s, GeneralSpecs(s)), AgeWarning(s), Results(s, AccountSpecs(s)), CustomResults(s);
    SameIdsSameTimes(Report(s), Unremediated(s), id);
    TimesConcat(a + b + d, e, id);
    TimesConcat(a + b, d, id);
    TimesConcat(a, b, id);
    CustomTimes(s, id);
  }

  lemma GeneralByGroup(s: Scan, g: Group, k: nat)
    requires k < |ListOf(g)|
    ensures Listed(s, GeneralSpecs(s), ListOf(g)[k].0)
         == Bit(g == Identity || g == Documents || g == Completeness || (g == Pte && HasCheck(s, "pte-trigger"))
                || (g == Ach && HasCheck(s, "ach-authorization")))
  {
    GeneralTimes(s, ListOf(g)[k].0);
    ListedIn(s, g, Identity, k);
    ListedIn(s, g, Documents, k);
    ListedIn(s, g, Completeness, k);
    ListedIn(s, g, Pte, k);
    ListedIn(s, g, Ach, k);
  }

  lemma AccountByGroup(s: Scan, g: Group, k: nat)
    requires k < |ListOf(g)|
    ensures Listed(s, AccountSpecs(s), ListOf(g)[k].0)
         == Bit((g == Pte && s.accountType == Retirement && !HasCheck(s, "pte-trigger"))
                || (g == Trusts && s.accountType == Trust) || (g == Entities && s.accountType == Entity)
                || (g == Rmd && s.accountType == Retirement))
  {
    AccountTimes(s, ListOf(g)[k].0);
    ListedIn(s, g, Pte, k);
    ListedIn(s, g, Trusts, k);
    ListedIn(s, g, Entities, k);
    ListedIn(s, g, Rmd, k);
    ListedIn(s, g, NoGroup, k);
  }

  lemma GroupIsNotCustom(id: string)
    requires GroupOf(id) != NoGroup
    ensures !("custom-" <= id)
  {
    assert "custom-"[0] == 'c' && "custom-"[6] == '-';
  }

  lemma AnnualIsAnnual(id: string)
    requires GroupOf(id) != Annual
    ensures id != "annual-review"
  {
  }

  lemma AgeByGroup(s: Scan, g: Group, k: nat)
    requires k < |ListOf(g)|
    ensures Times(AgeWarning(s), ListOf(g)[k].0) == Bit(g == Annual && s.daysSinceCreation > 365)
  {
    AgeTimes(s, ListOf(g)[k].0);
    GroupsForm(g);
    if g != Annual {
      AnnualIsAnnual(ListOf(g)[k].0);
    }
  }

  /** Each id of a group is reported once when the group is in the report, and not at all otherwise. */
  lemma MemberTimes(s: Scan, g: Group, k: nat)
    requires k < |ListOf(g)|
    ensures Times(Report(s), ListOf(g)[k].0) == Bit(IsIn(s, g))
  {
    GroupsForm(g);
    GroupIsNotCustom(ListOf(g)[k].0);
    ReportTimes(s, ListOf(g)[k].0);
    GeneralByGroup(s, g, k);
    AgeByGroup(s, g, k);
    AccountByGroup(s, g, k);
  }

  // ---- how each stands ----

  lemma InList(g: Group, spec: (string, Status))
    requires spec in ListOf(g)
    ensures GroupOf(spec.0) == g
  {
    GroupsForm(g);
  }

  lemma SameSpec(g: Group, k: nat, spec: (string, Status))
    requires k < |ListOf(g)| && spec in ListOf(g) && spec.0 == ListOf(g)[k].0
    ensures spec == ListOf(g)[k]
  {
    GroupsForm(g);
    var j :| 0 <= j < |ListOf(g)| && ListOf(g)[j] == spec;
  }

  lemma GeneralSpecInGroup(s: Scan, spec: (string, Status))
    requires spec in GeneralSpecs(s)
    ensures spec in ListOf(GroupOf(spec.0))
  {
    if spec in IDENTITY {
      InList(Identity, spec);
    } else if spec in DOCUMENTS {
      InList(Documents, spec);
    } else if spec in COMPLETENESS {
      InList(Completeness, spec);
    } else if spec in PTE {
      InList(Pte, spec);
    } else {
      assert spec in ACH;
      InList(Ach, spec);
    }
  }

  lemma AccountSpecInGroup(s: Scan, spec: (string, Status))
    requires spec in AccountSpecs(s)
    ensures spec in ListOf(GroupOf(spec.0))
  {
    if spec in PTE {
      InList(Pte, spec);
    } else {
      assert spec in TypeChecks(s.accountType);
      InList(match s.accountType case Trust => Trusts case Entity => Entities case Retirement => Rmd case OtherAccount => NoGroup, spec);
    }
  }

  lemma ResultOfSpec(s: Scan, specs: seq<(string, Status)>, c: CheckResult) returns (spec: (string, Status))
    requires c in Results(s, specs)
    ensures spec in specs && c == Check(s, spec.0, spec.1)
  {
    var i :| 0 <= i < |specs| && Results(s, specs)[i] == c;
    spec := specs[i];
  }

  lemma UnremediatedSpec(s: Scan, c: CheckResult) returns (spec: (string, Status))
    requires c in Unremediated(s) && IsBuiltIn(c.id)
    ensures spec in ListOf(GroupOf(spec.0)) && c == Check(s, spec.0, spec.1)
  {
    var a, b, d, e := Results(s, GeneralSpecs(s)), AgeWarning(s), Results(s, AccountSpecs(s)), CustomResults(s);
    if c in a {
      spec := ResultOfSpec(s, GeneralSpecs(s), c);
      GeneralSpecInGroup(s, spec);
    } else {
      BuiltInIsKeyword(s, c);
      spec := ResultOfSpec(s, AccountSpecs(s), c);
      AccountSpecInGroup(s, spec);
    }
  }

  lemma BuiltInIsKeyword(s: Scan, c: CheckResult)
    requires c in Unremediated(s) && IsBuiltIn(c.id) && c !in Results(s, GeneralSpecs(s))
    ensures c in Results(s, AccountSpecs(s))
  {
    assert c in AgeWarning(s) || c in Results(s, AccountSpecs(s)) || c in CustomResults(s);
  }

  lemma GroupIdIsBuiltIn(id: string)
    requires GroupOf(id) != NoGroup && GroupOf(id) != Annual
    ensures IsBuiltIn(id)
  {
    GroupIsNotCustom(id);
    AnnualIsAnnual(id);
  }

  lemma ReportedSpec(s: Scan, c: CheckResult) returns (spec: (string, Status))
    requires c in Report(s) && IsBuiltIn(c.id)
    ensures spec in ListOf(GroupOf(c.id)) && spec.0 == c.id && c.status == StatusOf(HasCheck(s, c.id), spec.1)
  {
    var i :| 0 <= i < |Report(s)| && Report(s)[i] == c;
    spec := UnremediatedSpec(s, Unremediated(s)[i]);
  }

  lemma MemberGroup(g: Group, k: nat)
    requires k < |ListOf(g)|
    ensures GroupOf(ListOf(g)[k].0) == g && g != NoGroup
  {
    GroupsForm(g);
  }

  /** A result of the group has the status of its keywords. */
  lemma MemberStatus(s: Scan, g: Group, k: nat, c: CheckResult)
    requires k < |ListOf(g)| && g != Annual && c in Report(s) && c.id == ListOf(g)[k].0
    ensures c.status == StatusOf(HasCheck(s, c.id), ListOf(g)[k].1)
  {
    MemberGroup(g, k);
    GroupIdIsBuiltIn(c.id);
    var spec := ReportedSpec(s, c);
    SameSpec(g, k, spec);
  }

  /**
   * The id is reported once under the condition and not at all otherwise; a result with it passes when its keywords are found
   * and has the open status when they are not.
   */
  predicate Reports(s: Scan, checks: seq<CheckResult>, id: string, when: bool, open: Status) {
    Times(checks, id) == Bit(when) &&
    forall i :: 0 <= i < |checks| && checks[i].id == id ==> checks[i].status == if HasCheck(s, id) then Pass else open
  }

  lemma MemberReported(s: Scan, g: Group, k: nat, id: string, open: Status)
    requires k < |ListOf(g)| && g != Annual && ListOf(g)[k] == (id, open)
    ensures Reports(s, Report(s), id, IsIn(s, g), open)
  {
    MemberTimes(s, g, k);
    forall i | 0 <= i < |Report(s)| && Report(s)[i].id == id
      ensures Report(s)[i].status == if HasCheck(s, id) then Pass else open
    {
      MemberStatus(s, g, k, Report(s)[i]);
    }
  }

  /** The checks every household gets. */
  predicate GeneralReported(s: Scan, checks: seq<CheckResult>) {
    && Reports(s, checks, "kyc-profile", true, Fail)
    && Reports(s, checks, "trusted-contact", true, Warn)
    && Reports(s, checks, "identity-verified", true, Fail)
    && Reports(s, checks, "suitability-profile", true, Fail)
    && Reports(s, checks, "form-crs", true, Fail)
    && Reports(s, checks, "adv-delivery", true, Warn)
    && Reports(s, checks, "privacy-notice", true, Warn)
    && Reports(s, checks, "beneficiary-designation", true, Warn)
    && Reports(s, checks, "signatures", true, Fail)
    && Reports(s, checks, "completeness-check", true, Fail)
  }

  /** The checks that depend on what was found. */
  predicate ConditionalReported(s: Scan, checks: seq<CheckResult>) {
    && Reports(s, checks, "pte-compliance", HasCheck(s, "pte-trigger") || s.accountType == Retirement, Warn)
    && Reports(s, checks, "ach-authorization", HasCheck(s, "ach-authorization"), Fail)
  }

  /** The checks that depend on the type of the account. */
  predicate AccountReported(s: Scan, checks: seq<CheckResult>) {
    && Reports(s, checks, "trust-certification", s.accountType == Trust, Fail)
    && Reports(s, checks, "trustee-verification", s.accountType == Trust, Warn)
    && Reports(s, checks, "trust-agreement", s.accountType == Trust, Warn)
    && Reports(s, checks, "authorized-signers", s.accountType == Entity, Fail)
    && Reports(s, checks, "erisa-compliance", s.accountType == Entity, Warn)
    && Reports(s, checks, "entity-resolution", s.accountType == Entity, Fail)
    && Reports(s, checks, "rmd-tracking", s.accountType == Retirement, Warn)
  }

  predicate AnnualReported(s: Scan, checks: seq<CheckResult>) {
    Times(checks, "annual-review") == Bit(s.daysSinceCreation > 365) &&
    forall i :: 0 <= i < |checks| && checks[i].id == "annual-review" ==> checks[i].status == Warn
  }

  lemma GeneralHolds(s: Scan)
    ensures GeneralReported(s, Report(s))
  {
    MemberReported(s, Identity, 0, "kyc-profile", Fail);
    MemberReported(s, Identity, 1, "trusted-contact", Warn);
    MemberReported(s, Identity, 2, "identity-verified", Fail);
    MemberReported(s, Identity, 3, "suitability-profile", Fail);
    MemberReported(s, Documents, 0, "form-crs", Fail);
    MemberReported(s, Documents, 1, "adv-delivery", Warn);
    MemberReported(s, Documents, 2, "privacy-notice", Warn);
    MemberReported(s, Documents, 3, "beneficiary-designation", Warn);
    MemberReported(s, Documents, 4, "signatures", Fail);
    MemberReported(s, Completeness, 0, "completeness-check", Fail);
  }

  lemma ConditionalHolds(s: Scan)
    ensures ConditionalReported(s, Report(s))
  {
    MemberReported(s, Pte, 0, "pte-compliance", Warn);
    MemberReported(s, Ach, 0, "ach-authorization", Fail);
  }

  lemma AccountHolds(s: Scan)
    ensures AccountReported(s, Report(s))
  {
    MemberReported(s, Trusts, 0, "trust-certification", Fail);
    MemberReported(s, Trusts, 1, "trustee-verification", Warn);
    MemberReported(s, Trusts, 2, "trust-agreement", Warn);
    MemberReported(s, Entities, 0, "authorized-signers", Fail);
    MemberReported(s, Entities, 1, "erisa-compliance", Warn);
    MemberReported(s, Entities, 2, "entity-resolution", Fail);
    MemberReported(s, Rmd, 0, "rmd-tracking", Warn);
  }

  lemma AnnualHolds(s: Scan)
    ensures AnnualReported(s, Report(s))
  {
    MemberTimes(s, Annual, 0);
    forall i | 0 <= i < |Report(s)| && Report(s)[i].id == "annual-review"
      ensures Report(s)[i].status == Warn
    {
      AnnualIsNotCustom();
      OtherElement(s, Unremediated(s)[i]);
    }
  }

  /** Result `k` is that of the firm's own check `cc`. */
  predicate IsOwnCheck(s: Scan, c: CheckResult, cc: CustomCheck) {
    c.id == "custom-" + cc.id && c.status == if HasTask(s.tasks, s.lower, cc.keyword) then Pass else cc.failStatus
  }

  predicate HasCustomId(c: CheckResult) {
    "custom-" <= c.id
  }

  /** From result `n` on the firm's own checks follow, in order, and nothing before them has such an id. */
  predicate CustomFrom(s: Scan, checks: seq<CheckResult>, n: nat) {
    && |checks| == n + |s.customChecks|
    && (forall j :: 0 <= j < |s.customChecks| ==> IsOwnCheck(s, checks[n + j], s.customChecks[j]))
    && (forall i :: 0 <= i < n ==> !HasCustomId(checks[i]))
  }

  /** The firm's own checks come last. */
  predicate CustomReported(s: Scan, checks: seq<CheckResult>) {
    |checks| >= |s.customChecks| && CustomFrom(s, checks, |checks| - |s.customChecks|)
  }

  /** The results before the firm's own. */
  function BuiltInResults(s: Scan): seq<CheckResult> {
    Results(s, GeneralSpecs(s)) + AgeWarning(s) + Results(s, AccountSpecs(s))
  }

  lemma BuiltInIsNotCustom(s: Scan, c: CheckResult)
    requires c in BuiltInResults(s)
    ensures !("custom-" <= c.id)
  {
    if c in AgeWarning(s) {
      AnnualIsNotCustom();
    } else {
      assert c in Results(s, GeneralSpecs(s)) || c in Results(s, AccountSpecs(s));
      KeywordResultsAreBuiltIn(s, c);
    }
  }

  lemma BuiltInAt(s: Scan, checks: seq<CheckResult>, i: nat)
    requires checks == Report(s) && i < |BuiltInResults(s)|
    ensures i < |checks| && !HasCustomId(checks[i])
  {
    assert Unremediated(s) == BuiltInResults(s) + CustomResults(s);
    BuiltInIsNotCustom(s, BuiltInResults(s)[i]);
  }

  lemma CustomAt(s: Scan, checks: seq<CheckResult>, j: nat)
    requires checks == Report(s) && j < |s.customChecks|
    ensures |BuiltInResults(s)| + j < |checks| && IsOwnCheck(s, checks[|BuiltInResults(s)| + j], s.customChecks[j])
  {
    assert Unremediated(s) == BuiltInResults(s) + CustomResults(s);
  }

  lemma ReportSize(s: Scan, checks: seq<CheckResult>)
    requires checks == Report(s)
    ensures |checks| - |s.customChecks| == |BuiltInResults(s)|
  {
  }

  lemma NoCustomBefore(s: Scan, checks: seq<CheckResult>, n: nat)
    requires checks == Report(s) && n == |BuiltInResults(s)| <= |checks|
    ensures forall i :: 0 <= i < n ==> !HasCustomId(checks[i])
  {
    forall i | 0 <= i < n
      ensures !HasCustomId(checks[i])
    {
      BuiltInAt(s, checks, i);
    }
  }

  lemma CustomAfter(s: Scan, checks: seq<CheckResult>, n: nat)
    requires checks == Report(s) && n == |BuiltInResults(s)| && |checks| == n + |s.customChecks|
    ensures forall j :: 0 <= j < |s.customChecks| ==> IsOwnCheck(s, checks[n + j], s.customChecks[j])
  {
    forall j | 0 <= j < |s.customChecks|
      ensures IsOwnCheck(s, checks[n + j], s.customChecks[j])
    {
      CustomAt(s, checks, j);
    }
  }

  lemma CustomStarts(s: Scan, checks: seq<CheckResult>, n: nat)
    requires checks == Report(s) && n == |BuiltInResults(s)| && |checks| == n + |s.customChecks|
    ensures CustomFrom(s, checks, n)
  {
    NoCustomBefore(s, checks, n);
    CustomAfter(s, checks, n);
  }

  lemma CustomLast(s: Scan, checks: seq<CheckResult>, n: nat)
    requires CustomFrom(s, checks, n)
    ensures CustomReported(s, checks)
  {
  }

  lemma CustomHolds(s: Scan, checks: seq<CheckResult>)
    requires checks == Report(s)
    ensures CustomReported(s, checks)
  {
    ReportSize(s, checks);
    CustomStarts(s, checks, |BuiltInResults(s)|);
    CustomLast(s, checks, |BuiltInResults(s)|);
  }

  /** Exactly the open results with a template carry a remediation. */
  predicate RemediationAttached(s: Scan, checks: seq<CheckResult>) {
    forall i :: 0 <= i < |checks| ==> (checks[i].remediation <==> checks[i].status != Pass && checks[i].id in s.remediable)
  }

  lemma NotYetRemediated(s: Scan, c: CheckResult)
    requires c in Unremediated(s)
    ensures !c.remediation
  {
    var a, b, d, e := Results(s, GeneralSpecs(s)), AgeWarning(s), Results(s, AccountSpecs(s)), CustomResults(s);
    assert c in a || c in b || c in d || c in e;
  }

  lemma RemediationHolds(s: Scan)
    ensures RemediationAttached(s, Report(s))
  {
    forall i | 0 <= i < |Report(s)|
      ensures Report(s)[i].remediation <==> Report(s)[i].status != Pass && Report(s)[i].id in s.remediable
    {
      NotYetRemediated(s, Unremediated(s)[i]);
    }
  }

  /** Nothing else is reported: the number of results is that of the checks listed. */
  predicate NothingElse(s: Scan, checks: seq<CheckResult>) {
    |checks| == 10 + Bit(HasCheck(s, "pte-trigger") || s.accountType == Retirement) + Bit(HasCheck(s, "ach-authorization"))
                + Bit(s.daysSinceCreation > 365) + 3 * Bit(s.accountType == Trust) + 3 * Bit(s.accountType == Entity)
                + Bit(s.accountType == Retirement) + |s.customChecks|
  }

  lemma NothingElseHolds(s: Scan)
    ensures NothingElse(s, Report(s))
  {
  }

  /** The table of the report: which id is reported when, and how it stands. */
  predicate ReportIs(s: Scan, checks: seq<CheckResult>) {
    && GeneralReported(s, checks) && ConditionalReported(s, checks) && AccountReported(s, checks)
    && AnnualReported(s, checks) && CustomReported(s, checks) && NothingElse(s, checks)
  }

  lemma ReportHolds(s: Scan, checks: seq<CheckResult>)
    requires checks == Report(s)
    ensures ReportIs(s, checks) && RemediationAttached(s, checks)
  {
    GeneralHolds(s);
    ConditionalHolds(s);
    AccountHolds(s);
    AnnualHolds(s);
    CustomHolds(s, checks);
    NothingElseHolds(s);
    RemediationHolds(s);
  }

  method RunComplianceChecks(s: Scan) returns (checks: seq<CheckResult>)
    ensures checks == Report(s)
    ensures ReportIs(s, checks) && RemediationAttached(s, checks)
  {
    checks := PushGeneralChecks(s);
    if s.daysSinceCreation > 365 {
      checks := checks + [ANNUAL];
    }
    checks := PushAccountChecks(s, checks);
    assert checks == Unremediated(s);
    checks := AttachRemediation(s, checks);
    ReportHolds(s, checks);
  }
}
