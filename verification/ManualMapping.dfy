/** User correction of a low-confidence mapping: the choices offered, the choice parser, and the corrected mapping. */
module ManualMapping {
  import opened Text
  import opened SoqlLiteral
  import opened SoqlQuery
  import opened OrgMapping
  import opened OrgQuery
  import opened OrgQueryMeaning
  import opened SchemaDiscovery
  import StableSort

  // ---- the choices ----

  datatype MappingChoice = MappingChoice(value: string, confidence: nat)

  function ByConfidence(): MappingChoice -> int {
    (c: MappingChoice) => -(c.confidence as int)
  }

  datatype MappingChoices = MappingChoices(
    householdOptions: seq<MappingChoice>,
    advisorFieldOptions: seq<MappingChoice>,
    aumFieldOptions: seq<MappingChoice>)

  /** What an option stands for. */
  datatype Named = NamedRecordType(v: string) | NamedType(v: string) | NamedObject(v: string) | NamedAllAccounts

  /** The option value shown to the browser and sent back. */
  function Print(n: Named): string {
    match n
    case NamedRecordType(v) => "recordType" + ":" + v
    case NamedType(v) => "typePicklist" + ":" + v
    case NamedObject(v) => "customObject" + ":" + v
    case NamedAllAccounts => "allAccounts" + ":" + ""
  }

  function RecordTypeOptions(rts: seq<RecordTypeInfo>): seq<MappingChoice> {
    if rts == [] then [] else
    var n := |rts| - 1;
    var rt := rts[n];
    if rt.active && rt.developerName != "Master" then
      RecordTypeOptions(rts[..n])
      + [MappingChoice(Print(NamedRecordType(rt.developerName)), if IsHouseholdWord(rt.developerName) then 95 else 50)]
    else RecordTypeOptions(rts[..n])
  }

  function PicklistOptions(pvs: seq<PicklistValue>): seq<MappingChoice> {
    if pvs == [] then [] else
    var n := |pvs| - 1;
    PicklistOptions(pvs[..n])
    + if pvs[n].active
      then [MappingChoice(Print(NamedType(pvs[n].value)), if IsHouseholdWord(pvs[n].value) then 85 else 40)]
      else []
  }

  predicate Listed(options: seq<MappingChoice>, value: string) {
    exists i :: 0 <= i < |options| && options[i].value == value
  }

  /** Values found in the data are added unless an option with the same value is already there. */
  function WithDataValues(options: seq<MappingChoice>, tvs: seq<TypeValue>): seq<MappingChoice> {
    if tvs == [] then options else
    var n := |tvs| - 1;
    var so := WithDataValues(options, tvs[..n]);
    var value := Print(NamedType(tvs[n].value));
    if Listed(so, value) then so
    else so + [MappingChoice(value, if IsHouseholdWord(tvs[n].value) then 90 else 35)]
  }

  function ObjectOptions(objects: seq<CandidateObject>): seq<MappingChoice> {
    if objects == [] then [] else
    var n := |objects| - 1;
    ObjectOptions(objects[..n])
    + [MappingChoice(Print(NamedObject(objects[n].name)), if IsGroupWord(objects[n].name) then 65 else 30)]
  }

  const ALL_ACCOUNTS := MappingChoice(Print(NamedAllAccounts), 40)

  function TypeValues(b: Bundle): seq<PicklistValue> {
    if TypeField(b).None? then [] else TypeField(b).value.picklistValues
  }

  /** The household options in the order they are pushed. */
  function HouseholdOptions(b: Bundle): seq<MappingChoice> {
    WithDataValues(RecordTypeOptions(RecordTypes(b)) + PicklistOptions(TypeValues(b)), b.accountTypeValues)
    + ObjectOptions(b.candidateCustomObjects) + [ALL_ACCOUNTS]
  }

  function AccountFields(b: Bundle): seq<FieldDescribe> {
    if b.accountDescribe.None? then [] else b.accountDescribe.value.fields
  }

  function AdvisorOptions(fields: seq<FieldDescribe>): seq<MappingChoice> {
    if fields == [] then [MappingChoice("OwnerId", 70)] else
    var n := |fields| - 1;
    var f := fields[n];
    AdvisorOptions(fields[..n])
    + if f.name != "OwnerId" && f.kind == "reference" && "User" in f.referenceTo
      then [MappingChoice(f.name, if Mentions(f.labelText, ["advisor", "rm", "planner", "rep", "manager"]) then 90 else 50)]
      else []
  }

  function AumOptions(fields: seq<FieldDescribe>): seq<MappingChoice> {
    if fields == [] then [MappingChoice("__none__", 30)] else
    var n := |fields| - 1;
    AumOptions(fields[..n])
    + if fields[n].kind == "currency"
      then [MappingChoice(fields[n].name, if IsAumLabel(fields[n].labelText) then 85 else 40)]
      else []
  }

  /** The three lists are built by pushing and then sorted in place by descending confidence. */
  method BuildMappingChoices(b: Bundle) returns (choices: MappingChoices)
    ensures choices.householdOptions == StableSort.Sort(HouseholdOptions(b), ByConfidence())
    ensures choices.advisorFieldOptions == StableSort.Sort(AdvisorOptions(AccountFields(b)), ByConfidence())
    ensures choices.aumFieldOptions == StableSort.Sort(AumOptions(AccountFields(b)), ByConfidence())
  {
    var householdOptions := PushHouseholdOptions(RecordTypes(b), TypeValues(b), b.accountTypeValues, b.candidateCustomObjects);
    householdOptions := StableSort.Sort(householdOptions, ByConfidence());
    var advisorFieldOptions, aumFieldOptions := PushFieldOptions(AccountFields(b));
    advisorFieldOptions := StableSort.Sort(advisorFieldOptions, ByConfidence());
    aumFieldOptions := StableSort.Sort(aumFieldOptions, ByConfidence());
    choices := MappingChoices(householdOptions, advisorFieldOptions, aumFieldOptions);
  }

  method PushHouseholdOptions(rts: seq<RecordTypeInfo>, pvs: seq<PicklistValue>, tvs: seq<TypeValue>,
                              objects: seq<CandidateObject>)
    returns (options: seq<MappingChoice>)
    ensures options == WithDataValues(RecordTypeOptions(rts) + PicklistOptions(pvs), tvs) + ObjectOptions(objects) + [ALL_ACCOUNTS]
  {
    options := [];
    for i := 0 to |rts|
      invariant options == RecordTypeOptions(rts[..i])
    {
      assert rts[..i + 1][..i] == rts[..i];
      if rts[i].active && rts[i].developerName != "Master" {
        options := options + [MappingChoice(Print(NamedRecordType(rts[i].developerName)), if IsHouseholdWord(rts[i].developerName) then 95 else 50)];
      }
    }
    assert rts[..|rts|] == rts;
    options := PushTypeValues(options, pvs);
    ghost var named := options;
    for i := 0 to |tvs|
      invariant options == WithDataValues(named, tvs[..i])
    {
      assert tvs[..i + 1][..i] == tvs[..i];
      if !Listed(options, Print(NamedType(tvs[i].value))) {
        options := options + [MappingChoice(Print(NamedType(tvs[i].value)), if IsHouseholdWord(tvs[i].value) then 90 else 35)];
      }
    }
    assert tvs[..|tvs|] == tvs;
    options := PushObjects(options, objects);
    options := options + [ALL_ACCOUNTS];
  }

  method PushTypeValues(before: seq<MappingChoice>, pvs: seq<PicklistValue>) returns (options: seq<MappingChoice>)
    ensures options == before + PicklistOptions(pvs)
  {
    options := before;
    for i := 0 to |pvs|
      invariant options == before + PicklistOptions(pvs[..i])
    {
      assert pvs[..i + 1][..i] == pvs[..i];
      if pvs[i].active {
        options := options + [MappingChoice(Print(NamedType(pvs[i].value)), if IsHouseholdWord(pvs[i].value) then 85 else 40)];
      }
    }
    assert pvs[..|pvs|] == pvs;
  }

  method PushObjects(before: seq<MappingChoice>, objects: seq<CandidateObject>) returns (options: seq<MappingChoice>)
    ensures options == before + ObjectOptions(objects)
  {
    options := before;
    for i := 0 to |objects|
      invariant options == before + ObjectOptions(objects[..i])
    {
      assert objects[..i + 1][..i] == objects[..i];
      options := options + [MappingChoice(Print(NamedObject(objects[i].name)), if IsGroupWord(objects[i].name) then 65 else 30)];
    }
    assert objects[..|objects|] == objects;
  }

  method PushFieldOptions(fields: seq<FieldDescribe>) returns (advisor: seq<MappingChoice>, aum: seq<MappingChoice>)
    ensures advisor == AdvisorOptions(fields) && aum == AumOptions(fields)
  {
    advisor, aum := [MappingChoice("OwnerId", 70)], [MappingChoice("__none__", 30)];
    for i := 0 to |fields|
      invariant advisor == AdvisorOptions(fields[..i]) && aum == AumOptions(fields[..i])
    {
      assert fields[..i + 1][..i] == fields[..i];
      var f := fields[i];
      if f.name != "OwnerId" && f.kind == "reference" && "User" in f.referenceTo {
        advisor := advisor + [MappingChoice(f.name, if Mentions(f.labelText, ["advisor", "rm", "planner", "rep", "manager"]) then 90 else 50)];
      }
      if f.kind == "currency" {
        aum := aum + [MappingChoice(f.name, if IsAumLabel(f.labelText) then 85 else 40)];
      }
    }
    assert fields[..|fields|] == fields;
  }

  // ---- properties of the option list ----

  predicate DistinctValues(options: seq<MappingChoice>) {
    forall i, j :: 0 <= i < j < |options| ==> options[i].value != options[j].value
  }

  lemma PrintIsInjective(m: Named, n: Named)
    requires Print(m) == Print(n)
    ensures m == n
  {
    assert Print(m)[0] == match m case NamedRecordType(_) => 'r' case NamedType(_) => 't' case NamedObject(_) => 'c' case NamedAllAccounts => 'a';
    assert Print(n)[0] == match n case NamedRecordType(_) => 'r' case NamedType(_) => 't' case NamedObject(_) => 'c' case NamedAllAccounts => 'a';
    match m
    case NamedRecordType(v) => assert v == Print(m)[11..] == Print(n)[11..];
    case NamedType(v) => assert v == Print(m)[13..] == Print(n)[13..];
    case NamedObject(v) => assert v == Print(m)[13..] == Print(n)[13..];
    case NamedAllAccounts =>
  }

  predicate AllNamed(options: seq<MappingChoice>, names: seq<Named>) {
    |options| == |names| && forall i :: 0 <= i < |options| ==> options[i].value == Print(names[i])
  }

  predicate DistinctNames(names: seq<Named>) {
    forall i, j :: 0 <= i < j < |names| ==> names[i] != names[j]
  }

  lemma NamesToValues(options: seq<MappingChoice>, names: seq<Named>)
    requires AllNamed(options, names) && DistinctNames(names)
    ensures DistinctValues(options)
  {
    forall i, j | 0 <= i < j < |options|
      ensures options[i].value != options[j].value
    {
      if Print(names[i]) == Print(names[j]) {
        PrintIsInjective(names[i], names[j]);
      }
    }
  }

  predicate DistinctRecordTypeNames(rts: seq<RecordTypeInfo>) {
    forall i, j :: 0 <= i < j < |rts| ==> rts[i].developerName != rts[j].developerName
  }

  predicate DistinctPicklist(pvs: seq<PicklistValue>) {
    forall i, j :: 0 <= i < j < |pvs| ==> pvs[i].value != pvs[j].value
  }

  predicate DistinctObjects(objects: seq<CandidateObject>) {
    forall i, j :: 0 <= i < j < |objects| ==> objects[i].name != objects[j].name
  }

  predicate DistinctInputs(b: Bundle) {
    DistinctRecordTypeNames(RecordTypes(b)) && DistinctPicklist(TypeValues(b)) && DistinctObjects(b.candidateCustomObjects)
  }

  lemma {:induction false} RecordTypeNames(rts: seq<RecordTypeInfo>) returns (names: seq<Named>)
    ensures AllNamed(RecordTypeOptions(rts), names)
    ensures forall i :: 0 <= i < |names| ==> names[i].NamedRecordType? && exists j :: 0 <= j < |rts| && names[i].v == rts[j].developerName
    ensures DistinctRecordTypeNames(rts) ==> DistinctNames(names)
  {
    names := [];
    if rts != [] {
      var n := |rts| - 1;
      var init := RecordTypeNames(rts[..n]);
      assert forall j :: 0 <= j < n ==> rts[..n][j] == rts[j];
      if rts[n].active && rts[n].developerName != "Master" {
        names := init + [NamedRecordType(rts[n].developerName)];
      } else {
        names := init;
      }
    }
  }

  lemma {:induction false} PicklistNames(pvs: seq<PicklistValue>) returns (names: seq<Named>)
    ensures AllNamed(PicklistOptions(pvs), names)
    ensures forall i :: 0 <= i < |names| ==> names[i].NamedType? && exists j :: 0 <= j < |pvs| && names[i].v == pvs[j].value
    ensures DistinctPicklist(pvs) ==> DistinctNames(names)
  {
    names := [];
    if pvs != [] {
      var n := |pvs| - 1;
      var init := PicklistNames(pvs[..n]);
      assert forall j :: 0 <= j < n ==> pvs[..n][j] == pvs[j];
      if pvs[n].active {
        names := init + [NamedType(pvs[n].value)];
      } else {
        names := init;
      }
    }
  }

  lemma {:induction false} ObjectNames(objects: seq<CandidateObject>) returns (names: seq<Named>)
    ensures AllNamed(ObjectOptions(objects), names)
    ensures |names| == |objects| && forall i :: 0 <= i < |names| ==> names[i] == NamedObject(objects[i].name)
  {
    names := [];
    if objects != [] {
      var n := |objects| - 1;
      var init := ObjectNames(objects[..n]);
      names := init + [NamedObject(objects[n].name)];
    }
  }

  /** Data values bring in no duplicate, whatever the data. */
  lemma {:induction false} DataValueNames(options: seq<MappingChoice>, before: seq<Named>,
                                          tvs: seq<TypeValue>) returns (names: seq<Named>)
    requires AllNamed(options, before)
    ensures AllNamed(WithDataValues(options, tvs), names)
    ensures forall i :: 0 <= i < |names| ==> names[i] in before || names[i].NamedType?
    ensures DistinctNames(before) ==> DistinctNames(names)
  {
    names := before;
    if tvs != [] {
      var n := |tvs| - 1;
      names := DataValueNames(options, before, tvs[..n]);
      if !Listed(WithDataValues(options, tvs[..n]), Print(NamedType(tvs[n].value))) {
        names := names + [NamedType(tvs[n].value)];
      }
    }
  }

  lemma JoinNames(a: seq<MappingChoice>, m: seq<Named>, b: seq<MappingChoice>, n: seq<Named>)
    requires AllNamed(a, m) && AllNamed(b, n)
    requires forall i, j :: 0 <= i < |m| && 0 <= j < |n| ==> m[i] != n[j]
    ensures AllNamed(a + b, m + n)
    ensures DistinctNames(m) && DistinctNames(n) ==> DistinctNames(m + n)
  {
    forall i | 0 <= i < |a + b|
      ensures (a + b)[i].value == Print((m + n)[i])
    {
      assert (a + b)[i] == if i < |a| then a[i] else b[i - |a|];
    }
    if DistinctNames(m) && DistinctNames(n) {
      DistinctConcat(m, n);
    }
  }

  lemma DistinctConcat(m: seq<Named>, n: seq<Named>)
    requires DistinctNames(m) && DistinctNames(n)
    requires forall i, j :: 0 <= i < |m| && 0 <= j < |n| ==> m[i] != n[j]
    ensures DistinctNames(m + n)
  {
    forall i, j | 0 <= i < j < |m + n|
      ensures (m + n)[i] != (m + n)[j]
    {
      var x := if i < |m| then m[i] else n[i - |m|];
      var y := if j < |m| then m[j] else n[j - |m|];
      assert (m + n)[i] == x && (m + n)[j] == y;
    }
  }

  lemma AccountOptionNames(rts: seq<RecordTypeInfo>, pvs: seq<PicklistValue>,
                           tvs: seq<TypeValue>) returns (names: seq<Named>)
    ensures AllNamed(WithDataValues(RecordTypeOptions(rts) + PicklistOptions(pvs), tvs), names)
    ensures forall i :: 0 <= i < |names| ==> names[i].NamedRecordType? || names[i].NamedType?
    ensures DistinctRecordTypeNames(rts) && DistinctPicklist(pvs) ==> DistinctNames(names)
  {
    var n1 := RecordTypeNames(rts);
    var n2 := PicklistNames(pvs);
    JoinNames(RecordTypeOptions(rts), n1, PicklistOptions(pvs), n2);
    names := DataValueNames(RecordTypeOptions(rts) + PicklistOptions(pvs), n1 + n2, tvs);
  }

  lemma AppendNames(a: seq<MappingChoice>, m: seq<Named>, objects: seq<CandidateObject>) returns (names: seq<Named>)
    requires AllNamed(a, m) && forall i :: 0 <= i < |m| ==> m[i].NamedRecordType? || m[i].NamedType?
    ensures AllNamed(a + ObjectOptions(objects) + [ALL_ACCOUNTS], names)
    ensures DistinctNames(m) && DistinctObjects(objects) ==> DistinctNames(names)
  {
    var n := ObjectNames(objects);
    JoinNames(a, m, ObjectOptions(objects), n);
    JoinNames(a + ObjectOptions(objects), m + n, [ALL_ACCOUNTS], [NamedAllAccounts]);
    names := m + n + [NamedAllAccounts];
  }

  /** Every option pushed names something, and distinct inputs give distinct names. */
  lemma HouseholdOptionNames(b: Bundle) returns (names: seq<Named>)
    ensures AllNamed(HouseholdOptions(b), names)
    ensures DistinctInputs(b) ==> DistinctNames(names)
  {
    var m := AccountOptionNames(RecordTypes(b), TypeValues(b), b.accountTypeValues);
    names := AppendNames(WithDataValues(RecordTypeOptions(RecordTypes(b)) + PicklistOptions(TypeValues(b)), b.accountTypeValues),
                         m, b.candidateCustomObjects);
  }

  lemma {:induction false} OnceIfDistinct(a: seq<MappingChoice>, x: MappingChoice)
    requires DistinctValues(a)
    ensures multiset(a)[x] <= 1
  {
    if a != [] {
      OnceIfDistinct(a[1..], x);
      assert a == [a[0]] + a[1..];
    }
  }

  lemma TwiceInSequence(b: seq<MappingChoice>, i: nat, j: nat)
    requires i < j < |b| && b[i] == b[j]
    ensures multiset(b)[b[i]] >= 2
  {
    assert b == b[..j] + b[j..];
    assert b[i] in b[..j] && b[j] in b[j..];
    assert multiset(b) == multiset(b[..j]) + multiset(b[j..]);
  }

  lemma DistinctIsPermutationInvariant(a: seq<MappingChoice>, b: seq<MappingChoice>)
    requires multiset(a) == multiset(b) && DistinctValues(a)
    ensures DistinctValues(b)
  {
    forall i, j | 0 <= i < j < |b|
      ensures b[i].value != b[j].value
    {
      if b[i] == b[j] {
        OnceIfDistinct(a, b[i]);
        TwiceInSequence(b, i, j);
      } else {
        assert b[i] in multiset(a) && b[j] in multiset(a);
        var k :| 0 <= k < |a| && a[k] == b[i];
        var l :| 0 <= l < |a| && a[l] == b[j];
      }
    }
  }

  lemma DescendingConfidence(pushed: seq<MappingChoice>)
    ensures var offered := StableSort.Sort(pushed, ByConfidence());
            forall i, j :: 0 <= i < j < |offered| ==> offered[i].confidence >= offered[j].confidence
  {
    var offered := StableSort.Sort(pushed, ByConfidence());
    StableSort.SortIsSorted(pushed, ByConfidence());
    forall i, j | 0 <= i < j < |offered|
      ensures offered[i].confidence >= offered[j].confidence
    {
      assert ByConfidence()(offered[i]) <= ByConfidence()(offered[j]);
    }
  }

  /** Sorting by confidence keeps every option, in the order pushed among equals, and every option names something. */
  lemma SortedOptions(pushed: seq<MappingChoice>, names: seq<Named>)
    requires AllNamed(pushed, names)
    ensures var offered := StableSort.Sort(pushed, ByConfidence());
            multiset(offered) == multiset(pushed) &&
            (forall k :: StableSort.Level(offered, ByConfidence(), k) == StableSort.Level(pushed, ByConfidence(), k)) &&
            (forall i :: 0 <= i < |offered| ==> exists n :: offered[i].value == Print(n))
  {
    var offered := StableSort.Sort(pushed, ByConfidence());
    StableSort.SortIsPermutation(pushed, ByConfidence());
    forall k
      ensures StableSort.Level(offered, ByConfidence(), k) == StableSort.Level(pushed, ByConfidence(), k)
    {
      StableSort.SortIsStable(pushed, ByConfidence(), k);
    }
    forall i | 0 <= i < |offered|
      ensures exists n :: offered[i].value == Print(n)
    {
      assert offered[i] in multiset(offered);
    }
  }

  lemma SortedDistinct(pushed: seq<MappingChoice>, names: seq<Named>)
    requires AllNamed(pushed, names) && DistinctNames(names)
    ensures DistinctValues(StableSort.Sort(pushed, ByConfidence()))
  {
    StableSort.SortIsPermutation(pushed, ByConfidence());
    NamesToValues(pushed, names);
    DistinctIsPermutationInvariant(pushed, StableSort.Sort(pushed, ByConfidence()));
  }

  lemma AllAccountsOffered(pushed: seq<MappingChoice>)
    requires ALL_ACCOUNTS in pushed
    ensures ALL_ACCOUNTS in StableSort.Sort(pushed, ByConfidence())
  {
    StableSort.SortIsPermutation(pushed, ByConfidence());
    assert ALL_ACCOUNTS in multiset(pushed);
  }

  /**
   * The list offered is never empty, is a permutation of what was pushed in descending confidence with ties
   * in the order pushed, every value names something, and no value repeats when the inputs are distinct.
   */
  lemma HouseholdOptionsOffered(b: Bundle)
    ensures var offered := StableSort.Sort(HouseholdOptions(b), ByConfidence());
            multiset(offered) == multiset(HouseholdOptions(b)) && ALL_ACCOUNTS in offered &&
            (forall i, j :: 0 <= i < j < |offered| ==> offered[i].confidence >= offered[j].confidence) &&
            (forall k :: StableSort.Level(offered, ByConfidence(), k) == StableSort.Level(HouseholdOptions(b), ByConfidence(), k)) &&
            (forall i :: 0 <= i < |offered| ==> exists n :: offered[i].value == Print(n)) &&
            (DistinctInputs(b) ==> DistinctValues(offered))
  {
    var names := HouseholdOptionNames(b);
    DescendingConfidence(HouseholdOptions(b));
    SortedOptions(HouseholdOptions(b), names);
    AllAccountsOffered(HouseholdOptions(b));
    if DistinctInputs(b) {
      SortedDistinct(HouseholdOptions(b), names);
    }
  }

  // ---- parsing the choice sent back ----

  datatype FilterKind = ByRecordType | ByTypePicklist | AllAccounts | ByCustomObject

  datatype HouseholdChoice = HouseholdChoice(householdObject: string, filter: FilterKind, filterValue: string)

  function ParseHouseholdChoice(choice: string): HouseholdChoice {
    var parts := SplitOn(choice, ':');
    var val := Join(parts[1..], ":");
    if parts[0] == "recordType" then HouseholdChoice("Account", ByRecordType, val)
    else if parts[0] == "typePicklist" then HouseholdChoice("Account", ByTypePicklist, val)
    else if parts[0] == "customObject" then HouseholdChoice(val, ByCustomObject, "")
    else HouseholdChoice("Account", AllAccounts, "")
  }

  function ChoiceOf(n: Named): HouseholdChoice {
    match n
    case NamedRecordType(v) => HouseholdChoice("Account", ByRecordType, v)
    case NamedType(v) => HouseholdChoice("Account", ByTypePicklist, v)
    case NamedObject(v) => HouseholdChoice(v, ByCustomObject, "")
    case NamedAllAccounts => HouseholdChoice("Account", AllAccounts, "")
  }

  lemma SplitTag(tag: string, v: string)
    requires ':' !in tag
    ensures var parts := SplitOn(tag + ":" + v, ':');
            parts[0] == tag && Join(parts[1..], ":") == v
  {
    SplitOnHead(tag, ':', v);
    JoinSplit(v, ':');
    assert ([tag] + SplitOn(v, ':'))[1..] == SplitOn(v, ':');
  }

  /** Every printed option parses back, colons in the value included. */
  lemma PrintedChoiceParses(n: Named)
    ensures ParseHouseholdChoice(Print(n)) == ChoiceOf(n)
  {
    match n
    case NamedRecordType(v) => SplitTag("recordType", v);
    case NamedType(v) => SplitTag("typePicklist", v);
    case NamedObject(v) => SplitTag("customObject", v);
    case NamedAllAccounts => SplitTag("allAccounts", "");
  }

  // ---- the corrected mapping ----

  datatype Answers = Answers(household: HouseholdChoice, advisorField: string, aumField: Option<string>)

  function RecordTypeIdOf(b: Bundle, devName: string): Option<string> {
    var rt := Find(RecordTypes(b), (r: RecordTypeInfo) => r.developerName == devName);
    if rt.Some? && rt.value.recordTypeId != "" then Some(rt.value.recordTypeId) else None
  }

  method ApplyManualMapping(b: Bundle, answers: Answers) returns (m: Mapping)
    ensures m == Applied(b, answers)
  {
    var base := ClassifyOrgHeuristic(b);
    var household := base.household;
    match answers.household.filter {
      case ByRecordType =>
        household := household.(objectName := "Account", recordTypeDeveloperName := Some(answers.household.filterValue));
        household := household.(recordTypeId := RecordTypeIdOf(b, answers.household.filterValue));
        household := household.(filterField := None, filterValue := None, confidence := 100);
      case ByTypePicklist =>
        household := household.(objectName := "Account", recordTypeDeveloperName := None, recordTypeId := None);
        household := household.(filterField := Some("Type"), filterValue := Some(answers.household.filterValue), confidence := 100);
      case ByCustomObject =>
        household := household.(objectName := answers.household.householdObject, recordTypeDeveloperName := None, recordTypeId := None);
        household := household.(filterField := None, filterValue := None, confidence := 100);
      case AllAccounts =>
        household := household.(objectName := "Account", recordTypeDeveloperName := None, recordTypeId := None);
        household := household.(filterField := None, filterValue := None, confidence := 100);
    }
    household := household.(primaryAdvisorField := Some(answers.advisorField));
    var aum := base.aum;
    if Truthy(answers.aumField) {
      aum := aum.(source := AccountField, objectName := Some(household.objectName), field := answers.aumField, confidence := 100);
    } else {
      aum := aum.(source := NotFound, objectName := None, field := None, confidence := 100);
    }
    var confidence := AverageConfidence(household.confidence, base.contact.confidence, base.financialAccount.confidence, aum.confidence);
    m := base.(household := household, aum := aum, confidence := confidence);
  }

  function AppliedHousehold(b: Bundle, c: HouseholdChoice, advisorField: string): Household {
    Household(
      if c.filter == ByCustomObject then c.householdObject else "Account",
      if c.filter == ByRecordType then Some(c.filterValue) else None,
      if c.filter == ByRecordType then RecordTypeIdOf(b, c.filterValue) else None,
      if c.filter == ByTypePicklist then Some("Type") else None,
      if c.filter == ByTypePicklist then Some(c.filterValue) else None,
      Some(advisorField),
      100)
  }

  /** The classified mapping with the user's household and AUM; the patterns discovered stay as they were. */
  function Applied(b: Bundle, answers: Answers): Mapping {
    var base := Classify(b);
    var household := AppliedHousehold(b, answers.household, answers.advisorField);
    var aum :=
      if Truthy(answers.aumField) then Aum(AccountField, Some(household.objectName), answers.aumField, 100)
      else Aum(NotFound, None, None, 100);
    Mapping(AverageConfidence(100, base.contact.confidence, base.financialAccount.confidence, 100),
            base.patterns, household, base.contact, base.financialAccount, aum)
  }

  // ---- what the user's answer does ----

  /** The corrected mapping is never less confident than the heuristic one, and never below the thresholds (70 and 60) that bring up the questions. */
  lemma ManualMappingIsConfident(b: Bundle, answers: Answers)
    ensures Applied(b, answers).confidence >= Classify(b).confidence
    ensures Applied(b, answers).confidence >= 70 && Applied(b, answers).household.confidence >= 60
  {
    ConfidenceBounds(b, HouseholdOf(b).objectName, DetectFinancialAccount(b));
  }

  /**
   * What the user's answers change: the household, with the advisor field chosen, and the assets, read from the field chosen on
   * the household object, or not found when none is. Patterns, contacts and financial accounts stay as discovered.
   */
  lemma AnswersApplied(b: Bundle, answers: Answers)
    ensures var m := Applied(b, answers);
            && m.household.primaryAdvisorField == Some(answers.advisorField)
            && (match answers.aumField
                case Some(field) =>
                  if field != "" then m.aum == Aum(AccountField, Some(m.household.objectName), Some(field), 100) else m.aum.source.NotFound?
                case None => m.aum.source.NotFound?)
            && m.patterns == Classify(b).patterns && m.contact == Classify(b).contact && m.financialAccount == Classify(b).financialAccount
  {
  }

  lemma RecordTypeIdIs(b: Bundle, devName: string, i: nat)
    requires i < |RecordTypes(b)| && RecordTypes(b)[i].developerName == devName
    requires forall j :: 0 <= j < i ==> RecordTypes(b)[j].developerName != devName
    ensures RecordTypeIdOf(b, devName) == if RecordTypes(b)[i].recordTypeId != "" then Some(RecordTypes(b)[i].recordTypeId) else None
  {
    FindIs(RecordTypes(b), i, (r: RecordTypeInfo) => r.developerName == devName);
  }

  function NamedFilter(n: Named): string {
    match n
    case NamedRecordType(v) => EqualsText(DEV_NAME, Sanitize(v))
    case NamedType(v) => EqualsText("Type", Sanitize(v))
    case NamedObject(_) => ""
    case NamedAllAccounts => ""
  }

  function NamedObjectName(n: Named): string {
    if n.NamedObject? then n.v else "Account"
  }

  /**
   * Print an option, send it back, parse it, apply it: the mapping queries the object and prints the filter the
   * option names, if and only if the name is not empty and the bundle is not hybrid. In a hybrid bundle the
   * discovered patterns survive the correction and the user's answer is not used.
   */
  lemma AnswerTakesEffectIff(b: Bundle, n: Named, advisorField: string, aumField: Option<string>)
    ensures var m := Some(Applied(b, Answers(ParseHouseholdChoice(Print(n)), advisorField, aumField)));
            HouseholdFilter(m) == NamedFilter(n) && HouseholdObject(m) == NamedObjectName(n)
            <==> !Hybrid(Some(Classify(b))) && (!n.NamedAllAccounts? ==> n.v != "")
  {
    var m := Some(Applied(b, Answers(ParseHouseholdChoice(Print(n)), advisorField, aumField)));
    PrintedChoiceParses(n);
    assert m.value.household == AppliedHousehold(b, ChoiceOf(n), advisorField);
    assert m.value.patterns == PatternsOf(b);
    if Hybrid(m) {
      assert HouseholdFilter(m)[0] == '(';
    } else {
      AnswerWithoutHybrid(m, n);
    }
  }

  lemma AnswerWithoutHybrid(m: Option<Mapping>, n: Named)
    requires m.Some? && !Hybrid(m)
    requires exists b, a :: m.value.household == AppliedHousehold(b, ChoiceOf(n), a)
    ensures HouseholdFilter(m) == NamedFilter(n) && HouseholdObject(m) == NamedObjectName(n)
            <==> (!n.NamedAllAccounts? ==> n.v != "")
  {
  }
}
