/** Heuristic classification of an organisation's metadata into a mapping. */
module SchemaDiscovery {
  import opened Text
  import opened SoqlQuery
  import opened OrgMapping

  // ---- the metadata bundle ----

  datatype PicklistValue = PicklistValue(value: string, active: bool)

  datatype FieldDescribe = FieldDescribe(
    name: string,
    labelText: string,
    kind: string,
    custom: bool,
    referenceTo: seq<string>,
    picklistValues: seq<PicklistValue>)

  datatype RecordTypeInfo = RecordTypeInfo(recordTypeId: string, name: string, developerName: string, active: bool)

  datatype ObjectDescribe = ObjectDescribe(name: string, fields: seq<FieldDescribe>, recordTypeInfos: seq<RecordTypeInfo>)

  datatype CandidateObject = CandidateObject(name: string, labelText: string, fields: seq<FieldDescribe>)

  datatype DetectedPackage = DetectedPackage(prefix: string, objectsFound: seq<string>)

  datatype TypeValue = TypeValue(value: string, count: nat)

  datatype Bundle = Bundle(
    accountDescribe: Option<ObjectDescribe>,
    contactDescribe: Option<ObjectDescribe>,
    financialAccountDescribe: Option<ObjectDescribe>,
    managedPackagesDetected: seq<DetectedPackage>,
    candidateCustomObjects: seq<CandidateObject>,
    accountTypeValues: seq<TypeValue>,
    financialAccountCount: nat)

  datatype PackageSpec = PackageSpec(prefix: string, householdObject: string, junctionObject: Option<string>)

  const MANAGED_PACKAGES: seq<PackageSpec> := [
    PackageSpec("cloupra__", "cloupra__Household__c", Some("cloupra__Client_Group_Member__c")),
    PackageSpec("XLR8__", "XLR8__Client_Group__c", Some("XLR8__Client_Group_Member__c")),
    PackageSpec("wealthbox__", "wealthbox__Household__c", None)
  ]

  // ---- field finders ----

  predicate IsHouseholdWord(s: string) {
    Mentions(s, ["household"])
  }

  predicate IsGroupWord(s: string) {
    Mentions(s, ["household", "hh_", "family", "client_group", "relationship_group"])
  }

  /** `x?.name || null` */
  function NameOf(f: Option<FieldDescribe>): (r: Option<string>)
    ensures r.Some? ==> Truthy(r)
  {
    if f.Some? && f.value.name != "" then Some(f.value.name) else None
  }

  function FindFieldByPattern(fields: seq<FieldDescribe>, words: seq<string>, kind: string): Option<string> {
    NameOf(Find(fields, (f: FieldDescribe) => (Mentions(f.name, words) || Mentions(f.labelText, words)) && f.kind == kind))
  }

  function FindAdvisorField(d: Option<ObjectDescribe>): Option<string> {
    if d.None? then None else
    var f := Find(d.value.fields, (f: FieldDescribe) =>
      f.custom && f.kind == "reference" && "User" in f.referenceTo
      && Mentions(f.labelText, ["advisor", "rm", "planner", "rep", "manager"]));
    if f.Some? then Some(f.value.name) else Some("OwnerId")
  }

  predicate IsAumLabel(labelText: string) {
    var s := Lower(labelText);
    Includes(s, "aum") || MentionsThen(s, "asset", "under") || MentionsThen(s, "total", "asset")
    || MentionsThen(s, "total", "aum") || MentionsThen(s, "total", "financial")
    || MentionsThen(s, "book", "size") || MentionsThen(s, "portfolio", "value")
  }

  function FindAumField(d: Option<ObjectDescribe>): Option<string> {
    if d.None? then None
    else NameOf(Find(d.value.fields, (f: FieldDescribe) => f.custom && f.kind == "currency" && IsAumLabel(f.labelText)))
  }

  // ---- household evidence ----

  predicate PackageFound(b: Bundle, mp: PackageSpec) {
    var d := Find(b.managedPackagesDetected, (d: DetectedPackage) => d.prefix == mp.prefix);
    d.Some? && mp.householdObject in d.value.objectsFound
  }

  function DescribedObject(b: Bundle, name: string): Option<CandidateObject> {
    Find(b.candidateCustomObjects, (o: CandidateObject) => o.name == name)
  }

  function RecordTypes(b: Bundle): seq<RecordTypeInfo> {
    if b.accountDescribe.None? then [] else b.accountDescribe.value.recordTypeInfos
  }

  function HouseholdRecordType(b: Bundle): Option<RecordTypeInfo> {
    if b.accountDescribe.None? then None
    else Find(b.accountDescribe.value.recordTypeInfos, (rt: RecordTypeInfo) => rt.active && IsHouseholdWord(rt.developerName))
  }

  function TypeField(b: Bundle): Option<FieldDescribe> {
    if b.accountDescribe.None? then None
    else Find(b.accountDescribe.value.fields, (f: FieldDescribe) => f.name == "Type")
  }

  function HouseholdPicklistValue(b: Bundle): Option<PicklistValue> {
    if TypeField(b).None? then None
    else Find(TypeField(b).value.picklistValues, (p: PicklistValue) => IsHouseholdWord(p.value))
  }

  /** A household-like Type value present in the data; the first one found must have records. */
  function HouseholdDataValue(b: Bundle): Option<TypeValue> {
    var tv := Find(b.accountTypeValues, (tv: TypeValue) => IsHouseholdWord(tv.value));
    if tv.Some? && tv.value.count > 0 then tv else None
  }

  function HouseholdCandidate(b: Bundle): Option<CandidateObject> {
    Find(b.candidateCustomObjects, (o: CandidateObject) => IsGroupWord(o.name))
  }

  // ---- detectHousehold ----

  function AccountHousehold(b: Bundle, devName: Option<string>, rtId: Option<string>, typeValue: Option<string>,
                            confidence: nat): Household {
    Household("Account", devName, rtId, if typeValue.Some? then Some("Type") else None, typeValue,
              FindAdvisorField(b.accountDescribe), confidence)
  }

  function ObjectHousehold(o: CandidateObject, name: string, confidence: nat): Household {
    Household(name, None, None, None, None,
              FindFieldByPattern(o.fields, ["advisor", "rm", "planner", "rep"], "reference"), confidence)
  }

  function NonEmpty(s: string): Option<string> {
    if s == "" then None else Some(s)
  }

  /** The household model of the evidence outside managed packages, in order of precedence. */
  function UnmanagedHousehold(b: Bundle): Household {
    if HouseholdRecordType(b).Some? then
      var rt := HouseholdRecordType(b).value;
      AccountHousehold(b, Some(rt.developerName), NonEmpty(rt.recordTypeId), None, 95)
    else if HouseholdPicklistValue(b).Some? then
      AccountHousehold(b, None, None, Some(HouseholdPicklistValue(b).value.value), 85)
    else if HouseholdDataValue(b).Some? then
      AccountHousehold(b, None, None, Some(HouseholdDataValue(b).value.value), 90)
    else if HouseholdCandidate(b).Some? then
      ObjectHousehold(HouseholdCandidate(b).value, HouseholdCandidate(b).value.name, 65)
    else AccountHousehold(b, None, None, None, 40)
  }

  /** The first managed package whose household object was both found and described. */
  function ManagedHousehold(b: Bundle): Option<PackageSpec> {
    Find(MANAGED_PACKAGES, (mp: PackageSpec) => PackageFound(b, mp) && DescribedObject(b, mp.householdObject).Some?)
  }

  function HouseholdOf(b: Bundle): Household {
    match ManagedHousehold(b)
    case Some(mp) => ObjectHousehold(DescribedObject(b, mp.householdObject).value, mp.householdObject, 95)
    case None => UnmanagedHousehold(b)
  }

  /** The loop over the package table with its early return finds the first package that qualifies. */
  method DetectHousehold(b: Bundle) returns (h: Household)
    ensures h == HouseholdOf(b)
  {
    var qualifies := (mp: PackageSpec) => PackageFound(b, mp) && DescribedObject(b, mp.householdObject).Some?;
    for i := 0 to |MANAGED_PACKAGES|
      invariant forall j :: 0 <= j < i ==> !qualifies(MANAGED_PACKAGES[j])
    {
      var mp := MANAGED_PACKAGES[i];
      if PackageFound(b, mp) {
        var described := DescribedObject(b, mp.householdObject);
        if described.Some? {
          FindFrom(MANAGED_PACKAGES, i, qualifies);
          return ObjectHousehold(described.value, mp.householdObject, 95);
        }
      }
    }
    FindFrom(MANAGED_PACKAGES, |MANAGED_PACKAGES|, qualifies);
    h := UnmanagedHousehold(b);
  }

  // ---- detectAllHouseholdPatterns ----

  const PACKAGE_PATTERN := HouseholdPattern(ManagedPackage, "", 95)

  function PackagePatterns(b: Bundle, packages: seq<PackageSpec>): (ps: seq<HouseholdPattern>)
    ensures forall i :: 0 <= i < |ps| ==> ps[i] == PACKAGE_PATTERN
    ensures ps != [] <==> exists i :: 0 <= i < |packages| && PackageFound(b, packages[i])
  {
    if packages == [] then []
    else
      var n := |packages| - 1;
      var init := PackagePatterns(b, packages[..n]);
      assert forall i :: 0 <= i < n ==> packages[i] == packages[..n][i];
      if PackageFound(b, packages[n]) then init + [PACKAGE_PATTERN] else init
  }

  function RecordTypePatterns(rt: Option<RecordTypeInfo>): seq<HouseholdPattern> {
    if rt.None? then []
    else [HouseholdPattern(RecordType, EqualsText("RecordType.DeveloperName", rt.value.developerName), 95)]
  }

  function TypePatterns(picklist: Option<PicklistValue>, data: Option<TypeValue>): seq<HouseholdPattern> {
    if picklist.Some? then [HouseholdPattern(TypePicklist, EqualsText("Type", picklist.value.value), 85)]
    else if data.Some? then [HouseholdPattern(DataTypeValue, EqualsText("Type", data.value.value), 90)]
    else []
  }

  function ObjectPatterns(candidate: Option<CandidateObject>): seq<HouseholdPattern> {
    if candidate.Some? then [HouseholdPattern(CustomObject, "", 65)] else []
  }

  /** Every kind of evidence present, in the order the checks run. */
  function PatternsOf(b: Bundle): seq<HouseholdPattern> {
    PackagePatterns(b, MANAGED_PACKAGES)
    + RecordTypePatterns(HouseholdRecordType(b))
    + TypePatterns(HouseholdPicklistValue(b), HouseholdDataValue(b))
    + ObjectPatterns(HouseholdCandidate(b))
  }

  function Confident(ps: seq<HouseholdPattern>): (r: seq<HouseholdPattern>)
    ensures (forall i :: 0 <= i < |ps| ==> ps[i].confidence > 50) ==> r == ps
  {
    if ps == [] then []
    else
      var rest := Confident(ps[1..]);
      assert ps == [ps[0]] + ps[1..];
      (if ps[0].confidence > 50 then [ps[0]] else []) + rest
  }

  /** The loop over the package table. */
  method DetectPackagePatterns(b: Bundle, packages: seq<PackageSpec>) returns (patterns: seq<HouseholdPattern>)
    ensures patterns == PackagePatterns(b, packages)
  {
    patterns := [];
    for i := 0 to |packages|
      invariant patterns == PackagePatterns(b, packages[..i])
    {
      assert packages[..i + 1][..i] == packages[..i];
      if PackageFound(b, packages[i]) {
        patterns := patterns + [PACKAGE_PATTERN];
      }
    }
    assert packages[..|packages|] == packages;
  }

  lemma AllConfident(found: seq<HouseholdPattern>, rt: Option<RecordTypeInfo>, picklist: Option<PicklistValue>,
                     data: Option<TypeValue>, candidate: Option<CandidateObject>)
    requires forall i :: 0 <= i < |found| ==> found[i] == PACKAGE_PATTERN
    ensures var ps := found + RecordTypePatterns(rt) + TypePatterns(picklist, data) + ObjectPatterns(candidate); Confident(ps) == ps
  {
  }

  /** All checks run, none returns early, and the final confidence filter drops nothing. */
  method DetectAllHouseholdPatterns(b: Bundle) returns (patterns: seq<HouseholdPattern>)
    ensures patterns == PatternsOf(b)
  {
    patterns := DetectPackagePatterns(b, MANAGED_PACKAGES);
    patterns := AddObjectPatterns(patterns, HouseholdRecordType(b), HouseholdPicklistValue(b), HouseholdDataValue(b), HouseholdCandidate(b));
    AllConfident(PackagePatterns(b, MANAGED_PACKAGES), HouseholdRecordType(b), HouseholdPicklistValue(b), HouseholdDataValue(b),
                 HouseholdCandidate(b));
    patterns := Confident(patterns);
  }

  /** The checks after the package loop. */
  method AddObjectPatterns(found: seq<HouseholdPattern>, rt: Option<RecordTypeInfo>, picklist: Option<PicklistValue>,
                           data: Option<TypeValue>, candidate: Option<CandidateObject>)
    returns (patterns: seq<HouseholdPattern>)
    ensures patterns == found + RecordTypePatterns(rt) + TypePatterns(picklist, data) + ObjectPatterns(candidate)
  {
    patterns := found;
    if rt.Some? {
      patterns := patterns + [HouseholdPattern(RecordType, EqualsText("RecordType.DeveloperName", rt.value.developerName), 95)];
    }
    assert patterns == found + RecordTypePatterns(rt);
    if picklist.Some? {
      patterns := patterns + [HouseholdPattern(TypePicklist, EqualsText("Type", picklist.value.value), 85)];
    }
    if data.Some? && picklist.None? {
      patterns := patterns + [HouseholdPattern(DataTypeValue, EqualsText("Type", data.value.value), 90)];
    }
    assert patterns == found + RecordTypePatterns(rt) + TypePatterns(picklist, data);
    if candidate.Some? {
      patterns := patterns + [HouseholdPattern(CustomObject, "", 65)];
    }
  }

  // ---- contact, financial account and AUM ----

  function ReferenceTo(fields: seq<FieldDescribe>, target: string): Option<FieldDescribe> {
    Find(fields, (f: FieldDescribe) => f.kind == "reference" && target in f.referenceTo)
  }

  function JunctionVia(o: CandidateObject, householdObject: string): Option<Junction> {
    var c, h := ReferenceTo(o.fields, "Contact"), ReferenceTo(o.fields, householdObject);
    if c.Some? && h.Some? then Some(Junction(o.name, c.value.name, h.value.name)) else None
  }

  function PackageJunction(b: Bundle, householdObject: string, packages: seq<PackageSpec>): Option<Junction> {
    if packages == [] then None else
    var mp := packages[0];
    var detected := Find(b.managedPackagesDetected, (d: DetectedPackage) => d.prefix == mp.prefix);
    var j :=
      if householdObject == mp.householdObject && mp.junctionObject.Some? && detected.Some?
         && mp.junctionObject.value in detected.value.objectsFound
         && DescribedObject(b, mp.junctionObject.value).Some?
      then JunctionVia(DescribedObject(b, mp.junctionObject.value).value, householdObject) else None;
    if j.Some? then j else PackageJunction(b, householdObject, packages[1..])
  }

  function GenericJunction(objects: seq<CandidateObject>, householdObject: string): Option<Junction> {
    if objects == [] then None else
    var j := if objects[0].name == householdObject then None else JunctionVia(objects[0], householdObject);
    if j.Some? then j else GenericJunction(objects[1..], householdObject)
  }

  function DetectJunctionObject(b: Bundle, householdObject: string): Option<Junction> {
    var j := PackageJunction(b, householdObject, MANAGED_PACKAGES);
    if j.Some? then j
    else if householdObject != "Account" then GenericJunction(b.candidateCustomObjects, householdObject)
    else None
  }

  function DetectContact(b: Bundle, householdObject: string): Contact {
    if b.contactDescribe.None? then Contact("AccountId", None, 50) else
    var lookup := ReferenceTo(b.contactDescribe.value.fields, householdObject);
    var householdLookup := if householdObject != "Account" && lookup.Some? then lookup.value.name else "AccountId";
    var junction := DetectJunctionObject(b, householdObject);
    Contact(householdLookup, junction, if junction.Some? then 80 else if householdLookup == "AccountId" then 90 else 75)
  }

  function DetectFinancialAccount(b: Bundle): FinancialAccount {
    if b.financialAccountDescribe.Some? then
      var fa := b.financialAccountDescribe.value;
      var balance := NameOf(Find(fa.fields, (f: FieldDescribe) =>
        Mentions(f.name, ["balance", "value", "amount"]) && f.kind == "currency"));
      var lookup := NameOf(Find(fa.fields, (f: FieldDescribe) =>
        f.kind == "reference"
        && ("Account" in f.referenceTo || Includes(f.name, "Household") || Includes(f.name, "PrimaryOwner"))));
      FinancialAccount(true, Some(fa.name), lookup, balance, if balance.Some? && lookup.Some? then 90 else 60)
    else
      var custom := Find(b.candidateCustomObjects, (o: CandidateObject) =>
        Mentions(o.name, ["financial_account", "investment_account", "portfolio"]));
      if custom.Some? then
        FinancialAccount(true, Some(custom.value.name),
          NameOf(Find(custom.value.fields, (f: FieldDescribe) => f.kind == "reference")),
          FindFieldByPattern(custom.value.fields, ["balance", "value", "amount"], "currency"), 55)
      else FinancialAccount(false, None, None, None, 90)
  }

  const FSC_ROLLUP := "FinServ__TotalFinancialAccounts__c"

  function DetectAum(b: Bundle, fa: FinancialAccount): Aum {
    if fa.available && Truthy(fa.balanceField) && b.financialAccountCount > 0 then
      Aum(FinancialAccountRollup, fa.objectName, fa.balanceField, 90)
    else if b.accountDescribe.Some? && Find(b.accountDescribe.value.fields, (f: FieldDescribe) => f.name == FSC_ROLLUP && f.kind == "currency").Some? then
      Aum(AccountField, Some("Account"), Some(FSC_ROLLUP), 90)
    else if FindAumField(b.accountDescribe).Some? then
      Aum(AccountField, Some("Account"), FindAumField(b.accountDescribe), 75)
    else Aum(NotFound, None, None, 80)
  }

  // ---- the classifier ----

  /** `Math.round(average * 100) / 100` of four confidences, in hundredths. */
  function AverageConfidence(h: nat, c: nat, f: nat, a: nat): nat {
    (h + c + f + a + 2) / 4
  }

  function Classify(b: Bundle): Mapping {
    var h := HouseholdOf(b);
    var c := DetectContact(b, h.objectName);
    var f := DetectFinancialAccount(b);
    var a := DetectAum(b, f);
    Mapping(AverageConfidence(h.confidence, c.confidence, f.confidence, a.confidence), PatternsOf(b), h, c, f, a)
  }

  method ClassifyOrgHeuristic(b: Bundle) returns (m: Mapping)
    ensures m == Classify(b)
  {
    var household := DetectHousehold(b);
    var contact := DetectContact(b, household.objectName);
    var financialAccount := DetectFinancialAccount(b);
    var aum := DetectAum(b, financialAccount);
    var patterns := DetectAllHouseholdPatterns(b);
    m := Mapping(
      AverageConfidence(household.confidence, contact.confidence, financialAccount.confidence, aum.confidence),
      patterns, household, contact, financialAccount, aum);
  }

  /** The confidence of a mapping is the average of the four it is made of, to the nearest hundredth, halves going up. */
  lemma ConfidenceIsAverage(b: Bundle)
    ensures var m := Classify(b);
            var sum := m.household.confidence + m.contact.confidence + m.financialAccount.confidence + m.aum.confidence;
            4 * m.confidence - 2 <= sum < 4 * m.confidence + 2
  {
  }

  /** Lower and upper bounds of the three confidences the classifier combines with the household's, over all branches. */
  lemma ConfidenceBounds(b: Bundle, householdObject: string, fa: FinancialAccount)
    ensures 50 <= DetectContact(b, householdObject).confidence <= 90
    ensures 55 <= DetectFinancialAccount(b).confidence <= 90
    ensures 75 <= DetectAum(b, fa).confidence <= 90
    ensures 40 <= HouseholdOf(b).confidence <= 95
  {
  }

  // ---- the household detected against the patterns listed ----

  predicate SomePackageFound(b: Bundle) {
    exists i :: 0 <= i < |MANAGED_PACKAGES| && PackageFound(b, MANAGED_PACKAGES[i])
  }

  /** The fallback is used exactly when nothing is listed, and otherwise the first listed pattern has the household's confidence. */
  predicate Agrees(b: Bundle) {
    if PatternsOf(b) == [] then HouseholdOf(b) == AccountHousehold(b, None, None, None, 40)
    else HouseholdOf(b).confidence == PatternsOf(b)[0].confidence
  }

  /** The patterns found outside managed packages. */
  function UnmanagedPatterns(b: Bundle): seq<HouseholdPattern> {
    RecordTypePatterns(HouseholdRecordType(b))
    + TypePatterns(HouseholdPicklistValue(b), HouseholdDataValue(b))
    + ObjectPatterns(HouseholdCandidate(b))
  }

  lemma PatternsHead(b: Bundle)
    ensures SomePackageFound(b) ==> PatternsOf(b) != [] && PatternsOf(b)[0].confidence == 95
    ensures !SomePackageFound(b) ==> PatternsOf(b) == UnmanagedPatterns(b)
  {
    var ps := PackagePatterns(b, MANAGED_PACKAGES);
    if SomePackageFound(b) {
      assert PatternsOf(b)[0] == ps[0];
    } else {
      assert ps == [];
      assert [] + RecordTypePatterns(HouseholdRecordType(b)) == RecordTypePatterns(HouseholdRecordType(b));
    }
  }

  lemma ManagedNeedsPackage(b: Bundle)
    ensures ManagedHousehold(b).Some? ==> SomePackageFound(b)
  {
    if ManagedHousehold(b).Some? {
      var mp := ManagedHousehold(b).value;
      var i :| 0 <= i < |MANAGED_PACKAGES| && MANAGED_PACKAGES[i] == mp;
      assert PackageFound(b, MANAGED_PACKAGES[i]);
    }
  }

  /**
   * The two detectors agree except when managed packages were found but none was described and no record
   * type stands in with the same confidence.
   */
  lemma AgreesIff(b: Bundle)
    ensures Agrees(b) <==>
            (SomePackageFound(b) ==> ManagedHousehold(b).Some? || HouseholdRecordType(b).Some?)
  {
    PatternsHead(b);
    ManagedNeedsPackage(b);
  }
}
