/** The household a bundle of metadata is classified to, read off the fields of the bundle. */
module HouseholdDetection {
  import opened Text
  import opened SoqlLiteral
  import opened SoqlQuery
  import opened OrgMapping
  import opened OrgQuery
  import opened OrgQueryMeaning
  import opened SchemaDiscovery
  import opened ReadWriteAgreement

  // ---- the evidence, by position ----

  predicate SaysHousehold(s: string) {
    Includes(Lower(s), "household")
  }

  predicate SaysGroup(s: string) {
    Includes(Lower(s), "household") || Includes(Lower(s), "hh_") || Includes(Lower(s), "family")
    || Includes(Lower(s), "client_group") || Includes(Lower(s), "relationship_group")
  }

  /** Entry `i` is the first for the package and lists the object, which candidate `k` describes. */
  predicate PackageAt(b: Bundle, prefix: string, name: string, i: nat, k: nat) {
    && i < |b.managedPackagesDetected| && b.managedPackagesDetected[i].prefix == prefix
    && (forall j :: 0 <= j < i ==> b.managedPackagesDetected[j].prefix != prefix)
    && name in b.managedPackagesDetected[i].objectsFound
    && k < |b.candidateCustomObjects| && b.candidateCustomObjects[k].name == name
  }

  predicate HasPackage(b: Bundle, prefix: string, name: string) {
    exists i: nat, k: nat :: i < |b.managedPackagesDetected| && k < |b.candidateCustomObjects| && PackageAt(b, prefix, name, i, k)
  }

  predicate NamesHousehold(rt: RecordTypeInfo) {
    rt.active && SaysHousehold(rt.developerName)
  }

  /** Record type `i` of accounts is the first active one whose developer name says household. */
  predicate RecordTypeAt(b: Bundle, i: nat) {
    b.accountDescribe.Some? &&
    var rts := b.accountDescribe.value.recordTypeInfos;
    i < |rts| && NamesHousehold(rts[i]) && forall j :: 0 <= j < i ==> !NamesHousehold(rts[j])
  }

  predicate HasRecordType(b: Bundle) {
    b.accountDescribe.Some? &&
    var rts := b.accountDescribe.value.recordTypeInfos;
    exists i :: 0 <= i < |rts| && NamesHousehold(rts[i])
  }

  /** Field `f` of accounts is the first called Type. */
  predicate TypeFieldAt(b: Bundle, f: nat) {
    b.accountDescribe.Some? &&
    var fields := b.accountDescribe.value.fields;
    f < |fields| && fields[f].name == "Type" && forall j :: 0 <= j < f ==> fields[j].name != "Type"
  }

  /** Value `i` of that field is the first that says household, active or not. */
  predicate TypeValueAt(b: Bundle, f: nat, i: nat) {
    TypeFieldAt(b, f) &&
    var values := b.accountDescribe.value.fields[f].picklistValues;
    i < |values| && SaysHousehold(values[i].value) && forall j :: 0 <= j < i ==> !SaysHousehold(values[j].value)
  }

  predicate HasTypeValue(b: Bundle) {
    b.accountDescribe.Some? &&
    exists f: nat, i: nat :: f < |b.accountDescribe.value.fields| && i < |b.accountDescribe.value.fields[f].picklistValues|
                             && TypeValueAt(b, f, i)
  }

  /** Entry `i` of the Type values counted in the data is the first that says household, and was counted. */
  predicate DataValueAt(b: Bundle, i: nat) {
    i < |b.accountTypeValues| && SaysHousehold(b.accountTypeValues[i].value) && b.accountTypeValues[i].count > 0
    && forall j :: 0 <= j < i ==> !SaysHousehold(b.accountTypeValues[j].value)
  }

  predicate HasDataValue(b: Bundle) {
    exists i: nat :: i < |b.accountTypeValues| && DataValueAt(b, i)
  }

  /** Candidate object `i` is the first whose name is a group word. */
  predicate GroupAt(b: Bundle, i: nat) {
    i < |b.candidateCustomObjects| && SaysGroup(b.candidateCustomObjects[i].name)
    && forall j :: 0 <= j < i ==> !SaysGroup(b.candidateCustomObjects[j].name)
  }

  predicate HasGroup(b: Bundle) {
    exists i :: 0 <= i < |b.candidateCustomObjects| && SaysGroup(b.candidateCustomObjects[i].name)
  }

  // ---- the finders find it ----

  lemma HouseholdWords(s: string)
    ensures IsHouseholdWord(s) <==> SaysHousehold(s)
  {
    assert ["household"][0] == "household";
  }

  lemma GroupWords(s: string)
    ensures IsGroupWord(s) <==> SaysGroup(s)
  {
    var words := ["household", "hh_", "family", "client_group", "relationship_group"];
    assert words[0] == "household" && words[1] == "hh_" && words[2] == "family" && words[3] == "client_group" && words[4] == "relationship_group";
  }

  lemma RecordTypeFound(b: Bundle)
    ensures HouseholdRecordType(b).Some? <==> HasRecordType(b)
    ensures forall i: nat :: RecordTypeAt(b, i) ==> HouseholdRecordType(b) == Some(b.accountDescribe.value.recordTypeInfos[i])
  {
    if b.accountDescribe.Some? {
      var rts := b.accountDescribe.value.recordTypeInfos;
      var p := (rt: RecordTypeInfo) => rt.active && IsHouseholdWord(rt.developerName);
      forall rt: RecordTypeInfo
        ensures p(rt) <==> NamesHousehold(rt)
      {
        HouseholdWords(rt.developerName);
      }
      assert HouseholdRecordType(b) == Find(rts, p);
      forall i: nat | RecordTypeAt(b, i)
        ensures Find(rts, p) == Some(rts[i])
      {
        FindIs(rts, i, p);
      }
    }
  }

  lemma TypeFieldFound(b: Bundle)
    ensures forall f: nat :: TypeFieldAt(b, f) ==> TypeField(b) == Some(b.accountDescribe.value.fields[f])
    ensures TypeField(b).Some? ==> exists f: nat :: TypeFieldAt(b, f)
  {
    if b.accountDescribe.Some? {
      var fields := b.accountDescribe.value.fields;
      var p := (f: FieldDescribe) => f.name == "Type";
      assert TypeField(b) == Find(fields, p);
      forall f: nat | TypeFieldAt(b, f)
        ensures Find(fields, p) == Some(fields[f])
      {
        FindIs(fields, f, p);
      }
      if TypeField(b).Some? {
        var f := FindWhere(fields, p);
        assert TypeFieldAt(b, f);
      }
    }
  }

  lemma PicklistFound(b: Bundle, f: nat)
    requires TypeFieldAt(b, f)
    ensures var values := b.accountDescribe.value.fields[f].picklistValues;
            && (forall i: nat :: TypeValueAt(b, f, i) ==> HouseholdPicklistValue(b) == Some(values[i]))
            && (HouseholdPicklistValue(b).Some? ==> exists i: nat :: TypeValueAt(b, f, i))
  {
    TypeFieldFound(b);
    var values := b.accountDescribe.value.fields[f].picklistValues;
    var p := (v: PicklistValue) => IsHouseholdWord(v.value);
    forall v: PicklistValue
      ensures p(v) <==> SaysHousehold(v.value)
    {
      HouseholdWords(v.value);
    }
    assert HouseholdPicklistValue(b) == Find(values, p);
    forall i: nat | TypeValueAt(b, f, i)
      ensures Find(values, p) == Some(values[i])
    {
      FindIs(values, i, p);
    }
    if HouseholdPicklistValue(b).Some? {
      var i := FindWhere(values, p);
      assert TypeValueAt(b, f, i);
    }
  }

  lemma TypeValueFound(b: Bundle)
    ensures HouseholdPicklistValue(b).Some? <==> HasTypeValue(b)
    ensures forall f: nat, i: nat :: TypeValueAt(b, f, i) ==>
              HouseholdPicklistValue(b) == Some(b.accountDescribe.value.fields[f].picklistValues[i])
  {
    TypeFieldFound(b);
    forall f: nat | TypeFieldAt(b, f)
      ensures forall i: nat :: TypeValueAt(b, f, i) ==> HouseholdPicklistValue(b) == Some(b.accountDescribe.value.fields[f].picklistValues[i])
      ensures HouseholdPicklistValue(b).Some? ==> exists i: nat :: TypeValueAt(b, f, i)
    {
      PicklistFound(b, f);
    }
  }

  lemma DataValueFound(b: Bundle)
    ensures HouseholdDataValue(b).Some? <==> HasDataValue(b)
    ensures forall i: nat :: DataValueAt(b, i) ==> HouseholdDataValue(b) == Some(b.accountTypeValues[i])
  {
    var p := (tv: TypeValue) => IsHouseholdWord(tv.value);
    forall tv: TypeValue
      ensures p(tv) <==> SaysHousehold(tv.value)
    {
      HouseholdWords(tv.value);
    }
    forall i: nat | DataValueAt(b, i)
      ensures Find(b.accountTypeValues, p) == Some(b.accountTypeValues[i])
    {
      FindIs(b.accountTypeValues, i, p);
    }
    if HouseholdDataValue(b).Some? {
      var i := FindWhere(b.accountTypeValues, p);
      assert DataValueAt(b, i);
    }
  }

  lemma GroupFound(b: Bundle)
    ensures HouseholdCandidate(b).Some? <==> HasGroup(b)
    ensures forall i: nat :: GroupAt(b, i) ==> HouseholdCandidate(b) == Some(b.candidateCustomObjects[i])
    ensures HouseholdCandidate(b).Some? ==> exists i: nat :: GroupAt(b, i)
  {
    var p := (o: CandidateObject) => IsGroupWord(o.name);
    forall o: CandidateObject
      ensures p(o) <==> SaysGroup(o.name)
    {
      GroupWords(o.name);
    }
    forall i: nat | GroupAt(b, i)
      ensures Find(b.candidateCustomObjects, p) == Some(b.candidateCustomObjects[i])
    {
      FindIs(b.candidateCustomObjects, i, p);
    }
    if HouseholdCandidate(b).Some? {
      var i := FindWhere(b.candidateCustomObjects, p);
      assert GroupAt(b, i);
    }
  }

  lemma PackageQualifies(b: Bundle, mp: PackageSpec)
    ensures PackageFound(b, mp) && DescribedObject(b, mp.householdObject).Some? <==> HasPackage(b, mp.prefix, mp.householdObject)
  {
    var p := (d: DetectedPackage) => d.prefix == mp.prefix;
    var q := (o: CandidateObject) => o.name == mp.householdObject;
    if HasPackage(b, mp.prefix, mp.householdObject) {
      var i: nat, k: nat :| i < |b.managedPackagesDetected| && k < |b.candidateCustomObjects| && PackageAt(b, mp.prefix, mp.householdObject, i, k);
      FindIs(b.managedPackagesDetected, i, p);
      assert DescribedObject(b, mp.householdObject).Some?;
    }
    if PackageFound(b, mp) && DescribedObject(b, mp.householdObject).Some? {
      var i := FindWhere(b.managedPackagesDetected, p);
      var k := FindWhere(b.candidateCustomObjects, q);
      assert PackageAt(b, mp.prefix, mp.householdObject, i, k);
    }
  }

  predicate Managed(b: Bundle) {
    || HasPackage(b, "cloupra__", "cloupra__Household__c")
    || HasPackage(b, "XLR8__", "XLR8__Client_Group__c")
    || HasPackage(b, "wealthbox__", "wealthbox__Household__c")
  }

  /** The household object of the first of the three packages, in table order, that is found and described. */
  predicate PackageObjectIs(b: Bundle, name: string) {
    if HasPackage(b, "cloupra__", "cloupra__Household__c") then name == "cloupra__Household__c"
    else if HasPackage(b, "XLR8__", "XLR8__Client_Group__c") then name == "XLR8__Client_Group__c"
    else name == "wealthbox__Household__c"
  }

  lemma FirstOfThree<T>(xs: seq<T>, p: T -> bool)
    requires |xs| == 3
    ensures Find(xs, p) == if p(xs[0]) then Some(xs[0]) else if p(xs[1]) then Some(xs[1]) else if p(xs[2]) then Some(xs[2]) else None
  {
    if p(xs[0]) {
      FindIs(xs, 0, p);
    } else if p(xs[1]) {
      FindIs(xs, 1, p);
    } else if p(xs[2]) {
      FindIs(xs, 2, p);
    }
  }

  predicate HasPackageOf(b: Bundle, mp: PackageSpec) {
    HasPackage(b, mp.prefix, mp.householdObject)
  }

  lemma FirstPackage(b: Bundle, mps: seq<PackageSpec>)
    requires |mps| == 3
    ensures Find(mps, (mp: PackageSpec) => PackageFound(b, mp) && DescribedObject(b, mp.householdObject).Some?) ==
            if HasPackageOf(b, mps[0]) then Some(mps[0])
            else if HasPackageOf(b, mps[1]) then Some(mps[1])
            else if HasPackageOf(b, mps[2]) then Some(mps[2]) else None
  {
    var qualifies := (mp: PackageSpec) => PackageFound(b, mp) && DescribedObject(b, mp.householdObject).Some?;
    PackageQualifies(b, mps[0]);
    PackageQualifies(b, mps[1]);
    PackageQualifies(b, mps[2]);
    FirstOfThree(mps, qualifies);
  }

  lemma ManagedIs(b: Bundle)
    ensures ManagedHousehold(b).Some? <==> Managed(b)
    ensures Managed(b) ==> PackageObjectIs(b, ManagedHousehold(b).value.householdObject)
  {
    FirstPackage(b, MANAGED_PACKAGES);
  }

  // ---- the object queried ----

  /** Accounts, on any account evidence or on none at all; or else the first group object. */
  ghost predicate UnmanagedObjectIs(b: Bundle, name: string) {
    if HasRecordType(b) || HasTypeValue(b) || HasDataValue(b) || !HasGroup(b) then name == "Account"
    else exists i: nat :: GroupAt(b, i) && name == b.candidateCustomObjects[i].name
  }

  /** The object of the first package found and described, or else what the other evidence names. */
  ghost predicate ObjectIs(b: Bundle, name: string) {
    if Managed(b) then PackageObjectIs(b, name) else UnmanagedObjectIs(b, name)
  }

  lemma UnmanagedObject(b: Bundle)
    ensures UnmanagedObjectIs(b, UnmanagedHousehold(b).objectName)
    ensures UnmanagedHousehold(b).objectName != ""
  {
    RecordTypeFound(b);
    TypeValueFound(b);
    DataValueFound(b);
    GroupFound(b);
    if HouseholdCandidate(b).Some? {
      var i: nat :| GroupAt(b, i);
      GroupNameIsNotEmpty(b.candidateCustomObjects[i].name);
    }
  }

  lemma GroupNameIsNotEmpty(s: string)
    requires SaysGroup(s)
    ensures s != ""
  {
  }

  lemma PackageObjectIsNotEmpty(b: Bundle, name: string)
    requires PackageObjectIs(b, name)
    ensures name != ""
  {
  }

  lemma HouseholdSource(b: Bundle)
    ensures match ManagedHousehold(b)
            case Some(mp) => HouseholdOf(b).objectName == mp.householdObject
            case None => HouseholdOf(b) == UnmanagedHousehold(b)
  {
  }

  /** Which object a classified bundle keeps its households in, for every bundle. */
  lemma ClassifiedObject(b: Bundle)
    ensures ObjectIs(b, Classify(b).household.objectName) && Classify(b).household.objectName != ""
  {
    ManagedIs(b);
    UnmanagedObject(b);
    HouseholdSource(b);
    if ManagedHousehold(b).Some? {
      PackageObjectIsNotEmpty(b, ManagedHousehold(b).value.householdObject);
    }
  }

  /** A listing that can be read at all queries the object of the mapping. */
  lemma ListingObject(m: Option<Mapping>, fields: string, limit: nat, offset: nat)
    requires SelectList(fields) && Word(HouseholdObject(m))
    ensures var q := ParseQuery(ListHouseholds(m, fields, limit, offset)); q.Some? ==> q.value.objectName == HouseholdObject(m)
  {
    var page := PageText(limit, offset);
    ListText(m, fields, limit, offset);
    PageStart(limit, offset);
    HeadParses(fields, HouseholdObject(m), if HouseholdFilter(m) != "" then " WHERE " + HouseholdFilter(m) + page else page);
  }

  /** Every readable listing of a classified bundle queries the object its evidence names. */
  lemma ListedObject(b: Bundle, fields: string, limit: nat, offset: nat)
    requires SelectList(fields) && Word(Classify(b).household.objectName)
    ensures var q := ParseQuery(ListHouseholds(Some(Classify(b)), fields, limit, offset));
            q.Some? ==> ObjectIs(b, q.value.objectName)
  {
    ClassifiedObject(b);
    ListingObject(Some(Classify(b)), fields, limit, offset);
  }

  // ---- the filter, and how sure it is ----

  /** The household model apart from its advisor field. */
  predicate HouseholdIs(h: Household, devName: Option<string>, rtId: Option<string>, typeValue: Option<string>, confidence: nat) {
    && h.recordTypeDeveloperName == devName && h.recordTypeId == rtId
    && h.filterField == (if typeValue.Some? then Some("Type") else None) && h.filterValue == typeValue
    && h.confidence == confidence
  }

  /** The first evidence in order of precedence decides. */
  ghost predicate FilterIs(b: Bundle, managed: bool, h: Household) {
    && (managed ==> HouseholdIs(h, None, None, None, 95))
    && (forall i: nat :: !managed && RecordTypeAt(b, i) ==>
          var rt := b.accountDescribe.value.recordTypeInfos[i];
          HouseholdIs(h, Some(rt.developerName), if rt.recordTypeId == "" then None else Some(rt.recordTypeId), None, 95))
    && (forall f: nat, i: nat :: !managed && !HasRecordType(b) && TypeValueAt(b, f, i) ==>
          HouseholdIs(h, None, None, Some(b.accountDescribe.value.fields[f].picklistValues[i].value), 85))
    && (forall i: nat :: !managed && !HasRecordType(b) && !HasTypeValue(b) && DataValueAt(b, i) ==>
          HouseholdIs(h, None, None, Some(b.accountTypeValues[i].value), 90))
    && (!managed && !HasRecordType(b) && !HasTypeValue(b) && !HasDataValue(b) ==>
          HouseholdIs(h, None, None, None, if HasGroup(b) then 65 else 40))
  }

  lemma UnmanagedFilter(b: Bundle)
    ensures FilterIs(b, false, UnmanagedHousehold(b))
  {
    RecordTypeFound(b);
    TypeValueFound(b);
    DataValueFound(b);
    GroupFound(b);
  }

  lemma ManagedFilter(b: Bundle)
    requires ManagedHousehold(b).Some?
    ensures FilterIs(b, true, HouseholdOf(b))
  {
  }

  /** What the household of a classified bundle is filtered by, and with which confidence, for every bundle. */
  lemma ClassifiedFilter(b: Bundle)
    ensures FilterIs(b, Managed(b), Classify(b).household)
  {
    ManagedIs(b);
    HouseholdSource(b);
    if ManagedHousehold(b).Some? {
      ManagedFilter(b);
    } else {
      UnmanagedFilter(b);
    }
  }

  /** A classified bundle is hybrid when it has a household record type and a household Type value, declared or in the data. */
  lemma HybridEvidence(b: Bundle)
    ensures Hybrid(Some(Classify(b))) <==> HasRecordType(b) && (HasTypeValue(b) || HasDataValue(b))
  {
    ClassifiedIsHybridIff(b, Some(Classify(b)));
    RecordTypeFound(b);
    TypeValueFound(b);
    DataValueFound(b);
  }

  lemma HouseholdTextIsNotEmpty(s: string)
    requires SaysHousehold(s)
    ensures s != ""
  {
  }

  /** The filter text of a household model. */
  lemma FilterTextOf(m: Option<Mapping>, devName: Option<string>, rtId: Option<string>, typeValue: Option<string>, confidence: nat)
    requires m.Some? && !Hybrid(m) && HouseholdIs(m.value.household, devName, rtId, typeValue, confidence)
    ensures Truthy(devName) ==> HouseholdFilter(m) == "RecordType.DeveloperName" + " = '" + Sanitize(devName.value) + "'"
    ensures devName.None? && Truthy(typeValue) ==> HouseholdFilter(m) == "Type" + " = '" + Sanitize(typeValue.value) + "'"
    ensures devName.None? && typeValue.None? ==> HouseholdFilter(m) == ""
  {
    TypeIsSafe();
  }

  /** From the metadata to the text printed, for a bundle that is not hybrid: the record type found. */
  lemma RecordTypeFilterText(b: Bundle, i: nat)
    requires !Hybrid(Some(Classify(b))) && !Managed(b) && RecordTypeAt(b, i)
    ensures HouseholdFilter(Some(Classify(b)))
         == "RecordType.DeveloperName" + " = '" + Sanitize(b.accountDescribe.value.recordTypeInfos[i].developerName) + "'"
  {
    var rt := b.accountDescribe.value.recordTypeInfos[i];
    ClassifiedFilter(b);
    HouseholdTextIsNotEmpty(rt.developerName);
    FilterTextOf(Some(Classify(b)), Some(rt.developerName), if rt.recordTypeId == "" then None else Some(rt.recordTypeId), None, 95);
  }

  /** The declared Type value found. */
  lemma TypeFilterText(b: Bundle, f: nat, i: nat)
    requires !Hybrid(Some(Classify(b))) && !Managed(b) && !HasRecordType(b) && TypeValueAt(b, f, i)
    ensures HouseholdFilter(Some(Classify(b))) == "Type" + " = '" + Sanitize(b.accountDescribe.value.fields[f].picklistValues[i].value) + "'"
  {
    var v := b.accountDescribe.value.fields[f].picklistValues[i].value;
    ClassifiedFilter(b);
    HouseholdTextIsNotEmpty(v);
    FilterTextOf(Some(Classify(b)), None, None, Some(v), 85);
  }

  /** The counted Type value found. */
  lemma DataFilterText(b: Bundle, i: nat)
    requires !Hybrid(Some(Classify(b))) && !Managed(b) && !HasRecordType(b) && !HasTypeValue(b) && DataValueAt(b, i)
    ensures HouseholdFilter(Some(Classify(b))) == "Type" + " = '" + Sanitize(b.accountTypeValues[i].value) + "'"
  {
    ClassifiedFilter(b);
    HouseholdTextIsNotEmpty(b.accountTypeValues[i].value);
    FilterTextOf(Some(Classify(b)), None, None, Some(b.accountTypeValues[i].value), 90);
  }

  /** No filter on an object of its own, or without any account evidence. */
  lemma NoFilterText(b: Bundle)
    requires !Hybrid(Some(Classify(b))) && (Managed(b) || (!HasRecordType(b) && !HasTypeValue(b) && !HasDataValue(b)))
    ensures HouseholdFilter(Some(Classify(b))) == ""
  {
    ClassifiedFilter(b);
    FilterTextOf(Some(Classify(b)), None, None, None, Classify(b).household.confidence);
  }
}
