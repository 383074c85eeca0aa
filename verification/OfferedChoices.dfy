/** What the correction screen offers: every usable record type, Type value, object and field, and nothing else. */
module OfferedChoices {
  import opened Text
  import opened SchemaDiscovery
  import opened ManualMapping
  import StableSort

  // ---- the options of one entry ----

  lemma PrintedTexts(v: string)
    ensures Print(NamedRecordType(v)) == "recordType:" + v && Print(NamedType(v)) == "typePicklist:" + v
    ensures Print(NamedObject(v)) == "customObject:" + v && Print(NamedAllAccounts) == "allAccounts:"
  {
    assert "recordType" + ":" == "recordType:" && "typePicklist" + ":" == "typePicklist:";
    assert "customObject" + ":" == "customObject:" && "allAccounts" + ":" + "" == "allAccounts:";
  }

  /** An active record type but the master, surer when its name says household. */
  predicate OfRecordType(rt: RecordTypeInfo, c: MappingChoice) {
    rt.active && rt.developerName != "Master" && c.value == "recordType:" + rt.developerName
    && c.confidence == if IsHouseholdWord(rt.developerName) then 95 else 50
  }

  /** An active Type value. */
  predicate OfTypeValue(pv: PicklistValue, c: MappingChoice) {
    pv.active && c.value == "typePicklist:" + pv.value && c.confidence == if IsHouseholdWord(pv.value) then 85 else 40
  }

  /** A Type value found in the data, active or not. */
  predicate OfDataValue(tv: TypeValue, c: MappingChoice) {
    c.value == "typePicklist:" + tv.value && c.confidence == if IsHouseholdWord(tv.value) then 90 else 35
  }

  predicate OfObject(o: CandidateObject, c: MappingChoice) {
    c.value == "customObject:" + o.name && c.confidence == if IsGroupWord(o.name) then 65 else 30
  }

  // ---- the lists pushed ----

  /** One of the entries gives the option. */
  predicate Gives<T>(xs: seq<T>, of: (T, MappingChoice) -> bool, c: MappingChoice) {
    exists i :: 0 <= i < |xs| && of(xs[i], c)
  }

  lemma OneMore<T>(xs: seq<T>, of: (T, MappingChoice) -> bool, c: MappingChoice)
    requires xs != []
    ensures Gives(xs, of, c) <==> Gives(xs[..|xs| - 1], of, c) || of(xs[|xs| - 1], c)
  {
    var n := |xs| - 1;
    if i :| 0 <= i < |xs| && of(xs[i], c) {
      assert i < n ==> of(xs[..n][i], c);
    }
    if i :| 0 <= i < n && of(xs[..n][i], c) {
      assert of(xs[i], c);
    }
  }

  lemma {:induction false} RecordTypesOffered(rts: seq<RecordTypeInfo>, c: MappingChoice)
    ensures c in RecordTypeOptions(rts) <==> Gives(rts, OfRecordType, c)
  {
    if rts != [] {
      var n := |rts| - 1;
      RecordTypesOffered(rts[..n], c);
      OneMore(rts, OfRecordType, c);
      PrintedTexts(rts[n].developerName);
    }
  }

  lemma {:induction false} TypeValuesOffered(pvs: seq<PicklistValue>, c: MappingChoice)
    ensures c in PicklistOptions(pvs) <==> Gives(pvs, OfTypeValue, c)
  {
    if pvs != [] {
      var n := |pvs| - 1;
      TypeValuesOffered(pvs[..n], c);
      OneMore(pvs, OfTypeValue, c);
      PrintedTexts(pvs[n].value);
    }
  }

  lemma {:induction false} ObjectsOffered(objects: seq<CandidateObject>, c: MappingChoice)
    ensures c in ObjectOptions(objects) <==> Gives(objects, OfObject, c)
  {
    if objects != [] {
      var n := |objects| - 1;
      ObjectsOffered(objects[..n], c);
      OneMore(objects, OfObject, c);
      PrintedTexts(objects[n].name);
    }
  }

  /** Options stay when the data values are added, and what is added is one of them. */
  lemma {:induction false} DataValuesAdded(options: seq<MappingChoice>, tvs: seq<TypeValue>, c: MappingChoice)
    ensures c in options ==> c in WithDataValues(options, tvs)
    ensures c in WithDataValues(options, tvs) ==> c in options || Gives(tvs, OfDataValue, c)
  {
    if tvs != [] {
      var n := |tvs| - 1;
      DataValuesAdded(options, tvs[..n], c);
      OneMore(tvs, OfDataValue, c);
      PrintedTexts(tvs[n].value);
    }
  }

  predicate OffersValue(options: seq<MappingChoice>, value: string) {
    exists c :: c in options && c.value == value
  }

  lemma {:induction false} DataValuesOffered(options: seq<MappingChoice>, tvs: seq<TypeValue>, tv: TypeValue)
    requires tv in tvs
    ensures OffersValue(WithDataValues(options, tvs), "typePicklist:" + tv.value)
  {
    var n := |tvs| - 1;
    var before := WithDataValues(options, tvs[..n]);
    PrintedTexts(tvs[n].value);
    assert tvs == tvs[..n] + [tvs[n]];
    if tv != tvs[n] {
      DataValuesOffered(options, tvs[..n], tv);
      var c :| c in before && c.value == "typePicklist:" + tv.value;
      assert c in WithDataValues(options, tvs);
    } else if Listed(before, Print(NamedType(tv.value))) {
      var i :| 0 <= i < |before| && before[i].value == Print(NamedType(tv.value));
      assert before[i] in WithDataValues(options, tvs);
    } else {
      var c := MappingChoice(Print(NamedType(tv.value)), if IsHouseholdWord(tv.value) then 90 else 35);
      assert c in WithDataValues(options, tvs);
    }
  }

  // ---- the list offered ----

  lemma SortKeeps(pushed: seq<MappingChoice>, c: MappingChoice)
    ensures c in StableSort.Sort(pushed, ByConfidence()) <==> c in pushed
  {
    StableSort.SortIsPermutation(pushed, ByConfidence());
    assert c in StableSort.Sort(pushed, ByConfidence()) <==> c in multiset(StableSort.Sort(pushed, ByConfidence()));
    assert c in pushed <==> c in multiset(pushed);
  }

  /** The option of a declared entry of the bundle, or the one for all accounts. */
  predicate OfDeclared(b: Bundle, c: MappingChoice) {
    Gives(RecordTypes(b), OfRecordType, c) || Gives(TypeValues(b), OfTypeValue, c) || Gives(b.candidateCustomObjects, OfObject, c)
    || c == MappingChoice("allAccounts:", 40)
  }

  lemma PushedIs(b: Bundle, c: MappingChoice)
    ensures OfDeclared(b, c) ==> c in HouseholdOptions(b)
    ensures c in HouseholdOptions(b) ==> OfDeclared(b, c) || Gives(b.accountTypeValues, OfDataValue, c)
  {
    RecordTypesOffered(RecordTypes(b), c);
    TypeValuesOffered(TypeValues(b), c);
    DataValuesAdded(RecordTypeOptions(RecordTypes(b)) + PicklistOptions(TypeValues(b)), b.accountTypeValues, c);
    ObjectsOffered(b.candidateCustomObjects, c);
    PrintedTexts("");
  }

  lemma DataValuePushed(b: Bundle, tv: TypeValue)
    requires tv in b.accountTypeValues
    ensures OffersValue(HouseholdOptions(b), "typePicklist:" + tv.value)
  {
    var options := RecordTypeOptions(RecordTypes(b)) + PicklistOptions(TypeValues(b));
    DataValuesOffered(options, b.accountTypeValues, tv);
    var c :| c in WithDataValues(options, b.accountTypeValues) && c.value == "typePicklist:" + tv.value;
    assert c in HouseholdOptions(b);
  }

  /**
   * The list offered holds the options of every active record type but the master, of every active Type value and of every
   * candidate object, and the one for all accounts; and no other but those of Type values found in the data.
   */
  lemma EverythingOffered(b: Bundle, c: MappingChoice)
    ensures var offered := StableSort.Sort(HouseholdOptions(b), ByConfidence());
            && (OfDeclared(b, c) ==> c in offered)
            && (c in offered ==> OfDeclared(b, c) || Gives(b.accountTypeValues, OfDataValue, c))
  {
    SortKeeps(HouseholdOptions(b), c);
    PushedIs(b, c);
  }

  /** A Type value found in the data is offered too, by its own option or by that of the active value. */
  lemma EveryDataValueOffered(b: Bundle, tv: TypeValue)
    requires tv in b.accountTypeValues
    ensures OffersValue(StableSort.Sort(HouseholdOptions(b), ByConfidence()), "typePicklist:" + tv.value)
  {
    DataValuePushed(b, tv);
    var c :| c in HouseholdOptions(b) && c.value == "typePicklist:" + tv.value;
    SortKeeps(HouseholdOptions(b), c);
  }

  // ---- fields ----

  /** The advisor field offered for a field of accounts, and the asset field. */
  predicate OfAdvisorField(f: FieldDescribe, c: MappingChoice) {
    f.name != "OwnerId" && f.kind == "reference" && "User" in f.referenceTo && c.value == f.name
    && c.confidence == if Mentions(f.labelText, ["advisor", "rm", "planner", "rep", "manager"]) then 90 else 50
  }

  predicate OfAumField(f: FieldDescribe, c: MappingChoice) {
    f.kind == "currency" && c.value == f.name && c.confidence == if IsAumLabel(f.labelText) then 85 else 40
  }

  lemma {:induction false} AdvisorFieldsPushed(fields: seq<FieldDescribe>, c: MappingChoice)
    ensures c in AdvisorOptions(fields) <==> c == MappingChoice("OwnerId", 70) || Gives(fields, OfAdvisorField, c)
  {
    if fields != [] {
      AdvisorFieldsPushed(fields[..|fields| - 1], c);
      OneMore(fields, OfAdvisorField, c);
    }
  }

  lemma {:induction false} AumFieldsPushed(fields: seq<FieldDescribe>, c: MappingChoice)
    ensures c in AumOptions(fields) <==> c == MappingChoice("__none__", 30) || Gives(fields, OfAumField, c)
  {
    if fields != [] {
      AumFieldsPushed(fields[..|fields| - 1], c);
      OneMore(fields, OfAumField, c);
    }
  }

  /** Offered are exactly the owner and every reference to users, and exactly none and every currency field. */
  lemma FieldsOffered(fields: seq<FieldDescribe>, c: MappingChoice)
    ensures c in StableSort.Sort(AdvisorOptions(fields), ByConfidence()) <==>
            c == MappingChoice("OwnerId", 70) || Gives(fields, OfAdvisorField, c)
    ensures c in StableSort.Sort(AumOptions(fields), ByConfidence()) <==>
            c == MappingChoice("__none__", 30) || Gives(fields, OfAumField, c)
  {
    AdvisorFieldsPushed(fields, c);
    AumFieldsPushed(fields, c);
    SortKeeps(AdvisorOptions(fields), c);
    SortKeeps(AumOptions(fields), c);
  }
}
