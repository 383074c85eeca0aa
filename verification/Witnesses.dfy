/** Concrete inputs on the failing side of the exact conditions proved elsewhere. */
module Witnesses {
  import opened Text
  import opened SoqlLiteral
  import opened SoqlQuery
  import opened OrgMapping
  import opened OrgQuery
  import opened OrgQueryMeaning
  import opened SchemaDiscovery
  import opened ManualMapping
  import opened ReadWriteAgreement
  import opened QuoteBalance
  import opened HybridAgreement
  import opened CorrectedAgreement

  // ---- bundles ----

  const TYPE_FIELD := FieldDescribe("Type", "Type", "picklist", false, [], [PicklistValue("O'Household", true)])

  const ACCOUNT := ObjectDescribe("Account", [TYPE_FIELD], [RecordTypeInfo("012", "Household", "Household", true)])

  /** Both kinds of account evidence, the Type value with a quote in it. */
  const HYBRID := Bundle(Some(ACCOUNT), None, None, [], [], [], 0)

  const HOUSEHOLD_OBJECT := "cloupra__Household__c"

  const FOUND := [DetectedPackage("cloupra__", [HOUSEHOLD_OBJECT])]

  /** The same evidence beside a managed package whose household object was described. */
  const MANAGED := Bundle(Some(ACCOUNT), None, None, FOUND, [CandidateObject(HOUSEHOLD_OBJECT, "Household", [])], [], 0)

  /** A managed package whose household object was found but not described. */
  const UNDESCRIBED := Bundle(None, None, None, FOUND, [], [], 0)

  lemma IsHouseholdText(s: string, i: nat)
    requires i <= |s| && "household" <= Lower(s)[i..]
    ensures IsHouseholdWord(s)
  {
    IncludesAt(Lower(s), "household", i);
    assert ["household"][0] == "household";
  }

  lemma HouseholdTexts()
    ensures IsHouseholdWord("Household") && IsHouseholdWord("O'Household")
  {
    assert Lower("Household")[0..] == "household";
    IsHouseholdText("Household", 0);
    assert Lower("O'Household")[2..] == "household";
    IsHouseholdText("O'Household", 2);
  }

  /** What the account evidence is, for a bundle with this account description. */
  lemma Evidence(b: Bundle)
    requires b.accountDescribe == Some(ACCOUNT)
    ensures |AtomsOf(b)| == 2 && NameValue(b) == "Household" && TypeText(b) == "O'Household"
    ensures HouseholdRecordType(b).value.recordTypeId == "012" && DistinctRecordTypes(b)
  {
    HouseholdTexts();
    assert HouseholdRecordType(b) == Some(ACCOUNT.recordTypeInfos[0]);
    assert TypeField(b) == Some(TYPE_FIELD);
    assert HouseholdPicklistValue(b) == Some(TYPE_FIELD.picklistValues[0]);
  }

  lemma QuoteLeaves()
    ensures After(Inside, "O'Household") == Outside && !Clean("O'Household") && Clean("Household")
  {
    assert "O'Household" == "O" + ("'" + "Household");
    OneQuote("O", "Household");
    assert "O'Household"[1] == '\'';
  }

  /** Without packages the household of this bundle is an account. */
  lemma HybridObject(b: Bundle, m: Option<Mapping>)
    requires b == HYBRID && Describes(m, b)
    ensures Word(HouseholdObject(m))
  {
    AccountIsWord();
    assert ManagedHousehold(b).None?;
  }

  /** On the failing side of `OrgQueryMeaning.HybridListIffClean` and `HybridSearchIffClean`: no listing is a query, no search is the one meant. */
  lemma QuoteInHybrid(b: Bundle, m: Option<Mapping>, fields: string, q: string, limit: nat, offset: nat)
    requires b == HYBRID && Describes(m, b) && SelectList(fields)
    ensures ParseQuery(ListHouseholds(m, fields, limit, offset)).None?
    ensures ParseQuery(SearchHouseholds(m, fields, q, limit, offset))
         != Some(Query(fields, HouseholdObject(m), Some(SearchCond(m, AtomsOf(b), q)), limit, offset))
  {
    Evidence(b);
    QuoteLeaves();
    HybridObject(b, m);
    ClassifiedPrintsPair(b, m);
    ClassifiedIsHybridIff(b, m);
    CleanNameReadable(m, NameValue(b), TypeText(b), fields, limit, offset);
    assert AtomsOf(b)[1].value == TypeText(b);
    HybridSearchIffClean(m, AtomsOf(b), fields, q, limit, offset);
  }

  /** `HybridAgreement`: a household created under this bundle's own mapping is not listed by it. */
  lemma QuoteHidesHousehold(b: Bundle, m: Option<Mapping>, name: string, description: string, fields: string,
                            limit: nat, offset: nat)
    requires b == HYBRID && Describes(m, b) && SelectList(fields)
    ensures !Selected(m, fields, limit, offset, Created(b, m, name, description))
  {
    QuoteInHybrid(b, m, fields, "", limit, offset);
  }

  /** On the failing side of `ManualMapping.AnswerTakesEffectIff`: the user's answer is not what is printed. */
  lemma AnswerIsIgnored(b: Bundle, n: Named, advisorField: string, aumField: Option<string>)
    requires b == HYBRID
    ensures var m := Some(Applied(b, Answers(ParseHouseholdChoice(Print(n)), advisorField, aumField)));
            !(HouseholdFilter(m) == NamedFilter(n) && HouseholdObject(m) == NamedObjectName(n))
  {
    Evidence(b);
    ClassifyDescribes(b);
    ClassifiedIsHybridIff(b, Some(Classify(b)));
    AnswerTakesEffectIff(b, n, advisorField, aumField);
  }

  /** Nor is a household created after any correction of that mapping. */
  lemma QuoteHidesCorrections(b: Bundle, m: Option<Mapping>, n: Named, advisorField: string, aumField: Option<string>,
                              name: string, description: string, fields: string, limit: nat, offset: nat)
    requires b == HYBRID && m == Some(Applied(b, Answers(ParseHouseholdChoice(Print(n)), advisorField, aumField)))
    requires SelectList(fields) && Word(HouseholdObject(m))
    ensures !Selected(m, fields, limit, offset, Created(b, m, name, description))
  {
    Evidence(b);
    QuoteLeaves();
    AppliedCorrects(b, n, advisorField, aumField);
    HybridCorrectedCleanName(b, m, n, advisorField, name, description, fields, limit, offset);
  }

  // ---- managed packages ----

  lemma PackageIsFound(b: Bundle)
    requires b.managedPackagesDetected == FOUND
    ensures PackageFound(b, MANAGED_PACKAGES[0]) && SomePackageFound(b)
  {
    assert Find(FOUND, (d: DetectedPackage) => d.prefix == "cloupra__") == Some(FOUND[0]);
  }

  /** On the failing side of `ReadWriteAgreement.OwnObjectFilterIsEmptyIff`: the account filter is printed against the package's own object. */
  lemma AccountFilterOnOwnObject(b: Bundle, m: Option<Mapping>)
    requires b == MANAGED && m == Some(Classify(b))
    ensures HouseholdObject(m) == HOUSEHOLD_OBJECT && HouseholdFilter(m) != ""
  {
    Evidence(b);
    PackageIsFound(b);
    ManagedIsFirst(b);
    ClassifyDescribes(b);
    ClassifiedIsHybridIff(b, m);
    OwnObjectFilterIsEmptyIff(b);
  }

  lemma ManagedIsFirst(b: Bundle)
    requires b == MANAGED
    ensures HouseholdOf(b).objectName == HOUSEHOLD_OBJECT
    ensures HouseholdOf(b).recordTypeDeveloperName.None? && HouseholdOf(b).filterValue.None?
  {
    PackageIsFound(b);
    var described := DescribedObject(b, MANAGED_PACKAGES[0].householdObject);
    assert described.Some?;
    assert ManagedHousehold(b) == Some(MANAGED_PACKAGES[0]);
  }

  /** On the failing side of `SchemaDiscovery.AgreesIff`: a package is listed at 95 and the household is the last resort at 40. */
  lemma DetectorsDisagree(b: Bundle)
    requires b == UNDESCRIBED
    ensures !Agrees(b)
  {
    PackageIsFound(b);
    assert b.candidateCustomObjects == [];
    AgreesIff(b);
  }
}
