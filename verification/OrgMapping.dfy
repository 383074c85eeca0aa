/** The mapping of an organisation's household model. Confidences are whole hundredths. */
module OrgMapping {
  import opened Text

  datatype PatternKind = ManagedPackage | RecordType | TypePicklist | DataTypeValue | CustomObject

  datatype HouseholdPattern = HouseholdPattern(kind: PatternKind, filter: string, confidence: nat)

  datatype Household = Household(
    objectName: string,
    recordTypeDeveloperName: Option<string>,
    recordTypeId: Option<string>,
    filterField: Option<string>,
    filterValue: Option<string>,
    primaryAdvisorField: Option<string>,
    confidence: nat)

  datatype Junction = Junction(objectName: string, contactLookup: string, householdLookup: string)

  datatype Contact = Contact(householdLookup: string, junction: Option<Junction>, confidence: nat)

  datatype FinancialAccount = FinancialAccount(
    available: bool,
    objectName: Option<string>,
    householdLookup: Option<string>,
    balanceField: Option<string>,
    confidence: nat)

  datatype AumSource = FinancialAccountRollup | AccountField | NotFound

  datatype Aum = Aum(source: AumSource, objectName: Option<string>, field: Option<string>, confidence: nat)

  datatype Mapping = Mapping(
    confidence: nat,
    patterns: seq<HouseholdPattern>,
    household: Household,
    contact: Contact,
    financialAccount: FinancialAccount,
    aum: Aum)
}
