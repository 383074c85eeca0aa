/** The contact, financial account and asset parts of a classified mapping, read off the fields of the bundle. */
module FieldDetection {
  import opened Text
  import opened OrgMapping
  import opened SchemaDiscovery

  // ---- advisors of account households ----

  /** A custom reference to users whose label mentions an advisor. */
  predicate IsAdvisorReference(f: FieldDescribe) {
    f.custom && f.kind == "reference" && "User" in f.referenceTo
    && Mentions(f.labelText, ["advisor", "rm", "planner", "rep", "manager"])
  }

  predicate AdvisorReferenceAt(fields: seq<FieldDescribe>, i: nat) {
    i < |fields| && IsAdvisorReference(fields[i]) && forall j :: 0 <= j < i ==> !IsAdvisorReference(fields[j])
  }

  /** A household among the accounts has the first such field of accounts, or the owner when there is none. */
  lemma ClassifiedAdvisor(b: Bundle)
    requires b.accountDescribe.Some?
    requires var h := Classify(b).household; h.recordTypeDeveloperName.Some? || h.filterField.Some? || h.confidence == 40
    ensures var h, fields := Classify(b).household, b.accountDescribe.value.fields;
            && h.objectName == "Account"
            && (forall i: nat :: AdvisorReferenceAt(fields, i) ==> h.primaryAdvisorField == Some(fields[i].name))
            && ((forall i :: 0 <= i < |fields| ==> !IsAdvisorReference(fields[i])) ==> h.primaryAdvisorField == Some("OwnerId"))
  {
    var fields := b.accountDescribe.value.fields;
    AccountAdvisor(b);
    forall i: nat | AdvisorReferenceAt(fields, i)
      ensures FindAdvisorField(b.accountDescribe) == Some(fields[i].name)
    {
      AdvisorFound(b.accountDescribe, i);
    }
  }

  lemma AccountAdvisor(b: Bundle)
    requires var h := HouseholdOf(b); h.recordTypeDeveloperName.Some? || h.filterField.Some? || h.confidence == 40
    ensures HouseholdOf(b).objectName == "Account" && HouseholdOf(b).primaryAdvisorField == FindAdvisorField(b.accountDescribe)
  {
  }

  lemma AdvisorFound(d: Option<ObjectDescribe>, i: nat)
    requires d.Some? && AdvisorReferenceAt(d.value.fields, i)
    ensures FindAdvisorField(d) == Some(d.value.fields[i].name)
  {
    FindIs(d.value.fields, i, (f: FieldDescribe) =>
      f.custom && f.kind == "reference" && "User" in f.referenceTo
      && Mentions(f.labelText, ["advisor", "rm", "planner", "rep", "manager"]));
  }

  // ---- contacts ----

  predicate RefersTo(f: FieldDescribe, target: string) {
    f.kind == "reference" && target in f.referenceTo
  }

  /** Field `i` is the first that refers to the object. */
  predicate ReferenceAt(fields: seq<FieldDescribe>, target: string, i: nat) {
    i < |fields| && RefersTo(fields[i], target) && forall j :: 0 <= j < i ==> !RefersTo(fields[j], target)
  }

  predicate HasReference(fields: seq<FieldDescribe>, target: string) {
    exists i :: 0 <= i < |fields| && RefersTo(fields[i], target)
  }

  /** The first references of the object to contacts and to the household object are those of the junction. */
  ghost predicate LinksBy(o: CandidateObject, householdObject: string, j: Junction) {
    j.objectName == o.name
    && (exists i: nat :: ReferenceAt(o.fields, "Contact", i) && j.contactLookup == o.fields[i].name)
    && (exists i: nat :: ReferenceAt(o.fields, householdObject, i) && j.householdLookup == o.fields[i].name)
  }

  lemma ReferenceFound(fields: seq<FieldDescribe>, target: string)
    ensures ReferenceTo(fields, target).Some? <==> HasReference(fields, target)
    ensures ReferenceTo(fields, target).Some? ==> exists i: nat :: ReferenceAt(fields, target, i) && ReferenceTo(fields, target) == Some(fields[i])
    ensures forall i: nat :: ReferenceAt(fields, target, i) ==> ReferenceTo(fields, target) == Some(fields[i])
  {
    var p := (f: FieldDescribe) => f.kind == "reference" && target in f.referenceTo;
    assert ReferenceTo(fields, target) == Find(fields, p);
    if ReferenceTo(fields, target).Some? {
      var i := FindWhere(fields, p);
      assert ReferenceAt(fields, target, i);
    }
    forall i: nat | ReferenceAt(fields, target, i)
      ensures Find(fields, p) == Some(fields[i])
    {
      FindIs(fields, i, p);
    }
  }

  lemma JunctionLinks(o: CandidateObject, householdObject: string)
    ensures JunctionVia(o, householdObject).Some? <==> HasReference(o.fields, "Contact") && HasReference(o.fields, householdObject)
    ensures JunctionVia(o, householdObject).Some? ==> LinksBy(o, householdObject, JunctionVia(o, householdObject).value)
  {
    ReferenceFound(o.fields, "Contact");
    ReferenceFound(o.fields, householdObject);
  }

  lemma {:induction false} PackageJunctionLinks(b: Bundle, householdObject: string, packages: seq<PackageSpec>)
    ensures var j := PackageJunction(b, householdObject, packages);
            j.Some? ==> exists o :: o in b.candidateCustomObjects && LinksBy(o, householdObject, j.value)
  {
    if packages != [] {
      PackageJunctionLinks(b, householdObject, packages[1..]);
      var mp := packages[0];
      if mp.junctionObject.Some? && DescribedObject(b, mp.junctionObject.value).Some? {
        JunctionLinks(DescribedObject(b, mp.junctionObject.value).value, householdObject);
      }
    }
  }

  lemma {:induction false} GenericJunctionLinks(objects: seq<CandidateObject>, householdObject: string)
    ensures var j := GenericJunction(objects, householdObject);
            && (j.Some? ==> exists o :: o in objects && o.name != householdObject && LinksBy(o, householdObject, j.value))
            && (j.None? ==> forall o :: o in objects && o.name != householdObject ==>
                              !(HasReference(o.fields, "Contact") && HasReference(o.fields, householdObject)))
  {
    if objects != [] {
      GenericJunctionLinks(objects[1..], householdObject);
      JunctionLinks(objects[0], householdObject);
    }
  }

  /**
   * Contacts point at the household by their first reference to its object, or by their account. A junction names a described
   * object and its first references to contacts and households; outside accounts none is missed.
   */
  lemma ClassifiedContact(b: Bundle)
    requires b.contactDescribe.Some?
    ensures var c, household, fields := Classify(b).contact, Classify(b).household.objectName, b.contactDescribe.value.fields;
            && (forall i: nat :: household != "Account" && ReferenceAt(fields, household, i) ==> c.householdLookup == fields[i].name)
            && (household == "Account" || !HasReference(fields, household) ==> c.householdLookup == "AccountId")
            && (c.junction.Some? ==> exists o :: o in b.candidateCustomObjects && LinksBy(o, household, c.junction.value))
            && (c.junction.None? && household != "Account" ==>
                  forall o :: o in b.candidateCustomObjects && o.name != household ==>
                    !(HasReference(o.fields, "Contact") && HasReference(o.fields, household)))
  {
    var household := HouseholdOf(b).objectName;
    ReferenceFound(b.contactDescribe.value.fields, household);
    PackageJunctionLinks(b, household, MANAGED_PACKAGES);
    GenericJunctionLinks(b.candidateCustomObjects, household);
  }

  // ---- financial accounts and assets ----

  predicate SaysBalance(s: string) {
    Mentions(s, ["balance", "value", "amount"])
  }

  predicate SaysFinancialAccount(s: string) {
    Mentions(s, ["financial_account", "investment_account", "portfolio"])
  }

  /** One of the fields has this name and this kind. */
  predicate NamesField(fields: seq<FieldDescribe>, name: string, kind: string) {
    exists i :: 0 <= i < |fields| && fields[i].name == name && fields[i].kind == kind
  }

  /** The fields of the object that holds financial accounts, when there is one. */
  predicate HoldsAccounts(b: Bundle, name: string, fields: seq<FieldDescribe>) {
    if b.financialAccountDescribe.Some? then
      name == b.financialAccountDescribe.value.name && fields == b.financialAccountDescribe.value.fields
    else exists i :: 0 <= i < |b.candidateCustomObjects| && name == b.candidateCustomObjects[i].name
                     && fields == b.candidateCustomObjects[i].fields && SaysFinancialAccount(name)
  }

  ghost predicate NamesOwnFields(b: Bundle, fa: FinancialAccount) {
    fa.objectName.Some? &&
    exists fields :: HoldsAccounts(b, fa.objectName.value, fields)
      && (fa.balanceField.Some? ==> NamesField(fields, fa.balanceField.value, "currency"))
      && (fa.householdLookup.Some? ==> NamesField(fields, fa.householdLookup.value, "reference"))
  }

  predicate HasAccountsCandidate(b: Bundle) {
    exists i :: 0 <= i < |b.candidateCustomObjects| && SaysFinancialAccount(b.candidateCustomObjects[i].name)
  }

  lemma DescribedAccounts(b: Bundle)
    requires b.financialAccountDescribe.Some?
    ensures DetectFinancialAccount(b).available && NamesOwnFields(b, DetectFinancialAccount(b))
  {
    var fa, fields := DetectFinancialAccount(b), b.financialAccountDescribe.value.fields;
    assert HoldsAccounts(b, fa.objectName.value, fields);
  }

  lemma CandidateAccounts(b: Bundle)
    requires b.financialAccountDescribe.None?
    ensures var fa := DetectFinancialAccount(b);
            && (fa.available <==> HasAccountsCandidate(b))
            && (fa.available ==> NamesOwnFields(b, fa))
            && (!fa.available ==> fa.objectName.None? && fa.balanceField.None? && fa.householdLookup.None?)
  {
    var custom := Find(b.candidateCustomObjects, (o: CandidateObject) =>
      Mentions(o.name, ["financial_account", "investment_account", "portfolio"]));
    if custom.Some? {
      var i :| 0 <= i < |b.candidateCustomObjects| && b.candidateCustomObjects[i] == custom.value;
      assert HoldsAccounts(b, custom.value.name, b.candidateCustomObjects[i].fields);
    } else {
      assert !HasAccountsCandidate(b);
    }
  }

  /**
   * Financial accounts are available exactly when their object is described or a candidate object is named after them, and
   * the fields named are fields of that object: a currency and a reference.
   */
  lemma ClassifiedFinancialAccount(b: Bundle)
    ensures var fa := Classify(b).financialAccount;
            && (fa.available <==> b.financialAccountDescribe.Some? || HasAccountsCandidate(b))
            && (fa.available ==> NamesOwnFields(b, fa))
            && (!fa.available ==> fa.objectName.None? && fa.balanceField.None? && fa.householdLookup.None?)
  {
    if b.financialAccountDescribe.Some? {
      DescribedAccounts(b);
    } else {
      CandidateAccounts(b);
    }
  }

  /** A currency field of accounts that sums their assets: the one the financial cloud ships, or a custom one labelled so. */
  predicate SumsAssets(f: FieldDescribe) {
    f.kind == "currency" && (f.name == "FinServ__TotalFinancialAccounts__c" || (f.custom && IsAumLabel(f.labelText)))
  }

  predicate HasAssetField(b: Bundle, name: string) {
    b.accountDescribe.Some? &&
    var fields := b.accountDescribe.value.fields;
    exists i :: 0 <= i < |fields| && fields[i].name == name && SumsAssets(fields[i])
  }

  /**
   * Assets are the balances of counted financial accounts, when there is a balance field; or else a field of accounts that
   * sums them; and they are not found only when accounts have no such field.
   */
  lemma ClassifiedAum(b: Bundle)
    ensures var a, fa := Classify(b).aum, Classify(b).financialAccount;
            && (a.source.FinancialAccountRollup? <==> fa.available && Truthy(fa.balanceField) && b.financialAccountCount > 0)
            && (a.source.FinancialAccountRollup? ==> a.objectName == fa.objectName && a.field == fa.balanceField)
            && (a.source.AccountField? ==> a.objectName == Some("Account") && a.field.Some? && HasAssetField(b, a.field.value))
            && (a.source.NotFound? ==> a.objectName.None? && a.field.None?)
            && (a.source.NotFound? && b.accountDescribe.Some? && (forall f :: f in b.accountDescribe.value.fields ==> f.name != "") ==>
                  forall f :: f in b.accountDescribe.value.fields ==> !SumsAssets(f))
  {
    if b.accountDescribe.Some? {
      var fields := b.accountDescribe.value.fields;
      var shipped := Find(fields, (f: FieldDescribe) => f.name == FSC_ROLLUP && f.kind == "currency");
      var labelled := Find(fields, (f: FieldDescribe) => f.custom && f.kind == "currency" && IsAumLabel(f.labelText));
      forall f | f in fields && SumsAssets(f)
        ensures shipped.Some? || labelled.Some?
      {
        var i :| 0 <= i < |fields| && fields[i] == f;
      }
    }
  }
}
