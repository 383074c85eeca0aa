/** The read path against the write path: does a new household satisfy the filter printed from the same mapping? */
module ReadWriteAgreement {
  import opened Text
  import opened SoqlLiteral
  import opened SoqlQuery
  import opened OrgMapping
  import opened OrgQuery
  import opened OrgQueryMeaning
  import opened SchemaDiscovery

  // ---- the patterns a classified mapping prints ----

  /** Field and value of every account-level pattern. There are at most two. */
  function EvidenceAtoms(rt: Option<RecordTypeInfo>, picklist: Option<PicklistValue>,
                         data: Option<TypeValue>): (atoms: seq<Atom>)
    ensures |atoms| <= 2 && WordFields(atoms)
  {
    DevNameIsWord();
    (if rt.Some? then [Atom(DEV_NAME, rt.value.developerName)] else [])
    + (if picklist.Some? then [Atom("Type", picklist.value.value)]
       else if data.Some? then [Atom("Type", data.value.value)]
       else [])
  }

  function AtomsOf(b: Bundle): (atoms: seq<Atom>)
    ensures |atoms| <= 2 && WordFields(atoms)
  {
    EvidenceAtoms(HouseholdRecordType(b), HouseholdPicklistValue(b), HouseholdDataValue(b))
  }

  lemma {:induction false} AccountPatternsConcat(a: seq<HouseholdPattern>, b: seq<HouseholdPattern>)
    ensures AccountPatterns(a + b) == AccountPatterns(a) + AccountPatterns(b)
  {
    if a == [] {
      assert a + b == b;
    } else {
      assert (a + b)[1..] == a[1..] + b;
      AccountPatternsConcat(a[1..], b);
    }
  }

  lemma {:induction false} NoAccountPatterns(a: seq<HouseholdPattern>)
    requires forall i :: 0 <= i < |a| ==> !IsAccountPattern(a[i])
    ensures AccountPatterns(a) == []
  {
    if a != [] {
      NoAccountPatterns(a[1..]);
    }
  }

  lemma AllAccountPatterns(a: seq<HouseholdPattern>)
    requires |a| <= 1 && forall i :: 0 <= i < |a| ==> IsAccountPattern(a[i])
    ensures AccountPatterns(a) == a
  {
    if a != [] {
      assert a[1..] == [] && a == [a[0]];
    }
  }

  lemma MiddlePatterns(p1: seq<HouseholdPattern>, p2: seq<HouseholdPattern>, p3: seq<HouseholdPattern>,
                       p4: seq<HouseholdPattern>)
    requires AccountPatterns(p1) == [] && AccountPatterns(p4) == []
    requires AccountPatterns(p2) == p2 && AccountPatterns(p3) == p3
    ensures AccountPatterns(p1 + p2 + p3 + p4) == p2 + p3
  {
    AccountPatternsConcat(p1 + p2 + p3, p4);
    AccountPatternsConcat(p1 + p2, p3);
    AccountPatternsConcat(p1, p2);
    assert [] + p2 == p2;
    assert p2 + p3 + [] == p2 + p3;
  }

  lemma EvidencePrinted(rt: Option<RecordTypeInfo>, picklist: Option<PicklistValue>, data: Option<TypeValue>)
    ensures Filters(RecordTypePatterns(rt) + TypePatterns(picklist, data)) == RawTexts(EvidenceAtoms(rt, picklist, data))
    ensures AccountPatterns(RecordTypePatterns(rt)) == RecordTypePatterns(rt)
    ensures AccountPatterns(TypePatterns(picklist, data)) == TypePatterns(picklist, data)
  {
    AllAccountPatterns(RecordTypePatterns(rt));
    AllAccountPatterns(TypePatterns(picklist, data));
  }

  /** The account patterns of a classified mapping are exactly the record-type and Type evidence, printed raw. */
  lemma ClassifiedPatterns(b: Bundle)
    ensures var ps := AccountPatterns(PatternsOf(b));
            ps == RecordTypePatterns(HouseholdRecordType(b)) + TypePatterns(HouseholdPicklistValue(b), HouseholdDataValue(b)) &&
            Filters(ps) == RawTexts(AtomsOf(b))
  {
    var rt, picklist, data := HouseholdRecordType(b), HouseholdPicklistValue(b), HouseholdDataValue(b);
    EvidencePrinted(rt, picklist, data);
    NoAccountPatterns(PackagePatterns(b, MANAGED_PACKAGES));
    NoAccountPatterns(ObjectPatterns(HouseholdCandidate(b)));
    MiddlePatterns(PackagePatterns(b, MANAGED_PACKAGES), RecordTypePatterns(rt), TypePatterns(picklist, data),
                   ObjectPatterns(HouseholdCandidate(b)));
  }

  lemma ClassifiedIsHybridIff(b: Bundle, m: Option<Mapping>)
    requires m.Some? && m.value.patterns == PatternsOf(b)
    ensures PatternsArePrinted(m, AtomsOf(b))
    ensures Hybrid(m) <==> HouseholdRecordType(b).Some? && (HouseholdPicklistValue(b).Some? || HouseholdDataValue(b).Some?)
    ensures Hybrid(m) <==> |AtomsOf(b)| == 2
  {
    ClassifiedPatterns(b);
  }

  // ---- custom household objects ----

  /**
   * A household on its own object is filtered by nothing, unless both kinds of account evidence coexist
   * with a managed package: then the account filter is printed against the package's object.
   */
  lemma OwnObjectFilterIsEmptyIff(b: Bundle)
    requires HouseholdOf(b).recordTypeDeveloperName.None? && HouseholdOf(b).filterValue.None?
    ensures HouseholdFilter(Some(Classify(b))) == "" <==> !Hybrid(Some(Classify(b)))
    ensures ManagedHousehold(b).None? ==> HouseholdFilter(Some(Classify(b))) == ""
  {
    ClassifiedIsHybridIff(b, Some(Classify(b)));
  }

  // ---- the record the CRM holds after creation ----

  /** The CRM resolves the record type id of a new account to the developer name of its record type. */
  function Stored(b: Bundle, fields: Record): Record {
    if "RecordTypeId" !in fields || b.accountDescribe.None? then fields else
    var rt := Find(b.accountDescribe.value.recordTypeInfos, (rt: RecordTypeInfo) => rt.recordTypeId == fields["RecordTypeId"]);
    if rt.Some? then fields[DEV_NAME := rt.value.developerName] else fields
  }

  predicate DistinctRecordTypes(b: Bundle) {
    b.accountDescribe.Some? ==>
      var rts := b.accountDescribe.value.recordTypeInfos;
      forall i, j :: 0 <= i < j < |rts| ==> rts[i].recordTypeId != rts[j].recordTypeId
  }

  // ---- agreement ----

  predicate NoControl(s: string) {
    forall i :: 0 <= i < |s| ==> !IsControl(s[i])
  }

  lemma {:induction false} StripKeepsAllIff(s: string)
    ensures |StripControl(s)| <= |s|
    ensures |StripControl(s)| == |s| <==> NoControl(s)
    ensures NoControl(s) ==> StripControl(s) == s
  {
    if s != "" {
      StripKeepsAllIff(s[1..]);
      assert s == [s[0]] + s[1..];
      assert NoControl(s) <==> !IsControl(s[0]) && NoControl(s[1..]) by {
        assert forall i :: 0 < i < |s| ==> s[i] == s[1..][i - 1];
      }
    }
  }

  /** The value printed by the sanitizer is the value meant if and only if it fits and has no control character. */
  lemma DenotedIff(v: string)
    ensures Denoted(v) == v <==> Fits(v) && NoControl(v)
    ensures Fits(v) ==> !Dangles(v, MAX_LITERAL)
  {
    ChainIsOnePass(v);
    CutShape(v, MAX_LITERAL);
    StripKeepsAllIff(Kept(v, MAX_LITERAL));
    StripKeepsAllIff(v);
  }

  predicate Selected(m: Option<Mapping>, fields: string, limit: nat, offset: nat, r: Record) {
    var q := ParseQuery(ListHouseholds(m, fields, limit, offset));
    q.Some? && Selects(q.value, r)
  }

  /** The record just created, as the CRM stores it. */
  function Created(b: Bundle, m: Option<Mapping>, name: string, description: string): Record {
    Stored(b, NewHouseholdFields(m, name, description))
  }

  /** Before any discovery the demo filter and the demo record agree. */
  lemma DefaultAgrees(b: Bundle, name: string, description: string, fields: string, limit: nat, offset: nat)
    requires SelectList(fields)
    ensures Selected(None, fields, limit, offset, Created(b, None, name, description))
  {
    AccountIsWord();
    HouseholdLiteral();
    DefaultRecord(b, name, description);
    ListSelects(None, [], fields, limit, offset, Created(b, None, name, description));
  }

  lemma DefaultRecord(b: Bundle, name: string, description: string)
    ensures var r := Created(b, None, name, description); "Type" in r && r["Type"] == "Household"
  {
    assert "Type" != "Name" && "Type" != "Description" && "RecordTypeId" != "Name";
  }

  lemma AccountIsWord()
    ensures Word("Account")
  {
  }

  predicate Carries(r: Record, field: string, value: string) {
    field in r && r[field] == value
  }

  // ---- what a created record carries, for any mapping ----

  lemma OtherFields()
    ensures DEV_NAME != "Type" && DEV_NAME != "RecordTypeId" && DEV_NAME != "Name" && DEV_NAME != "Description"
    ensures "RecordTypeId" != "Type" && "RecordTypeId" != "Name" && "RecordTypeId" != "Description"
    ensures "Type" != "Name" && "Type" != "Description"
  {
  }

  lemma WrittenFields(m: Option<Mapping>, name: string, description: string)
    ensures var f := NewHouseholdFields(m, name, description);
            && DEV_NAME !in f
            && Carries(f, "Name", name) && Carries(f, "Description", description)
            && (if HouseholdTypeValue(m).Some? then Carries(f, "Type", HouseholdTypeValue(m).value) else "Type" !in f)
            && (if HouseholdRecordTypeId(m).Some? then Carries(f, "RecordTypeId", HouseholdRecordTypeId(m).value)
                else "RecordTypeId" !in f)
  {
    OtherFields();
  }

  /** The name of the record type with the id a mapping writes. */
  function WrittenRecordType(b: Bundle, m: Option<Mapping>): Option<string> {
    if HouseholdRecordTypeId(m).None? then None else
    var rt := Find(RecordTypes(b), (rt: RecordTypeInfo) => rt.recordTypeId == HouseholdRecordTypeId(m).value);
    if rt.Some? then Some(rt.value.developerName) else None
  }

  lemma StoredFields(b: Bundle, f: Record)
    ensures forall k :: k != DEV_NAME ==> (k in Stored(b, f) <==> k in f) && (k in f ==> Stored(b, f)[k] == f[k])
  {
  }

  lemma StoredRecordType(b: Bundle, m: Option<Mapping>, f: Record)
    requires DEV_NAME !in f
    requires if HouseholdRecordTypeId(m).Some? then Carries(f, "RecordTypeId", HouseholdRecordTypeId(m).value)
             else "RecordTypeId" !in f
    ensures if WrittenRecordType(b, m).Some? then Carries(Stored(b, f), DEV_NAME, WrittenRecordType(b, m).value)
            else DEV_NAME !in Stored(b, f)
  {
  }

  /** The name, the description, the Type and the record type of a new household. */
  lemma CreatedFields(b: Bundle, m: Option<Mapping>, name: string, description: string)
    ensures var r := Created(b, m, name, description);
            && Carries(r, "Name", name) && Carries(r, "Description", description)
            && (if HouseholdTypeValue(m).Some? then Carries(r, "Type", HouseholdTypeValue(m).value) else "Type" !in r)
            && (if WrittenRecordType(b, m).Some? then Carries(r, DEV_NAME, WrittenRecordType(b, m).value) else DEV_NAME !in r)
  {
    var f := NewHouseholdFields(m, name, description);
    WrittenFields(m, name, description);
    OtherFields();
    StoredFields(b, f);
    StoredRecordType(b, m, f);
  }

  // ---- finding a new household by its name ----

  /** The query a search sends selects this record. */
  predicate Found(m: Option<Mapping>, fields: string, q: string, limit: nat, offset: nat, r: Record) {
    var parsed := ParseQuery(SearchHouseholds(m, fields, q, limit, offset));
    parsed.Some? && Selects(parsed.value, r)
  }

  /**
   * With a printable mapping, a new household is found by a search if and only if it is listed and the name it was given
   * contains what is kept of the text, or, when the text was cut inside an escape, ends with that and a `%`.
   */
  lemma CreatedIsFoundIff(b: Bundle, m: Option<Mapping>, atoms: seq<Atom>, name: string, description: string, fields: string,
                          q: string, limit: nat, offset: nat)
    requires PatternsArePrinted(m, atoms) && Printable(m, atoms)
    requires SelectList(fields) && Word(HouseholdObject(m))
    ensures var r := Created(b, m, name, description);
            Found(m, fields, q, limit, offset, r) <==>
            Selected(m, fields, limit, offset, r) &&
            if Dangles(q, MAX_LITERAL) then EndsWith(name, Denoted(q) + "%") else Includes(name, Denoted(q))
  {
    var r := Created(b, m, name, description);
    CreatedFields(b, m, name, description);
    ListSelects(m, atoms, fields, limit, offset, r);
    SearchSelects(m, atoms, fields, q, limit, offset, r);
  }

  /** So a new household that is listed is found by its own name, when that fits the literal and has no control character. */
  lemma CreatedIsFoundByName(b: Bundle, m: Option<Mapping>, atoms: seq<Atom>, name: string, description: string, fields: string,
                             limit: nat, offset: nat)
    requires PatternsArePrinted(m, atoms) && Printable(m, atoms)
    requires SelectList(fields) && Word(HouseholdObject(m)) && Fits(name) && NoControl(name)
    ensures var r := Created(b, m, name, description);
            Found(m, fields, name, limit, offset, r) <==> Selected(m, fields, limit, offset, r)
  {
    CreatedIsFoundIff(b, m, atoms, name, description, fields, name, limit, offset);
    DenotedIff(name);
    assert name[0..] == name;
    IncludesAt(name, name, 0);
  }

  /** With distinct ids, an id names its own record type. */
  lemma IdNamesRecordType(b: Bundle, m: Option<Mapping>, rt: RecordTypeInfo)
    requires DistinctRecordTypes(b) && rt in RecordTypes(b)
    requires HouseholdRecordTypeId(m) == Some(rt.recordTypeId)
    ensures WrittenRecordType(b, m) == Some(rt.developerName)
  {
    var found := Find(RecordTypes(b), (x: RecordTypeInfo) => x.recordTypeId == rt.recordTypeId);
    var rts := RecordTypes(b);
    var i :| 0 <= i < |rts| && rts[i] == rt;
    var j :| 0 <= j < |rts| && rts[j] == found.value;
  }

  lemma HouseholdWordIsNotEmpty(s: string)
    requires IsHouseholdWord(s)
    ensures s != ""
  {
    assert ["household"][0] == "household";
  }

  /** A mapping that keeps the household and the patterns of the bundle it was classified from. */
  predicate Describes(m: Option<Mapping>, b: Bundle) {
    m.Some? && m.value.household == HouseholdOf(b) && m.value.patterns == PatternsOf(b)
  }

  lemma ClassifyDescribes(b: Bundle)
    ensures Describes(Some(Classify(b)), b)
  {
  }

  /** The record type a classified mapping writes is the evidence it was classified by, when that has an id. */
  lemma ClassifiedRecordType(b: Bundle, m: Option<Mapping>)
    requires Describes(m, b) && DistinctRecordTypes(b)
    ensures WrittenRecordType(b, m) ==
            if ManagedHousehold(b).None? && HouseholdRecordType(b).Some? && HouseholdRecordType(b).value.recordTypeId != ""
            then Some(HouseholdRecordType(b).value.developerName) else None
  {
    if ManagedHousehold(b).None? && HouseholdRecordType(b).Some? && HouseholdRecordType(b).value.recordTypeId != "" {
      IdNamesRecordType(b, m, HouseholdRecordType(b).value);
    }
  }

  // ---- single filters ----

  /** A single filter lists exactly the records that carry what its literal denotes, unless the cut split an escape. */
  lemma SingleFilterListsIff(m: Option<Mapping>, fields: string, limit: nat, offset: nat, r: Record)
    requires !Hybrid(m) && SelectList(fields) && Word(HouseholdObject(m))
    ensures Selected(m, fields, limit, offset, r) <==>
            match SingleAtom(m)
            case None => true
            case Some(a) => !Dangles(a.value, MAX_LITERAL) && Carries(r, a.field, Denoted(a.value))
  {
    ListSelects(m, [], fields, limit, offset, r);
  }

  /** The filter fields of a household: at most one kind is set. */
  lemma HouseholdFilters(b: Bundle)
    ensures var h := HouseholdOf(b);
            if ManagedHousehold(b).None? && HouseholdRecordType(b).Some? then
              h.recordTypeDeveloperName == Some(HouseholdRecordType(b).value.developerName) && h.filterField.None?
            else h.recordTypeDeveloperName.None? && (ManagedHousehold(b).Some? ==> h.filterField.None?)
                 && (h.filterField.Some? ==> h.filterField == Some("Type"))
  {
  }

  lemma TypeIsSafe()
    ensures SafeField("Type")
  {
  }

  lemma AtomOfType(m: Option<Mapping>)
    requires m.Some? && m.value.household.recordTypeDeveloperName.None?
    requires m.value.household.filterField.Some? ==> m.value.household.filterField == Some("Type")
    ensures match SingleAtom(m)
            case None => HouseholdTypeValue(m).None?
            case Some(a) => m.value.household.filterField.Some? && a.field == "Type" && HouseholdTypeValue(m) == Some(a.value)
  {
    TypeIsSafe();
  }

  /** What a classified mapping filters by: the record type or the Type value of its household. */
  lemma ClassifiedAtom(b: Bundle, m: Option<Mapping>)
    requires Describes(m, b)
    ensures match SingleAtom(m)
            case None => HouseholdTypeValue(m).None?
            case Some(a) =>
              ManagedHousehold(b).None? &&
              if HouseholdRecordType(b).Some? then a == Atom(DEV_NAME, HouseholdRecordType(b).value.developerName)
              else a.field == "Type" && HouseholdTypeValue(m) == Some(a.value)
  {
    HouseholdFilters(b);
    if ManagedHousehold(b).None? && HouseholdRecordType(b).Some? {
      HouseholdWordIsNotEmpty(HouseholdRecordType(b).value.developerName);
    } else {
      AtomOfType(m);
    }
  }

  /** The field and value the mapping filters by are on the created record, unless the record type has no id to write. */
  lemma CreatedHasAtom(b: Bundle, m: Option<Mapping>, name: string, description: string)
    requires Describes(m, b) && DistinctRecordTypes(b) && SingleAtom(m).Some?
    ensures var r, a := Created(b, m, name, description), SingleAtom(m).value;
            if HouseholdRecordType(b).Some? && HouseholdRecordType(b).value.recordTypeId == "" then a.field !in r
            else Carries(r, a.field, a.value)
  {
    CreatedFields(b, m, name, description);
    ClassifiedRecordType(b, m);
    ClassifiedAtom(b, m);
  }

  /**
   * For every bundle that is not hybrid: a new household is listed by the filter of its own mapping if and only if there is
   * no filter, or its value fits its literal, has no control character, and, when it names a record type, that has an id.
   */
  lemma SingleAgreesIff(b: Bundle, m: Option<Mapping>, name: string, description: string, fields: string, limit: nat,
                        offset: nat)
    requires Describes(m, b) && DistinctRecordTypes(b) && !Hybrid(m)
    requires SelectList(fields) && Word(HouseholdObject(m))
    ensures Selected(m, fields, limit, offset, Created(b, m, name, description)) <==>
            match SingleAtom(m)
            case None => true
            case Some(a) =>
              Fits(a.value) && NoControl(a.value) &&
              (HouseholdRecordType(b).Some? ==> HouseholdRecordType(b).value.recordTypeId != "")
  {
    SingleFilterListsIff(m, fields, limit, offset, Created(b, m, name, description));
    if SingleAtom(m).Some? {
      CreatedHasAtom(b, m, name, description);
      DenotedIff(SingleAtom(m).value.value);
    }
  }
}
