/** Mappings corrected by the user: exactly when a household created afterwards is listed. */
module CorrectedAgreement {
  import opened Text
  import opened SoqlLiteral
  import opened SoqlQuery
  import opened OrgMapping
  import opened OrgQuery
  import opened OrgQueryMeaning
  import opened SchemaDiscovery
  import opened ManualMapping
  import opened ReadWriteAgreement
  import opened QuoteBalance
  import opened HybridAgreement

  /** A mapping that carries the household the user named, over the patterns discovered. */
  predicate Corrects(m: Option<Mapping>, b: Bundle, n: Named, advisorField: string) {
    m.Some? && m.value.household == AppliedHousehold(b, ChoiceOf(n), advisorField) && m.value.patterns == PatternsOf(b)
  }

  /** Printing an option, sending it back, parsing and applying it gives such a mapping. */
  lemma AppliedCorrects(b: Bundle, n: Named, advisorField: string, aumField: Option<string>)
    ensures Corrects(Some(Applied(b, Answers(ParseHouseholdChoice(Print(n)), advisorField, aumField))), b, n, advisorField)
  {
    PrintedChoiceParses(n);
  }

  /** What a household created under the user's answer carries. */
  function Given(b: Bundle, n: Named): Record {
    match n
    case NamedType(v) => if v != "" then map["Type" := v] else map[]
    case NamedRecordType(v) => if RecordTypeIdOf(b, v).Some? then map[DEV_NAME := v] else map[]
    case _ => map[]
  }

  lemma NamedRecordTypeIsWritten(b: Bundle, m: Option<Mapping>, v: string)
    requires m.Some? && m.value.household.recordTypeId == RecordTypeIdOf(b, v) && DistinctRecordTypes(b)
    ensures WrittenRecordType(b, m) == if RecordTypeIdOf(b, v).Some? then Some(v) else None
  {
    if RecordTypeIdOf(b, v).Some? {
      var rt := Find(RecordTypes(b), (r: RecordTypeInfo) => r.developerName == v).value;
      IdNamesRecordType(b, m, rt);
    }
  }

  lemma CorrectedFields(b: Bundle, m: Option<Mapping>, n: Named, advisorField: string, name: string, description: string)
    requires Corrects(m, b, n, advisorField) && DistinctRecordTypes(b)
    ensures var r := Created(b, m, name, description);
            && (DEV_NAME in r <==> DEV_NAME in Given(b, n)) && (DEV_NAME in r ==> r[DEV_NAME] == Given(b, n)[DEV_NAME])
            && ("Type" in r <==> "Type" in Given(b, n)) && ("Type" in r ==> r["Type"] == Given(b, n)["Type"])
  {
    CreatedFields(b, m, name, description);
    OtherFields();
    if n.NamedRecordType? {
      NamedRecordTypeIsWritten(b, m, n.v);
    }
  }

  /**
   * In a hybrid bundle the discovered filter survives the answer. With no bare quote in its two values, a household created
   * under the answer is listed if and only if both values are well escaped and the answer names, as the escapes read, the
   * very Type value or the very record type discovered, the latter with an id.
   */
  lemma HybridCorrectedIff(b: Bundle, m: Option<Mapping>, n: Named, advisorField: string,
                           name: string, description: string, fields: string, limit: nat, offset: nat)
    requires Corrects(m, b, n, advisorField) && DistinctRecordTypes(b) && |AtomsOf(b)| == 2
    requires NoBareQuote(NameValue(b)) && NoBareQuote(TypeText(b))
    requires SelectList(fields) && Word(HouseholdObject(m))
    ensures Selected(m, fields, limit, offset, Created(b, m, name, description)) <==>
            WellEscaped(NameValue(b)) && WellEscaped(TypeText(b)) &&
            match n
            case NamedType(v) => v != "" && v == Unescaped(TypeText(b))
            case NamedRecordType(v) => RecordTypeIdOf(b, v).Some? && v == Unescaped(NameValue(b))
            case _ => false
  {
    ClassifiedPrintsPair(b, m);
    CorrectedFields(b, m, n, advisorField, name, description);
    OtherFields();
    PairSelectsIff(m, NameValue(b), TypeText(b), fields, limit, offset, Created(b, m, name, description));
  }

  /**
   * In a hybrid bundle with a clean record type name, whatever the Type value: nothing created under any answer is listed
   * unless the Type value ends inside its literal; and an answer that names the discovered record type, with an id, is listed
   * exactly when the listing is a query and the record meets what the Type value added after the list.
   */
  lemma HybridCorrectedCleanName(b: Bundle, m: Option<Mapping>, n: Named, advisorField: string,
                                 name: string, description: string, fields: string, limit: nat, offset: nat)
    requires Corrects(m, b, n, advisorField) && DistinctRecordTypes(b) && |AtomsOf(b)| == 2 && Clean(NameValue(b))
    requires SelectList(fields) && Word(HouseholdObject(m))
    ensures Selected(m, fields, limit, offset, Created(b, m, name, description)) ==> After(Inside, TypeText(b)) == Inside
    ensures n == NamedRecordType(NameValue(b)) && RecordTypeIdOf(b, NameValue(b)).Some? ==>
            ListedAsFarAsAdded(m, TypeText(b), fields, limit, offset, Created(b, m, name, description))
  {
    ClassifiedPrintsPair(b, m);
    CleanNameReadable(m, NameValue(b), TypeText(b), fields, limit, offset);
    if n == NamedRecordType(NameValue(b)) && RecordTypeIdOf(b, NameValue(b)).Some? {
      CorrectedFields(b, m, n, advisorField, name, description);
      CleanNameDecides(m, NameValue(b), TypeText(b), fields, limit, offset, Created(b, m, name, description));
    }
  }

  /**
   * With bare quotes the answer need not be what was discovered: for the Type value `x' OR Type = 'y` a household created
   * under the answer `y` is listed.
   */
  lemma OtherAnswerIsListed(b: Bundle, m: Option<Mapping>, x: string, y: string, advisorField: string,
                            name: string, description: string, fields: string, limit: nat, offset: nat)
    requires Corrects(m, b, NamedType(y), advisorField) && DistinctRecordTypes(b) && |AtomsOf(b)| == 2
    requires Clean(NameValue(b)) && Clean(x) && Clean(y) && y != "" && TypeText(b) == x + "' OR Type = '" + y
    requires SelectList(fields) && Word(HouseholdObject(m))
    ensures Selected(m, fields, limit, offset, Created(b, m, name, description))
  {
    ClassifiedPrintsPair(b, m);
    CorrectedFields(b, m, NamedType(y), advisorField, name, description);
    BareQuotesListMore(m, NameValue(b), x, y, fields, limit, offset, Created(b, m, name, description));
  }

  /**
   * In any other bundle a household created under the answer is listed if and only if the answer names no value, or its
   * value fits its literal, has no control character, and, when it is a record type, has an id to write.
   */
  lemma SingleCorrectedIff(b: Bundle, m: Option<Mapping>, n: Named, advisorField: string,
                           name: string, description: string, fields: string, limit: nat, offset: nat)
    requires Corrects(m, b, n, advisorField) && DistinctRecordTypes(b) && !Hybrid(m)
    requires SelectList(fields) && Word(HouseholdObject(m))
    ensures Selected(m, fields, limit, offset, Created(b, m, name, description)) <==>
            match n
            case NamedType(v) => v == "" || (Fits(v) && NoControl(v))
            case NamedRecordType(v) => v == "" || (Fits(v) && NoControl(v) && RecordTypeIdOf(b, v).Some?)
            case _ => true
  {
    CorrectedAtom(m, b, n, advisorField);
    CorrectedFields(b, m, n, advisorField, name, description);
    OtherFields();
    SingleFilterListsIff(m, fields, limit, offset, Created(b, m, name, description));
    if SingleAtom(m).Some? {
      DenotedIff(SingleAtom(m).value.value);
    }
  }

  lemma CorrectedAtom(m: Option<Mapping>, b: Bundle, n: Named, advisorField: string)
    requires Corrects(m, b, n, advisorField)
    ensures SingleAtom(m) == match n
                             case NamedType(v) => if v != "" then Some(Atom("Type", v)) else None
                             case NamedRecordType(v) => if v != "" then Some(Atom(DEV_NAME, v)) else None
                             case _ => None
  {
    TypeIsSafe();
  }
}
