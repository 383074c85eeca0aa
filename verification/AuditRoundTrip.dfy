/** When parsing a printed audit record gives the record back. */
module AuditRoundTrip {
  import opened Text
  import opened LineMatch
  import opened AuditTrail
  import opened AuditSubject

  // ---- text fields of the description ----

  lemma {:induction false} LineIsLine(s: string)
    ensures Line(Line(s)) == Line(s)
  {
    if Line(s) != "" {
      LineIsLine(s[1..]);
    }
  }

  /** A captured text is a non-empty single line. */
  lemma {:induction false} MatchedIsLine(p: Pattern, s: string)
    requires !p.millis
    ensures Match(p, s).Some? ==> Match(p, s).value != "" && Line(Match(p, s).value) == Match(p, s).value
  {
    if p.tag <= s && Capture(p, s[|p.tag|..]).Some? {
      LineIsLine(s[|p.tag|..]);
    } else if s != "" {
      MatchedIsLine(p, s[1..]);
    }
  }

  predicate IsTextField(t: Tag) {
    IsField(t) && t != Duration
  }

  /** The field of the entry itself, the empty string not yet dropped. */
  function Field(e: AuditEntry, timestamp: string, t: Tag): Option<string>
    requires IsTextField(t)
  {
    match t
    case RequestId => e.requestId
    case Actor => e.actor
    case Detail => e.detail
    case _ => Some(timestamp)
  }

  /**
   * A text field is read back if and only if: being non-empty, it is a single line and no value printed before it shows
   * its tag with another text; being absent, no printed value at all shows its tag. An empty one is never read back.
   */
  lemma TextFieldReadsBackIff(e: AuditEntry, timestamp: string, json: string, t: Tag)
    requires IsTextField(t) && (t == Timestamp ==> timestamp != "")
    ensures var f, before, after := Field(e, timestamp, t), Before(e, timestamp, json, t), After(e, timestamp, json, t);
            Match(PatternOf(t), Description(e, timestamp, json)) == f <==>
            if Truthy(f) then (if before.Some? then before == f else Line(f.value) == f.value)
            else f.None? && before.None? && after.None?
  {
    var f, description := Field(e, timestamp, t), Description(e, timestamp, json);
    DescriptionRead(e, timestamp, json, t);
    MatchedIsLine(PatternOf(t), description);
    if Truthy(f) {
      TagsAreTags(t);
      OwnLineReadsBackIff(TagText(t), f.value);
    }
  }

  // ---- the duration ----

  lemma DigitsParse(n: nat)
    ensures ParseMillis(Some(Decimal(n))) == Some(n)
  {
    ParseDecimal(n);
  }

  /**
   * A positive duration is read back unless an earlier value shows another one. A duration of zero or less is lost, like an
   * absent one: what is parsed is then what another value shows, and none exactly when no other value shows the tag.
   */
  lemma DurationReadsBackIff(e: AuditEntry, timestamp: string, json: string)
    ensures var d, before, after := e.durationMs, Before(e, timestamp, json, Duration), After(e, timestamp, json, Duration);
            var parsed := ParseMillis(Match(PatternOf(Duration), Description(e, timestamp, json)));
            && (d.Some? && d.value > 0 ==> (parsed == Some(d.value as nat) <==> before.None? || ParseMillis(before) == Some(d.value as nat)))
            && (!(d.Some? && d.value > 0) ==>
                  parsed == ParseMillis(Or(before, after)) && (parsed == None <==> before.None? && after.None?))
  {
    var d := e.durationMs;
    DescriptionRead(e, timestamp, json, Duration);
    SeenIsDigits(PatternOf(Duration), Items(e, timestamp, json)[..Position(Duration)]);
    SeenIsDigits(PatternOf(Duration), Items(e, timestamp, json)[Position(Duration) + 1..]);
    if d.Some? && d.value > 0 {
      MillisReadBack(TagText(Duration), Decimal(d.value));
      DigitsParse(d.value);
    } else if d.Some? && d.value < 0 {
      NegativeIsUnread(0 - d.value);
    }
  }

  lemma {:induction false} DigitsMatched(p: Pattern, s: string)
    requires p.millis
    ensures Match(p, s).Some? ==> ParseMillis(Match(p, s)).Some?
  {
    if !(p.tag <= s && Capture(p, s[|p.tag|..]).Some?) && s != "" {
      DigitsMatched(p, s[1..]);
    }
  }

  lemma {:induction false} SeenIsDigits(p: Pattern, items: seq<Item>)
    requires p.millis
    ensures Seen(p, items).Some? ==> ParseMillis(Seen(p, items)).Some?
  {
    if items != [] {
      SeenIsDigits(p, items[1..]);
      if items[0].value.Some? {
        DigitsMatched(p, items[0].value.value);
      }
    }
  }

  // ---- texts that show no tag ----

  predicate Silent(p: Pattern, o: Option<string>) {
    o.None? || Match(p, o.value).None?
  }

  lemma {:induction false} SilentUnseen(p: Pattern, items: seq<Item>)
    requires forall i :: 0 <= i < |items| ==> Silent(p, items[i].value)
    ensures Seen(p, items) == None
  {
    if items != [] {
      assert Silent(p, items[0].value);
      SilentUnseen(p, items[1..]);
    }
  }

  lemma {:induction false} NoColonNoTag(s: string)
    requires ':' !in s
    ensures !HasColonBlank(s)
  {
    if s != "" {
      assert s[0] in s;
      NoColonNoTag(s[1..]);
    }
  }

  lemma DurationTextIsSilent(t: Tag, ms: int)
    requires t != Plain
    ensures Match(PatternOf(t), DurationText(ms)).None?
  {
    var s := DurationText(ms);
    assert ':' !in s by {
      assert IsDigit(':') == false;
    }
    NoColonNoTag(s);
    TagsAreTags(t);
    MatchNeedsColonBlank(PatternOf(t), s);
  }

  lemma NegativeIsUnread(n: nat)
    requires n > 0
    ensures Own(Duration, Some(DurationText(0 - n))) == None
  {
    var v := DurationText(0 - n);
    assert v[0] == '-';
    assert LeadingDigits(v) == "";
    TagsAreTags(Duration);
    MatchWithoutCapture(PatternOf(Duration), v);
    DurationTextIsSilent(Duration, 0 - n);
  }

  // ---- the whole record ----

  /** The text contains no tag of the description. */
  predicate Quiet(s: string) {
    forall t: Tag :: t != Plain ==> !Includes(s, TagText(t))
  }

  predicate QuietLine(s: string) {
    s != "" && Line(s) == s && Quiet(s)
  }

  predicate QuietField(o: Option<string>) {
    o.None? || QuietLine(o.value)
  }

  predicate AllPresent(e: AuditEntry) {
    e.requestId.Some? && e.actor.Some? && e.detail.Some? && e.durationMs.Some?
  }

  /** What the record needs: a whole action, single-line fields, no tag in any value, and no duration of zero. */
  predicate Clean(e: AuditEntry, timestamp: string) {
    && e.action != "" && Whole(e.action, SEPARATOR) && Quiet(e.action)
    && QuietField(e.requestId) && QuietField(e.actor) && QuietField(e.detail)
    && (e.durationMs.Some? ==> e.durationMs.value > 0)
    && QuietLine(timestamp)
  }

  lemma QuietIsSilent(t: Tag, s: string)
    requires t != Plain && Quiet(s)
    ensures Match(PatternOf(t), s).None?
  {
    MatchNeedsTag(PatternOf(t), s);
  }

  lemma ColonlessIsSilent(t: Tag, s: string)
    requires t != Plain && ':' !in s
    ensures Match(PatternOf(t), s).None? && Match(PatternOf(t), s + ":").None?
  {
    TagsAreTags(t);
    NoColonNoTag(s);
    ColonAtEnd(s);
    MatchNeedsColonBlank(PatternOf(t), s);
    MatchNeedsColonBlank(PatternOf(t), s + ":");
  }

  lemma WordIsSilent(t: Tag, error: bool)
    requires t != Plain
    ensures Match(PatternOf(t), ResultWord(error)).None?
  {
    ColonlessIsSilent(t, ResultWord(error));
  }

  lemma {:induction false} ColonAtEnd(s: string)
    requires !HasColonBlank(s)
    ensures !HasColonBlank(s + ":")
  {
    if s != "" {
      assert (s + ":")[1..] == s[1..] + ":";
      ColonAtEnd(s[1..]);
    }
  }

  predicate IsHeading(s: string) {
    s == "MIN AUDIT LOG" || s == "" || s == "Payload (PII-scrubbed):"
  }

  /** A heading has no colon, or just one at its end. */
  lemma HeadingShape(s: string) returns (h: string)
    requires IsHeading(s)
    ensures ':' !in h && (s == h || s == h + ":")
  {
    h := if s == "Payload (PII-scrubbed):" then "Payload (PII-scrubbed)" else s;
  }

  lemma HeadingIsSilent(t: Tag, s: string)
    requires t != Plain && IsHeading(s)
    ensures Match(PatternOf(t), s).None?
  {
    var h := HeadingShape(s);
    ColonlessIsSilent(t, h);
  }

  /** Every value of a clean record but the payload is a heading, the result, the duration, or a quiet text. */
  lemma ItemKind(e: AuditEntry, timestamp: string, json: string, i: nat)
    requires Clean(e, timestamp) && i < 10
    ensures var v := Items(e, timestamp, json)[i].value;
            v.None? || IsHeading(v.value) || v.value == ResultWord(e.error) ||
            (e.durationMs.Some? && v.value == DurationText(e.durationMs.value)) || Quiet(v.value)
  {
  }

  lemma ItemsAreSilent(e: AuditEntry, timestamp: string, json: string, t: Tag, i: nat)
    requires Clean(e, timestamp) && IsField(t) && i < 10
    ensures Silent(PatternOf(t), Items(e, timestamp, json)[i].value)
  {
    ItemKind(e, timestamp, json, i);
    var v := Items(e, timestamp, json)[i].value;
    if v.Some? {
      ValueIsSilent(e, v.value, t);
    }
  }

  lemma ValueIsSilent(e: AuditEntry, s: string, t: Tag)
    requires IsHeading(s) || s == ResultWord(e.error) ||
             (e.durationMs.Some? && s == DurationText(e.durationMs.value)) || Quiet(s)
    requires t != Plain
    ensures Match(PatternOf(t), s).None?
  {
    if IsHeading(s) {
      HeadingIsSilent(t, s);
    } else if s == ResultWord(e.error) {
      WordIsSilent(t, e.error);
    } else if Quiet(s) {
      QuietIsSilent(t, s);
    } else {
      DurationTextIsSilent(t, e.durationMs.value);
    }
  }

  lemma NothingSeen(e: AuditEntry, timestamp: string, json: string, t: Tag)
    requires Clean(e, timestamp) && IsField(t)
    ensures Before(e, timestamp, json, t) == None
    ensures Quiet(PayloadText(json)) ==> After(e, timestamp, json, t) == None
  {
    var p, items := PatternOf(t), Items(e, timestamp, json);
    forall i: nat | i < 10
      ensures Silent(p, items[i].value)
    {
      ItemsAreSilent(e, timestamp, json, t, i);
    }
    SilentUnseen(p, items[..Position(t)]);
    if Quiet(PayloadText(json)) {
      QuietIsSilent(t, PayloadText(json));
      SilentUnseen(p, items[Position(t) + 1..]);
    }
  }

  lemma CleanFieldReadsBack(e: AuditEntry, timestamp: string, json: string, t: Tag)
    requires Clean(e, timestamp) && IsTextField(t)
    requires Field(e, timestamp, t).Some? || Quiet(PayloadText(json))
    ensures Match(PatternOf(t), Description(e, timestamp, json)) == Field(e, timestamp, t)
  {
    NothingSeen(e, timestamp, json, t);
    TextFieldReadsBackIff(e, timestamp, json, t);
  }

  lemma CleanDurationReadsBack(e: AuditEntry, timestamp: string, json: string)
    requires Clean(e, timestamp)
    requires e.durationMs.Some? || Quiet(PayloadText(json))
    ensures ParseMillis(Match(PatternOf(Duration), Description(e, timestamp, json))) == DurationRead(e)
  {
    NothingSeen(e, timestamp, json, Duration);
    DurationReadsBackIff(e, timestamp, json);
  }

  function DurationRead(e: AuditEntry): Option<nat> {
    if e.durationMs.Some? && e.durationMs.value >= 0 then Some(e.durationMs.value) else None
  }

  /** A field that is present, or absent from a record with a quiet payload, is found in the description of a clean record. */
  lemma CleanTextIs(e: AuditEntry, timestamp: string, json: string, description: string, t: Tag, value: Option<string>)
    requires Clean(e, timestamp) && description == Description(e, timestamp, json)
    requires IsTextField(t) && value == Field(e, timestamp, t) && (value.Some? || Quiet(PayloadText(json)))
    ensures Match(PatternOf(t), description) == value
  {
    CleanFieldReadsBack(e, timestamp, json, t);
  }

  lemma CleanTextsReadBack(e: AuditEntry, timestamp: string, json: string, description: string)
    requires Clean(e, timestamp) && description == Description(e, timestamp, json)
    requires AllPresent(e) || Quiet(PayloadText(json))
    ensures Match(PatternOf(RequestId), description) == e.requestId
    ensures Match(PatternOf(Actor), description) == e.actor
    ensures Match(PatternOf(Detail), description) == e.detail
  {
    CleanTextIs(e, timestamp, json, description, RequestId, e.requestId);
    CleanTextIs(e, timestamp, json, description, Actor, e.actor);
    CleanTextIs(e, timestamp, json, description, Detail, e.detail);
  }

  lemma CleanTimesReadBack(e: AuditEntry, timestamp: string, json: string, description: string)
    requires Clean(e, timestamp) && description == Description(e, timestamp, json)
    requires AllPresent(e) || Quiet(PayloadText(json))
    ensures Match(PatternOf(Timestamp), description) == Some(timestamp)
    ensures ParseMillis(Match(PatternOf(Duration), description)) == DurationRead(e)
  {
    CleanTextIs(e, timestamp, json, description, Timestamp, Some(timestamp));
    CleanDurationReadsBack(e, timestamp, json);
  }

  lemma CleanSubjectReadsBack(e: AuditEntry, timestamp: string, subject: string, description: string, createdAt: string)
    requires Clean(e, timestamp) && subject == Subject(e)
    ensures var r := Parse(subject, description, createdAt); r.Some? && r.value.action == e.action && r.value.error == e.error
  {
    ActionReadsBackIff(e, description, createdAt);
    ResultReadsBackIff(e, description, createdAt);
  }

  lemma FieldsOfRecord(subject: string, description: string, createdAt: string)
    requires Parse(subject, description, createdAt).Some?
    ensures var r := Parse(subject, description, createdAt).value;
            r == AuditRecord(r.action, r.error, Match(PatternOf(RequestId), description), Match(PatternOf(Actor), description),
                             Match(PatternOf(Detail), description), ParseMillis(Match(PatternOf(Duration), description)),
                             OrElse(Match(PatternOf(Timestamp), description), createdAt))
  {
  }

  /**
   * A clean record is read back in full. The payload may say anything when every optional field is present; when one is
   * absent it must contain no tag either, since the parser would take the field from it.
   */
  lemma CleanRecordReadsBack(e: AuditEntry, timestamp: string, json: string, createdAt: string)
    requires Clean(e, timestamp)
    requires AllPresent(e) || Quiet(PayloadText(json))
    ensures Parse(Subject(e), Description(e, timestamp, json), createdAt) ==
            Some(AuditRecord(e.action, e.error, e.requestId, e.actor, e.detail, DurationRead(e), timestamp))
  {
    var description := Description(e, timestamp, json);
    CleanSubjectReadsBack(e, timestamp, Subject(e), description, createdAt);
    CleanTextsReadBack(e, timestamp, json, description);
    CleanTimesReadBack(e, timestamp, json, description);
    FieldsOfRecord(Subject(e), description, createdAt);
  }
}
