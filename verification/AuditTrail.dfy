/** Audit records: how they are printed into the subject and description of a task, and parsed back from it. */
module AuditTrail {
  import opened Text
  import opened LineMatch

  // ---- records ----

  datatype AuditEntry = AuditEntry(
    action: string,
    error: bool,
    requestId: Option<string>,
    actor: Option<string>,
    detail: Option<string>,
    durationMs: Option<int>)

  datatype AuditRecord = AuditRecord(
    action: string,
    error: bool,
    requestId: Option<string>,
    actor: Option<string>,
    detail: Option<string>,
    durationMs: Option<nat>,
    timestamp: string)

  // ---- the description ----

  datatype Tag = Plain | Action | Result | RequestId | Actor | Detail | Duration | Timestamp

  function TagText(t: Tag): string {
    match t
    case Plain => ""
    case Action => "Action: "
    case Result => "Result: "
    case RequestId => "RequestId: "
    case Actor => "Actor: "
    case Detail => "Detail: "
    case Duration => "Duration: "
    case Timestamp => "Timestamp: "
  }

  /** One element of the list that is filtered and joined; None is the `null` of an absent field. */
  datatype Item = Item(tag: Tag, value: Option<string>)

  function ItemText(i: Item): Option<string> {
    if i.value.None? then None else Some(TagText(i.tag) + i.value.value)
  }

  function IfTruthy(o: Option<string>): Option<string> {
    if Truthy(o) then o else None
  }

  function DurationText(ms: int): string {
    (if ms < 0 then "-" + Decimal(-ms) else Decimal(ms)) + "ms"
  }

  function DurationValue(ms: Option<int>): Option<string> {
    if ms.Some? && ms.value != 0 then Some(DurationText(ms.value)) else None
  }

  function ResultWord(error: bool): string {
    if error then "error" else "success"
  }

  /** `json.slice(0, 2000)` */
  function PayloadText(json: string): string {
    if |json| > 2000 then json[..2000] else json
  }

  /** The list in the order of the source; `json` is the text of the scrubbed payload. */
  function Items(e: AuditEntry, timestamp: string, json: string): seq<Item> {
    [ Item(Plain, Some("MIN AUDIT LOG")),
      Item(Action, Some(e.action)),
      Item(Result, Some(ResultWord(e.error))),
      Item(RequestId, IfTruthy(e.requestId)),
      Item(Actor, IfTruthy(e.actor)),
      Item(Detail, IfTruthy(e.detail)),
      Item(Duration, DurationValue(e.durationMs)),
      Item(Timestamp, Some(timestamp)),
      Item(Plain, Some("")),
      Item(Plain, Some("Payload (PII-scrubbed):")),
      Item(Plain, Some(PayloadText(json))) ]
  }

  /** `items.filter(Boolean)` */
  function Kept(items: seq<Item>): seq<string> {
    if items == [] then []
    else if Truthy(ItemText(items[0])) then [ItemText(items[0]).value] + Kept(items[1..])
    else Kept(items[1..])
  }

  function Description(e: AuditEntry, timestamp: string, json: string): string {
    Join(Kept(Items(e, timestamp, json)), "\n")
  }

  // ---- the subject ----

  const SEPARATOR := " — "

  const SUBJECT_PREFIX := "MIN:AUDIT — "

  function Subject(e: AuditEntry): string {
    SUBJECT_PREFIX + (e.action + SEPARATOR + ResultWord(e.error))
  }

  // ---- the parser ----

  function PatternOf(t: Tag): Pattern {
    Pattern(TagText(t), t == Duration)
  }

  /** `createdAt` is the creation time of the task, used when the description has no timestamp. */
  function Parse(subject: string, description: string, createdAt: string): Option<AuditRecord> {
    if !Includes(subject, "MIN:AUDIT") then None else
    var parts := Split(RemoveFirst(subject, SUBJECT_PREFIX), SEPARATOR);
    Some(AuditRecord(
      if parts[0] == "" then "unknown" else parts[0],
      |parts| > 1 && Lower(parts[1]) == "error",
      Match(PatternOf(RequestId), description),
      Match(PatternOf(Actor), description),
      Match(PatternOf(Detail), description),
      ParseMillis(Match(PatternOf(Duration), description)),
      OrElse(Match(PatternOf(Timestamp), description), createdAt)))
  }

  /** `parseInt` of the captured digits. */
  function ParseMillis(digits: Option<string>): Option<nat> {
    if digits.None? || exists c :: c in digits.value && !IsDigit(c) then None else Some(ParseNat(digits.value))
  }

  // ---- a pattern over the whole description ----

  /** The first match in the printed texts of a list. */
  function FirstInTexts(p: Pattern, items: seq<Item>): Option<string> {
    if items == [] then None
    else if ItemText(items[0]).None? then FirstInTexts(p, items[1..])
    else Or(Match(p, ItemText(items[0]).value), FirstInTexts(p, items[1..]))
  }

  /** The first match in the values of a list, their tags aside. */
  function Seen(p: Pattern, items: seq<Item>): Option<string> {
    if items == [] then None
    else if items[0].value.None? then Seen(p, items[1..])
    else Or(Match(p, items[0].value.value), Seen(p, items[1..]))
  }

  lemma {:induction false} DescriptionIsTexts(p: Pattern, items: seq<Item>)
    requires p.tag != "" && '\n' !in p.tag
    ensures Match(p, Join(Kept(items), "\n")) == FirstInTexts(p, items)
  {
    if items != [] {
      DescriptionIsTexts(p, items[1..]);
      var text := ItemText(items[0]);
      if Truthy(text) {
        var rest := Kept(items[1..]);
        assert Kept(items)[1..] == rest;
        if rest != [] {
          MatchAcrossLine(p, text.value, Join(rest, "\n"));
        }
      }
    }
  }

  lemma {:induction false} TextsAppend(p: Pattern, a: seq<Item>, b: seq<Item>)
    ensures FirstInTexts(p, a + b) == Or(FirstInTexts(p, a), FirstInTexts(p, b))
  {
    if a == [] {
      assert a + b == b;
    } else {
      assert (a + b)[1..] == a[1..] + b;
      TextsAppend(p, a[1..], b);
    }
  }

  // ---- the payload ----

  lemma {:induction false} KeptConcat(a: seq<Item>, b: seq<Item>)
    ensures Kept(a + b) == Kept(a) + Kept(b)
  {
    if a == [] {
      assert a + b == b;
    } else {
      assert (a + b)[1..] == a[1..] + b;
      KeptConcat(a[1..], b);
    }
  }

  lemma {:induction false} JoinLast(xs: seq<string>, y: string, sep: string)
    requires xs != []
    ensures Join(xs + [y], sep) == Join(xs, sep) + sep + y
  {
    if |xs| == 1 {
      assert (xs + [y])[1..] == [y];
    } else {
      assert (xs + [y])[1..] == xs[1..] + [y];
      JoinLast(xs[1..], y, sep);
    }
  }

  lemma LastItem(items: seq<Item>, v: string)
    requires items != [] && Truthy(ItemText(items[0])) && v != ""
    ensures Join(Kept(items + [Item(Plain, Some(v))]), "\n") == Join(Kept(items), "\n") + "\n" + v
  {
    var last := Item(Plain, Some(v));
    assert ItemText(last) == Some(v) by {
      assert "" + v == v;
    }
    KeptConcat(items, [last]);
    assert [last][1..] == [];
    assert Kept([last]) == [v];
    JoinLast(Kept(items), v, "\n");
  }

  /** The description ends with a line break and the payload, of which at most 2000 characters are printed. */
  lemma PayloadIsLast(e: AuditEntry, timestamp: string, json: string) returns (head: string)
    requires json != ""
    ensures Description(e, timestamp, json) == head + "\n" + (if |json| > 2000 then json[..2000] else json)
  {
    var items := Items(e, timestamp, json);
    assert items == items[..10] + [Item(Plain, Some(PayloadText(json)))];
    LastItem(items[..10], PayloadText(json));
    head := Join(Kept(items[..10]), "\n");
  }

  // ---- the tags keep out of each other's way ----

  /** The one word of a tag, without the colon and the blank. */
  function TagWord(t: Tag): string {
    match t
    case Plain => ""
    case Action => "Action"
    case Result => "Result"
    case RequestId => "RequestId"
    case Actor => "Actor"
    case Detail => "Detail"
    case Duration => "Duration"
    case Timestamp => "Timestamp"
  }

  lemma WordMakesTag(w: string, t: string)
    requires ' ' !in w && '\n' !in w && t == w + [':', ' ']
    ensures IsTag(t)
  {
    assert t[..|t| - 1] == w + [':'];
  }

  lemma TagIsWord(t: Tag)
    requires t != Plain
    ensures TagText(t) == TagWord(t) + [':', ' ']
  {
  }

  lemma TagWordIsPlain(t: Tag)
    ensures ' ' !in TagWord(t) && '\n' !in TagWord(t)
  {
  }

  lemma TagsAreTags(t: Tag)
    requires t != Plain
    ensures IsTag(TagText(t))
  {
    TagIsWord(t);
    TagWordIsPlain(t);
    WordMakesTag(TagWord(t), TagText(t));
  }

  function Distance(t: Tag, u: Tag): nat {
    if (t == Action && u == Duration) || (t == Duration && u == Action) then 7 else 3
  }

  lemma TagsDiffer(t: Tag, u: Tag)
    requires t != u && t != Plain && u != Plain
    ensures Differ(TagText(t), TagText(u), Distance(t, u))
  {
  }

  /** A pattern sees through the tags of other fields. */
  lemma MatchBehindTag(t: Tag, u: Tag, v: string)
    requires t != u && t != Plain
    ensures Match(PatternOf(t), TagText(u) + v) == Match(PatternOf(t), v)
  {
    if u == Plain {
      assert "" + v == v;
    } else {
      TagsAreTags(t);
      TagsAreTags(u);
      TagsDiffer(t, u);
      MatchAfterOtherTag(PatternOf(t), TagText(u), Distance(t, u), 0, v);
      assert TagText(u)[0..] == TagText(u);
    }
  }

  lemma {:induction false} TextsAreSeen(t: Tag, items: seq<Item>)
    requires t != Plain && forall i :: 0 <= i < |items| ==> items[i].tag != t
    ensures FirstInTexts(PatternOf(t), items) == Seen(PatternOf(t), items)
  {
    if items != [] {
      TextsAreSeen(t, items[1..]);
      if items[0].value.Some? {
        MatchBehindTag(t, items[0].tag, items[0].value.value);
      }
    }
  }

  /** What the pattern of a field finds in the field's own line. */
  function Own(t: Tag, value: Option<string>): Option<string> {
    if value.None? then None else Match(PatternOf(t), TagText(t) + value.value)
  }

  lemma TextsAround(p: Pattern, items: seq<Item>, k: nat)
    requires k < |items|
    ensures FirstInTexts(p, items) == Or(FirstInTexts(p, items[..k]), FirstInTexts(p, items[k..]))
    ensures items[k..] == [items[k]] + items[k + 1..]
  {
    assert items == items[..k] + items[k..];
    TextsAppend(p, items[..k], items[k..]);
  }

  /** A field is read from the values printed before it, or else from its own line, or else from what follows. */
  lemma FieldIsRead(t: Tag, items: seq<Item>, k: nat)
    requires t != Plain && k < |items|
    requires forall i :: 0 <= i < |items| ==> (items[i].tag == t <==> i == k)
    ensures Match(PatternOf(t), Join(Kept(items), "\n")) ==
            Or(Seen(PatternOf(t), items[..k]), Or(Own(t, items[k].value), Seen(PatternOf(t), items[k + 1..])))
  {
    TagsAreTags(t);
    DescriptionIsTexts(PatternOf(t), items);
    TextsAround(PatternOf(t), items, k);
    TextsAreSeen(t, items[..k]);
    assert items[k..][1..] == items[k + 1..];
    TextsAreSeen(t, items[k + 1..]);
  }

  predicate IsField(t: Tag) {
    t == RequestId || t == Actor || t == Detail || t == Duration || t == Timestamp
  }

  function Position(t: Tag): nat
    requires IsField(t)
  {
    match t
    case RequestId => 3
    case Actor => 4
    case Detail => 5
    case Duration => 6
    case _ => 7
  }

  /** The value an entry has for a field, as it is printed. */
  function FieldValue(e: AuditEntry, timestamp: string, t: Tag): Option<string>
    requires IsField(t)
  {
    match t
    case RequestId => IfTruthy(e.requestId)
    case Actor => IfTruthy(e.actor)
    case Detail => IfTruthy(e.detail)
    case Duration => DurationValue(e.durationMs)
    case _ => Some(timestamp)
  }

  /** What is found for a field before its own line, and after it. */
  function Before(e: AuditEntry, timestamp: string, json: string, t: Tag): Option<string>
    requires IsField(t)
  {
    Seen(PatternOf(t), Items(e, timestamp, json)[..Position(t)])
  }

  function After(e: AuditEntry, timestamp: string, json: string, t: Tag): Option<string>
    requires IsField(t)
  {
    Seen(PatternOf(t), Items(e, timestamp, json)[Position(t) + 1..])
  }

  lemma DescriptionRead(e: AuditEntry, timestamp: string, json: string, t: Tag)
    requires IsField(t)
    ensures Match(PatternOf(t), Description(e, timestamp, json)) ==
            Or(Before(e, timestamp, json, t), Or(Own(t, FieldValue(e, timestamp, t)), After(e, timestamp, json, t)))
  {
    FieldIsRead(t, Items(e, timestamp, json), Position(t));
  }
}
