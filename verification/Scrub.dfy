/** The recursive scrubber of audit payloads. */
module Scrub {
  import opened Text

  // ---- payloads ----

  /** A JSON value. The entries of an array are its elements under their indices. */
  datatype Json =
    | Null
    | Bool(b: bool)
    | Num(n: int)
    | Str(s: string)
    | Arr(entries: seq<Entry>)
    | Obj(entries: seq<Entry>)

  datatype Entry = Entry(key: string, value: Json)

  predicate IsObject(j: Json) {
    j.Arr? || j.Obj?
  }

  function Entries(j: Json): seq<Entry> {
    if IsObject(j) then j.entries else []
  }

  function Lookup(es: seq<Entry>, key: string): Option<Json> {
    if es == [] then None else if es[0].key == key then Some(es[0].value) else Lookup(es[1..], key)
  }

  /** The value found by following keys, through objects and arrays alike. */
  function At(j: Json, path: seq<string>): Option<Json>
    decreases path
  {
    if path == [] then Some(j) else
    match Lookup(Entries(j), path[0])
    case None => None
    case Some(v) => At(v, path[1..])
  }

  // ---- the scrubber ----

  /** The ten members of the set of listed keys. */
  function PiiField(i: nat): string
    requires i < 10
  {
    match i
    case 0 => "ssn"
    case 1 => "dob"
    case 2 => "dateOfBirth"
    case 3 => "socialSecurityNumber"
    case 4 => "idNumber"
    case 5 => "bankAcct"
    case 6 => "routingNumber"
    case 7 => "accountNumber"
    case 8 => "lastFour"
    case _ => "routingLastFour"
  }

  predicate Listed(key: string) {
    exists i: nat :: i < 10 && PiiField(i) == key
  }

  const REDACTED := Str("[REDACTED]")

  /** Assigning to this key of a plain object sets its prototype and creates no entry. */
  const PROTO := "__proto__"

  function Placeholder(items: nat): string {
    "[" + Decimal(items) + " items]"
  }

  function Shortened(s: string): (r: string)
    requires |s| > 100
    ensures |r| == 81
  {
    s[..80] + "…"
  }

  function ScrubEntry(key: string, v: Json): Json
    decreases v
  {
    if Listed(key) then REDACTED
    else if v.Arr? then Str(Placeholder(|v.entries|))
    else if v.Obj? then Obj(ScrubEntries(v.entries))
    else if v.Str? && |v.s| > 100 then Str(Shortened(v.s))
    else v
  }

  function ScrubEntries(es: seq<Entry>): seq<Entry>
    decreases es
  {
    if es == [] then []
    else if es[0].key == PROTO then ScrubEntries(es[1..])
    else [Entry(es[0].key, ScrubEntry(es[0].key, es[0].value))] + ScrubEntries(es[1..])
  }

  function Scrubbed(data: Json): Json {
    Obj(ScrubEntries(Entries(data)))
  }

  lemma {:induction false} ScrubAppend(a: seq<Entry>, b: seq<Entry>)
    ensures ScrubEntries(a + b) == ScrubEntries(a) + ScrubEntries(b)
  {
    if a == [] {
      assert a + b == b;
    } else {
      assert (a + b)[1..] == a[1..] + b;
      ScrubAppend(a[1..], b);
    }
  }

  /** `scrubPII`, filling the result entry by entry. */
  method ScrubPII(data: Json) returns (scrubbed: seq<Entry>)
    ensures Obj(scrubbed) == Scrubbed(data)
    decreases data
  {
    scrubbed := [];
    if !IsObject(data) {
      return;
    }
    for i := 0 to |data.entries|
      invariant scrubbed == ScrubEntries(data.entries[..i])
    {
      var key, value := data.entries[i].key, data.entries[i].value;
      var out: Json;
      if Listed(key) {
        out := REDACTED;
      } else if value.Arr? {
        out := Str(Placeholder(|value.entries|));
      } else if value.Obj? {
        var inner := ScrubPII(value);
        out := Obj(inner);
      } else if value.Str? && |value.s| > 100 {
        out := Str(Shortened(value.s));
      } else {
        out := value;
      }
      assert data.entries[..i + 1] == data.entries[..i] + [data.entries[i]];
      ScrubAppend(data.entries[..i], [data.entries[i]]);
      if key != PROTO {
        scrubbed := scrubbed + [Entry(key, out)];
      }
    }
    assert data.entries[..|data.entries|] == data.entries;
  }

  // ---- what comes out ----

  lemma {:induction false} LookupScrubbed(es: seq<Entry>, key: string)
    ensures Lookup(ScrubEntries(es), key) ==
            if key == PROTO || Lookup(es, key).None? then None else Some(ScrubEntry(key, Lookup(es, key).value))
  {
    if es != [] {
      LookupScrubbed(es[1..], key);
      if es[0].key != PROTO {
        assert ScrubEntries(es)[1..] == ScrubEntries(es[1..]);
      }
    }
  }

  /** Only an object under a key that is not listed can be entered. */
  lemma EntryIsOpen(key: string, v: Json)
    ensures ScrubEntry(key, v).Obj? <==> !Listed(key) && v.Obj?
    ensures !ScrubEntry(key, v).Arr?
    ensures !Listed(key) && v.Obj? ==> ScrubEntry(key, v) == Scrubbed(v)
  {
  }

  /** One step into a scrubbed payload. */
  lemma StepIntoScrubbed(data: Json, path: seq<string>)
    requires path != [] && At(Scrubbed(data), path).Some?
    ensures path[0] != PROTO && Lookup(Entries(data), path[0]).Some?
    ensures var v := Lookup(Entries(data), path[0]).value;
            if |path| == 1 then At(Scrubbed(data), path) == Some(ScrubEntry(path[0], v))
            else !Listed(path[0]) && v.Obj? && At(Scrubbed(data), path) == At(Scrubbed(v), path[1..])
  {
    var es, key := Entries(data), path[0];
    LookupScrubbed(es, key);
    EntryIsOpen(key, Lookup(es, key).value);
  }

  /** At any depth, a listed key holds the redaction mark and nothing lies below it. */
  lemma {:induction false} NothingUnderListedKey(data: Json, path: seq<string>, i: nat)
    requires i < |path| && Listed(path[i]) && At(Scrubbed(data), path).Some?
    ensures i == |path| - 1 && At(Scrubbed(data), path).value == REDACTED
    decreases path
  {
    StepIntoScrubbed(data, path);
    if |path| > 1 {
      NothingUnderListedKey(Lookup(Entries(data), path[0]).value, path[1..], i - 1);
    }
  }

  /** The keys that hold personal data. */
  predicate IsPersonal(key: string) {
    key in {"ssn", "dob", "dateOfBirth", "socialSecurityNumber", "idNumber", "bankAcct", "routingNumber", "accountNumber", "lastFour",
            "routingLastFour"}
  }

  lemma ListedKey(i: nat)
    requires i < 10
    ensures IsPersonal(PiiField(i))
  {
  }

  lemma PersonalIsListed(key: string)
    ensures Listed(key) <==> IsPersonal(key)
  {
    if Listed(key) {
      var i: nat :| i < 10 && PiiField(i) == key;
      ListedKey(i);
    }
    if IsPersonal(key) {
      assert key == PiiField(0) || key == PiiField(1) || key == PiiField(2) || key == PiiField(3) || key == PiiField(4)
             || key == PiiField(5) || key == PiiField(6) || key == PiiField(7) || key == PiiField(8) || key == PiiField(9);
    }
  }

  /** At any depth, what is found under a key that holds personal data is the redaction mark. */
  lemma PersonalIsRedacted(data: Json, path: seq<string>, i: nat)
    requires i < |path| && IsPersonal(path[i]) && At(Scrubbed(data), path).Some?
    ensures i == |path| - 1 && At(Scrubbed(data), path).value == Str("[REDACTED]")
  {
    PersonalIsListed(path[i]);
    NothingUnderListedKey(data, path, i);
  }

  /** Array lengths of the runtime. */
  predicate SmallArrays(j: Json) {
    (j.Arr? ==> |j.entries| < 0x1_0000_0000) &&
    (IsObject(j) ==> forall i :: 0 <= i < |j.entries| ==> SmallArrays(j.entries[i].value))
  }

  function PowerOfTen(d: nat): nat {
    if d == 0 then 1 else 10 * PowerOfTen(d - 1)
  }

  lemma {:induction false} DecimalLength(n: nat, digits: nat)
    requires digits > 0 && n < PowerOfTen(digits)
    ensures |Decimal(n)| <= digits
  {
    if n >= 10 {
      assert PowerOfTen(digits) == 10 * PowerOfTen(digits - 1);
      DecimalLength(n / 10, digits - 1);
    }
  }

  lemma PlaceholderIsShort(items: nat)
    requires items < 0x1_0000_0000
    ensures |Placeholder(items)| <= 18
  {
    assert PowerOfTen(5) == 100_000;
    assert PowerOfTen(10) == 10_000_000_000;
    DecimalLength(items, 10);
  }

  lemma {:induction false} LookupSmall(es: seq<Entry>, key: string)
    requires forall i :: 0 <= i < |es| ==> SmallArrays(es[i].value)
    ensures Lookup(es, key).Some? ==> SmallArrays(Lookup(es, key).value)
  {
    if es != [] && es[0].key != key {
      LookupSmall(es[1..], key);
    }
  }

  /** At any depth, no array and no string of more than 100 characters is left. */
  lemma {:induction false} NothingLong(data: Json, path: seq<string>)
    requires SmallArrays(data) && At(Scrubbed(data), path).Some?
    ensures var v := At(Scrubbed(data), path).value; !v.Arr? && (v.Str? ==> |v.s| <= 100)
    decreases path
  {
    if path != [] {
      StepIntoScrubbed(data, path);
      LookupSmall(Entries(data), path[0]);
      var v := Lookup(Entries(data), path[0]).value;
      if |path| > 1 {
        NothingLong(v, path[1..]);
      } else if v.Arr? {
        PlaceholderIsShort(|v.entries|);
      }
    }
  }

  function OwnKeys(es: seq<Entry>): seq<string> {
    if es == [] then [] else if es[0].key == PROTO then OwnKeys(es[1..]) else [es[0].key] + OwnKeys(es[1..])
  }

  /** Every key but `__proto__` stays, in order, and no other appears. */
  lemma {:induction false} KeysAreKept(es: seq<Entry>)
    ensures OwnKeys(ScrubEntries(es)) == OwnKeys(es) && |ScrubEntries(es)| == |OwnKeys(es)|
  {
    if es != [] {
      KeysAreKept(es[1..]);
      if es[0].key != PROTO {
        assert ScrubEntries(es)[1..] == ScrubEntries(es[1..]);
      }
    }
  }

  /** What becomes of a value that is neither listed nor an object. */
  predicate Shown(v: Json, out: Json) {
    if v.Arr? then out == Str("[" + Decimal(|v.entries|) + " items]")
    else if v.Str? && |v.s| > 100 then out == Str(v.s[..80] + "…")
    else out == v
  }

  /**
   * Under keys that are not listed and through objects only, every scalar of at most 100 characters is kept, a longer
   * string keeps its first 80 characters, and an array is replaced by the number of its items.
   */
  lemma {:induction false} UnlistedValueIsShown(data: Json, path: seq<string>)
    requires path != [] && At(data, path).Some? && !At(data, path).value.Obj?
    requires forall i :: 0 <= i < |path| ==> !Listed(path[i]) && path[i] != PROTO
    requires forall i :: 0 < i < |path| ==> At(data, path[..i]).Some? && At(data, path[..i]).value.Obj?
    ensures At(Scrubbed(data), path).Some? && Shown(At(data, path).value, At(Scrubbed(data), path).value)
    decreases path
  {
    LookupScrubbed(Entries(data), path[0]);
    var v := Lookup(Entries(data), path[0]).value;
    if |path| > 1 {
      assert path[..1][0] == path[0] && path[..1][1..] == [];
      assert At(data, path[..1]) == Some(v);
      forall i | 0 < i < |path[1..]|
        ensures At(v, path[1..][..i]).Some? && At(v, path[1..][..i]).value.Obj?
      {
        assert path[..i + 1][1..] == path[1..][..i];
        assert At(data, path[..i + 1]) == At(v, path[1..][..i]);
      }
      UnlistedValueIsShown(v, path[1..]);
    } else {
      assert path[1..] == [];
      ScalarIsShown(path[0], v);
    }
  }

  lemma ScalarIsShown(key: string, v: Json)
    requires !Listed(key) && !v.Obj?
    ensures Shown(v, ScrubEntry(key, v))
  {
    if v.Str? && |v.s| > 100 {
      assert Shortened(v.s)[..80] == v.s[..80];
    }
  }

  // ---- scrubbing twice ----

  /** An entry the scrubber leaves as it is. */
  predicate IsScrubbed(e: Entry) {
    e.key != PROTO &&
    if Listed(e.key) then e.value == REDACTED
    else !e.value.Arr? && (e.value.Str? ==> |e.value.s| <= 100) && (e.value.Obj? ==> AllScrubbed(e.value.entries))
  }

  predicate AllScrubbed(es: seq<Entry>) {
    es == [] || (IsScrubbed(es[0]) && AllScrubbed(es[1..]))
  }

  lemma {:induction false} OutputIsScrubbed(es: seq<Entry>)
    requires forall i :: 0 <= i < |es| ==> SmallArrays(es[i].value)
    ensures AllScrubbed(ScrubEntries(es))
  {
    if es != [] {
      OutputIsScrubbed(es[1..]);
      if es[0].key != PROTO {
        var v := es[0].value;
        if v.Arr? {
          PlaceholderIsShort(|v.entries|);
        } else if v.Obj? {
          OutputIsScrubbed(v.entries);
        }
        assert ScrubEntries(es)[1..] == ScrubEntries(es[1..]);
      }
    }
  }

  lemma {:induction false} ScrubbedIsFixed(es: seq<Entry>)
    requires AllScrubbed(es)
    ensures ScrubEntries(es) == es
  {
    if es != [] {
      ScrubbedIsFixed(es[1..]);
      var e := es[0];
      if !Listed(e.key) && e.value.Obj? {
        ScrubbedIsFixed(e.value.entries);
      }
      assert e == Entry(e.key, ScrubEntry(e.key, e.value));
      assert es == [e] + es[1..];
    }
  }

  /** Scrubbing is idempotent. */
  lemma ScrubIsIdempotent(data: Json)
    requires SmallArrays(data)
    ensures Scrubbed(Scrubbed(data)) == Scrubbed(data)
  {
    OutputIsScrubbed(Entries(data));
    ScrubbedIsFixed(ScrubEntries(Entries(data)));
  }
}
