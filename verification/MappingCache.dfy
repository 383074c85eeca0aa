/** The mapping kept by the process and the copies kept in browser cookies: which mapping is in force after which events. */
module MappingCache {
  import opened Text
  import opened SoqlLiteral
  import opened SoqlQuery
  import opened OrgMapping
  import opened OrgQuery
  import opened OrgQueryMeaning
  import opened SchemaDiscovery
  import opened ReadWriteAgreement

  // ---- state and events ----

  /** One variable of the process, shared by all sessions, and one cookie per session. */
  datatype State = State(cached: Option<Mapping>, cookies: map<nat, Mapping>)

  const STARTED := State(None, map[])

  /** Writing, deleting and reading a cookie can fail; a failure is logged or ignored. */
  datatype Event =
    | SetMapping(session: nat, m: Mapping, persisted: bool)
    | ClearMapping(session: nat, deleted: bool)
    | Request(session: nat, readable: bool)
    | Restart

  /** The mapping a session's cookie gives, when it can be read. */
  function Restored(s: State, session: nat, readable: bool): Option<Mapping> {
    if readable && session in s.cookies then Some(s.cookies[session]) else None
  }

  function Step(s: State, e: Event): State {
    match e
    case SetMapping(session, m, persisted) => State(Some(m), if persisted then s.cookies[session := m] else s.cookies)
    case ClearMapping(session, deleted) => State(None, if deleted then s.cookies - {session} else s.cookies)
    case Request(session, readable) => if s.cached.Some? then s else s.(cached := Restored(s, session, readable))
    case Restart => s.(cached := None)
  }

  function Run(events: seq<Event>): State {
    if events == [] then STARTED else Step(Run(events[..|events| - 1]), events[|events| - 1])
  }

  /** The module variable and its functions. */
  class Cache {
    var cachedMapping: Option<Mapping>
    var cookies: map<nat, Mapping>

    function Now(): State
      reads this
    {
      State(cachedMapping, cookies)
    }

    constructor ()
      ensures Now() == STARTED
    {
      cachedMapping := None;
      cookies := map[];
    }

    method SetOrgMapping(session: nat, m: Mapping, persisted: bool)
      modifies this
      ensures Now() == Step(old(Now()), SetMapping(session, m, persisted))
    {
      cachedMapping := Some(m);
      if persisted {
        cookies := cookies[session := m];
      }
    }

    method ClearOrgMapping(session: nat, deleted: bool)
      modifies this
      ensures Now() == Step(old(Now()), ClearMapping(session, deleted))
    {
      cachedMapping := None;
      if deleted {
        cookies := cookies - {session};
      }
    }

    method EnsureMappingLoaded(session: nat, readable: bool)
      modifies this
      ensures Now() == Step(old(Now()), Request(session, readable))
    {
      if cachedMapping.Some? {
        return;
      }
      if readable && session in cookies {
        cachedMapping := Some(cookies[session]);
      }
    }
  }

  // ---- what the events before decide ----

  /** Event `i` persisted this mapping for the session, and the session has neither persisted another nor deleted it since. */
  predicate PersistedAt(events: seq<Event>, i: nat, session: nat, m: Mapping) {
    i < |events| && events[i] == SetMapping(session, m, true) &&
    forall j :: i < j < |events| ==> !ChangesCookie(events[j], session)
  }

  predicate ChangesCookie(e: Event, session: nat) {
    (e.SetMapping? && e.session == session && e.persisted) || (e.ClearMapping? && e.session == session && e.deleted)
  }

  ghost predicate Persisted(events: seq<Event>, session: nat, m: Mapping) {
    exists i: nat :: PersistedAt(events, i, session, m)
  }

  /** A session's cookie holds the last mapping it persisted and has not deleted. */
  lemma {:induction false} CookieIsLastPersisted(events: seq<Event>, session: nat, m: Mapping)
    ensures Restored(Run(events), session, true) == Some(m) <==> Persisted(events, session, m)
  {
    if events != [] {
      var n := |events| - 1;
      CookieIsLastPersisted(events[..n], session, m);
      PersistedStep(events, session, m);
    }
  }

  lemma PersistedStep(events: seq<Event>, session: nat, m: Mapping)
    requires events != []
    ensures var init, e := events[..|events| - 1], events[|events| - 1];
            Persisted(events, session, m) <==>
            e == SetMapping(session, m, true) || (!ChangesCookie(e, session) && Persisted(init, session, m))
  {
    var n := |events| - 1;
    var init, e := events[..n], events[n];
    if e == SetMapping(session, m, true) {
      assert PersistedAt(events, n, session, m);
    }
    if i: nat :| PersistedAt(events, i, session, m) && i < n {
      assert PersistedAt(init, i, session, m);
    }
    if i: nat :| PersistedAt(init, i, session, m) && !ChangesCookie(e, session) {
      assert PersistedAt(events, i, session, m);
    }
  }

  /** Event `i` set this mapping, and nothing was set, cleared or restarted since. */
  predicate SetLast(events: seq<Event>, i: nat, m: Mapping) {
    i < |events| && events[i].SetMapping? && events[i].m == m && forall j :: i < j < |events| ==> events[j].Request?
  }

  /** Since event `s`, before which everything began or a clear or a restart came, no request brought a mapping back. */
  ghost predicate IdleSince(events: seq<Event>, s: nat) {
    s <= |events| && (s == 0 || events[s - 1].ClearMapping? || events[s - 1].Restart?) &&
    forall k :: s <= k < |events| ==> BringsNothing(events, k)
  }

  ghost predicate BringsNothing(events: seq<Event>, k: nat)
    requires k < |events|
  {
    events[k].Request? && (events[k].readable ==> forall m :: !Persisted(events[..k], events[k].session, m))
  }

  ghost predicate Idle(events: seq<Event>) {
    exists s: nat :: IdleSince(events, s)
  }

  /**
   * Event `i` is the first request since the last clear or restart whose session has a readable cookie, with this mapping in
   * it; nothing was in force before it, and nothing was set, cleared or restarted since.
   */
  ghost predicate RestoredFirst(events: seq<Event>, i: nat, m: Mapping) {
    && i < |events| && events[i].Request? && events[i].readable
    && Persisted(events[..i], events[i].session, m) && Idle(events[..i])
    && forall j :: i < j < |events| ==> events[j].Request?
  }

  ghost predicate InForce(events: seq<Event>, m: Mapping) {
    (exists i: nat :: SetLast(events, i, m)) || (exists i: nat :: RestoredFirst(events, i, m))
  }

  lemma IdleStep(events: seq<Event>)
    requires events != []
    ensures var n := |events| - 1;
            Idle(events) <==> events[n].ClearMapping? || events[n].Restart? || (BringsNothing(events, n) && Idle(events[..n]))
  {
    var n := |events| - 1;
    var init := events[..n];
    if events[n].ClearMapping? || events[n].Restart? {
      assert IdleSince(events, |events|);
    }
    if s: nat :| IdleSince(events, s) && s <= n {
      forall k | s <= k < n
        ensures BringsNothing(init, k)
      {
        assert BringsNothing(events, k) && init[..k] == events[..k];
      }
      assert IdleSince(init, s);
      assert BringsNothing(events, n);
    }
    if BringsNothing(events, n) && Idle(init) {
      var s: nat :| IdleSince(init, s);
      forall k | s <= k < |events|
        ensures BringsNothing(events, k)
      {
        if k < n {
          assert BringsNothing(init, k) && init[..k] == events[..k];
        }
      }
      assert IdleSince(events, s);
    }
  }

  lemma InForceStep(events: seq<Event>, m: Mapping)
    requires events != []
    ensures var n := |events| - 1;
            InForce(events, m) <==>
            (events[n].SetMapping? && events[n].m == m) ||
            (events[n].Request? && (InForce(events[..n], m) || RestoredFirst(events, n, m)))
  {
    var n := |events| - 1;
    var init := events[..n];
    if events[n].SetMapping? && events[n].m == m {
      assert SetLast(events, n, m);
    }
    if i: nat :| SetLast(events, i, m) && i < n {
      assert SetLast(init, i, m);
    }
    if i: nat :| RestoredFirst(events, i, m) && i < n {
      assert init[..i] == events[..i];
      assert RestoredFirst(init, i, m);
    }
    if events[n].Request? {
      if i: nat :| SetLast(init, i, m) {
        assert SetLast(events, i, m);
      }
      if i: nat :| RestoredFirst(init, i, m) {
        assert init[..i] == events[..i];
        assert RestoredFirst(events, i, m);
      }
    }
  }

  /** No mapping is in force exactly while, since the last clear or restart, no request has brought one back. */
  lemma {:induction false} NothingInForceIff(events: seq<Event>)
    ensures Run(events).cached.None? <==> Idle(events)
  {
    if events == [] {
      assert IdleSince(events, 0);
    } else {
      var n := |events| - 1;
      var init, e := events[..n], events[n];
      NothingInForceIff(init);
      IdleStep(events);
      if e.Request? {
        var found := Restored(Run(init), e.session, true);
        if found.Some? {
          CookieIsLastPersisted(init, e.session, found.value);
        }
        forall m
          ensures found == Some(m) <==> Persisted(init, e.session, m)
        {
          CookieIsLastPersisted(init, e.session, m);
        }
      }
    }
  }

  /**
   * The mapping in force is the last one set, when nothing was cleared or restarted since; or else the one persisted by the
   * session of the first request since then that came with a readable cookie.
   */
  lemma {:induction false} CachedIsInForce(events: seq<Event>, m: Mapping)
    ensures Run(events).cached == Some(m) <==> InForce(events, m)
  {
    if events != [] {
      var n := |events| - 1;
      var init, e := events[..n], events[n];
      CachedIsInForce(init, m);
      InForceStep(events, m);
      NothingInForceIff(init);
      if e.Request? {
        CookieIsLastPersisted(init, e.session, m);
      }
    }
  }

  predicate WasSet(events: seq<Event>, m: Mapping) {
    exists i :: 0 <= i < |events| && events[i].SetMapping? && events[i].m == m
  }

  /** A mapping in force was set before, by some session. */
  lemma InForceWasSet(events: seq<Event>, m: Mapping)
    requires Run(events).cached == Some(m)
    ensures WasSet(events, m)
  {
    CachedIsInForce(events, m);
    if i: nat :| SetLast(events, i, m) {
      assert events[i].m == m;
    } else {
      var i: nat :| RestoredFirst(events, i, m);
      var p: nat :| PersistedAt(events[..i], p, events[i].session, m);
      assert events[p] == events[..i][p];
    }
  }

  lemma RunSnoc(events: seq<Event>, e: Event)
    ensures Run(events + [e]) == Step(Run(events), e)
  {
    assert (events + [e])[..|events + [e]| - 1] == events;
  }

  /**
   * The first request after a restart brings back a mapping if and only if it is the last one its session persisted and has
   * not deleted; with nothing persisted there is none, and the demo defaults apply.
   */
  lemma RestartRestores(events: seq<Event>, session: nat, m: Mapping)
    ensures Run(events + [Restart] + [Request(session, true)]).cached == Some(m) <==> Persisted(events, session, m)
  {
    RunSnoc(events, Restart);
    RunSnoc(events + [Restart], Request(session, true));
    CookieIsLastPersisted(events, session, m);
  }

  /** Until the next set, clear or restart, requests of any session are served the mapping in force, whosever it is. */
  lemma {:induction false} ServedToAll(events: seq<Event>, requests: seq<Event>)
    requires Run(events).cached.Some? && forall i :: 0 <= i < |requests| ==> requests[i].Request?
    ensures Run(events + requests).cached == Run(events).cached
  {
    if requests == [] {
      assert events + requests == events;
    } else {
      var n := |requests| - 1;
      ServedToAll(events, requests[..n]);
      assert events + requests == events + requests[..n] + [requests[n]];
      RunSnoc(events + requests[..n], requests[n]);
    }
  }

  // ---- households created before the mapping is lost ----

  /**
   * When the mapping under which a household was created is lost, the demo filter lists it if and only if that mapping wrote
   * the Type value "Household".
   */
  lemma ListedAfterLossIff(b: Bundle, m: Option<Mapping>, now: Option<Mapping>, name: string, description: string,
                           fields: string, limit: nat, offset: nat)
    requires now.None? && SelectList(fields)
    ensures Selected(now, fields, limit, offset, Created(b, m, name, description)) <==> HouseholdTypeValue(m) == Some("Household")
  {
    CreatedFields(b, m, name, description);
    DemoListsIff(now, fields, limit, offset, Created(b, m, name, description));
  }

  lemma DemoListsIff(m: Option<Mapping>, fields: string, limit: nat, offset: nat, r: Record)
    requires m.None? && SelectList(fields)
    ensures Selected(m, fields, limit, offset, r) <==> Carries(r, "Type", "Household")
  {
    var a := DemoAtom(m);
    DemoObject(m);
    WholeAtomListsIff(m, a, fields, limit, offset, r);
  }

  /** A filter whose value the sanitizer leaves whole lists the records that carry it. */
  lemma WholeAtomListsIff(m: Option<Mapping>, a: Atom, fields: string, limit: nat, offset: nat, r: Record)
    requires !Hybrid(m) && SingleAtom(m) == Some(a) && Denoted(a.value) == a.value && !Dangles(a.value, MAX_LITERAL)
    requires SelectList(fields) && Word(HouseholdObject(m))
    ensures Selected(m, fields, limit, offset, r) <==> Carries(r, a.field, a.value)
  {
    SingleFilterListsIff(m, fields, limit, offset, r);
  }

  lemma DemoObject(m: Option<Mapping>)
    requires m.None?
    ensures Word(HouseholdObject(m))
  {
    AccountIsWord();
  }

  lemma DemoAtom(m: Option<Mapping>) returns (a: Atom)
    requires m.None?
    ensures SingleAtom(m) == Some(a) && a.field == "Type" && a.value == "Household"
    ensures Denoted(a.value) == a.value && !Dangles(a.value, MAX_LITERAL)
  {
    HouseholdLiteral();
    a := Atom("Type", "Household");
  }

  lemma NothingRestored(events: seq<Event>, session: nat)
    requires forall i :: 0 <= i < |events| ==> events[i].SetMapping? && !events[i].persisted
    ensures Run(events + [Restart] + [Request(session, true)]).cached.None?
    ensures |events| == 1 ==> Run(events).cached == Some(events[0].m)
  {
    var after := Run(events + [Restart] + [Request(session, true)]).cached;
    if after.Some? {
      RestartRestores(events, session, after.value);
    }
  }

  /** A mapping that could not be persisted, a restart, and the next request of the same session: the household is lost from view. */
  lemma UnpersistedIsLost(b: Bundle, m: Mapping, session: nat, name: string, description: string, fields: string,
                          limit: nat, offset: nat)
    requires SelectList(fields)
    ensures var events := [SetMapping(session, m, false)];
            Selected(Run(events + [Restart] + [Request(session, true)]).cached, fields, limit, offset,
                     Created(b, Run(events).cached, name, description))
            <==> HouseholdTypeValue(Some(m)) == Some("Household")
  {
    var events := [SetMapping(session, m, false)];
    assert events[..0] == [];
    NothingRestored(events, session);
    ListedAfterLossIff(b, Some(m), Run(events + [Restart] + [Request(session, true)]).cached, name, description, fields, limit, offset);
  }
}
