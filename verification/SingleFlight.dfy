/**
 * The single-flight refresh of the OAuth access token (the refresh grant of section 6 of RFC 6749), as the steps
 * between await points of any number of concurrent callers.
 */
module SingleFlight {
  import opened Text

  // ---- state ----

  datatype Connection = Connection(accessToken: string, instanceUrl: string, refreshToken: Option<string>, expiresAt: Option<int>)

  datatype Outcome = Refreshed(accessToken: string, instanceUrl: string) | Rejected

  /** The life of one refresh promise. The slot is cleared in the continuation that settles it. */
  datatype Phase = Fetching | Storing(updated: Connection) | Stored(updated: Connection) | Settled(outcome: Outcome)

  /** The promise belongs to the process; the connection it refreshes, and the cookie it stores, to one browser session. */
  datatype Refresh = Refresh(session: nat, conn: Connection, phase: Phase)

  /** Where a caller stands; `via` is the refresh its answer came from. */
  datatype Stage =
    | Reading
    | HasRead(conn: Option<Connection>)
    | Waiting(refresh: nat)
    | Returned(accessToken: string, instanceUrl: string, via: Option<nat>)
    | FellThrough(via: Option<nat>)

  datatype Caller = Caller(session: nat, at: Stage)

  datatype Store = Store(session: nat, conn: Connection)

  datatype State = State(
    refreshes: seq<Refresh>,
    slot: Option<nat>,
    cookies: map<nat, Connection>,
    stores: seq<Store>,
    callers: map<nat, Caller>)

  const INITIAL := State([], None, map[], [], map[])

  // ---- steps ----

  /** `Read` is the await on the cookie, `Continue` what `getAccessToken` does after it. */
  datatype Action =
    | Arrive(caller: nat, session: nat)
    | Read(caller: nat)
    | Continue(caller: nat, now: int)
    | FetchOk(refresh: nat, accessToken: string, instanceUrl: Option<string>, expiresAt: int)
    | FetchFails(refresh: nat)
    | StoreOk(refresh: nat)
    | StoreFails(refresh: nat)
    | Settle(refresh: nat)
    | Resume(caller: nat)
    | SetCookie(session: nat, conn: Option<Connection>)

  predicate Expired(c: Connection, now: int) {
    c.expiresAt.Some? && c.expiresAt.value < now
  }

  function Cookie(s: State, session: nat): Option<Connection> {
    if session in s.cookies then Some(s.cookies[session]) else None
  }

  function MoveTo(s: State, caller: nat, at: Stage): State
    requires caller in s.callers
  {
    s.(callers := s.callers[caller := s.callers[caller].(at := at)])
  }

  /** A caller whose token has expired joins the refresh in the slot, whoever started it, or starts one and fills the slot. */
  function JoinRefresh(s: State, caller: nat, conn: Connection): State
    requires caller in s.callers
  {
    if s.slot.Some? then MoveTo(s, caller, Waiting(s.slot.value))
    else MoveTo(s, caller, Waiting(|s.refreshes|)).(
           refreshes := s.refreshes + [Refresh(s.callers[caller].session, conn, Fetching)],
           slot := Some(|s.refreshes|))
  }

  /** The connection read needs a refresh and can have one. */
  predicate NeedsRefresh(read: Option<Connection>, now: int) {
    read.Some? && Expired(read.value, now) && Truthy(read.value.refreshToken)
  }

  function AfterRead(s: State, caller: nat, read: Option<Connection>, now: int): State
    requires caller in s.callers
  {
    if NeedsRefresh(read, now) then JoinRefresh(s, caller, read.value)
    else if read.Some? && !Expired(read.value, now) then
      MoveTo(s, caller, Returned(read.value.accessToken, read.value.instanceUrl, None))
    else MoveTo(s, caller, FellThrough(None))
  }

  function SetPhase(s: State, r: nat, p: Phase): State
    requires r < |s.refreshes|
  {
    s.(refreshes := s.refreshes[r := s.refreshes[r].(phase := p)])
  }

  predicate IsFetching(s: State, r: nat) {
    r < |s.refreshes| && s.refreshes[r].phase.Fetching?
  }

  predicate IsStoring(s: State, r: nat) {
    r < |s.refreshes| && s.refreshes[r].phase.Storing?
  }

  predicate IsStored(s: State, r: nat) {
    r < |s.refreshes| && s.refreshes[r].phase.Stored?
  }

  predicate IsSettled(s: State, r: nat) {
    r < |s.refreshes| && s.refreshes[r].phase.Settled?
  }

  function Updated(c: Connection, token: string, url: Option<string>, expiresAt: int): Connection {
    Connection(token, OrElse(url, c.instanceUrl), c.refreshToken, Some(expiresAt))
  }

  predicate At(s: State, c: nat, at: Stage) {
    c in s.callers && s.callers[c].at == at
  }

  /** The cookie of the session that started the refresh gets the new connection. */
  function StoreUpdated(s: State, r: nat): State
    requires IsStoring(s, r)
  {
    var u, session := s.refreshes[r].phase.updated, s.refreshes[r].session;
    SetPhase(s, r, Stored(u)).(cookies := s.cookies[session := u], stores := s.stores + [Store(session, u)])
  }

  function Answer(o: Outcome, r: nat): Stage {
    match o
    case Refreshed(t, u) => Returned(t, u, Some(r))
    case Rejected => FellThrough(Some(r))
  }

  /** One step; a step that is not enabled changes nothing. */
  function Step(s: State, a: Action): State {
    match a
    case Arrive(c, session) => if c in s.callers then s else s.(callers := s.callers[c := Caller(session, Reading)])
    case Read(c) => if At(s, c, Reading) then MoveTo(s, c, HasRead(Cookie(s, s.callers[c].session))) else s
    case Continue(c, now) => if c in s.callers && s.callers[c].at.HasRead? then AfterRead(s, c, s.callers[c].at.conn, now) else s
    case FetchOk(r, token, url, expiresAt) =>
      if IsFetching(s, r)
      then SetPhase(s, r, Storing(Updated(s.refreshes[r].conn, token, url, expiresAt))) else s
    case FetchFails(r) =>
      if IsFetching(s, r) then SetPhase(s, r, Settled(Rejected)).(slot := None) else s
    case StoreOk(r) => if IsStoring(s, r) then StoreUpdated(s, r) else s
    case StoreFails(r) =>
      if IsStoring(s, r) then SetPhase(s, r, Settled(Rejected)).(slot := None) else s
    case Settle(r) =>
      if IsStored(s, r)
      then var u := s.refreshes[r].phase.updated;
           SetPhase(s, r, Settled(Refreshed(u.accessToken, u.instanceUrl))).(slot := None)
      else s
    case Resume(c) =>
      if c in s.callers && s.callers[c].at.Waiting? && IsSettled(s, s.callers[c].at.refresh)
      then MoveTo(s, c, Answer(s.refreshes[s.callers[c].at.refresh].phase.outcome, s.callers[c].at.refresh))
      else s
    case SetCookie(session, conn) =>
      s.(cookies := if conn.Some? then s.cookies[session := conn.value] else s.cookies - {session})
  }

  function Run(actions: seq<Action>): State {
    if actions == [] then INITIAL else Step(Run(actions[..|actions| - 1]), actions[|actions| - 1])
  }

  // ---- the invariant ----

  predicate InFlight(s: State, r: nat) {
    r < |s.refreshes| && !s.refreshes[r].phase.Settled?
  }

  /** A connection with this token has been stored for the session. */
  predicate WasStored(s: State, session: nat, token: string, url: string) {
    exists i :: 0 <= i < |s.stores| && s.stores[i].session == session
                && s.stores[i].conn.accessToken == token && s.stores[i].conn.instanceUrl == url
  }

  /** The slot is occupied exactly while a refresh is in flight, and by that refresh. */
  predicate SlotInv(s: State) {
    (s.slot.Some? ==> InFlight(s, s.slot.value)) &&
    forall r :: 0 <= r < |s.refreshes| && InFlight(s, r) ==> s.slot == Some(r)
  }

  /** A refresh that is past storing, or has succeeded, has its token in the store's history. */
  predicate StoreInv(s: State) {
    forall r :: 0 <= r < |s.refreshes| ==>
      match s.refreshes[r].phase
      case Stored(u) => WasStored(s, s.refreshes[r].session, u.accessToken, u.instanceUrl)
      case Settled(Refreshed(t, u)) => WasStored(s, s.refreshes[r].session, t, u)
      case _ => true
  }

  /** A caller waits for a refresh that exists, and has the answer of the refresh it waited for. */
  predicate StageOk(s: State, at: Stage) {
    match at
    case Waiting(r) => r < |s.refreshes|
    case Returned(t, u, Some(r)) => r < |s.refreshes| && s.refreshes[r].phase == Settled(Refreshed(t, u))
    case FellThrough(Some(r)) => r < |s.refreshes| && s.refreshes[r].phase == Settled(Rejected)
    case _ => true
  }

  predicate CallersInv(s: State) {
    forall c :: c in s.callers ==> StageOk(s, s.callers[c].at)
  }

  predicate Inv(s: State) {
    SlotInv(s) && StoreInv(s) && CallersInv(s)
  }

  lemma {:induction false} StepKeepsSlot(s: State, a: Action)
    requires SlotInv(s)
    ensures SlotInv(Step(s, a))
  {
    var s' := Step(s, a);
    assert a.FetchFails? || a.StoreFails? || a.Settle? ==>
        (s' != s ==> InFlight(s, a.refresh) && s.slot == Some(a.refresh));
    forall r | 0 <= r < |s'.refreshes| && InFlight(s', r)
      ensures s'.slot == Some(r)
    {
      if r < |s.refreshes| {
        SettledIsFinal(s, a, r);
        assert InFlight(s, r);
      }
    }
  }

  lemma {:induction false} StepKeepsStore(s: State, a: Action)
    requires StoreInv(s)
    ensures StoreInv(Step(s, a))
  {
    var s' := Step(s, a);
    forall n, t, u | WasStored(s, n, t, u)
      ensures WasStored(s', n, t, u)
    {
      var i :| 0 <= i < |s.stores| && s.stores[i].session == n && s.stores[i].conn.accessToken == t && s.stores[i].conn.instanceUrl == u;
      assert s'.stores[i] == s.stores[i];
    }
    if a.StoreOk? && s' != s {
      assert s'.stores[|s.stores|].conn == s.refreshes[a.refresh].phase.updated;
    }
  }

  /** A settled refresh never changes again, and refreshes are only added. */
  lemma {:induction false} SettledIsFinal(s: State, a: Action, r: nat)
    requires r < |s.refreshes|
    ensures r < |Step(s, a).refreshes|
    ensures s.refreshes[r].phase.Settled? ==> Step(s, a).refreshes[r].phase == s.refreshes[r].phase
    ensures Step(s, a).refreshes[r].session == s.refreshes[r].session
  {
  }

  lemma {:induction false} StepKeepsCallers(s: State, a: Action)
    requires CallersInv(s) && SlotInv(s)
    ensures CallersInv(Step(s, a))
  {
    var s' := Step(s, a);
    forall c | c in s'.callers
      ensures StageOk(s', s'.callers[c].at)
    {
      if c in s.callers && s'.callers[c] == s.callers[c] {
        StillOk(s, a, s.callers[c].at);
      } else {
        NewAnswerOk(s, a, c);
      }
    }
  }

  lemma {:induction false} StillOk(s: State, a: Action, at: Stage)
    requires StageOk(s, at)
    ensures StageOk(Step(s, a), at)
  {
    match at
    case Waiting(r) => SettledIsFinal(s, a, r);
    case Returned(_, _, Some(r)) => SettledIsFinal(s, a, r);
    case FellThrough(Some(r)) => SettledIsFinal(s, a, r);
    case _ =>
  }

  lemma {:induction false} NewAnswerOk(s: State, a: Action, c: nat)
    requires SlotInv(s) && c in Step(s, a).callers
    requires c !in s.callers || Step(s, a).callers[c] != s.callers[c]
    ensures StageOk(Step(s, a), Step(s, a).callers[c].at)
  {
  }

  /** Every reachable state, under every interleaving of callers of any sessions, fetches, stores, logins and logouts. */
  lemma {:induction false} Reachable(actions: seq<Action>)
    ensures Inv(Run(actions))
  {
    if actions != [] {
      var s := Run(actions[..|actions| - 1]);
      Reachable(actions[..|actions| - 1]);
      StepKeepsSlot(s, actions[|actions| - 1]);
      StepKeepsStore(s, actions[|actions| - 1]);
      StepKeepsCallers(s, actions[|actions| - 1]);
    }
  }

  // ---- what callers can rely on ----

  /** At most one refresh is in flight at any time. */
  lemma {:induction false} AtMostOneInFlight(actions: seq<Action>, r1: nat, r2: nat)
    requires InFlight(Run(actions), r1) && InFlight(Run(actions), r2)
    ensures r1 == r2 && Run(actions).slot == Some(r1)
  {
    Reachable(actions);
  }

  /** The slot is free exactly when no refresh is in flight: a failed refresh never blocks the next one. */
  lemma {:induction false} SlotFreeIffIdle(actions: seq<Action>)
    ensures Run(actions).slot.None? <==> forall r :: 0 <= r < |Run(actions).refreshes| ==> !InFlight(Run(actions), r)
  {
    Reachable(actions);
  }

  /** Callers that joined the same refresh get the same outcome. */
  lemma {:induction false} SameOutcome(actions: seq<Action>, c1: nat, c2: nat, r: nat)
    requires var cs := Run(actions).callers; c1 in cs && c2 in cs
    requires AnsweredBy(Run(actions).callers[c1].at, r) && AnsweredBy(Run(actions).callers[c2].at, r)
    ensures Run(actions).callers[c1].at == Run(actions).callers[c2].at
  {
    Reachable(actions);
    var s := Run(actions);
    assert StageOk(s, s.callers[c1].at) && StageOk(s, s.callers[c2].at);
  }

  predicate AnsweredBy(at: Stage, r: nat) {
    (at.Returned? || at.FellThrough?) && at.via == Some(r)
  }

  /** No caller holds a refreshed token that has not been stored, for the session that started the refresh. */
  lemma {:induction false} StoredBeforeReturned(actions: seq<Action>, c: nat)
    requires c in Run(actions).callers && Run(actions).callers[c].at.Returned? && Run(actions).callers[c].at.via.Some?
    ensures var s, at := Run(actions), Run(actions).callers[c].at;
            at.via.value < |s.refreshes| && WasStored(s, s.refreshes[at.via.value].session, at.accessToken, at.instanceUrl)
  {
    Reachable(actions);
    var s := Run(actions);
    assert StageOk(s, s.callers[c].at);
  }

  /** A new refresh starts only when a caller has read an expired token and the slot is empty. */
  lemma {:induction false} StartsOnlyWhenIdle(actions: seq<Action>, a: Action)
    requires |Step(Run(actions), a).refreshes| > |Run(actions).refreshes|
    ensures a.Continue? && forall r :: 0 <= r < |Run(actions).refreshes| ==> !InFlight(Run(actions), r)
    ensures |Step(Run(actions), a).refreshes| == |Run(actions).refreshes| + 1
  {
    Reachable(actions);
  }

  // ---- callers of other sessions ----

  /** The refresh a caller has joined, or was answered by. */
  function Joined(at: Stage): Option<nat> {
    match at
    case Waiting(r) => Some(r)
    case Returned(_, _, via) => via
    case FellThrough(via) => via
    case _ => None
  }

  /** Once joined, a caller keeps its refresh, its session, and the session of the refresh. */
  lemma {:induction false} JoinedStays(s: State, a: Action, c: nat)
    requires c in s.callers && Joined(s.callers[c].at).Some? && Joined(s.callers[c].at).value < |s.refreshes|
    ensures var s', r := Step(s, a), Joined(s.callers[c].at).value;
            c in s'.callers && Joined(s'.callers[c].at) == Some(r) && s'.callers[c].session == s.callers[c].session
            && r < |s'.refreshes| && s'.refreshes[r].session == s.refreshes[r].session
  {
    SettledIsFinal(s, a, Joined(s.callers[c].at).value);
  }

  lemma RunSnoc(actions: seq<Action>, a: Action)
    ensures Run(actions + [a]) == Step(Run(actions), a)
  {
    assert (actions + [a])[..|actions + [a]| - 1] == actions;
  }

  lemma {:induction false} JoinedForGood(before: seq<Action>, later: seq<Action>, c: nat)
    requires c in Run(before).callers
    requires Joined(Run(before).callers[c].at).Some? && Joined(Run(before).callers[c].at).value < |Run(before).refreshes|
    ensures var s, s', r := Run(before), Run(before + later), Joined(Run(before).callers[c].at).value;
            c in s'.callers && Joined(s'.callers[c].at) == Some(r) && s'.callers[c].session == s.callers[c].session
            && r < |s'.refreshes| && s'.refreshes[r].session == s.refreshes[r].session
  {
    if later == [] {
      assert before + later == before;
    } else {
      var init, a := later[..|later| - 1], later[|later| - 1];
      JoinedForGood(before, init, c);
      assert before + later == before + init + [a];
      RunSnoc(before + init, a);
      JoinedStays(Run(before + init), a, c);
    }
  }

  /** The refresh in flight, if any, was started by another session. */
  predicate ForeignInFlight(s: State, session: nat) {
    s.slot.Some? && s.slot.value < |s.refreshes| && s.refreshes[s.slot.value].session != session
  }

  /**
   * Exactly when a caller is answered from the connection of another session. A caller that has read an expired token it can
   * refresh keeps, for the rest of the run, one refresh; that is another session's if and only if such a refresh was in
   * flight when the caller continued.
   */
  lemma ForeignIff(before: seq<Action>, c: nat, now: int, later: seq<Action>)
    requires c in Run(before).callers && Run(before).callers[c].at.HasRead? && NeedsRefresh(Run(before).callers[c].at.conn, now)
    ensures var s, s' := Run(before), Run(before + [Continue(c, now)] + later);
            && c in s'.callers && Joined(s'.callers[c].at).Some? && Joined(s'.callers[c].at).value < |s'.refreshes|
            && (s'.refreshes[Joined(s'.callers[c].at).value].session != s.callers[c].session
                <==> ForeignInFlight(s, s.callers[c].session))
  {
    Reachable(before);
    RunSnoc(before, Continue(c, now));
    JoinedForGood(before + [Continue(c, now)], later, c);
  }

  /** What such a caller is given is the other session's token, stored in the other session's cookie. */
  lemma ForeignToken(actions: seq<Action>, c: nat)
    requires c in Run(actions).callers && Run(actions).callers[c].at.Returned?
    requires Joined(Run(actions).callers[c].at).Some?
    ensures var s, at := Run(actions), Run(actions).callers[c].at;
            at.via.value < |s.refreshes| &&
            (s.refreshes[at.via.value].session != s.callers[c].session ==>
               exists other :: other != s.callers[c].session && WasStored(s, other, at.accessToken, at.instanceUrl))
  {
    StoredBeforeReturned(actions, c);
  }

  // ---- logging out during a refresh ----

  /** No login and no further logout of the session. */
  predicate LeavesCookie(actions: seq<Action>, session: nat) {
    forall i :: 0 <= i < |actions| ==> !(actions[i].SetCookie? && actions[i].session == session)
  }

  /** A connection was stored for the session after the first `n` stores. */
  predicate StoredSince(s: State, n: nat, session: nat) {
    exists i :: n <= i < |s.stores| && s.stores[i].session == session
  }

  lemma {:induction false} LogoutStep(s: State, a: Action, n: nat, session: nat)
    requires n <= |s.stores| && !(a.SetCookie? && a.session == session)
    requires session in s.cookies <==> StoredSince(s, n, session)
    ensures n <= |Step(s, a).stores|
    ensures session in Step(s, a).cookies <==> StoredSince(Step(s, a), n, session)
  {
    var s' := Step(s, a);
    if i :| n <= i < |s.stores| && s.stores[i].session == session {
      assert s'.stores[i].session == session;
    }
    if a.StoreOk? && s' != s {
      assert s'.stores[|s.stores|].session == s.refreshes[a.refresh].session;
    }
  }

  /**
   * After a logout, and until the next login or logout, a session has a cookie if and only if a refresh it started stored its
   * connection in the meantime: the logout is undone.
   */
  lemma {:induction false} LogoutUndoneIff(before: seq<Action>, later: seq<Action>, session: nat)
    requires LeavesCookie(later, session)
    ensures var out := Run(before + [SetCookie(session, None)]);
            var s := Run(before + [SetCookie(session, None)] + later);
            && |out.stores| <= |s.stores|
            && (session in s.cookies <==> StoredSince(s, |out.stores|, session))
  {
    var b := before + [SetCookie(session, None)];
    if later == [] {
      assert b + later == b;
      RunSnoc(before, SetCookie(session, None));
    } else {
      var n := |later| - 1;
      assert b + later == b + later[..n] + [later[n]];
      LogoutUndoneIff(before, later[..n], session);
      RunSnoc(b + later[..n], later[n]);
      LogoutStep(Run(b + later[..n]), later[n], |Run(b).stores|, session);
    }
  }

  /** The session has no cookie, no refresh that could still store one, and no caller that has read one. */
  predicate LoggedOut(s: State, session: nat) {
    && session !in s.cookies
    && (forall r :: 0 <= r < |s.refreshes| && s.refreshes[r].session == session ==> PastStoring(s.refreshes[r].phase))
    && (forall c :: c in s.callers && s.callers[c].session == session ==> !HoldsCookie(s.callers[c].at))
  }

  predicate PastStoring(p: Phase) {
    p.Stored? || p.Settled?
  }

  predicate HoldsCookie(at: Stage) {
    at.HasRead? && at.conn.Some?
  }

  lemma {:induction false} LoggedOutStep(s: State, a: Action, session: nat)
    requires LoggedOut(s, session) && !(a.SetCookie? && a.session == session)
    ensures LoggedOut(Step(s, a), session)
  {
  }

  /** With no such refresh and no such caller at the time, the logout holds until the next login. */
  lemma {:induction false} LogoutHolds(before: seq<Action>, later: seq<Action>, session: nat)
    requires LoggedOut(Run(before + [SetCookie(session, None)]), session) && LeavesCookie(later, session)
    ensures LoggedOut(Run(before + [SetCookie(session, None)] + later), session)
  {
    var b := before + [SetCookie(session, None)];
    if later == [] {
      assert b + later == b;
    } else {
      var n := |later| - 1;
      assert b + later == b + later[..n] + [later[n]];
      LogoutHolds(before, later[..n], session);
      RunSnoc(b + later[..n], later[n]);
      LoggedOutStep(Run(b + later[..n]), later[n], session);
    }
  }

  // ---- such a run ----

  function OldConnection(token: string): Connection {
    Connection(token, "https://" + token, Some("r"), Some(0))
  }

  function TwoReaders(): seq<Action> {
    [SetCookie(1, Some(OldConnection("a"))), SetCookie(2, Some(OldConnection("b"))), Arrive(1, 1), Arrive(2, 2), Read(1), Read(2)]
  }

  lemma TwoReadersRun()
    ensures var s := Run(TwoReaders());
            s.refreshes == [] && s.slot.None? && s.callers.Keys == {1, 2} &&
            s.callers[1] == Caller(1, HasRead(Some(OldConnection("a")))) && s.callers[2] == Caller(2, HasRead(Some(OldConnection("b")))) &&
            2 in s.cookies && s.cookies[2] == OldConnection("b")
  {
    var a := TwoReaders();
    assert a[..5][..4] == a[..4] && a[..4][..3] == a[..3] && a[..3][..2] == a[..2] && a[..2][..1] == a[..1] && a[..1][..0] == [];
    var s1 := Step(INITIAL, a[0]);
    assert Run(a[..1]) == s1;
    var s2 := Step(s1, a[1]);
    assert Run(a[..2]) == s2;
    var s4 := Step(Step(s2, a[2]), a[3]);
    assert Run(a[..3]) == Step(s2, a[2]) && Run(a[..4]) == s4;
    assert s4.cookies[1] == OldConnection("a") && s4.cookies[2] == OldConnection("b");
    assert Run(a[..5]) == Step(s4, a[4]);
  }

  /** Both continue with expired tokens, the first refresh succeeds, and the second caller resumes. */
  function ForeignActions(): seq<Action> {
    TwoReaders() + [Continue(1, 1)] + [Continue(2, 1)] + [FetchOk(0, "t", None, 10)] + [StoreOk(0)] + [Settle(0)] + [Resume(2)]
  }

  /** The caller of session 2 is given the token of session 1, whose cookie holds it; the cookie of session 2 is still the old one. */
  lemma ForeignRun()
    ensures var s := Run(ForeignActions());
            2 in s.callers && s.callers[2] == Caller(2, Returned("t", OldConnection("a").instanceUrl, Some(0))) &&
            |s.refreshes| == 1 && s.refreshes[0].session == 1 &&
            1 in s.cookies && s.cookies[1].accessToken == "t" && 2 in s.cookies && s.cookies[2] == OldConnection("b")
  {
    var b0 := TwoReaders();
    var b2 := b0 + [Continue(1, 1)] + [Continue(2, 1)];
    BothWait();
    var b3 := b2 + [FetchOk(0, "t", None, 10)];
    RunSnoc(b2, FetchOk(0, "t", None, 10));
    RunSnoc(b3, StoreOk(0));
    RunSnoc(b3 + [StoreOk(0)], Settle(0));
    RunSnoc(b3 + [StoreOk(0)] + [Settle(0)], Resume(2));
  }

  lemma BothWait()
    ensures var s := Run(TwoReaders() + [Continue(1, 1)] + [Continue(2, 1)]);
            s.callers.Keys == {1, 2} && s.callers[2] == Caller(2, Waiting(0)) &&
            s.refreshes == [Refresh(1, OldConnection("a"), Fetching)] && s.slot == Some(0) &&
            2 in s.cookies && s.cookies[2] == OldConnection("b")
  {
    TwoReadersRun();
    RunSnoc(TwoReaders(), Continue(1, 1));
    RunSnoc(TwoReaders() + [Continue(1, 1)], Continue(2, 1));
  }

  /** Session 1 logs out while its refresh is storing, and has a cookie again. */
  lemma LogoutIsUndone()
    ensures var s := Run(TwoReaders() + [Continue(1, 1)] + [Continue(2, 1)] + [FetchOk(0, "t", None, 10)] + [SetCookie(1, None)] + [StoreOk(0)]);
            1 in s.cookies && s.cookies[1].accessToken == "t"
  {
    var b2 := TwoReaders() + [Continue(1, 1)] + [Continue(2, 1)];
    BothWait();
    RunSnoc(b2, FetchOk(0, "t", None, 10));
    RunSnoc(b2 + [FetchOk(0, "t", None, 10)], SetCookie(1, None));
    RunSnoc(b2 + [FetchOk(0, "t", None, 10)] + [SetCookie(1, None)], StoreOk(0));
  }
}
