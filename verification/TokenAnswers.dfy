/** Where the tokens that callers are answered with come from, over every run of the single-flight refresh. */
module TokenAnswers {
  import opened Text
  import opened SingleFlight

  // ---- refreshed tokens ----

  /**
   * Step `i` answered the refresh with the token, the address and the expiry of this connection; the refresh token is that of
   * the connection refreshed, and so is the address when the answer has none.
   */
  predicate AnsweredAt(actions: seq<Action>, i: nat, r: nat, conn: Connection, u: Connection) {
    && i < |actions| && actions[i].FetchOk? && actions[i].refresh == r
    && u.accessToken == actions[i].accessToken
    && u.instanceUrl == (if actions[i].instanceUrl.Some? && actions[i].instanceUrl.value != "" then actions[i].instanceUrl.value
                         else conn.instanceUrl)
    && u.refreshToken == conn.refreshToken && u.expiresAt == Some(actions[i].expiresAt)
  }

  ghost predicate Answered(actions: seq<Action>, r: nat, conn: Connection, u: Connection) {
    exists i: nat :: AnsweredAt(actions, i, r, conn, u)
  }

  /** The connection was read by a caller of the refresh's session, needed a refresh when it continued, and can be refreshed. */
  predicate StartedAt(actions: seq<Action>, i: nat, session: nat, conn: Connection) {
    && i < |actions| && actions[i].Continue?
    && conn.expiresAt.Some? && conn.expiresAt.value < actions[i].now
    && conn.refreshToken.Some? && conn.refreshToken.value != ""
    && var s := Run(actions[..i]);
       actions[i].caller in s.callers && s.callers[actions[i].caller] == Caller(session, HasRead(Some(conn)))
  }

  ghost predicate Started(actions: seq<Action>, session: nat, conn: Connection) {
    exists i: nat :: StartedAt(actions, i, session, conn)
  }

  /** What the phase of a refresh says about the answer it got. */
  ghost predicate PhaseOk(actions: seq<Action>, r: nat, f: Refresh) {
    && Started(actions, f.session, f.conn)
    && match f.phase
       case Fetching => true
       case Storing(u) => Answered(actions, r, f.conn, u)
       case Stored(u) => Answered(actions, r, f.conn, u)
       case Settled(Refreshed(token, url)) => exists u :: Answered(actions, r, f.conn, u) && u.accessToken == token && u.instanceUrl == url
       case Settled(Rejected) => true
  }

  ghost predicate PhasesOk(actions: seq<Action>, s: State) {
    forall r :: 0 <= r < |s.refreshes| ==> PhaseOk(actions, r, s.refreshes[r])
  }

  lemma AnsweredStays(actions: seq<Action>, a: Action, r: nat, conn: Connection, u: Connection)
    requires Answered(actions, r, conn, u)
    ensures Answered(actions + [a], r, conn, u)
  {
    var i: nat :| AnsweredAt(actions, i, r, conn, u);
    assert AnsweredAt(actions + [a], i, r, conn, u);
  }

  lemma StartedStays(actions: seq<Action>, a: Action, session: nat, conn: Connection)
    requires Started(actions, session, conn)
    ensures Started(actions + [a], session, conn)
  {
    var i: nat :| StartedAt(actions, i, session, conn);
    assert (actions + [a])[..i] == actions[..i];
    assert StartedAt(actions + [a], i, session, conn);
  }

  lemma PhaseStays(actions: seq<Action>, a: Action, r: nat, f: Refresh)
    requires PhaseOk(actions, r, f)
    ensures PhaseOk(actions + [a], r, f)
  {
    StartedStays(actions, a, f.session, f.conn);
    match f.phase
    case Storing(u) => AnsweredStays(actions, a, r, f.conn, u);
    case Stored(u) => AnsweredStays(actions, a, r, f.conn, u);
    case Settled(Refreshed(token, url)) =>
      var u :| Answered(actions, r, f.conn, u) && u.accessToken == token && u.instanceUrl == url;
      AnsweredStays(actions, a, r, f.conn, u);
    case _ =>
  }

  /** A refresh that this step touches: what it is afterwards. */
  lemma TouchedPhase(actions: seq<Action>, a: Action, r: nat)
    requires r < |Run(actions).refreshes| && PhaseOk(actions, r, Run(actions).refreshes[r])
    requires r < |Step(Run(actions), a).refreshes|
    ensures PhaseOk(actions + [a], r, Step(Run(actions), a).refreshes[r])
  {
    var s, s' := Run(actions), Step(Run(actions), a);
    var f, f' := s.refreshes[r], s'.refreshes[r];
    PhaseStays(actions, a, r, f);
    if f' != f {
      if a.FetchOk? {
        assert AnsweredAt(actions + [a], |actions|, r, f.conn, f'.phase.updated);
      }
    }
  }

  lemma NewRefresh(actions: seq<Action>, a: Action)
    requires |Step(Run(actions), a).refreshes| > |Run(actions).refreshes|
    ensures |Step(Run(actions), a).refreshes| == |Run(actions).refreshes| + 1
    ensures PhaseOk(actions + [a], |Run(actions).refreshes|, Step(Run(actions), a).refreshes[|Run(actions).refreshes|])
  {
    var s, n := Run(actions), |Run(actions).refreshes|;
    assert (actions + [a])[..|actions|] == actions;
    var f := Step(s, a).refreshes[n];
    assert StartedAt(actions + [a], |actions|, f.session, f.conn);
  }

  lemma RefreshStep(actions: seq<Action>, a: Action)
    requires PhasesOk(actions, Run(actions))
    ensures PhasesOk(actions + [a], Step(Run(actions), a))
  {
    forall r | 0 <= r < |Step(Run(actions), a).refreshes|
      ensures PhaseOk(actions + [a], r, Step(Run(actions), a).refreshes[r])
    {
      if r < |Run(actions).refreshes| {
        TouchedPhase(actions, a, r);
      } else {
        NewRefresh(actions, a);
      }
    }
  }

  lemma {:induction false} RefreshesAnswered(actions: seq<Action>)
    ensures PhasesOk(actions, Run(actions))
  {
    if actions != [] {
      var init, a := actions[..|actions| - 1], actions[|actions| - 1];
      RefreshesAnswered(init);
      assert actions == init + [a];
      RefreshStep(init, a);
    }
  }

  /**
   * A token got from a refresh is the one the token endpoint answered that refresh with; and the refresh was started from an
   * expired connection with a refresh token, read by a caller of its session.
   */
  lemma RefreshedToken(actions: seq<Action>, c: nat)
    requires c in Run(actions).callers && Run(actions).callers[c].at.Returned? && Run(actions).callers[c].at.via.Some?
    ensures var s, at := Run(actions), Run(actions).callers[c].at;
            var r := at.via.value;
            && r < |s.refreshes|
            && Started(actions, s.refreshes[r].session, s.refreshes[r].conn)
            && exists u :: Answered(actions, r, s.refreshes[r].conn, u) && u.accessToken == at.accessToken && u.instanceUrl == at.instanceUrl
  {
    Reachable(actions);
    RefreshesAnswered(actions);
    var s := Run(actions);
    assert StageOk(s, s.callers[c].at);
  }

  /** Every connection stored is such an answer, stored for the session of its refresh. */
  ghost predicate StoreIsAnswer(actions: seq<Action>, s: State, store: Store) {
    exists r: nat :: r < |s.refreshes| && store.session == s.refreshes[r].session && Answered(actions, r, s.refreshes[r].conn, store.conn)
  }

  /** What a refresh was started from never changes. */
  lemma SourceStays(s: State, a: Action, r: nat)
    requires r < |s.refreshes|
    ensures r < |Step(s, a).refreshes| && Step(s, a).refreshes[r].session == s.refreshes[r].session
    ensures Step(s, a).refreshes[r].conn == s.refreshes[r].conn
  {
  }

  lemma StoreStays(actions: seq<Action>, a: Action, store: Store)
    requires StoreIsAnswer(actions, Run(actions), store)
    ensures StoreIsAnswer(actions + [a], Step(Run(actions), a), store)
  {
    var s := Run(actions);
    var r: nat :| r < |s.refreshes| && store.session == s.refreshes[r].session && Answered(actions, r, s.refreshes[r].conn, store.conn);
    SourceStays(s, a, r);
    AnsweredStays(actions, a, r, s.refreshes[r].conn, store.conn);
  }

  ghost predicate StoresAnswered(actions: seq<Action>, s: State) {
    forall k :: 0 <= k < |s.stores| ==> StoreIsAnswer(actions, s, s.stores[k])
  }

  lemma StoredStep(actions: seq<Action>, a: Action)
    requires StoresAnswered(actions, Run(actions)) && PhasesOk(actions, Run(actions))
    ensures StoresAnswered(actions + [a], Step(Run(actions), a))
  {
    var s, s' := Run(actions), Step(Run(actions), a);
    forall k | 0 <= k < |s'.stores|
      ensures StoreIsAnswer(actions + [a], s', s'.stores[k])
    {
      if k < |s.stores| {
        StoreStays(actions, a, s.stores[k]);
      } else {
        SourceStays(s, a, a.refresh);
        AnsweredStays(actions, a, a.refresh, s.refreshes[a.refresh].conn, s'.stores[k].conn);
      }
    }
  }

  lemma {:induction false} StoredIsAnswered(actions: seq<Action>)
    ensures StoresAnswered(actions, Run(actions))
  {
    if actions != [] {
      var init, a := actions[..|actions| - 1], actions[|actions| - 1];
      StoredIsAnswered(init);
      RefreshesAnswered(init);
      assert actions == init + [a];
      StoredStep(init, a);
    }
  }

  // ---- tokens that needed no refresh ----

  /** At step `i` the caller read this from the cookie of its session. */
  predicate ReadAt(actions: seq<Action>, i: nat, c: nat, session: nat, read: Option<Connection>) {
    && i < |actions| && actions[i] == Read(c)
    && var cookies := Run(actions[..i]).cookies;
       read == if session in cookies then Some(cookies[session]) else None
  }

  ghost predicate WasRead(actions: seq<Action>, c: nat, session: nat, read: Option<Connection>) {
    exists i: nat :: ReadAt(actions, i, c, session, read)
  }

  /** The caller continued at step `j`, at a time when the connection had expired, or when it had not. */
  predicate ContinuedAt(actions: seq<Action>, j: nat, c: nat, conn: Connection, expired: bool) {
    && j < |actions| && actions[j].Continue? && actions[j].caller == c
    && expired == (conn.expiresAt.Some? && conn.expiresAt.value < actions[j].now)
  }

  ghost predicate Continued(actions: seq<Action>, c: nat, conn: Connection, expired: bool) {
    exists j: nat :: ContinuedAt(actions, j, c, conn, expired)
  }

  ghost predicate OwnToken(actions: seq<Action>, c: nat, session: nat, token: string, url: string) {
    exists conn :: WasRead(actions, c, session, Some(conn)) && conn.accessToken == token && conn.instanceUrl == url
                   && Continued(actions, c, conn, false)
  }

  ghost predicate NothingToRefresh(actions: seq<Action>, c: nat, session: nat) {
    || WasRead(actions, c, session, None)
    || exists conn :: WasRead(actions, c, session, Some(conn)) && Continued(actions, c, conn, true)
                      && (conn.refreshToken.None? || conn.refreshToken.value == "")
  }

  ghost predicate CallerOk(actions: seq<Action>, c: nat, caller: Caller) {
    match caller.at
    case HasRead(read) => WasRead(actions, c, caller.session, read)
    case Returned(token, url, None) => OwnToken(actions, c, caller.session, token, url)
    case FellThrough(None) => NothingToRefresh(actions, c, caller.session)
    case _ => true
  }

  lemma ReadStays(actions: seq<Action>, a: Action, c: nat, session: nat, read: Option<Connection>)
    requires WasRead(actions, c, session, read)
    ensures WasRead(actions + [a], c, session, read)
  {
    var i: nat :| ReadAt(actions, i, c, session, read);
    assert (actions + [a])[..i] == actions[..i];
    assert ReadAt(actions + [a], i, c, session, read);
  }

  lemma ContinuedStays(actions: seq<Action>, a: Action, c: nat, conn: Connection, expired: bool)
    requires Continued(actions, c, conn, expired)
    ensures Continued(actions + [a], c, conn, expired)
  {
    var j: nat :| ContinuedAt(actions, j, c, conn, expired);
    assert ContinuedAt(actions + [a], j, c, conn, expired);
  }

  lemma CallerStays(actions: seq<Action>, a: Action, c: nat, caller: Caller)
    requires CallerOk(actions, c, caller)
    ensures CallerOk(actions + [a], c, caller)
  {
    match caller.at
    case HasRead(read) => ReadStays(actions, a, c, caller.session, read);
    case Returned(token, url, None) =>
      var conn :| WasRead(actions, c, caller.session, Some(conn)) && conn.accessToken == token && conn.instanceUrl == url
                  && Continued(actions, c, conn, false);
      ReadStays(actions, a, c, caller.session, Some(conn));
      ContinuedStays(actions, a, c, conn, false);
    case FellThrough(None) =>
      if WasRead(actions, c, caller.session, None) {
        ReadStays(actions, a, c, caller.session, None);
      } else {
        var conn :| WasRead(actions, c, caller.session, Some(conn)) && Continued(actions, c, conn, true)
                    && (conn.refreshToken.None? || conn.refreshToken.value == "");
        ReadStays(actions, a, c, caller.session, Some(conn));
        ContinuedStays(actions, a, c, conn, true);
      }
    case _ =>
  }

  lemma MovedByRead(actions: seq<Action>, c: nat)
    requires At(Run(actions), c, Reading)
    ensures CallerOk(actions + [Read(c)], c, Step(Run(actions), Read(c)).callers[c])
  {
    assert (actions + [Read(c)])[..|actions|] == actions;
    assert ReadAt(actions + [Read(c)], |actions|, c, Run(actions).callers[c].session, Cookie(Run(actions), Run(actions).callers[c].session));
  }

  lemma MovedByContinue(actions: seq<Action>, c: nat, now: int)
    requires c in Run(actions).callers && Run(actions).callers[c].at.HasRead? && CallerOk(actions, c, Run(actions).callers[c])
    ensures CallerOk(actions + [Continue(c, now)], c, Step(Run(actions), Continue(c, now)).callers[c])
  {
    var caller := Run(actions).callers[c];
    ContinueDecides(actions + [Continue(c, now)], |actions|, c, caller.at.conn, now);
    ReadStays(actions, Continue(c, now), c, caller.session, caller.at.conn);
  }

  lemma ContinueDecides(actions: seq<Action>, j: nat, c: nat, read: Option<Connection>, now: int)
    requires j < |actions| && actions[j] == Continue(c, now)
    ensures read.Some? ==> Continued(actions, c, read.value, read.value.expiresAt.Some? && read.value.expiresAt.value < now)
  {
    if read.Some? {
      assert ContinuedAt(actions, j, c, read.value, read.value.expiresAt.Some? && read.value.expiresAt.value < now);
    }
  }

  lemma CallerStep(actions: seq<Action>, a: Action, c: nat)
    requires c in Run(actions).callers ==> CallerOk(actions, c, Run(actions).callers[c])
    requires c in Step(Run(actions), a).callers
    ensures CallerOk(actions + [a], c, Step(Run(actions), a).callers[c])
  {
    var s := Run(actions);
    if c in s.callers {
      if Step(s, a).callers[c] == s.callers[c] {
        CallerStays(actions, a, c, s.callers[c]);
      } else if a.Read? {
        MovedByRead(actions, c);
      } else if a.Continue? {
        MovedByContinue(actions, c, a.now);
      }
    }
  }

  lemma {:induction false} CallersAnswered(actions: seq<Action>, c: nat)
    requires c in Run(actions).callers
    ensures CallerOk(actions, c, Run(actions).callers[c])
  {
    var init, a := actions[..|actions| - 1], actions[|actions| - 1];
    if c in Run(init).callers {
      CallersAnswered(init, c);
    }
    assert actions == init + [a];
    CallerStep(init, a, c);
  }

  /**
   * A token returned without a refresh is the one its caller read from the cookie of its own session, and had not expired when
   * the caller continued.
   */
  lemma UnrefreshedToken(actions: seq<Action>, c: nat)
    requires c in Run(actions).callers && Run(actions).callers[c].at.Returned? && Run(actions).callers[c].at.via.None?
    ensures var caller := Run(actions).callers[c];
            OwnToken(actions, c, caller.session, caller.at.accessToken, caller.at.instanceUrl)
  {
    CallersAnswered(actions, c);
  }

  /** A caller falls through without a refresh only when it read no connection, or an expired one that cannot be refreshed. */
  lemma FellThroughAlone(actions: seq<Action>, c: nat)
    requires c in Run(actions).callers && Run(actions).callers[c].at == FellThrough(None)
    ensures NothingToRefresh(actions, c, Run(actions).callers[c].session)
  {
    CallersAnswered(actions, c);
  }
}
