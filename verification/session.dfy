/** The session provider: one run of its effect (`sessionUpdate`) as a
    decision function, the registration payload of the one-shot backend
    sync, and the render gate.

    The auth lookup, the sync POST and the router are parameters or
    outputs: a run receives the lookup outcome and the sync outcome and
    returns the new provider state, the navigation it requests and the
    payload it posts, if any. */
module SessionGuard {
  import opened Common

  datatype Metadata = Metadata(fullName: Option<string>, picture: Option<string>)

  datatype User = User(id: string, email: Option<string>, metadata: Metadata)

  datatype Session = Session(user: User)

  /** Outcome of the auth provider's session lookup. */
  datatype SessionLookup = LookupError | NoSession | Active(session: Session)

  /** Outcome of the sync POST: an ok response, or anything else (not ok,
      network failure, unreadable body). */
  datatype SyncResponse = SyncOk | SyncFailed

  /** The body of `POST /auth/google`. */
  datatype Registration = Registration(googleId: string, email: Option<string>, username: string, avatarUrl: string)

  const LoginPath: string := "/"
  const HomePath: string := "/home"
  const NoName: string := "No Name"

  /** Provider state: the render flag, the sync flag and the session
      stored for the rest of the application. */
  datatype Guard = Guard(isReady: bool, isDataSent: bool, stored: Option<Session>)

  const Initial: Guard := Guard(false, false, None)

  datatype Run = Run(guard: Guard, redirect: Option<string>, sync: Option<Registration>)

  /** The registration payload: a missing or empty full name becomes
      "No Name", a missing or empty picture becomes "". */
  function RegistrationFor(u: User): (r: Registration)
    ensures r.googleId == u.id && r.email == u.email
    ensures Falsy(u.metadata.fullName) ==> r.username == NoName
    ensures !Falsy(u.metadata.fullName) ==> r.username == u.metadata.fullName.value
    ensures Falsy(u.metadata.picture) ==> r.avatarUrl == ""
    ensures !Falsy(u.metadata.picture) ==> r.avatarUrl == u.metadata.picture.value
  {
    Registration(u.id, u.email, OrDefault(u.metadata.fullName, NoName), OrDefault(u.metadata.picture, ""))
  }

  /** One run of the effect. `g.isDataSent` is the flag as captured when the
      effect started: a successful sync sets the flag for the next run but
      does not change this run's decision. */
  function SessionUpdate(g: Guard, pathname: string, lookup: SessionLookup, response: SyncResponse): (r: Run)
    // a failed lookup: blank render, no navigation, nothing stored
    ensures lookup.LookupError? ==> r == Run(g.(isReady := false), None, None)
    // otherwise the lookup result is stored
    ensures lookup.NoSession? ==> r.guard.stored == None
    ensures lookup.Active? ==> r.guard.stored == Some(lookup.session)
    // no session: to the login page unless already there
    ensures lookup.NoSession? && pathname != LoginPath ==>
      r.redirect == Some(LoginPath) && r.guard.isReady == g.isReady
    ensures lookup.NoSession? && pathname == LoginPath ==> r.redirect == None && r.guard.isReady
    // a session: away from the login page only once the sync is known done
    ensures lookup.Active? && pathname == LoginPath && g.isDataSent ==>
      r.redirect == Some(HomePath) && r.guard.isReady == g.isReady
    ensures lookup.Active? && !(pathname == LoginPath && g.isDataSent) ==>
      r.redirect == None && r.guard.isReady
    // the sync is posted exactly when a session is present and not yet synced
    ensures r.sync.Some? <==> lookup.Active? && !g.isDataSent
    ensures r.sync.Some? ==> r.sync.value == RegistrationFor(lookup.session.user)
    // the flag only rises, and only on an ok response
    ensures r.guard.isDataSent <==> g.isDataSent || (r.sync.Some? && response.SyncOk?)
  {
    match lookup
    case LookupError => Run(g.(isReady := false), None, None)
    case NoSession =>
      var g' := g.(stored := None);
      if pathname != LoginPath then Run(g', Some(LoginPath), None)
      else Run(g'.(isReady := true), None, None)
    case Active(session) =>
      var sync := if !g.isDataSent then Some(RegistrationFor(session.user)) else None;
      var sent := g.isDataSent || (sync.Some? && response == SyncOk);
      var g' := g.(stored := Some(session), isDataSent := sent);
      if pathname == LoginPath && g.isDataSent then Run(g', Some(HomePath), sync)
      else Run(g'.(isReady := true), None, sync)
  }

  /** Children are rendered if and only if the provider is ready. */
  function Render<T>(g: Guard, children: T): (r: Option<T>)
    ensures r.Some? <==> g.isReady
    ensures r.Some? ==> r.value == children
  {
    if g.isReady then Some(children) else None
  }

  /** A failed lookup renders nothing, whatever came before. */
  lemma LookupErrorRendersBlank<T>(g: Guard, pathname: string, response: SyncResponse, children: T)
    ensures Render(SessionUpdate(g, pathname, LookupError, response).guard, children) == None
  {
  }

  /** With a session, the guard never sends the viewer to the login page. */
  lemma SessionNeverRedirectsToLogin(g: Guard, pathname: string, s: Session, response: SyncResponse)
    ensures SessionUpdate(g, pathname, Active(s), response).redirect != Some(LoginPath)
  {
  }

  /** One effect run's inputs: the pathname it sees and the outcomes of its
      lookup and sync. */
  datatype Trigger = Trigger(pathname: string, lookup: SessionLookup, response: SyncResponse)

  /** The provider state after a series of effect runs. */
  function Replay(g: Guard, runs: seq<Trigger>): Guard
    decreases |runs|
  {
    if |runs| == 0 then g
    else
      var t := runs[0];
      Replay(SessionUpdate(g, t.pathname, t.lookup, t.response).guard, runs[1..])
  }

  /** The number of sync POSTs a series of runs issues. */
  function SyncRequests(g: Guard, runs: seq<Trigger>): nat
    decreases |runs|
  {
    if |runs| == 0 then 0
    else
      var t := runs[0];
      var r := SessionUpdate(g, t.pathname, t.lookup, t.response);
      (if r.sync.Some? then 1 else 0) + SyncRequests(r.guard, runs[1..])
  }

  /** The number of those POSTs that succeeded. */
  function SuccessfulSyncs(g: Guard, runs: seq<Trigger>): nat
    decreases |runs|
  {
    if |runs| == 0 then 0
    else
      var t := runs[0];
      var r := SessionUpdate(g, t.pathname, t.lookup, t.response);
      (if r.sync.Some? && t.response.SyncOk? then 1 else 0) + SuccessfulSyncs(r.guard, runs[1..])
  }

  /** Once the sync has succeeded, no later run posts again, and the flag
      stays set. */
  lemma {:induction false} NoSyncOnceSent(g: Guard, runs: seq<Trigger>)
    requires g.isDataSent
    ensures SyncRequests(g, runs) == 0
    ensures Replay(g, runs).isDataSent
    decreases |runs|
  {
    if |runs| > 0 {
      var t := runs[0];
      NoSyncOnceSent(SessionUpdate(g, t.pathname, t.lookup, t.response).guard, runs[1..]);
    }
  }

  /** Over runs that each finish before the next starts, the backend
      registration succeeds at most once; failures are retried. Runs whose
      POSTs overlap are outside this: see `OverlappingRunsBothPost`. */
  lemma {:induction false} AtMostOneSuccessfulSync(g: Guard, runs: seq<Trigger>)
    ensures SuccessfulSyncs(g, runs) <= (if g.isDataSent then 0 else 1)
    decreases |runs|
  {
    if |runs| > 0 {
      var t := runs[0];
      var r := SessionUpdate(g, t.pathname, t.lookup, t.response);
      AtMostOneSuccessfulSync(r.guard, runs[1..]);
    }
  }

  /** Two runs started from the same state, the second before the first's
      POST has settled (the effect re-runs when the router or pathname
      changes), both captured the flag down and both post the registration. */
  lemma OverlappingRunsBothPost(g: Guard, p1: string, p2: string, s: Session)
    requires !g.isDataSent
    ensures SessionUpdate(g, p1, Active(s), SyncOk).sync.Some?
    ensures SessionUpdate(g, p2, Active(s), SyncOk).sync.Some?
    ensures SessionUpdate(g, p1, Active(s), SyncOk).guard.isDataSent
  {
  }

  /** A failed sync leaves the flag down, so the next run with a session
      posts the same registration again. */
  lemma RetryAfterFailedSync(g: Guard, p1: string, p2: string, s: Session, response: SyncResponse)
    requires !g.isDataSent
    ensures var first := SessionUpdate(g, p1, Active(s), SyncFailed);
      SessionUpdate(first.guard, p2, Active(s), response).sync == Some(RegistrationFor(s.user))
  {
  }

  /** Signing in on the login page: the run that syncs becomes ready on the
      login page itself; the run the flag change triggers then moves to
      `/home` without posting again. */
  lemma LoginPageTwoRuns(s: Session, response: SyncResponse)
    ensures var first := SessionUpdate(Initial, LoginPath, Active(s), SyncOk);
      var second := SessionUpdate(first.guard, LoginPath, Active(s), response);
      && first.redirect == None && first.guard.isReady && first.sync.Some?
      && first.guard.isDataSent
      && second.redirect == Some(HomePath) && second.sync == None
  {
  }

  /** The registration of a session whose profile metadata is absent. */
  lemma RegistrationWithoutMetadata()
    ensures RegistrationFor(User("u1", Some("u1@x.com"), Metadata(None, None)))
      == Registration("u1", Some("u1@x.com"), "No Name", "")
  {
  }
}
