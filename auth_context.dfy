/** The client's authentication context (src/lib/auth.tsx): the signed-in
    user projected from the current-user query, the loading flag, the
    reporting wrappers around sign-in, sign-up and sign-out, and the credit
    update that only logs. */
module AuthContext {
  import opened Wrappers
  import opened JsNumber
  import opened Schema

  /** A users-table document as a query returns it: the system fields, the
      declared fields, and the `emailVerified` field the projection reads,
      which the declared users table does not have. */
  datatype UserDoc = UserDoc(
    id: UserId,
    creationTime: int,
    fields: User,
    emailVerified: Option<Num>)

  /** The three states of `useQuery(api.auth.getCurrentUser)`. */
  datatype QueryState = Loading | NoUser | Loaded(doc: UserDoc)

  /** `getCurrentUser` (convex/auth.ts): null without a session or for a
      session whose user row is gone, otherwise the stored row. */
  function GetCurrentUser(users: map<UserId, User>, creationTimes: map<UserId, int>, session: Option<UserId>): (q: QueryState)
    ensures q != Loading
    ensures q.Loaded? <==> session.Some? && session.value in users && session.value in creationTimes
    ensures q.Loaded? ==> q.doc.id == session.value && q.doc.fields == users[session.value]
  {
    if session.None? || session.value !in users || session.value !in creationTimes then NoUser
    else Loaded(UserDoc(session.value, creationTimes[session.value], users[session.value], None))
  }

  /** The client-side user record. */
  datatype ClientUser = ClientUser(
    id: UserId,
    email: string,
    name: string,
    emailVerified: bool,
    image: Option<string>,
    createdAt: int,
    updatedAt: int,
    credits: Num)

  /** The object literal built from a loaded document. */
  function Project(doc: UserDoc): (u: ClientUser)
    ensures u.id == doc.id
    ensures u.email == (if doc.fields.email.Some? then doc.fields.email.value else "")
    ensures u.name == (if doc.fields.name.Some? then doc.fields.name.value else "")
    ensures u.emailVerified <==> doc.emailVerified.Some?
    ensures u.image.Some? <==> doc.fields.image.Some? && doc.fields.image.value != ""
    ensures u.image.Some? ==> u.image == doc.fields.image
    ensures u.createdAt == u.updatedAt == doc.creationTime
    ensures doc.fields.credits.None? ==> u.credits == Of(0)
    ensures doc.fields.credits.Some? ==> u.credits == doc.fields.credits.value
  {
    var f := doc.fields;
    ClientUser(
      doc.id,
      f.email.GetOr(""),
      f.name.GetOr(""),
      doc.emailVerified.Some?,
      if f.image.Some? && f.image.value != "" then f.image else None,
      doc.creationTime,
      doc.creationTime,
      if f.credits.Some? then f.credits.value else Of(0))
  }

  /** What the provider exposes: `user` and `isLoading`. */
  datatype AuthState = AuthState(user: Option<ClientUser>, isLoading: bool)

  function Provide(q: QueryState): (s: AuthState)
    ensures s.isLoading <==> q.Loading?
    ensures s.user.Some? <==> q.Loaded?
    ensures q.Loaded? ==> s.user == Some(Project(q.doc))
  {
    match q
    case Loading => AuthState(None, true)
    case NoUser => AuthState(None, false)
    case Loaded(doc) => AuthState(Some(Project(doc)), false)
  }

  /** A signed-in user read through the declared users table is never shown
      as verified, and the credits shown are the stored balance or 0. */
  lemma StoredUserProjection(users: map<UserId, User>, creationTimes: map<UserId, int>, id: UserId)
    requires id in users && id in creationTimes
    ensures var s := Provide(GetCurrentUser(users, creationTimes, Some(id)));
      && !s.isLoading
      && s.user.Some?
      && !s.user.value.emailVerified
      && s.user.value.credits == (if users[id].credits.Some? then users[id].credits.value else Of(0))
  {
  }

  /** Without a session the page is neither loading nor signed in. */
  lemma SignedOutProjection(users: map<UserId, User>, creationTimes: map<UserId, int>)
    ensures Provide(GetCurrentUser(users, creationTimes, None)) == AuthState(None, false)
  {
  }

  /** `updateCredits(amount)` logs and changes nothing: the state the pages
      read after a client-side debit is the state before it, so the balance
      shown comes from the server alone. */
  function UpdateCredits(s: AuthState, amount: Num): AuthState
  {
    s
  }

  lemma DebitIsInvisible(q: QueryState, amount: Num)
    requires q.Loaded?
    ensures UpdateCredits(Provide(q), amount).user.value.credits ==
      (if q.doc.fields.credits.Some? then q.doc.fields.credits.value else Of(0))
  {
  }

  /** A thrown value: an `Error` with its message, or anything else. */
  datatype Thrown = ErrorObject(message: string) | OtherValue

  datatype Toast = ToastSuccess(title: string, description: string) | ToastError(title: string, description: string)

  /** What one of the three actions does once the auth library has answered:
      the toast it shows and the error it rethrows, if any. */
  datatype Report = Report(toast: Toast, rethrown: Option<Thrown>)

  function MessageOr(e: Thrown, fallback: string): string
  {
    if e.ErrorObject? then e.message else fallback
  }

  function SignInReport(email: string, outcome: Option<Thrown>): (r: Report)
    ensures r.rethrown == outcome
    ensures outcome.None? ==> r.toast == ToastSuccess("Welcome back!", "Signed in as " + email)
    ensures outcome.Some? ==> r.toast == ToastError("Sign in failed", MessageOr(outcome.value, "Please check your credentials"))
  {
    if outcome.None? then Report(ToastSuccess("Welcome back!", "Signed in as " + email), None)
    else Report(ToastError("Sign in failed", MessageOr(outcome.value, "Please check your credentials")), outcome)
  }

  function SignUpReport(name: string, outcome: Option<Thrown>): (r: Report)
    ensures r.rethrown == outcome
    ensures outcome.None? ==> r.toast == ToastSuccess("Account created!", "Welcome " + name)
    ensures outcome.Some? ==> r.toast == ToastError("Sign up failed", MessageOr(outcome.value, "Please try again"))
  {
    if outcome.None? then Report(ToastSuccess("Account created!", "Welcome " + name), None)
    else Report(ToastError("Sign up failed", MessageOr(outcome.value, "Please try again")), outcome)
  }

  function SignOutReport(outcome: Option<Thrown>): (r: Report)
    ensures r.rethrown == outcome
    ensures outcome.None? ==> r.toast == ToastSuccess("Signed out", "You have been successfully signed out")
    ensures outcome.Some? ==> r.toast == ToastError("Sign out failed", "Please try again")
  {
    if outcome.None? then Report(ToastSuccess("Signed out", "You have been successfully signed out"), None)
    else Report(ToastError("Sign out failed", "Please try again"), outcome)
  }

  /** Every action reports exactly one toast, an error toast exactly when it
      rethrows; sign-out never shows the library's message. */
  lemma ReportsMatchOutcome(email: string, name: string, outcome: Option<Thrown>)
    ensures SignInReport(email, outcome).toast.ToastError? <==> SignInReport(email, outcome).rethrown.Some?
    ensures SignUpReport(name, outcome).toast.ToastError? <==> SignUpReport(name, outcome).rethrown.Some?
    ensures SignOutReport(outcome).toast.ToastError? <==> SignOutReport(outcome).rethrown.Some?
    ensures outcome.Some? ==> SignOutReport(outcome).toast.description == "Please try again"
  {
  }
}
