/**
 * The home page of the mobile (Capacitor) app: the same guest/host switch
 * as the web landing page, with a simpler "my events" query (owned events
 * only), no guest-data transfer, no date fields and no date check on
 * creation.
 */
module HostHome {
  import opened Strings
  import opened Wrappers
  import opened Accounts
  import opened Landing

  /** The public-events list fetched on load: filter and page size. */
  const PublicEventsFilter: string := "visibility = \"public\""
  const PublicEventsPerPage: nat := 10

  /** `fetchMyEvents`: nothing without a signed-in user, otherwise only the
      events the user owns. */
  function OwnedEventsQuery(user: Option<AuthUser>): (q: Option<string>)
    ensures q.None? <==> user.None?
    ensures user.Some? ==> q == Some(OwnerClause(user.value.id))
  {
    match user
    case None => None
    case Some(u) => Some(OwnerClause(u.id))
  }

  /** The mobile query is the web query for an account that has joined no
      events. */
  lemma OwnedEventsIsWebQueryWithoutJoins(user: Option<AuthUser>)
    ensures OwnedEventsQuery(user) == MyEventsQuery(user, [])
  {
  }

  /** The mobile "new event" form. */
  datatype HostForm = HostForm(name: string, code: string, visibility: string, joinMode: string, pin: string)

  /** The record the mobile `handleCreateEvent` sends. */
  datatype HostPayload = HostPayload(
    name: string, code: string, owner: string, date: string, approvalRequired: bool,
    visibility: string, joinMode: string, pin: string)

  function HostCreatePayload(form: HostForm, ownerId: string, nowIso: string): (p: HostPayload)
    ensures p.name == form.name && p.owner == ownerId && p.date == nowIso
    ensures p.code == Upper(form.code) && !p.approvalRequired
    ensures p.visibility == form.visibility && p.joinMode == form.joinMode
    ensures p.pin != "" ==> form.joinMode == "pin"
    ensures form.joinMode == "pin" ==> p.pin == form.pin
  {
    HostPayload(form.name, Upper(form.code), ownerId, nowIso, false,
                form.visibility, form.joinMode, PinFor(form.joinMode, form.pin))
  }

  /** Both apps send the same values for every field they share. */
  lemma PayloadsAgree(form: HostForm, ownerId: string, nowIso: string, description: string,
                      startDate: string, endDate: string, toIso: string -> string)
    ensures var h := HostCreatePayload(form, ownerId, nowIso);
            var w := CreatePayload(NewEventForm(form.name, form.code, form.visibility, form.joinMode,
                                                form.pin, description, startDate, endDate),
                                   ownerId, nowIso, toIso);
            h == HostPayload(w.name, w.code, w.owner, w.date, w.approvalRequired,
                             w.visibility, w.joinMode, w.pin)
  {
  }

  class HostHomePage {
    var mode: Mode
    var subMode: SubMode
    var code: string
    var myEvents: seq<EventRecord>
    var publicEvents: seq<EventRecord>
    var form: HostForm
    var creating: bool
    var loading: bool
    var error: string

    constructor ()
      ensures mode == GuestMode && subMode == Login && code == ""
      ensures myEvents == [] && publicEvents == []
      ensures form == HostForm("", "", "private", "open", "") && !creating
      ensures !loading && error == ""
    {
      mode, subMode, code := GuestMode, Login, "";
      myEvents, publicEvents := [], [];
      form := HostForm("", "", "private", "open", "");
      creating, loading, error := false, false, "";
    }

    /** The load-time auth check; the result says whether `fetchMyEvents`
        is started. */
    method CheckAuth(authenticated: bool, user: Option<AuthUser>) returns (fetch: bool)
      modifies this`mode, this`subMode
      ensures fetch == ShouldAutoHost(authenticated, user)
      ensures fetch ==> mode == HostMode && subMode == Dashboard
      ensures !fetch ==> mode == old(mode) && subMode == old(subMode)
    {
      fetch := ShouldAutoHost(authenticated, user);
      if fetch {
        mode := HostMode;
        subMode := Dashboard;
      }
    }

    method ReceivePublicEvents(records: seq<EventRecord>)
      modifies this`publicEvents
      ensures publicEvents == records
    {
      publicEvents := records;
    }

    method ReceiveMyEvents(records: seq<EventRecord>)
      modifies this`myEvents
      ensures myEvents == records
    {
      myEvents := records;
    }

    /** `handleJoin`: the same rule as on the web. */
    method Join() returns (path: Option<string>)
      ensures path == JoinPath(code)
    {
      path := JoinPath(code);
    }

    /** The "Sign In" button in the header. */
    method ShowSignIn()
      modifies this`mode, this`subMode
      ensures mode == HostMode && subMode == Login
    {
      mode := HostMode;
      subMode := Login;
    }

    /** The guest/host switch; the sub-mode is kept. */
    method SwitchMode(m: Mode)
      modifies this`mode
      ensures mode == m
    {
      mode := m;
    }

    /** The "+ New" and back buttons of the host view. */
    method ShowSubMode(s: SubMode)
      modifies this`subMode
      ensures subMode == s
    {
      subMode := s;
    }

    /** The start of a sign-in: loading is shown; the password form
        (`handleLogin`) also clears the previous error, the social login
        (`handleOAuthLogin`) does not. */
    method BeginLogin(withPassword: bool)
      modifies this`loading, this`error
      ensures loading
      ensures withPassword ==> error == ""
      ensures !withPassword ==> error == old(error)
    {
      loading := true;
      if withPassword {
        error := "";
      }
    }

    /** The end of a sign-in: as on the web, but without the guest-data
        transfer. */
    method CompleteLogin(outcome: LoginOutcome, failureMessage: string) returns (fetch: bool)
      modifies this`loading, this`error, this`subMode
      ensures !loading
      ensures outcome.Refused? ==> error == failureMessage && subMode == old(subMode) && !fetch
      ensures outcome.SignedIn? ==> error == old(error)
      ensures outcome.SignedIn? && outcome.user.None? ==> subMode == old(subMode) && !fetch
      ensures outcome.SignedIn? && outcome.user.Some? ==> subMode == Dashboard && fetch
    {
      fetch := false;
      match outcome {
        case Refused =>
          error := failureMessage;
        case SignedIn(user) =>
          if user.Some? {
            subMode := Dashboard;
            fetch := true;
          }
      }
      loading := false;
    }

    /** The synchronous part of the mobile `handleCreateEvent`: there is no
        date check, so the request is always sent. */
    method SubmitCreate(ownerId: string, nowIso: string) returns (request: HostPayload)
      modifies this`creating
      ensures creating && request == HostCreatePayload(form, ownerId, nowIso)
    {
      creating := true;
      request := HostCreatePayload(form, ownerId, nowIso);
    }

    /** On success `fetchMyEvents` is started, the dashboard is shown and the
        name, code and PIN are cleared; `creating` ends false either way. */
    method CompleteCreate(created: bool) returns (fetch: bool)
      modifies this`subMode, this`form, this`creating
      ensures !creating
      ensures fetch <==> created
      ensures created ==> subMode == Dashboard && form == old(form).(name := "", code := "", pin := "")
      ensures !created ==> subMode == old(subMode) && form == old(form)
    {
      fetch := created;
      if created {
        subMode := Dashboard;
        form := form.(name := "", code := "", pin := "");
      }
      creating := false;
    }
  }
}
