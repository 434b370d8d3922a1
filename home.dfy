/** The Home component's own logic: the view state it holds, how that state
    is resolved once from the stored session record and one community lookup,
    and the ordering of the sign-out action. Storage, the network and the
    router reach the model only as parameters and as events on a trace. */
module HomeComponent {
  import opened JsValues
  import Shell

  /** The name shown until a lookup supplies a better one. */
  const DefaultCommunityName: string := "Tu Comunidad"

  /** Where sign-out sends the user. */
  const LoginRoute: string := "/login"

  /** The parsed `userData` record. `NoRecord` is what parsing yields when the
      key is missing (`null`) or when the stored value is not an object: in all
      those cases both properties read back as `null` or `undefined`. In a
      `Record` a missing property is `Undefined`. */
  datatype UserData =
    | NoRecord
    | Record(comunityId: JsValue, isPresident: JsValue)

  /** How the community lookup settled: `fetch` or `response.json()` threw,
      or a body was produced. `name` is `data.name` when the body is an object
      whose `name` is a string, and `None` when the body is `null`, not an
      object, has no `name`, or has a falsy `name` other than `""`. The HTTP status plays no part. */
  datatype LookupOutcome =
    | Threw
    | Body(name: Option<string>)

  /** The component's two pieces of state. */
  datatype ViewState = ViewState(communityName: string, isPresident: JsValue)

  /** The state a freshly mounted component starts from. */
  const Initial: ViewState := ViewState(DefaultCommunityName, Bool(false))

  /** The externally visible actions, in the order they happen. */
  datatype Event =
    | Fetch(id: JsValue)
    | ConsoleError
    | Logout
    | Navigate(route: string)

  /** `userData ? userData.comunity_id : null` */
  function CommunityIdOf(u: UserData): (r: JsValue)
    ensures u.NoRecord? ==> !Truthy(r)
    ensures u.Record? ==> r == u.comunityId
  {
    match u
    case NoRecord => Null
    case Record(id, _) => id
  }

  /** `userData?.isPresident` */
  function IsPresidentOf(u: UserData): (r: JsValue)
    ensures u.NoRecord? ==> !Truthy(r)
    ensures u.Record? ==> r == u.isPresident
  {
    match u
    case NoRecord => Undefined
    case Record(_, p) => p
  }

  /** Whether the resolver issues the community lookup. */
  predicate LookupIssued(u: UserData) {
    Truthy(CommunityIdOf(u))
  }

  /** The view state after one resolution from state `v`. The president flag is
      set first and unconditionally; the name is replaced only when a lookup
      was issued and produced a truthy name; a thrown lookup is caught. */
  function Resolved(v: ViewState, u: UserData, o: LookupOutcome): (r: ViewState)
    ensures r.isPresident == IsPresidentOf(u)
    ensures !LookupIssued(u) ==> r.communityName == v.communityName
    ensures o.Threw? ==> r.communityName == v.communityName
    ensures o == Body(None) || o == Body(Some("")) ==> r.communityName == v.communityName
    ensures LookupIssued(u) && o.Body? && o.name.Some? && o.name.value != "" ==> r.communityName == o.name.value
    ensures r.communityName == v.communityName || (LookupIssued(u) && o == Body(Some(r.communityName)))
    ensures v.communityName != "" ==> r.communityName != ""
  {
    var comunityId := CommunityIdOf(u);
    var s := v.(isPresident := IsPresidentOf(u));
    if Truthy(comunityId) then
      match o
      case Threw => s
      case Body(name) =>
        if name.Some? && Truthy(Str(name.value)) then s.(communityName := name.value) else s
    else s
  }

  /** The events one resolution produces: a lookup exactly when the id is
      truthy, followed by an error log exactly when that lookup threw. */
  function ResolveEvents(u: UserData, o: LookupOutcome): (r: seq<Event>)
    ensures !LookupIssued(u) ==> r == []
    ensures LookupIssued(u) ==> |r| >= 1 && r[0] == Fetch(CommunityIdOf(u))
    ensures |r| <= 2
    ensures forall i :: 0 < i < |r| ==> r[i] == ConsoleError
    ensures LookupIssued(u) && o.Threw? ==> r == [Fetch(CommunityIdOf(u)), ConsoleError]
    ensures ConsoleError in r <==> LookupIssued(u) && o.Threw?
  {
    if LookupIssued(u) then
      [Fetch(CommunityIdOf(u))] + (if o.Threw? then [ConsoleError] else [])
    else []
  }

  /** The events one sign-out produces. `logout()` runs first; when it
      throws, the exception leaves the handler and `navigate` never runs. */
  function SignOutEvents(logoutThrows: bool): (r: seq<Event>)
    ensures |r| >= 1 && r[0] == Logout
    ensures Navigate(LoginRoute) in r <==> !logoutThrows
    ensures !logoutThrows ==> |r| == 2 && r[1] == Navigate(LoginRoute)
    ensures logoutThrows ==> |r| == 1
  {
    [Logout] + (if logoutThrows then [] else [Navigate(LoginRoute)])
  }

  /** How many times `e` occurs in trace `t`. */
  function Count(t: seq<Event>, e: Event): (n: nat) {
    if t == [] then 0 else (if t[0] == e then 1 else 0) + Count(t[1..], e)
  }

  lemma {:induction false} CountAppend(t: seq<Event>, w: seq<Event>, e: Event)
    ensures Count(t + w, e) == Count(t, e) + Count(w, e)
  {
    if t == [] {
      assert t + w == w;
    } else {
      assert (t + w)[1..] == t[1..] + w;
      CountAppend(t[1..], w, e);
    }
  }

  /** Whatever happened before, one sign-out adds exactly one logout and,
      when `logout` returns, exactly one navigation to the login route after
      it; nothing else is added. */
  lemma SignOutOnce(t: seq<Event>, logoutThrows: bool)
    ensures Count(t + SignOutEvents(logoutThrows), Logout) == Count(t, Logout) + 1
    ensures Count(t + SignOutEvents(logoutThrows), Navigate(LoginRoute))
      == Count(t, Navigate(LoginRoute)) + (if logoutThrows then 0 else 1)
    ensures forall e :: e != Logout && e != Navigate(LoginRoute) ==>
      Count(t + SignOutEvents(logoutThrows), e) == Count(t, e)
    ensures (t + SignOutEvents(logoutThrows))[|t|] == Logout
    ensures !logoutThrows ==> (t + SignOutEvents(logoutThrows))[|t| + 1] == Navigate(LoginRoute)
  {
    var w := SignOutEvents(logoutThrows);
    forall e
      ensures Count(t + w, e)
        == Count(t, e) + (if e == Logout then 1 else 0)
           + (if e == Navigate(LoginRoute) && !logoutThrows then 1 else 0)
    {
      var last := w[1..];
      if logoutThrows {
        assert last == [];
      } else {
        assert last == [Navigate(LoginRoute)] && last[1..] == [];
        assert Count(last, e) == if e == Navigate(LoginRoute) then 1 else 0;
      }
      CountAppend(t, w, e);
    }
  }

  /** Resolution never signs out or navigates. */
  lemma ResolveLeavesSession(t: seq<Event>, u: UserData, o: LookupOutcome)
    ensures Count(t + ResolveEvents(u, o), Logout) == Count(t, Logout)
    ensures Count(t + ResolveEvents(u, o), Navigate(LoginRoute)) == Count(t, Navigate(LoginRoute))
    ensures Count(t + ResolveEvents(u, o), Fetch(CommunityIdOf(u))) <= Count(t, Fetch(CommunityIdOf(u))) + 1
  {
    var r := ResolveEvents(u, o);
    forall e | e == Logout || e == Navigate(LoginRoute) || e == Fetch(CommunityIdOf(u))
      ensures Count(r, e) == if e == Fetch(CommunityIdOf(u)) && LookupIssued(u) then 1 else 0
    {
      if r != [] {
        var rest := r[1..];
        assert rest == [] || rest == [ConsoleError];
        if rest != [] {
          assert rest[1..] == [];
          assert Count(rest[1..], e) == 0;
        }
        assert Count(rest, e) == 0;
      }
    }
    CountAppend(t, r, Logout);
    CountAppend(t, r, Navigate(LoginRoute));
    CountAppend(t, r, Fetch(CommunityIdOf(u)));
  }

  /** Resolving again with the same record and the same outcome changes
      nothing further. */
  lemma ResolvedIdempotent(v: ViewState, u: UserData, o: LookupOutcome)
    ensures Resolved(Resolved(v, u, o), u, o) == Resolved(v, u, o)
  {
  }

  /** From a fresh mount, the name is the default unless a lookup produced a
      non-empty name, and the settings link shows exactly for a truthy flag. */
  lemma ResolvedFromInitial(u: UserData, o: LookupOutcome)
    ensures var r := Resolved(Initial, u, o);
      (r.communityName == DefaultCommunityName || o == Body(Some(r.communityName)))
      && (Shell.SettingsLink in Shell.Sidebar(r.isPresident) <==> Truthy(IsPresidentOf(u)))
  {
  }

  /** Record with id "42", president, lookup returns "Las Palmeras". */
  lemma ScenarioPresidentWithName()
    ensures var r := Resolved(Initial, Record(Str("42"), Bool(true)), Body(Some("Las Palmeras")));
      Shell.Header(r.communityName) == "Bienvenido a \"Las Palmeras\""
      && Shell.SettingsLink in Shell.Sidebar(r.isPresident)
  {
  }

  /** A stored `isPresident` of "false" is a non-empty string, hence truthy:
      the settings link is shown, whatever the state and the lookup. */
  lemma StringFalseShowsSettings(v: ViewState, id: JsValue, o: LookupOutcome)
    ensures Shell.SettingsLink in Shell.Sidebar(Resolved(v, Record(id, Str("false")), o).isPresident)
  {
  }

  /** No stored record: default header, no settings link, no lookup. */
  lemma ScenarioNoRecord(o: LookupOutcome)
    ensures var r := Resolved(Initial, NoRecord, o);
      Shell.Header(r.communityName) == "Bienvenido a \"Tu Comunidad\""
      && Shell.SettingsLink !in Shell.Sidebar(r.isPresident)
      && ResolveEvents(NoRecord, o) == []
  {
  }

  /** Record with id "7", not president, lookup throws: default header, no
      settings link, the error is logged. */
  lemma ScenarioLookupThrows()
    ensures var u := Record(Str("7"), Bool(false));
      var r := Resolved(Initial, u, Threw);
      Shell.Header(r.communityName) == "Bienvenido a \"Tu Comunidad\""
      && Shell.SettingsLink !in Shell.Sidebar(r.isPresident)
      && ResolveEvents(u, Threw) == [Fetch(Str("7")), ConsoleError]
  {
  }

  /** An id of 0 or "" is falsy, so no lookup is issued for it. */
  lemma FalsyIdSkipsLookup(flag: JsValue, o: LookupOutcome)
    ensures ResolveEvents(Record(Num(0.0), flag), o) == []
    ensures ResolveEvents(Record(Str(""), flag), o) == []
    ensures Resolved(Initial, Record(Num(0.0), flag), o).communityName == DefaultCommunityName
    ensures Resolved(Initial, Record(Str(""), flag), o).communityName == DefaultCommunityName
  {
  }

  /** The mounted component: its state, and the trace of what it has done. */
  class Home {
    var communityName: string
    var isPresident: JsValue
    var trace: seq<Event>

    /** The name on display is never empty. */
    ghost predicate Valid()
      reads this
    {
      communityName != ""
    }

    function State(): ViewState
      reads this
    {
      ViewState(communityName, isPresident)
    }

    /** The state right after mounting: `useState('Tu Comunidad')` and
        `useState(false)`. */
    constructor ()
      ensures Valid()
      ensures State() == Initial && trace == []
    {
      communityName := DefaultCommunityName;
      isPresident := Bool(false);
      trace := [];
    }

    /** `fetchCommunityName`, with the parsed record and the lookup's outcome
        supplied by the caller. The outcome is only consulted when the lookup
        is issued. */
    method Resolve(u: UserData, o: LookupOutcome)
      requires Valid()
      modifies this
      ensures Valid()
      ensures State() == Resolved(old(State()), u, o)
      ensures trace == old(trace) + ResolveEvents(u, o)
    {
      var comunityId := CommunityIdOf(u);
      isPresident := IsPresidentOf(u);
      if Truthy(comunityId) {
        trace := trace + [Fetch(comunityId)];
        match o
        case Threw =>
          trace := trace + [ConsoleError];
        case Body(name) =>
          if name.Some? && Truthy(Str(name.value)) {
            communityName := name.value;
          }
      }
    }

    /** `handleLogout`: call `logout`, then navigate to the login page. The
        caller says whether `logout` throws; if it does, the handler stops
        there and the exception propagates. */
    method HandleLogout(logoutThrows: bool)
      modifies this`trace
      ensures trace == old(trace) + SignOutEvents(logoutThrows)
    {
      trace := trace + [Logout];
      if !logoutThrows {
        trace := trace + [Navigate(LoginRoute)];
      }
    }

    /** What the component renders from its current state. */
    function SidebarItems(): (r: seq<Shell.Item>)
      reads this
      ensures Shell.SettingsLink in r <==> Truthy(isPresident)
    {
      Shell.Sidebar(isPresident)
    }

    function HeaderText(): (h: string)
      reads this
      ensures Shell.HeaderName(h) == Some(communityName)
    {
      Shell.HeaderRoundTrip(communityName);
      Shell.Header(communityName)
    }
  }

  /** A mount, a resolution and a sign-out, seen through the contracts alone. */
  method MountResolveSignOut(u: UserData, o: LookupOutcome)
  {
    var home := new Home();
    home.Resolve(u, o);
    assert home.isPresident == IsPresidentOf(u);
    assert !LookupIssued(u) ==> home.communityName == DefaultCommunityName && home.trace == [];
    home.HandleLogout(false);
    assert home.trace == ResolveEvents(u, o) + [Logout, Navigate(LoginRoute)];
    assert home.communityName != "";
  }
}
