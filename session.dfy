/**
 * The session coordinator (`AuthProvider`): the in-memory session held by the
 * provider, the two persisted credential entries in `localStorage`, and the
 * default `Authorization` header of the shared HTTP client. Every remote call
 * is an `Outcome` handed in by the caller; notifications, navigation and the
 * requests issued (each with the client's default headers in effect when it
 * went out) are appended to an event log.
 */
module Session {
  import opened Outcomes
  import opened JsValues
  import Registration

  const TOKEN_KEY: string := "@AuqMia:token"
  const ID_KEY: string := "@AuqMia:id"

  /** An entry of the animal catalog, opaque to the coordinator. */
  type Animal = Value

  /** What the login service answers on success. */
  datatype LoginResponse = LoginResponse(user: Record, accessToken: string)

  /** The remote calls the coordinator issues. */
  datatype Request =
    | FetchUser                                          // the profile of the current token
    | FetchAnimals                                       // the whole catalog
    | SubmitLogin(credentials: Record)
    | SubmitUpdate(patch: Record)
    | RemoveAnimal(path: string, authorization: string)  // DELETE with a per-call header
    | Register(path: string, body: Record)

  datatype Notice = Success | Failure

  /** What the user or the outside world can observe, in order. */
  datatype Event =
    | Sent(request: Request, defaults: map<string, string>)  // with the client's default headers at the time
    | Toast(notice: Notice)
    | Navigate(to: string, replace: bool)

  /** The default header value set on the client after bootstrap and login (lower-case scheme). */
  function DefaultAuthorization(token: string): string {
    "bearer " + token
  }

  /** The default headers object the client is given: exactly one `Authorization` entry. */
  function AuthorizationHeaders(token: string): map<string, string> {
    map["Authorization" := DefaultAuthorization(token)]
  }

  /** The header `deleteAnimal` builds from the token read at call time (capitalised scheme). */
  function DeleteAuthorization(stored: Option<string>): string {
    "Bearer " + InterpolateNullable(stored)
  }

  /** The two code paths spell the scheme differently, so the header values never agree. */
  lemma SchemeCasingDiffers(token: string)
    ensures DefaultAuthorization(token) != DeleteAuthorization(Some(token))
  {
    assert DefaultAuthorization(token)[0] == 'b';
    assert DeleteAuthorization(Some(token))[0] == 'B';
  }

  /** With no stored token the delete still goes out, carrying the literal text `null`. */
  lemma DeleteWithoutTokenSendsNull()
    ensures DeleteAuthorization(None) == "Bearer null"
  {
  }

  /** How many notifications of the given kind a log holds. */
  function CountToasts(log: seq<Event>, notice: Notice): nat {
    if log == [] then 0
    else (if log[0] == Toast(notice) then 1 else 0) + CountToasts(log[1..], notice)
  }

  /** Appending events adds their notifications to the count. */
  lemma {:induction false} CountToastsAppend(log: seq<Event>, more: seq<Event>, notice: Notice)
    ensures CountToasts(log + more, notice) == CountToasts(log, notice) + CountToasts(more, notice)
    decreases |log|
  {
    if log == [] {
      assert log + more == more;
    } else {
      assert (log + more)[1..] == log[1..] + more;
      CountToastsAppend(log[1..], more, notice);
    }
  }

  /** `localStorage`: string values under string keys, surviving restarts. */
  class KeyValueStore {
    var entries: map<string, string>

    constructor (initial: map<string, string>)
      ensures entries == initial
    {
      entries := initial;
    }

    /** `getItem`: the stored value, or `null` when the key is absent. */
    function GetItem(key: string): Option<string>
      reads this
    {
      if key in entries then Some(entries[key]) else None
    }

    method SetItem(key: string, value: string)
      modifies this
      ensures entries == old(entries)[key := value]
      ensures GetItem(key) == Some(value)
      ensures forall other :: other != key ==> GetItem(other) == old(GetItem(other))
    {
      entries := entries[key := value];
    }

    method RemoveItem(key: string)
      modifies this
      ensures entries == old(entries) - {key}
      ensures GetItem(key) == None
      ensures forall other :: other != key ==> GetItem(other) == old(GetItem(other))
    {
      entries := entries - {key};
    }
  }

  /** The shared HTTP client; only its default headers belong to the session. */
  class HttpClient {
    var defaultHeaders: map<string, string>

    constructor (initial: map<string, string>)
      ensures defaultHeaders == initial
    {
      defaultHeaders := initial;
    }
  }

  /** Everything the coordinator reads or writes, as one value. */
  datatype View = View(
    listAnimals: seq<Animal>,
    user: Record,
    loading: bool,
    isLogged: bool,
    loginButton: bool,
    donationButton: bool,
    adopted: bool,
    modalUpdateUser: bool,
    storage: map<string, string>,
    headers: map<string, string>,
    events: seq<Event>)

  class AuthProvider {
    const store: KeyValueStore
    const api: HttpClient

    var listAnimals: seq<Animal>
    var user: Record
    var loading: bool
    var isLogged: bool
    var loginButton: bool
    var donationButton: bool
    var adopted: bool
    var modalUpdateUser: bool
    var events: seq<Event>

    function Snapshot(): View
      reads this, store, api
    {
      View(listAnimals, user, loading, isLogged, loginButton, donationButton, adopted,
           modalUpdateUser, store.entries, api.defaultHeaders, events)
    }

    /**
     * A logged-in session has its token persisted and the client's default
     * header derived from that token.
     */
    predicate CredentialInPlace()
      reads this, store, api
    {
      isLogged ==> TOKEN_KEY in store.entries
                   && api.defaultHeaders == AuthorizationHeaders(store.entries[TOKEN_KEY])
    }

    /**
     * The other half of the session invariant: a logged-in session has a
     * token stored that bootstrap would accept (present and non-empty).
     */
    predicate TokenUsable()
      reads this, store
    {
      isLogged ==> Truthy(store.GetItem(TOKEN_KEY))
    }

    /** The provider's initial state, before any effect has run. */
    constructor (store: KeyValueStore, api: HttpClient)
      ensures this.store == store && this.api == api
      ensures Snapshot() == View([], map[], true, false, true, true, true, false,
                                 store.entries, api.defaultHeaders, [])
      ensures CredentialInPlace() && TokenUsable()
    {
      this.store := store;
      this.api := api;
      listAnimals := [];
      user := map[];
      loading := true;
      isLogged := false;
      loginButton := true;
      donationButton := true;
      adopted := true;
      modalUpdateUser := false;
      events := [];
    }

    /**
     * Bootstrap. A truthy stored token replaces the default headers, starts
     * the profile and catalog fetches (their completions are `UserFetched`
     * and `AnimalsFetched`) and marks the session logged in before either
     * fetch settles. Loading ends in every case.
     */
    method LoadUser()
      modifies this, api
      ensures var token := old(store.GetItem(TOKEN_KEY));
        if Truthy(token) then
          Snapshot() == old(Snapshot()).(headers := AuthorizationHeaders(token.value),
                                        isLogged := true, loading := false,
                                        events := old(events) + [Sent(FetchUser, AuthorizationHeaders(token.value)),
                                                                 Sent(FetchAnimals, AuthorizationHeaders(token.value))])
        else
          Snapshot() == old(Snapshot()).(loading := false)
      ensures !loading
      ensures old(CredentialInPlace()) ==> CredentialInPlace()
      ensures old(TokenUsable()) ==> TokenUsable()
      ensures Truthy(old(store.GetItem(TOKEN_KEY))) ==> isLogged && CredentialInPlace() && TokenUsable()
    {
      var token := store.GetItem(TOKEN_KEY);
      if Truthy(token) {
        api.defaultHeaders := AuthorizationHeaders(token.value);
        events := events + [Sent(FetchUser, api.defaultHeaders)];
        events := events + [Sent(FetchAnimals, api.defaultHeaders)];
        isLogged := true;
      }
      loading := false;
    }

    /** The two mount effects: bootstrap, then a catalog fetch of its own. */
    method Mount()
      modifies this, api
      ensures var token := old(store.GetItem(TOKEN_KEY));
        if Truthy(token) then
          Snapshot() == old(Snapshot()).(headers := AuthorizationHeaders(token.value),
                                        isLogged := true, loading := false,
                                        events := old(events) + [Sent(FetchUser, AuthorizationHeaders(token.value)),
                                                                 Sent(FetchAnimals, AuthorizationHeaders(token.value)),
                                                                 Sent(FetchAnimals, AuthorizationHeaders(token.value))])
        else
          Snapshot() == old(Snapshot()).(loading := false,
                                        events := old(events) + [Sent(FetchAnimals, old(api.defaultHeaders))])
      ensures old(CredentialInPlace()) ==> CredentialInPlace()
      ensures old(TokenUsable()) ==> TokenUsable()
    {
      LoadUser();
      events := events + [Sent(FetchAnimals, api.defaultHeaders)];
    }

    /** The bootstrap profile fetch settles: a profile replaces `user`; a rejection changes nothing. */
    method UserFetched(res: Outcome<Record>)
      modifies this
      ensures res.Ok? ==> Snapshot() == old(Snapshot()).(user := res.value)
      ensures res.Err? ==> Snapshot() == old(Snapshot())
      ensures old(CredentialInPlace()) ==> CredentialInPlace()
      ensures old(TokenUsable()) ==> TokenUsable()
    {
      if res.Ok? {
        user := res.value;
      }
    }

    /** A catalog fetch settles: the list is replaced wholesale, or left as it was on a rejection. */
    method AnimalsFetched(res: Outcome<seq<Animal>>)
      modifies this
      ensures res.Ok? ==> Snapshot() == old(Snapshot()).(listAnimals := res.value)
      ensures res.Err? ==> Snapshot() == old(Snapshot())
      ensures old(CredentialInPlace()) ==> CredentialInPlace()
      ensures old(TokenUsable()) ==> TokenUsable()
    {
      if res.Ok? {
        listAnimals := res.value;
      }
    }

    /** `getAnimals` awaited: one catalog request, then its result applied. */
    method GetAnimals(res: Outcome<seq<Animal>>)
      modifies this
      ensures Snapshot() == old(Snapshot()).(
        listAnimals := if res.Ok? then res.value else old(listAnimals),
        events := old(events) + [Sent(FetchAnimals, api.defaultHeaders)])
      ensures old(CredentialInPlace()) ==> CredentialInPlace()
      ensures old(TokenUsable()) ==> TokenUsable()
    {
      events := events + [Sent(FetchAnimals, api.defaultHeaders)];
      AnimalsFetched(res);
    }

    /**
     * Login. On success the header, user and logged-in flag are set, one
     * success notice is shown, the profile screen replaces the current one,
     * and the token and the interpolated user id are persisted. On a
     * rejection only one failure notice appears. The token is not checked:
     * an empty one still logs the session in, with a stored token that
     * bootstrap will refuse.
     */
    method LoginUser(credentials: Record, res: Outcome<LoginResponse>)
      modifies this, store, api
      ensures res.Ok? ==> Snapshot() == old(Snapshot()).(
        headers := AuthorizationHeaders(res.value.accessToken),
        user := res.value.user,
        isLogged := true,
        storage := old(store.entries)[TOKEN_KEY := res.value.accessToken]
                                     [ID_KEY := Interpolate(Field(res.value.user, "id"))],
        events := old(events) + [Sent(SubmitLogin(credentials), old(api.defaultHeaders)), Toast(Success),
                                 Navigate("/profile", true)])
      ensures res.Err? ==> Snapshot() == old(Snapshot()).(
        events := old(events) + [Sent(SubmitLogin(credentials), old(api.defaultHeaders)), Toast(Failure)])
      ensures res.Ok? ==> CredentialInPlace()
      ensures old(CredentialInPlace()) ==> CredentialInPlace()
      ensures res.Ok? ==> (TokenUsable() <==> res.value.accessToken != "")
      ensures res.Err? && old(TokenUsable()) ==> TokenUsable()
    {
      events := events + [Sent(SubmitLogin(credentials), api.defaultHeaders)];
      match res
      case Ok(LoginResponse(userResponse, accessToken)) =>
        api.defaultHeaders := AuthorizationHeaders(accessToken);
        user := userResponse;
        isLogged := true;
        events := events + [Toast(Success)];
        events := events + [Navigate("/profile", true)];
        store.SetItem(TOKEN_KEY, accessToken);
        store.SetItem(ID_KEY, Interpolate(Field(userResponse, "id")));
      case Err =>
        events := events + [Toast(Failure)];
    }

    /**
     * Logout as written: back to the landing screen and both credential
     * entries removed, while `isLogged`, `user` and the default header stay.
     * A logged-in session therefore leaves with its invariant broken.
     */
    method BackProfile()
      modifies this, store
      ensures Snapshot() == old(Snapshot()).(
        storage := old(store.entries) - {TOKEN_KEY, ID_KEY},
        events := old(events) + [Navigate("/", false)])
      ensures old(isLogged) ==> isLogged && !CredentialInPlace() && !TokenUsable()
    {
      events := events + [Navigate("/", false)];
      store.RemoveItem(TOKEN_KEY);
      store.RemoveItem(ID_KEY);
    }

    method LoginRoute()
      modifies this
      ensures Snapshot() == old(Snapshot()).(events := old(events) + [Navigate("/login", false)])
      ensures old(CredentialInPlace()) ==> CredentialInPlace()
      ensures old(TokenUsable()) ==> TokenUsable()
    {
      events := events + [Navigate("/login", false)];
    }

    /**
     * Deletes an animal with a header built from the token stored right now
     * (`Bearer null` when there is none). Only a fulfilled delete is followed
     * by a catalog re-fetch; a rejected one propagates (no notice) and leaves
     * the list alone.
     */
    method DeleteAnimal(id: string, deleted: Outcome<()>, refetch: Outcome<seq<Animal>>)
      returns (fulfilled: bool)
      modifies this
      ensures fulfilled == deleted.Ok?
      ensures var request := Sent(RemoveAnimal("animals/" + id, DeleteAuthorization(old(store.GetItem(TOKEN_KEY)))),
                                  api.defaultHeaders);
        if deleted.Ok? then
          Snapshot() == old(Snapshot()).(
            listAnimals := if refetch.Ok? then refetch.value else old(listAnimals),
            events := old(events) + [request, Sent(FetchAnimals, api.defaultHeaders)])
        else
          Snapshot() == old(Snapshot()).(events := old(events) + [request])
      ensures old(CredentialInPlace()) ==> CredentialInPlace()
      ensures old(TokenUsable()) ==> TokenUsable()
    {
      var token := store.GetItem(TOKEN_KEY);
      events := events + [Sent(RemoveAnimal("animals/" + id, DeleteAuthorization(token)), api.defaultHeaders)];
      if deleted.Err? {
        return false;
      }
      GetAnimals(refetch);
      return true;
    }

    /**
     * Profile update: on success the server's answer becomes `user` (no
     * merge with the patch), the update dialog closes and a success notice
     * shows; on a rejection only a failure notice shows.
     */
    method UpdateUser(patch: Record, res: Outcome<Record>)
      modifies this
      ensures res.Ok? ==> Snapshot() == old(Snapshot()).(
        user := res.value, modalUpdateUser := false,
        events := old(events) + [Sent(SubmitUpdate(patch), api.defaultHeaders), Toast(Success)])
      ensures res.Err? ==> Snapshot() == old(Snapshot()).(
        events := old(events) + [Sent(SubmitUpdate(patch), api.defaultHeaders), Toast(Failure)])
      ensures old(CredentialInPlace()) ==> CredentialInPlace()
      ensures old(TokenUsable()) ==> TokenUsable()
    {
      events := events + [Sent(SubmitUpdate(patch), api.defaultHeaders)];
      if res.Ok? {
        user := res.value;
        modalUpdateUser := false;
        events := events + [Toast(Success)];
      } else {
        events := events + [Toast(Failure)];
      }
    }

    /**
     * Sign-up: the normalised payload is posted to `/register`; success
     * notifies and replaces the screen with the login one, failure notifies.
     * When building the payload throws, the exception reaches the caller and
     * nothing is sent. The session itself never changes.
     */
    method RegisterUser(form: Record, res: Outcome<()>) returns (threw: bool)
      modifies this
      ensures threw <==> Registration.Normalize(form).Err?
      ensures threw ==> Snapshot() == old(Snapshot())
      ensures !threw ==> Snapshot() == old(Snapshot()).(
        events := old(events) + [Sent(Register("/register", Registration.Normalize(form).value), api.defaultHeaders)]
                  + if res.Ok? then [Toast(Success), Navigate("/login", true)] else [Toast(Failure)])
      ensures old(CredentialInPlace()) ==> CredentialInPlace()
      ensures old(TokenUsable()) ==> TokenUsable()
    {
      var payload := Registration.Normalize(form);
      if payload.Err? {
        return true;
      }
      events := events + [Sent(Register("/register", payload.value), api.defaultHeaders)];
      if res.Ok? {
        events := events + [Toast(Success), Navigate("/login", true)];
      } else {
        events := events + [Toast(Failure)];
      }
      return false;
    }

    method SetLoginButton(value: bool)
      modifies this
      ensures Snapshot() == old(Snapshot()).(loginButton := value)
    {
      loginButton := value;
    }

    method SetDonationButton(value: bool)
      modifies this
      ensures Snapshot() == old(Snapshot()).(donationButton := value)
    {
      donationButton := value;
    }

    method SetAdopted(value: bool)
      modifies this
      ensures Snapshot() == old(Snapshot()).(adopted := value)
    {
      adopted := value;
    }

    method SetModalUpdateUser(value: bool)
      modifies this
      ensures Snapshot() == old(Snapshot()).(modalUpdateUser := value)
    {
      modalUpdateUser := value;
    }
  }
}
