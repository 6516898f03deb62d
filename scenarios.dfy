/**
 * Client code driving the coordinator through whole flows, proved from the
 * contracts of `Session.AuthProvider` alone.
 */
module Scenarios {
  import opened Outcomes
  import opened JsValues
  import opened Session

  /**
   * A fresh start with nothing stored, then an accepted login for the user
   * with id 1 and token "tok".
   */
  method AcceptedLogin() returns (logged: bool, token: Option<string>, id: Option<string>,
                                  header: map<string, string>, successes: nat, failures: nat)
    ensures logged && token == Some("tok") && id == Some("1")
    ensures header == map["Authorization" := "bearer tok"]
    ensures successes == 1 && failures == 0
  {
    var store := new KeyValueStore(map[]);
    var api := new HttpClient(map[]);
    var provider := new AuthProvider(store, api);
    provider.Mount();
    assert provider.events == [Sent(FetchAnimals, map[])];
    var credentials := map["email" := Str("a@b.com"), "password" := Str("x")];
    provider.LoginUser(credentials, Ok(LoginResponse(map["id" := Num(1), "name" := Str("Ana")], "tok")));
    assert Interpolate(Num(1)) == "1";
    logged := provider.isLogged;
    token := store.GetItem(TOKEN_KEY);
    id := store.GetItem(ID_KEY);
    header := api.defaultHeaders;
    assert DefaultAuthorization("tok") == "bearer tok";
    var log := provider.events;
    var tail := [Sent(SubmitLogin(credentials), map[]), Toast(Success), Navigate("/profile", true)];
    assert log == [Sent(FetchAnimals, map[])] + tail;
    assert tail[1..] == [Toast(Success), Navigate("/profile", true)];
    assert tail[1..][1..] == [Navigate("/profile", true)];
    assert CountToasts(tail[1..][1..], Success) == 0;
    assert CountToasts(tail[1..][1..], Failure) == 0;
    assert CountToasts(tail, Success) == 1;
    assert CountToasts(tail, Failure) == 0;
    CountToastsAppend([Sent(FetchAnimals, map[])], tail, Success);
    CountToastsAppend([Sent(FetchAnimals, map[])], tail, Failure);
    successes := CountToasts(log, Success);
    failures := CountToasts(log, Failure);
  }

  /** A rejected login from a fresh start: still logged out, nothing stored, one failure notice. */
  method RejectedLogin() returns (logged: bool, stored: map<string, string>, successes: nat, failures: nat)
    ensures !logged && stored == map[]
    ensures successes == 0 && failures == 1
  {
    var store := new KeyValueStore(map[]);
    var api := new HttpClient(map[]);
    var provider := new AuthProvider(store, api);
    var credentials := map["email" := Str("a@b.com"), "password" := Str("wrong")];
    provider.LoginUser(credentials, Err);
    logged := provider.isLogged;
    stored := store.entries;
    var log := provider.events;
    var sent := Sent(SubmitLogin(credentials), map[]);
    assert log == [sent] + [Toast(Failure)];
    CountToastsAppend([sent], [Toast(Failure)], Success);
    CountToastsAppend([sent], [Toast(Failure)], Failure);
    successes := CountToasts(log, Success);
    failures := CountToasts(log, Failure);
  }

  /**
   * Login, then logout, then a restart in which only the storage survives
   * (a fresh HTTP client): the old provider still believes it is logged in,
   * the restarted one is not, sends no profile request and sends its catalog
   * request without an `Authorization` header.
   */
  method LogoutThenRestart() returns (staleLogged: bool, restartedLogged: bool,
                                      tokenStored: bool, restartedLog: seq<Event>)
    ensures staleLogged && !restartedLogged && !tokenStored
    ensures restartedLog == [Sent(FetchAnimals, map[])]
  {
    var store := new KeyValueStore(map[]);
    var api := new HttpClient(map[]);
    var provider := new AuthProvider(store, api);
    provider.Mount();
    provider.LoginUser(map["email" := Str("a@b.com")], Ok(LoginResponse(map["id" := Str("7")], "tok")));
    provider.BackProfile();
    staleLogged := provider.isLogged;
    tokenStored := store.GetItem(TOKEN_KEY).Some?;
    var freshApi := new HttpClient(map[]);
    var restarted := new AuthProvider(store, freshApi);
    restarted.Mount();
    restartedLogged := restarted.isLogged;
    restartedLog := restarted.events;
  }

  /**
   * Deleting an animal that the server then drops from the catalog, and
   * deleting it again: the second delete is rejected, the catalog stays as
   * the first re-fetch left it and no second re-fetch is sent.
   */
  method DeleteTwice(a: Animal, b: Animal) returns (afterFirst: seq<Animal>, afterSecond: seq<Animal>,
                                                  firstOk: bool, secondOk: bool, catalogRequests: nat)
    requires a != b
    ensures a !in afterFirst && a !in afterSecond
    ensures afterFirst == [b] && afterSecond == [b]
    ensures firstOk && !secondOk
    ensures catalogRequests == 1
  {
    var store := new KeyValueStore(map[TOKEN_KEY := "tok"]);
    var api := new HttpClient(map[]);
    var provider := new AuthProvider(store, api);
    provider.AnimalsFetched(Ok([a, b]));
    firstOk := provider.DeleteAnimal("1", Ok(()), Ok([b]));
    afterFirst := provider.listAnimals;
    secondOk := provider.DeleteAnimal("1", Err, Ok([a]));
    afterSecond := provider.listAnimals;
    assert "animals/" + "1" == "animals/1";
    assert DeleteAuthorization(Some("tok")) == "Bearer tok";
    var request := Sent(RemoveAnimal("animals/1", "Bearer tok"), map[]);
    assert provider.events == [request, Sent(FetchAnimals, map[]), request];
    catalogRequests := |set i | 0 <= i < |provider.events| && provider.events[i].Sent? && provider.events[i].request == FetchAnimals|;
    assert (set i | 0 <= i < |provider.events| && provider.events[i].Sent? && provider.events[i].request == FetchAnimals) == {1};
  }

  /**
   * A restart with a token left in storage: every bootstrap request already
   * carries `bearer <token>`, and the session is logged in before any of them
   * has settled.
   */
  method RestartWithStoredToken() returns (logged: bool, loading: bool, log: seq<Event>)
    ensures logged && !loading
    ensures log == [Sent(FetchUser, map["Authorization" := "bearer tok"]),
                    Sent(FetchAnimals, map["Authorization" := "bearer tok"]),
                    Sent(FetchAnimals, map["Authorization" := "bearer tok"])]
  {
    var store := new KeyValueStore(map[TOKEN_KEY := "tok", ID_KEY := "7"]);
    var api := new HttpClient(map[]);
    var provider := new AuthProvider(store, api);
    provider.Mount();
    assert DefaultAuthorization("tok") == "bearer tok";
    logged := provider.isLogged;
    loading := provider.loading;
    log := provider.events;
  }

  /**
   * An accepted login that hands out an empty token: the session is logged
   * in, but a restart over the same storage refuses the stored token and
   * comes up logged out.
   */
  method EmptyTokenLogin() returns (logged: bool, usable: bool, restartedLogged: bool)
    ensures logged && !usable && !restartedLogged
  {
    var store := new KeyValueStore(map[]);
    var api := new HttpClient(map[]);
    var provider := new AuthProvider(store, api);
    provider.Mount();
    provider.LoginUser(map["email" := Str("a@b.com")], Ok(LoginResponse(map["id" := Num(1)], "")));
    logged := provider.isLogged;
    usable := Truthy(store.GetItem(TOKEN_KEY));
    var freshApi := new HttpClient(map[]);
    var restarted := new AuthProvider(store, freshApi);
    restarted.Mount();
    restartedLogged := restarted.isLogged;
  }
}
