/**
 * The client façade: one handle that owns the configuration, the outbound
 * header map and the four sub-clients, and that pushes every new session's
 * access token into all of them.
 */
module Supabase {
  import opened Wrappers
  import opened GoRuntime
  import opened AuthTypes
  import opened SubClients
  import opened TokenRefresh

  const RestURL := "/rest/v1"
  const StorageURL := "/storage/v1"
  const AuthURL := "/auth/v1"
  const FunctionsURL := "/functions/v1"

  const AuthorizationHeader := "Authorization"
  const ApiKeyHeader := "apikey"
  const DefaultSchema := "public"

  const MissingArguments := "url and key are required"
  const UninitializedClient := "cannot copy non-initialized client"

  /** The value of the Authorization header for a bearer token. */
  function Bearer(token: string): string
  {
    "Bearer " + token
  }

  /** What a caller may pass to the constructor; a nil header map is the empty map. */
  datatype ClientOptions = ClientOptions(headers: map<string, string>, schema: string)

  /** The caller's extra headers, none when no options are given. */
  function ExtraHeaders(options: Option<ClientOptions>): map<string, string>
  {
    if options.Some? then options.value.headers else map[]
  }

  /** A snapshot of every field of the façade. */
  datatype ClientState = ClientState(
    url: string,
    headers: map<string, string>,
    schema: string,
    rest: RestHandle,
    storage: Handle,
    auth: AuthHandle,
    functions: Handle)

  /** The header map and all four sub-clients carry `token`. */
  predicate CarriesToken(s: ClientState, token: string)
  {
    AuthorizationHeader in s.headers && s.headers[AuthorizationHeader] == Bearer(token) &&
    s.rest.token == Some(token) && s.auth.token == Some(token) &&
    s.storage.token == token && s.functions.token == token
  }

  /** The storage and functions clients point below `url` and read `headers`. */
  predicate RebuiltFrom(s: ClientState, url: string, headers: map<string, string>)
  {
    s.storage.baseURL == url + StorageURL && s.storage.headers == headers &&
    s.functions.baseURL == url + FunctionsURL && s.functions.headers == headers
  }

  /** What a freshly constructed façade holds, or why construction is refused. */
  function Initial(url: string, key: string, options: Option<ClientOptions>): (r: Result<ClientState, string>)
    ensures r.Failure? <==> url == "" || key == ""
    ensures r.Failure? ==> r.error == MissingArguments
    ensures r.Success? ==> r.value.url == url
    ensures r.Success? ==> r.value.headers.Keys == {AuthorizationHeader, ApiKeyHeader} + ExtraHeaders(options).Keys
    ensures r.Success? ==> forall k :: k in ExtraHeaders(options) ==> r.value.headers[k] == ExtraHeaders(options)[k]
    ensures r.Success? && AuthorizationHeader !in ExtraHeaders(options) ==> r.value.headers[AuthorizationHeader] == Bearer(key)
    ensures r.Success? && ApiKeyHeader !in ExtraHeaders(options) ==> r.value.headers[ApiKeyHeader] == key
    ensures r.Success? && options.Some? && options.value.schema != "" ==> r.value.schema == options.value.schema
    ensures r.Success? && (options.None? || options.value.schema == "") ==> r.value.schema == DefaultSchema
    ensures r.Success? ==> r.value.rest == NewRest(url + RestURL, r.value.schema, r.value.headers)
    ensures r.Success? ==> r.value.auth == WithCustomAuthURL(NewAuth(url, key), url + AuthURL)
    ensures r.Success? ==> RebuiltFrom(r.value, url, r.value.headers) && r.value.storage.token == key && r.value.functions.token == key
  {
    if url == "" || key == "" then Failure(MissingArguments) else
      var headers := map[AuthorizationHeader := Bearer(key), ApiKeyHeader := key] + ExtraHeaders(options);
      var schema := if options.Some? && options.value.schema != "" then options.value.schema else DefaultSchema;
      Success(ClientState(
        url, headers, schema,
        NewRest(url + RestURL, schema, headers),
        Handle(url + StorageURL, key, headers),
        WithCustomAuthURL(NewAuth(url, key), url + AuthURL),
        Handle(url + FunctionsURL, key, headers)))
  }

  /**
   * The façade after a session's access token has been pushed everywhere:
   * the header map and all four sub-clients carry it, storage and functions
   * are rebuilt from the updated map, and the configuration and every other
   * header entry are as before.
   */
  function Propagated(s: ClientState, session: Session): (r: ClientState)
    ensures CarriesToken(r, session.accessToken)
    ensures r.url == s.url && r.schema == s.schema
    ensures r.headers.Keys == s.headers.Keys + {AuthorizationHeader}
    ensures forall k :: k in s.headers && k != AuthorizationHeader ==> r.headers[k] == s.headers[k]
    ensures r.rest.baseURL == s.rest.baseURL && r.rest.schema == s.rest.schema && r.rest.headers == s.rest.headers
    ensures r.auth.project == s.auth.project && r.auth.apiKey == s.auth.apiKey && r.auth.customURL == s.auth.customURL
    ensures RebuiltFrom(r, s.url, r.headers)
  {
    var token := session.accessToken;
    var headers := s.headers[AuthorizationHeader := Bearer(token)];
    s.(auth := AuthWithToken(s.auth, token),
       rest := SetAuthToken(s.rest, token),
       headers := headers,
       storage := Handle(s.url + StorageURL, token, headers),
       functions := Handle(s.url + FunctionsURL, token, headers))
  }

  /** Only the latest propagated session matters. */
  lemma PropagatedLastWins(s: ClientState, first: Session, second: Session)
    ensures Propagated(Propagated(s, first), second) == Propagated(s, second)
  {
  }

  /** Propagating the same session twice is the same as propagating it once. */
  lemma PropagatedIdempotent(s: ClientState, session: Session)
    ensures Propagated(Propagated(s, session), session) == Propagated(s, session)
  {
  }

  /** The session of the latest successful round, if any. */
  function LatestGrant(rounds: seq<Round>): Option<Session>
    decreases |rounds|
  {
    if rounds == [] then None
    else if rounds[|rounds| - 1].reply.Granted? then Some(rounds[|rounds| - 1].reply.session)
    else LatestGrant(rounds[..|rounds| - 1])
  }

  /** The façade after the refresh loop has run through `rounds`. */
  function AfterRounds(s: ClientState, rounds: seq<Round>): ClientState
  {
    match LatestGrant(rounds)
    case None => s
    case Some(session) => Propagated(s, session)
  }

  /** How the copy made by WithToken starts out: its url, schema and header map. */
  datatype CopySeed = CopySeed(url: string, schema: string, headers: StringMap)

  /** The struct literal `&Client{}`: every field at its zero value, the header map nil. */
  const EmptyStruct := CopySeed("", "", Nil)

  /** A seed that takes over the source's configuration and allocates a fresh map. */
  function SeedFrom(s: ClientState): CopySeed
  {
    CopySeed(s.url, s.schema, Allocated(map[]))
  }

  /** The two writes into the copy's header map: copying the source's entries, and setting Authorization. */
  datatype PanicSite = HeaderCopyWrite | AuthorizationWrite

  /** How a copy with a new token ends: refused, a run-time panic at one of the writes, or a copy. */
  datatype CopyOutcome = Rejected(error: string) | Panicked(site: PanicSite) | Copied(state: ClientState)

  /**
   * The copy of `src` carrying `token`, started from `seed`: a nil seed map
   * panics at the first write into it, otherwise the copy holds the seed's
   * configuration, the source's headers with Authorization overridden, and
   * sub-clients built from the seed's url and schema.
   */
  function CopyOf(src: ClientState, token: string, seed: CopySeed): (o: CopyOutcome)
    ensures o.Panicked? <==> seed.headers.Nil?
    ensures o.Copied? <==> seed.headers.Allocated?
    ensures o.Panicked? ==> o.site == if src.headers == map[] then AuthorizationWrite else HeaderCopyWrite
    ensures o.Copied? ==> CarriesToken(o.state, token)
    ensures o.Copied? ==> o.state.url == seed.url && o.state.schema == seed.schema
    ensures o.Copied? ==> o.state.headers.Keys == seed.headers.entries.Keys + src.headers.Keys + {AuthorizationHeader}
    ensures o.Copied? ==> forall k :: k in src.headers && k != AuthorizationHeader ==> o.state.headers[k] == src.headers[k]
    ensures o.Copied? ==> forall k :: k in seed.headers.entries && k !in src.headers && k != AuthorizationHeader ==>
      o.state.headers[k] == seed.headers.entries[k]
    ensures o.Copied? ==> o.state.rest.baseURL == seed.url + RestURL && o.state.rest.schema == seed.schema
    ensures o.Copied? ==> o.state.rest.headers == o.state.headers
    ensures o.Copied? ==> RebuiltFrom(o.state, seed.url, o.state.headers)
    ensures o.Copied? ==> o.state.auth == AuthWithToken(src.auth, token)
  {
    if seed.headers.Nil? then Panicked(if src.headers == map[] then AuthorizationWrite else HeaderCopyWrite) else
      var headers := (seed.headers.entries + src.headers)[AuthorizationHeader := Bearer(token)];
      Copied(ClientState(
        seed.url, headers, seed.schema,
        SetAuthToken(NewRest(seed.url + RestURL, seed.schema, headers), token),
        Handle(seed.url + StorageURL, token, headers),
        AuthWithToken(src.auth, token),
        Handle(seed.url + FunctionsURL, token, headers)))
  }

  /**
   * A copy seeded from the source is the source with the token swapped in:
   * same configuration, same headers except Authorization, the query
   * builder, storage and functions below the source's url, and the source's
   * auth client bound to the token.
   */
  lemma CopyFromSeedSwapsToken(src: ClientState, token: string)
    ensures var o := CopyOf(src, token, SeedFrom(src));
      o.Copied? &&
      o.state.url == src.url && o.state.schema == src.schema &&
      o.state.headers == src.headers[AuthorizationHeader := Bearer(token)] &&
      o.state.rest == SetAuthToken(NewRest(src.url + RestURL, src.schema, o.state.headers), token) &&
      RebuiltFrom(o.state, src.url, o.state.headers) &&
      o.state.auth == AuthWithToken(src.auth, token) &&
      CarriesToken(o.state, token)
  {
  }

  /**
   * Even with its header map allocated, a copy started from the struct
   * literal keeps an empty url and schema, so its query-builder client points
   * at the bare path instead of below the source's url.
   */
  lemma CopyFromLiteralLosesConfiguration(src: ClientState, token: string)
    requires src.url != ""
    ensures var o := CopyOf(src, token, EmptyStruct.(headers := Allocated(map[])));
      o.Copied? && o.state.url == "" && o.state.schema == "" &&
      o.state.rest.baseURL == RestURL && o.state.rest.baseURL != src.url + RestURL &&
      o.state.storage.baseURL == StorageURL && o.state.functions.baseURL == FunctionsURL
  {
  }

  /** The façade: configuration, header map and the four sub-clients, updated in place. */
  class Client {
    var url: string
    var headers: map<string, string>
    var schema: string
    var rest: RestHandle
    var storage: Handle
    var auth: AuthHandle
    var functions: Handle

    function State(): ClientState
      reads this
    {
      ClientState(url, headers, schema, rest, storage, auth, functions)
    }

    constructor FromState(s: ClientState)
      ensures State() == s
    {
      url, headers, schema := s.url, s.headers, s.schema;
      rest, storage, auth, functions := s.rest, s.storage, s.auth, s.functions;
    }

    /**
     * Builds a façade for `url` and `key`: refuses an empty url or key,
     * otherwise fills the default headers, merges the caller's headers over
     * them, settles the schema and creates the four sub-clients.
     */
    static method NewClient(url: string, key: string, options: Option<ClientOptions>) returns (r: Result<Client, string>)
      ensures r.Failure? <==> url == "" || key == ""
      ensures r.Failure? ==> r.error == MissingArguments
      ensures r.Success? ==> fresh(r.value) && Initial(url, key, options) == Success(r.value.State())
    {
      if url == "" || key == "" {
        return Failure(MissingArguments);
      }
      var headers := Allocated(map[AuthorizationHeader := Bearer(key), ApiKeyHeader := key]);
      if options.Some? {
        var merged := StoreAll(headers, options.value.headers);
        headers := merged.value;
      }
      var h := headers.entries;
      assert h == map[AuthorizationHeader := Bearer(key), ApiKeyHeader := key] + ExtraHeaders(options);
      var schema := if options.Some? && options.value.schema != "" then options.value.schema else DefaultSchema;
      var c := new Client.FromState(ClientState(
        url, h, schema,
        NewRest(url + RestURL, schema, h),
        Handle(url + StorageURL, key, h),
        WithCustomAuthURL(NewAuth(url, key), url + AuthURL),
        Handle(url + FunctionsURL, key, h)));
      return Success(c);
    }

    /** Pushes the session's access token into the auth client, the query builder, the header map, storage and functions. */
    method UpdateAuthSession(session: Session)
      modifies this
      ensures State() == Propagated(old(State()), session)
    {
      auth := AuthWithToken(auth, session.accessToken);
      rest := SetAuthToken(rest, session.accessToken);
      headers := headers[AuthorizationHeader := Bearer(session.accessToken)];
      storage := Handle(url + StorageURL, session.accessToken, headers);
      functions := Handle(url + FunctionsURL, session.accessToken, headers);
    }

    /**
     * Sign-in by e-mail and password; `reply` is the auth library's answer.
     * A refusal leaves the façade as it was; a session is propagated first.
     */
    method SignInWithEmailPassword(email: string, password: string, reply: AuthReply) returns (session: Session, err: Option<string>)
      modifies this
      ensures reply.Refused? ==> session == EmptySession && err == Some(reply.message) && State() == old(State())
      ensures reply.Granted? ==> session == reply.session && err == None && State() == Propagated(old(State()), reply.session)
    {
      if reply.Refused? {
        return EmptySession, Some(reply.message);
      }
      UpdateAuthSession(reply.session);
      return reply.session, None;
    }

    /** Sign-in by phone number and password; behaves as the e-mail variant. */
    method SignInWithPhonePassword(phone: string, password: string, reply: AuthReply) returns (session: Session, err: Option<string>)
      modifies this
      ensures reply.Refused? ==> session == EmptySession && err == Some(reply.message) && State() == old(State())
      ensures reply.Granted? ==> session == reply.session && err == None && State() == Propagated(old(State()), reply.session)
    {
      if reply.Refused? {
        return EmptySession, Some(reply.message);
      }
      UpdateAuthSession(reply.session);
      return reply.session, None;
    }

    /** Exchanges a refresh token for a new session; behaves as the sign-in wrappers. */
    method RefreshToken(refreshToken: string, reply: AuthReply) returns (session: Session, err: Option<string>)
      modifies this
      ensures reply.Refused? ==> session == EmptySession && err == Some(reply.message) && State() == old(State())
      ensures reply.Granted? ==> session == reply.session && err == None && State() == Propagated(old(State()), reply.session)
    {
      if reply.Refused? {
        return EmptySession, Some(reply.message);
      }
      UpdateAuthSession(reply.session);
      return reply.session, None;
    }

    /**
     * One iteration of the refresh loop. A success is propagated twice, once
     * inside RefreshToken and once by the loop itself, which lands on the same
     * state as propagating it once.
     */
    method RefreshRound(st: LoopState, round: Round) returns (o: Outcome)
      modifies this
      ensures o == Step(st, round)
      ensures State() == if round.reply.Granted? then Propagated(old(State()), round.reply.session) else old(State())
    {
      var wait := PreRefreshWait(st.expiresAt, round.now);
      var waited := if wait > 0 then Some(wait) else None;
      var newSession, err := RefreshToken(st.session.refreshToken, round.reply);
      if err.Some? {
        var attempt := st.attempt + 1;
        o := Outcome(st.session.refreshToken, waited, Some(BackoffDelay(attempt)), st.(attempt := attempt));
        return;
      }
      UpdateAuthSession(newSession);
      PropagatedIdempotent(old(State()), newSession);
      o := Outcome(st.session.refreshToken, waited, None, LoopState(0, newSession, ExpiryAfter(round.finishedAt, newSession)));
    }

    /**
     * The refresh loop started with `session` at clock `startedAt`, run
     * through the finite prefix `rounds` of its endless iterations.
     */
    method EnableTokenAutoRefresh(session: Session, startedAt: int, rounds: seq<Round>) returns (outcomes: seq<Outcome>)
      modifies this
      ensures outcomes == Trace(Started(session, startedAt), rounds)
      ensures State() == AfterRounds(old(State()), rounds)
    {
      var st := Started(session, startedAt);
      outcomes := [];
      var i := 0;
      while i < |rounds|
        invariant 0 <= i <= |rounds|
        invariant outcomes == Trace(Started(session, startedAt), rounds[..i])
        invariant st == Final(Started(session, startedAt), rounds[..i])
        invariant State() == AfterRounds(old(State()), rounds[..i])
      {
        var o := RefreshRound(st, rounds[i]);
        TraceSnoc(Started(session, startedAt), rounds[..i], rounds[i]);
        assert rounds[..i + 1] == rounds[..i] + [rounds[i]];
        assert rounds[..i + 1][..i] == rounds[..i];
        if rounds[i].reply.Granted? {
          match LatestGrant(rounds[..i])
          case None =>
          case Some(prev) => PropagatedLastWins(old(State()), prev, rounds[i].reply.session);
        }
        outcomes := outcomes + [o];
        st := o.next;
        i := i + 1;
      }
      assert rounds[..|rounds|] == rounds;
    }
  }

  /**
   * Copies `c` with `token`, starting from `seed`: ranges over the source's
   * headers writing each into the copy's map, overrides Authorization, then
   * builds the copy's sub-clients. The source is only read.
   */
  method CopyWithToken(c: Client, token: string, seed: CopySeed) returns (o: CopyOutcome)
    ensures o == CopyOf(c.State(), token, seed)
  {
    var copied := StoreAll(seed.headers, c.headers);
    if copied.None? {
      return Panicked(HeaderCopyWrite);
    }
    var stored := Store(copied.value, AuthorizationHeader, Bearer(token));
    if stored.None? {
      assert c.headers == map[];
      return Panicked(AuthorizationWrite);
    }
    var headers := stored.value.entries;
    assert headers == (seed.headers.entries + c.headers)[AuthorizationHeader := Bearer(token)];
    var rest := SetAuthToken(NewRest(seed.url + RestURL, seed.schema, headers), token);
    var auth := AuthWithToken(c.auth, token);
    var storage := Handle(seed.url + StorageURL, token, headers);
    var functions := Handle(seed.url + FunctionsURL, token, headers);
    return Copied(ClientState(seed.url, headers, seed.schema, rest, storage, auth, functions));
  }

  /**
   * WithToken as the code stands: a nil receiver is refused, and every other
   * receiver panics, because the copy's header map is never allocated.
   */
  method WithTokenAsWritten(c: Client?, token: string) returns (o: CopyOutcome)
    ensures c == null ==> o == Rejected(UninitializedClient)
    ensures c != null ==> o.Panicked? && o.site == if c.headers == map[] then AuthorizationWrite else HeaderCopyWrite
  {
    if c == null {
      return Rejected(UninitializedClient);
    }
    o := CopyWithToken(c, token, EmptyStruct);
  }

  /**
   * WithToken as intended: a nil receiver is refused; otherwise a new façade
   * with the receiver's configuration, its headers with Authorization set to
   * the token, and four sub-clients carrying the token. The receiver is
   * only read.
   */
  method WithToken(c: Client?, token: string) returns (r: Result<Client, string>)
    ensures c == null ==> r == Failure(UninitializedClient)
    ensures c != null ==> r.Success? && fresh(r.value)
    ensures c != null ==> Copied(r.value.State()) == CopyOf(c.State(), token, SeedFrom(c.State()))
    ensures c != null ==> c.State() == old(c.State())
  {
    if c == null {
      return Failure(UninitializedClient);
    }
    var o := CopyWithToken(c, token, SeedFrom(c.State()));
    var copy := new Client.FromState(o.state);
    return Success(copy);
  }
}
