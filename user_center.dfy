/**
 * The Clerk user center: the plugin that lets the host application sign users in
 * through Clerk and read their profiles. It maps Clerk users to the host's record,
 * builds its Clerk client lazily from the configuration, and routes each operation
 * through at most two provider requests.
 */
module UserCenter {
  import opened Wrappers
  import opened Config
  import opened ClerkApi

  // ---------------------------------------------------------------------------
  // Host-side data
  // ---------------------------------------------------------------------------

  /** The host's user record (UserCenterBasicUserInfo). */
  datatype BasicUserInfo = BasicUserInfo(
    externalId: string,
    username: string,
    displayName: string,
    email: string,
    avatarUrl: string,
    roles: seq<string>)

  /** The host's personal-branding record (UserCenterBranding). */
  datatype Branding = Branding(avatarUrl: string, nickname: string)

  /** The branding record with every field empty, as the zero-valued Go struct. */
  const EmptyBranding := Branding("", "")

  /** The host's user status values that this plugin mentions. */
  datatype Status = Normal | Banned

  /** The kinds of error the plugin returns; a provider error is kept as the cause. */
  datatype Error =
    | ConfigNotSet
    | MissingSessionToken
    | InvalidSessionToken(cause: SdkError)
    | UserLookupFailed(cause: SdkError)
    | UserListFailed(cause: SdkError)

  /** The query key that carries the Clerk session token on the login callback. */
  const SessionTokenKey := "session_token"

  // ---------------------------------------------------------------------------
  // The user-record mapping, shared by every operation that returns a record
  // ---------------------------------------------------------------------------

  /** The primary e-mail address, or "" when the user has none. */
  function PrimaryEmail(u: User): (email: string)
    ensures u.primaryEmailAddress.Some? ==> email == u.primaryEmailAddress.value.emailAddress
    ensures u.primaryEmailAddress.None? ==> email == ""
  {
    match u.primaryEmailAddress
    case Some(address) => address.emailAddress
    case None => ""
  }

  /**
   * The display name: the first name, followed by a space and the last name when
   * the last name is not empty.
   */
  function DisplayName(first: string, last: string): (name: string)
    ensures |name| >= |first| && name[..|first|] == first
    ensures name == first <==> last == ""
    ensures last != "" ==> name[|first|] == ' ' && name[|first| + 1..] == last
  {
    if last == "" then first else first + " " + last
  }

  /** The host record for a Clerk user. */
  function ToBasicUserInfo(u: User): (r: BasicUserInfo)
    ensures r.externalId == u.id && r.username == u.username && r.avatarUrl == u.imageUrl
    ensures r.displayName == DisplayName(u.firstName, u.lastName)
    ensures r.email == PrimaryEmail(u)
    ensures r.roles == ["member"]
  {
    BasicUserInfo(
      externalId := u.id,
      username := u.username,
      displayName := DisplayName(u.firstName, u.lastName),
      email := PrimaryEmail(u),
      avatarUrl := u.imageUrl,
      roles := ["member"])
  }

  /**
   * When neither first name contains a space, equal display names come from equal
   * names: the join loses nothing.
   */
  lemma {:induction false} DisplayNameInjective(f1: string, l1: string, f2: string, l2: string)
    requires ' ' !in f1 && ' ' !in f2
    requires DisplayName(f1, l1) == DisplayName(f2, l2)
    ensures f1 == f2 && l1 == l2
  {
  }

  /** The record the user-lookup step yields: the mapped user, or a lookup error. */
  function UserLookup(res: Result<User, SdkError>): (r: Result<BasicUserInfo, Error>)
    ensures r.Ok? <==> res.Ok?
    ensures res.Ok? ==> r.value == ToBasicUserInfo(res.value)
    ensures res.Err? ==> r.error == UserLookupFailed(res.error)
  {
    match res
    case Ok(u) => Ok(ToBasicUserInfo(u))
    case Err(e) => Err(UserLookupFailed(e))
  }

  /** The branding the branding lookup yields: avatar and username, or the empty record. */
  function BrandingFrom(res: Result<User, SdkError>): (b: Branding)
    ensures res.Err? ==> b == EmptyBranding
    ensures res.Ok? ==> b.avatarUrl == res.value.imageUrl && b.nickname == res.value.username
  {
    match res
    case Ok(u) => Branding(avatarUrl := u.imageUrl, nickname := u.username)
    case Err(_) => EmptyBranding
  }

  /** The loop of UserList: one mapped record per provider user, in the same order. */
  method MapUsers(users: seq<User>) returns (result: seq<BasicUserInfo>)
    ensures |result| == |users|
    ensures forall i :: 0 <= i < |users| ==> result[i] == ToBasicUserInfo(users[i])
  {
    result := [];
    for k := 0 to |users|
      invariant |result| == k
      invariant forall i :: 0 <= i < k ==> result[i] == ToBasicUserInfo(users[i])
    {
      result := result + [ToBasicUserInfo(users[k])];
    }
  }

  // ---------------------------------------------------------------------------
  // Lazy client initialisation
  // ---------------------------------------------------------------------------

  /** The configuration is present and has both server-side credentials. */
  predicate ConfigUsable(config: Option<UserCenterConfig>) {
    config.Some? && config.value.secretKey != "" && config.value.frontendApi != ""
  }

  /** The client the SDK builds: from the secret key and the frontend API only. */
  function NewClient(config: UserCenterConfig): (c: Client)
    ensures c.secretKey == config.secretKey && c.frontendApi == config.frontendApi
  {
    Client(config.secretKey, config.frontendApi)
  }

  /** The client after an initialisation attempt, and the error it returned if any. */
  datatype InitOutcome = InitOutcome(client: Option<Client>, error: Option<Error>)

  /**
   * One initialisation attempt: a client that is already set stays and the attempt
   * succeeds; otherwise an unusable configuration is a configuration error and a
   * usable one sets the client.
   */
  function InitStep(config: Option<UserCenterConfig>, client: Option<Client>): (o: InitOutcome)
    ensures client.Some? ==> o == InitOutcome(client, None)
    ensures client.None? && !ConfigUsable(config) ==> o == InitOutcome(None, Some(ConfigNotSet))
    ensures client.None? && ConfigUsable(config) ==> o.client == Some(NewClient(config.value))
    ensures o.error.None? <==> o.client.Some?
  {
    if client.Some? then InitOutcome(client, None)
    else if !ConfigUsable(config) then InitOutcome(None, Some(ConfigNotSet))
    else InitOutcome(Some(NewClient(config.value)), None)
  }

  /** A second attempt changes nothing: the client state moves one way only. */
  lemma InitStepIdempotent(config: Option<UserCenterConfig>, client: Option<Client>)
    ensures InitStep(config, InitStep(config, client).client) == InitStep(config, client)
  {
  }

  /** The publishable key is never consulted. */
  lemma InitIgnoresPublishableKey(pk1: string, pk2: string, secretKey: string, frontendApi: string, client: Option<Client>)
    ensures InitStep(Some(UserCenterConfig(pk1, secretKey, frontendApi)), client)
         == InitStep(Some(UserCenterConfig(pk2, secretKey, frontendApi)), client)
  {
  }

  // ---------------------------------------------------------------------------
  // The login callback, once a client exists
  // ---------------------------------------------------------------------------

  /** The session_token query parameter, or "" when it is absent (as Gin's Query). */
  function SessionToken(query: map<string, string>): (token: string)
    ensures SessionTokenKey in query ==> token == query[SessionTokenKey]
    ensures SessionTokenKey !in query ==> token == ""
  {
    if SessionTokenKey in query then query[SessionTokenKey] else ""
  }

  /**
   * What the login callback returns once a client exists: a missing token is
   * reported first, then a rejected token, then a failed lookup of the session's user.
   */
  function LoginFlow(client: Client, api: Provider, query: map<string, string>): (r: Result<BasicUserInfo, Error>)
    ensures r == Err(MissingSessionToken) <==> SessionToken(query) == ""
    ensures (r.Err? && r.error.InvalidSessionToken?)
        <==> SessionToken(query) != "" && api.sessionByToken(client, SessionToken(query)).Err?
    ensures r.Err? && r.error.InvalidSessionToken? ==>
              r.error.cause == api.sessionByToken(client, SessionToken(query)).error
    ensures SessionToken(query) != "" && api.sessionByToken(client, SessionToken(query)).Ok? ==>
              r == UserLookup(api.userById(client, api.sessionByToken(client, SessionToken(query)).value.userId))
  {
    var token := SessionToken(query);
    if token == "" then Err(MissingSessionToken)
    else match api.sessionByToken(client, token)
      case Err(e) => Err(InvalidSessionToken(e))
      case Ok(session) => UserLookup(api.userById(client, session.userId))
  }

  /**
   * The provider calls the login callback makes once a client exists: none without
   * a token, then the session lookup, then the lookup of the session's user.
   */
  function LoginCalls(client: Client, api: Provider, query: map<string, string>): (calls: seq<Call>)
    ensures |calls| <= 2
    ensures calls == [] <==> SessionToken(query) == ""
    ensures calls != [] ==> calls[0] == GetSessionByToken(SessionToken(query))
    ensures |calls| == 2 <==> SessionToken(query) != "" && api.sessionByToken(client, SessionToken(query)).Ok?
    ensures |calls| == 2 ==> calls[1] == GetUser(api.sessionByToken(client, SessionToken(query)).value.userId)
  {
    var token := SessionToken(query);
    if token == "" then []
    else match api.sessionByToken(client, token)
      case Err(_) => [GetSessionByToken(token)]
      case Ok(session) => [GetSessionByToken(token), GetUser(session.userId)]
  }

  /**
   * The calls made tell how far the callback got: no call for a missing token, one
   * for a rejected token, two when the user lookup was reached.
   */
  lemma LoginCallsAgree(client: Client, api: Provider, query: map<string, string>)
    ensures var r, calls := LoginFlow(client, api, query), LoginCalls(client, api, query);
      && (calls == [] <==> r == Err(MissingSessionToken))
      && (|calls| == 1 <==> r.Err? && r.error.InvalidSessionToken?)
      && (|calls| == 2 <==> r.Ok? || r.error.UserLookupFailed?)
  {
  }

  // ---------------------------------------------------------------------------
  // User listing arithmetic
  // ---------------------------------------------------------------------------

  /** The paging parameters for a 1-based page of the given size. */
  function PageWindow(page: int, pageSize: int): (p: ListParams)
    requires page >= 1 && pageSize >= 0
    ensures p.limit == pageSize
    ensures p.offset == (page - 1) * pageSize
    ensures p.offset >= 0
  {
    ListParams(limit := pageSize, offset := (page - 1) * pageSize)
  }

  /** The next page starts where this one ends. */
  lemma ConsecutivePages(page: int, pageSize: int)
    requires page >= 1 && pageSize >= 0
    ensures PageWindow(page + 1, pageSize).offset == PageWindow(page, pageSize).offset + pageSize
  {
  }

  /** An earlier page's window ends no later than a later page's window starts. */
  lemma {:induction false} PagesDoNotOverlap(p1: int, p2: int, pageSize: int)
    requires 1 <= p1 < p2 && pageSize >= 0
    ensures PageWindow(p1, pageSize).offset + PageWindow(p1, pageSize).limit <= PageWindow(p2, pageSize).offset
    decreases p2 - p1
  {
    ConsecutivePages(p1, pageSize);
    if p1 + 1 < p2 {
      PagesDoNotOverlap(p1 + 1, p2, pageSize);
    }
  }

  /** The total the listing reports: the metadata's count, or 0 without metadata. */
  function TotalCount(meta: Option<ListMeta>): (n: int)
    ensures meta.Some? ==> n == meta.value.totalCount
    ensures meta.None? ==> n == 0
  {
    match meta
    case Some(m) => m.totalCount
    case None => 0
  }

  // ---------------------------------------------------------------------------
  // The plugin object
  // ---------------------------------------------------------------------------

  /**
   * ClerkUserCenter: the configuration the host supplies and the client built from
   * it on first use. The ghost field `calls` records every provider request made,
   * in order.
   */
  class ClerkUserCenter {
    var config: Option<UserCenterConfig>
    var client: Option<Client>
    ghost var calls: seq<Call>

    /** A client, once set, was built from a usable configuration. */
    ghost predicate Valid()
      reads this
    {
      client.Some? ==> ConfigUsable(config) && client.value == NewClient(config.value)
    }

    /** A plugin with the given configuration and no client yet. */
    constructor (config: Option<UserCenterConfig>)
      ensures Valid()
      ensures this.config == config && client == None && calls == []
    {
      this.config := config;
      client := None;
      calls := [];
    }

    /** ensureClient: build the client if there is none yet. */
    method EnsureClient() returns (err: Option<Error>)
      requires Valid()
      modifies this`client
      ensures Valid()
      ensures InitOutcome(client, err) == InitStep(config, old(client))
    {
      if client.Some? {
        return None;
      }
      if config.None? || config.value.secretKey == "" || config.value.frontendApi == "" {
        return Some(ConfigNotSet);
      }
      client := Some(NewClient(config.value));
      return None;
    }

    /** LoginCallback: resolve the request's session token to the host record. */
    method LoginCallback(api: Provider, query: map<string, string>) returns (r: Result<BasicUserInfo, Error>)
      requires Valid()
      modifies this`client, this`calls
      ensures Valid()
      ensures client == InitStep(config, old(client)).client
      ensures client.None? ==> r == Err(ConfigNotSet) && calls == old(calls)
      ensures client.Some? ==>
                r == LoginFlow(client.value, api, query)
                && calls == old(calls) + LoginCalls(client.value, api, query)
    {
      var err := EnsureClient();
      if err.Some? {
        return Err(err.value);
      }
      var token := SessionToken(query);
      if token == "" {
        return Err(MissingSessionToken);
      }
      calls := calls + [GetSessionByToken(token)];
      var session := api.sessionByToken(client.value, token);
      if session.Err? {
        return Err(InvalidSessionToken(session.error));
      }
      calls := calls + [GetUser(session.value.userId)];
      var user := api.userById(client.value, session.value.userId);
      if user.Err? {
        return Err(UserLookupFailed(user.error));
      }
      return Ok(ToBasicUserInfo(user.value));
    }

    /** SignUpCallback: exactly the login callback. */
    method SignUpCallback(api: Provider, query: map<string, string>) returns (r: Result<BasicUserInfo, Error>)
      requires Valid()
      modifies this`client, this`calls
      ensures Valid()
      ensures client == InitStep(config, old(client)).client
      ensures client.None? ==> r == Err(ConfigNotSet) && calls == old(calls)
      ensures client.Some? ==>
                r == LoginFlow(client.value, api, query)
                && calls == old(calls) + LoginCalls(client.value, api, query)
    {
      r := LoginCallback(api, query);
    }

    /** UserInfo: the host record of the user with the given Clerk ID. */
    method UserInfo(api: Provider, externalId: string) returns (r: Result<BasicUserInfo, Error>)
      requires Valid()
      modifies this`client, this`calls
      ensures Valid()
      ensures client == InitStep(config, old(client)).client
      ensures client.None? ==> r == Err(ConfigNotSet) && calls == old(calls)
      ensures client.Some? ==>
                r == UserLookup(api.userById(client.value, externalId))
                && calls == old(calls) + [GetUser(externalId)]
    {
      var err := EnsureClient();
      if err.Some? {
        return Err(err.value);
      }
      calls := calls + [GetUser(externalId)];
      var user := api.userById(client.value, externalId);
      if user.Err? {
        return Err(UserLookupFailed(user.error));
      }
      return Ok(ToBasicUserInfo(user.value));
    }

    /** UserStatus: every user is reported as normal; the provider is not asked. */
    function UserStatus(externalId: string): (s: Status)
      ensures s == Normal
    {
      Normal
    }

    /**
     * UserList: one page of users, mapped, with the provider's total. Every error
     * comes with no records and a total of 0.
     */
    method UserList(api: Provider, page: int, pageSize: int) returns (records: seq<BasicUserInfo>, total: int, err: Option<Error>)
      requires Valid()
      requires page >= 1 && pageSize >= 0
      modifies this`client, this`calls
      ensures Valid()
      ensures client == InitStep(config, old(client)).client
      ensures client.None? ==> records == [] && total == 0 && err == Some(ConfigNotSet) && calls == old(calls)
      ensures client.Some? ==> calls == old(calls) + [ListUsers(PageWindow(page, pageSize))]
      ensures client.Some? ==>
                var res := api.list(client.value, PageWindow(page, pageSize));
                && (res.Err? ==> records == [] && total == 0 && err == Some(UserListFailed(res.error)))
                && (res.Ok? ==>
                      && err == None
                      && |records| == |res.value.users|
                      && (forall i :: 0 <= i < |records| ==> records[i] == ToBasicUserInfo(res.value.users[i]))
                      && total == TotalCount(res.value.meta))
    {
      var e := EnsureClient();
      if e.Some? {
        return [], 0, e;
      }
      var params := ListParams(limit := pageSize, offset := (page - 1) * pageSize);
      calls := calls + [ListUsers(params)];
      var res := api.list(client.value, params);
      if res.Err? {
        return [], 0, Some(UserListFailed(res.error));
      }
      records := MapUsers(res.value.users);
      total := 0;
      if res.value.meta.Some? {
        total := res.value.meta.value.totalCount;
      }
      err := None;
    }

    /** PersonalBranding: avatar and nickname, or the empty record on any failure. */
    method PersonalBranding(api: Provider, externalId: string) returns (b: Branding)
      requires Valid()
      modifies this`client, this`calls
      ensures Valid()
      ensures client == InitStep(config, old(client)).client
      ensures client.None? ==> b == EmptyBranding && calls == old(calls)
      ensures client.Some? ==>
                b == BrandingFrom(api.userById(client.value, externalId))
                && calls == old(calls) + [GetUser(externalId)]
    {
      var err := EnsureClient();
      if err.Some? {
        return EmptyBranding;
      }
      calls := calls + [GetUser(externalId)];
      var user := api.userById(client.value, externalId);
      if user.Err? {
        return EmptyBranding;
      }
      return Branding(avatarUrl := user.value.imageUrl, nickname := user.value.username);
    }
  }

  // ---------------------------------------------------------------------------
  // Two end-to-end scenarios, concluded from the contracts above alone
  // ---------------------------------------------------------------------------

  /** A provider that knows one session token and one user, and lists ten users of 25. */
  function ScenarioProvider(): Provider {
    var ada := User("user_1", "ada", "Ada", "", Some(EmailAddress("ada@x.com")), "");
    Provider(
      sessionByToken := (c: Client, token: string) =>
        if token == "tok_valid" then Ok(Session("user_1")) else Err(SdkError("not found")),
      userById := (c: Client, id: string) =>
        if id == "user_1" then Ok(ada) else Err(SdkError("not found")),
      list := (c: Client, p: ListParams) =>
        Ok(UserPage(seq(if p.limit < 0 then 0 else p.limit, _ => ada), Some(ListMeta(25)))))
  }

  method ScenarioLoginAndList() {
    var center := new ClerkUserCenter(Some(UserCenterConfig("pk", "sk", "https://api.clerk.dev")));
    var api := ScenarioProvider();
    var r := center.LoginCallback(api, map[SessionTokenKey := "tok_valid"]);
    assert center.client.Some?;
    assert r == Ok(BasicUserInfo("user_1", "ada", "Ada", "ada@x.com", "", ["member"]));
    assert center.calls == [GetSessionByToken("tok_valid"), GetUser("user_1")];

    var missing := center.SignUpCallback(api, map[]);
    assert missing == Err(MissingSessionToken);

    var records, total, err := center.UserList(api, 2, 10);
    assert PageWindow(2, 10) == ListParams(10, 10);
    assert err == None && |records| == 10 && total == 25;
  }
}
