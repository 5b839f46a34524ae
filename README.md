# Clerk user center — a Dafny model

This project models the Clerk user-center plugin for Apache Answer. The plugin lets
the host application sign users in through Clerk and read their profiles. It has
three parts, and the model keeps all three:

- It maps a Clerk user to the host's `UserCenterBasicUserInfo` record. The e-mail
  falls back to "" when there is no primary address. The display name is the first
  name, plus a space and the last name when the last name is not empty. The roles
  are always `["member"]`. The ID, username and image URL are copied unchanged.
- It builds its Clerk client lazily (`ensureClient`). The client goes from unset to
  set, and never back. It is only set when the configuration is present and has a
  secret key and a frontend API URL.
- It routes each host operation through at most two provider requests, with a fixed
  order of error checks. The operations are the login and sign-up callbacks, user
  lookup, user listing, user status and personal branding.

Files:

- `wrappers.dfy` — `Option` (a Go nil pointer) and `Result` (a Go `(value, error)` pair).
- `config.dfy` — the three-string `UserCenterConfig` of `clerk-usercenter/config.go`.
- `clerk_api.dfy` — the Clerk SDK as an abstract provider. A `Provider` value holds
  three total functions: session by token, user by ID, and user listing. Each takes
  the `Client` handle and returns a result or an `SdkError`. `Call` names one
  outbound request.
- `user_center.dfy` — the host records, the error kinds, the mapping, the
  initialisation step, the pure login flow, the page arithmetic, and the class
  `ClerkUserCenter`. The class has the fields `config` and `client`. It also has a
  ghost field `calls` that records every provider request in order, so the
  contracts can say which lookups happen before each error is returned.

Each class method is specified against the pure functions in the same module: its
new `client` is `InitStep(config, old(client))`, and its result and the calls it
appends are given by those functions. The functions' own contracts and the lemmas
next to them state the properties. `ScenarioLoginAndList` is a client of the class.
From the contracts alone it concludes two end-to-end cases. First, the token
`tok_valid` with the user Ada and an empty last name gives display name `Ada`.
Second, page 2 with size 10 asks for offset 10 and limit 10, and returns ten records
and a total of 25.

## Model

| member | source | states |
|---|---|---|
| `UserCenter.PrimaryEmail` | clerk-usercenter/clerk_user_center.go:88-91 | the e-mail is the primary address's `EmailAddress` when one exists, and "" otherwise; mapping never fails on a missing address |
| `UserCenter.DisplayName` | clerk-usercenter/clerk_user_center.go:92-95 | the name starts with the first name; it equals the first name exactly when the last name is empty; otherwise a space and then the last name follow |
| `UserCenter.DisplayNameInjective` | clerk-usercenter/clerk_user_center.go:92-95 | when the first names contain no space, equal display names come from equal (first, last) pairs |
| `UserCenter.ToBasicUserInfo` | clerk-usercenter/clerk_user_center.go:96-103 | `ExternalID`, `Username` and `AvatarURL` are copied from `ID`, `Username` and `ImageURL`; the display name and e-mail follow the rules above; roles are exactly `["member"]` |
| `UserCenter.UserLookup` | clerk-usercenter/clerk_user_center.go:112-131 | the user-lookup step succeeds exactly when the provider lookup does, yields the mapped user, and otherwise wraps the provider error as a lookup error |
| `UserCenter.BrandingFrom` | clerk-usercenter/clerk_user_center.go:199-206 | a failed lookup gives the empty branding; a found user gives avatar = `ImageURL` and nickname = `Username` |
| `UserCenter.MapUsers` | clerk-usercenter/clerk_user_center.go:159-177 | the listing loop yields one mapped record per provider user, in the same order, so the lengths are equal |
| `UserCenter.NewClient` | clerk-usercenter/clerk_user_center.go:63-66 | the client is built from the secret key and the frontend API URL |
| `UserCenter.InitStep` | clerk-usercenter/clerk_user_center.go:56-68 | a set client stays and the step succeeds; an absent config, an empty secret key or an empty frontend API is a config error and leaves the client unset; otherwise the client is set; the step succeeds exactly when a client is set afterwards |
| `UserCenter.InitStepIdempotent` | clerk-usercenter/clerk_user_center.go:57-59 | a second initialisation attempt leaves the outcome of the first unchanged |
| `UserCenter.InitIgnoresPublishableKey` | clerk-usercenter/clerk_user_center.go:60-66 | configs that differ only in `PublishableKey` give the same initialisation outcome |
| `UserCenter.SessionToken` | clerk-usercenter/clerk_user_center.go:75 | the token is the `session_token` query value, or "" when the key is absent |
| `UserCenter.LoginFlow` | clerk-usercenter/clerk_user_center.go:75-104 | an empty or absent token is the missing-parameter error, and only then; a rejected token is the invalid-session error with the provider's cause, and only then; otherwise the result is the user lookup of the session's `UserID` |
| `UserCenter.LoginCalls` | clerk-usercenter/clerk_user_center.go:76-83 | no provider call without a token; the first call is the session lookup for the token; a second call happens exactly when the session was found, and it looks up the session's `UserID` |
| `UserCenter.LoginCallsAgree` | clerk-usercenter/clerk_user_center.go:76-86 | no call made means the token was missing; one call means the session was rejected; two calls means the user lookup was reached |
| `UserCenter.PageWindow` | clerk-usercenter/clerk_user_center.go:152-155 | the list request has `Limit = pageSize` and `Offset = (page-1)*pageSize`, and the offset is never negative |
| `UserCenter.ConsecutivePages` | clerk-usercenter/clerk_user_center.go:153-154 | page `p+1` starts exactly where page `p` ends |
| `UserCenter.PagesDoNotOverlap` | clerk-usercenter/clerk_user_center.go:153-154 | an earlier page's window ends no later than a later page's window starts |
| `UserCenter.TotalCount` | clerk-usercenter/clerk_user_center.go:178-181 | the total is the metadata's `TotalCount`, or 0 when the metadata is absent |
| `UserCenter.ClerkUserCenter.constructor` | clerk-usercenter/clerk_user_center.go:12-15 | a new plugin holds the given config and no client, and has made no provider call |
| `UserCenter.ClerkUserCenter.EnsureClient` | clerk-usercenter/clerk_user_center.go:56-68 | the new client and the returned error are exactly `InitStep` of the config and the old client; only the client field changes |
| `UserCenter.ClerkUserCenter.LoginCallback` | clerk-usercenter/clerk_user_center.go:71-105 | an initialisation error comes first, with no provider call; after that the result is `LoginFlow` and the calls appended are `LoginCalls` |
| `UserCenter.ClerkUserCenter.SignUpCallback` | clerk-usercenter/clerk_user_center.go:143-145 | the same contract as the login callback: the same result, client and calls |
| `UserCenter.ClerkUserCenter.UserInfo` | clerk-usercenter/clerk_user_center.go:108-132 | an initialisation error comes first, with no call; otherwise one lookup of the given ID, and its `UserLookup` result |
| `UserCenter.ClerkUserCenter.UserStatus` | clerk-usercenter/clerk_user_center.go:135-140 | the status is always Normal, whatever the ID |
| `UserCenter.ClerkUserCenter.UserList` | clerk-usercenter/clerk_user_center.go:148-183 | an initialisation error gives no records, 0 and the error, with no call; otherwise one list call with `PageWindow(page, pageSize)`; a provider failure gives no records, 0 and a list error; success gives the mapped users in the same order with the same count, `TotalCount` of the metadata, and no error |
| `UserCenter.ClerkUserCenter.PersonalBranding` | clerk-usercenter/clerk_user_center.go:195-207 | never returns an error: an initialisation failure gives the empty branding with no call; otherwise one lookup of the ID and `BrandingFrom` of its result |

## Left out

- The Clerk SDK, the network, `context.Background` and the Gin request context. The
  SDK is the abstract `Provider` parameter, and the request is a map from query keys
  to strings. `clerk.NewClient` is the constructor `Client(secretKey, frontendApi)`.
- The `init()` self-registration with the plugin registry (lines 18-20). It is a
  global side effect of loading the package.
- The static metadata: `Info`, `Description` with its SVG icon, `ControlCenterItems`,
  `UserSettings` and the translator names (lines 23-53 and 186-192). They are
  constant data with no behaviour to state.
- The error message text and the `%w` wrapping. Each error is a constructor of
  `Error`, and a provider error is kept as its `cause`.
- Concurrent calls and the unguarded race on the `Client` field. Calls are modelled
  one at a time.
- The `int64` conversions of page size and offset, and the `int` conversion of
  `TotalCount`. Integers are unbounded.
- `UserList` requires `page >= 1` and `pageSize >= 0`. The code does not check
  these; the model states them as preconditions instead of modelling negative paging.
- The commented-out ban check in `UserStatus` (lines 137-138). It is not
  implemented behaviour.
- The JSON and form tags of `UserCenterConfig`. Only its three string fields are
  modelled.
- Changes to the `Config` field from outside this file. No code in this file
  assigns it. The invariant `Valid()` (a set client was built from the current
  config) assumes the host does not replace the config after the client exists.
- A nil element in the provider's user list, or a successful session lookup with a
  nil session. The model's provider always yields a value or an error.
