# TwitterTool facade, modelled in Dafny

This project models `TwitterTool`, the dotCMS view tool (mapped to `$twitter`) that puts
twitter4j behind a failure-tolerant facade. The tool has two kinds of state:

- its own `inited` flag and client handle, which `init` sets once the default host,
  the app secrets and the client construction have all succeeded;
- the process-wide miss cache, shared with every other tool. It records screen names
  and ids for which the upstream answered "user not found" (error code 34).

Each of the ten lookup methods follows the same four steps:
1. Without `init`, return null.
2. If the cache already holds the key, return null.
3. Otherwise ask the upstream. On success, return its value unchanged.
4. On failure return null. Only code 34 writes `put(key, true)` to the cache.

Modules, leaves first:

- `TwitterTypes` (`types.dfy`): Java `int`/`long` as `int32`/`int64`, null as `Option.None`.
  It also holds the upstream reply `Upstream` (`Ok(value)` or `Err(code)`), twitter4j's
  `Paging`, the ten upstream calls as `Request`, and the constants 34 and cursor -1.
- `Decimal` (`decimal.dfy`): `String.valueOf(long)`, which makes the cache key of every
  by-id lookup. It shows the key reads back to the id, so distinct ids never share a key.
- `MissCaches` (`miss_cache.dfy`): the cache as the facade uses it. It is a class over a
  `map<string, bool>` with `Get` and `Put`.
- `LookupLogic` (`lookup.dfy`): the specification of a lookup, as values.
  - `MissKey`: which key each request uses.
  - `PageSent`/`CountSent`: which paging it sends.
  - `Step`: what one lookup returns and does to the state (inited flag, cache, log of
    upstream requests).
  - `Run`: a sequence of lookups.
  - The lemmas about these.
- `Startup` (`startup.dfy`): what `init` reads and decides.
  - `ConfigOf`: the five secrets turned into a client configuration.
  - `PathOf`: which of the four exits `init` takes.
- `TwitterTools` (`twitter_tool.dfy`): the class `TwitterTool` with `Init`, `GetTwitter`,
  the shared `Lookup` and the ten overloads.
  - Dafny has no overloading, so each overload gets a `ByName`/`ById` suffix.
  - Every lookup method is proved to produce exactly the `Step` of the request it builds.
  - A ghost log `calls` records every request sent upstream; its length counts the calls.
  - A ghost counter `destroys` records each release of the app secrets.

The collaborators become parameters of the methods:
- the upstream's answer to a call is `reply`;
- the host lookup is `defaultHost` (None when it throws);
- the secrets store is `secretsOf`;
- whether the client factory succeeds is `builds`;
- `UtilMethods.isSet` is `isSet`, a function argument about which nothing is assumed.

Paging is modelled as the code writes it (`TwitterTool.java:121-122`, and again at
165-166, 408-409, 448-449):
- a parameter for which `isSet` holds is replaced by the default (1 or 20);
- an unset parameter is sent as is.

The doc comment at 112-113 promises the reverse. `PageAgreesWithDocOnlyAtDefault` and
`CountAgreesWithDocOnlyAtDefault` prove that the two agree only when the parameter
already equals the default.

## Model

| member | source | states |
|---|---|---|
| `Decimal.NatToDigits` | src/main/java/com/aquent/viewtools/TwitterTool.java:169 | the digits of a magnitude are non-empty, all decimal digits, with no leading zero unless the value is 0 |
| `Decimal.LongToString` | src/main/java/com/aquent/viewtools/TwitterTool.java:169 | the key of an id is non-empty, starts with '-' exactly for a negative id, and is otherwise digits |
| `Decimal.LongToStringRoundTrip` | src/main/java/com/aquent/viewtools/TwitterTool.java:169 | the key of every id is decimal text that reads back to that id |
| `Decimal.LongToStringInjective` | src/main/java/com/aquent/viewtools/TwitterTool.java:181 | two ids with the same cache key are the same id |
| `Decimal.LongToString123` | src/main/java/com/aquent/viewtools/TwitterTool.java:235 | the key of id 123 is the string "123", the same as the screen name "123" |
| `LookupLogic.PageSent` | src/main/java/com/aquent/viewtools/TwitterTool.java:121 | the page sent is the caller's page or 1, and a page of 1 is sent as 1 either way |
| `LookupLogic.CountSent` | src/main/java/com/aquent/viewtools/TwitterTool.java:122 | the count sent is the caller's count or 20, and a count of 20 is sent as 20 either way |
| `LookupLogic.PageAgreesWithDocOnlyAtDefault` | src/main/java/com/aquent/viewtools/TwitterTool.java:112-121 | a set page is replaced by 1, an unset page is sent as is; this agrees with the documented defaulting only when the page is already 1 |
| `LookupLogic.CountAgreesWithDocOnlyAtDefault` | src/main/java/com/aquent/viewtools/TwitterTool.java:113-122 | a set count is replaced by 20, an unset count is sent as is; this agrees with the documented defaulting only when the count is already 20 |
| `LookupLogic.MissKey` | src/main/java/com/aquent/viewtools/TwitterTool.java:119-472 | the key each of the ten methods uses for both get and put depends only on the user the request is about: the screen name, `String.valueOf` of the id, or the list owner; slug, paging and cursor never enter it |
| `LookupLogic.ByIdKeyIsDecimalText` | src/main/java/com/aquent/viewtools/TwitterTool.java:169 | every by-id request is checked and poisoned under decimal text that denotes its id |
| `LookupLogic.Step` | src/main/java/com/aquent/viewtools/TwitterTool.java:119-147 | one lookup keeps inited, changes no other key's cache answer, never clears a hit, sends at most one request, and returns nothing but the upstream's own value |
| `LookupLogic.NotInitedIsInert` | src/main/java/com/aquent/viewtools/TwitterTool.java:144-147 | before init a lookup returns null and leaves cache and upstream untouched |
| `LookupLogic.KnownMissShortCircuits` | src/main/java/com/aquent/viewtools/TwitterTool.java:124-130 | a key already in the cache gives null with no upstream call and no cache change |
| `LookupLogic.NotFoundPoisonsKey` | src/main/java/com/aquent/viewtools/TwitterTool.java:135-142 | error 34 stores exactly the request's key as true, logs one upstream call, returns null |
| `LookupLogic.OtherOutcomesLeaveCache` | src/main/java/com/aquent/viewtools/TwitterTool.java:132-143 | success returns the upstream value unchanged and any other error returns null; both leave the cache as it was and log one call |
| `LookupLogic.PoisonThenShortCircuit` | src/main/java/com/aquent/viewtools/TwitterTool.java:124-142 | after error 34, the next lookup of the same key through any method short-circuits; the upstream is called once across both |
| `LookupLogic.OtherErrorRetries` | src/main/java/com/aquent/viewtools/TwitterTool.java:135-142 | after an error other than 34, the next lookup of the same key calls the upstream again |
| `LookupLogic.OwnerMissCoversEverySlug` | src/main/java/com/aquent/viewtools/TwitterTool.java:335-347 | the list calls key on the owner alone; a miss found through one slug suppresses the owner's other lists |
| `LookupLogic.IdMissSuppressesScreenName` | src/main/java/com/aquent/viewtools/TwitterTool.java:199-255 | ids and screen names share one keyspace: a miss for id 123 suppresses the screen name "123" |
| `LookupLogic.IdMissSparesOtherIds` | src/main/java/com/aquent/viewtools/TwitterTool.java:232-255 | a miss for one id never suppresses a different id |
| `LookupLogic.RunExtendsCalls` | src/main/java/com/aquent/viewtools/TwitterTool.java:116-147 | any run of lookups only appends to the upstream log and never changes inited |
| `LookupLogic.RunNeverSendsKnownMiss` | src/main/java/com/aquent/viewtools/TwitterTool.java:124-143 | the facade itself never clears a miss, so no later lookup in any run sends a request with that key upstream |
| `Startup.ConfigReadsOnlyItsKeys` | src/main/java/com/aquent/viewtools/TwitterTool.java:62-66 | the client configuration depends on the five named secrets only |
| `Startup.ConfigOf` | src/main/java/com/aquent/viewtools/TwitterTool.java:62-66 | each of the five fields is read on its own: a missing or unreadable secret gives that field its default (debug off, null credential), a present one gives its value |
| `Startup.PathOf` | src/main/java/com/aquent/viewtools/TwitterTool.java:43-60 | init stops at the host lookup exactly when it throws, and at the secrets exactly when the host is found but no secrets are present |
| `Startup.StartsExactlyWhenAllSucceed` | src/main/java/com/aquent/viewtools/TwitterTool.java:43-88 | init completes exactly when the host is found, the secrets are present and the client builds from them |
| `Startup.ReleasesExactlyWhenObtained` | src/main/java/com/aquent/viewtools/TwitterTool.java:56-86 | the secrets are released on both the success and the failure path of client construction, and only when they were obtained |
| `MissCaches.MissCache.constructor` | src/main/java/com/aquent/viewtools/TwitterTool.java:125 | a new cache answers get with false for every key |
| `MissCaches.MissCache.Get` | src/main/java/com/aquent/viewtools/TwitterTool.java:125 | get answers true exactly for a key stored as true |
| `MissCaches.MissCache.Put` | src/main/java/com/aquent/viewtools/TwitterTool.java:140 | put stores the value under the key and changes no other entry |
| `TwitterTools.TwitterTool.constructor` | src/main/java/com/aquent/viewtools/TwitterTool.java:35-36 | a new tool is not inited, has no client, has sent nothing upstream |
| `TwitterTools.TwitterTool.Init` | src/main/java/com/aquent/viewtools/TwitterTool.java:38-90 | inited becomes true only on a completed start and is never reset; the client is the one built from the secrets; secrets are released exactly when obtained |
| `TwitterTools.TwitterTool.GetTwitter` | src/main/java/com/aquent/viewtools/TwitterTool.java:97-104 | a client is returned exactly when inited, and it is the stored one |
| `TwitterTools.TwitterTool.Lookup` | src/main/java/com/aquent/viewtools/TwitterTool.java:116-147 | the shared guard, cache check, upstream call and error-34 write have exactly the effect of one Step |
| `TwitterTools.TwitterTool.GetUserTimelineByName` | src/main/java/com/aquent/viewtools/TwitterTool.java:116-148 | one Step with key screenName and paging as written |
| `TwitterTools.TwitterTool.GetUserTimelineById` | src/main/java/com/aquent/viewtools/TwitterTool.java:160-189 | one Step with key String.valueOf(userId) and paging as written |
| `TwitterTools.TwitterTool.ShowUserByName` | src/main/java/com/aquent/viewtools/TwitterTool.java:199-222 | one Step with key screenName |
| `TwitterTools.TwitterTool.ShowUserById` | src/main/java/com/aquent/viewtools/TwitterTool.java:232-255 | one Step with key String.valueOf(userId) |
| `TwitterTools.TwitterTool.GetFollowersListByName` | src/main/java/com/aquent/viewtools/TwitterTool.java:265-288 | one Step with key screenName and cursor -1 |
| `TwitterTools.TwitterTool.GetFollowersListById` | src/main/java/com/aquent/viewtools/TwitterTool.java:298-321 | one Step with key String.valueOf(userId) and cursor -1 |
| `TwitterTools.TwitterTool.GetUserListMembersByName` | src/main/java/com/aquent/viewtools/TwitterTool.java:332-355 | one Step with key the owner's screen name (not the slug) and cursor -1 |
| `TwitterTools.TwitterTool.GetUserListMembersById` | src/main/java/com/aquent/viewtools/TwitterTool.java:366-389 | one Step with key String.valueOf(ownerId) and cursor -1 |
| `TwitterTools.TwitterTool.GetUserListStatusesByName` | src/main/java/com/aquent/viewtools/TwitterTool.java:402-432 | one Step with key the owner's screen name and paging as written |
| `TwitterTools.TwitterTool.GetUserListStatusesById` | src/main/java/com/aquent/viewtools/TwitterTool.java:445-472 | one Step with key String.valueOf(ownerId) and paging as written |
| `TwitterTools.SharedCacheAcrossTools` | src/main/java/com/aquent/viewtools/TwitterTool.java:232-288 | two tools on one shared cache: a not-found seen by one makes the other's lookup of the same key null without an upstream call |

## Left out

- The miss cache's own implementation is not part of this model. That covers its TTL
  expiry, its capacity eviction and its thread safety. The model holds only the facade's
  own reads and writes. `RunNeverSendsKnownMiss` is about the facade's writes alone;
  the cache may still expire entries.
- Concurrency: lookups from parallel render threads and calls to `init` from several
  threads are not modelled. Each call is one atomic step.
- String arguments are never null in the model. Java `String` parameters become Dafny
  `string` values, so a null `screenName`, `ownerScreenName` or `slug` passed by a template
  is not modelled as it reaches the cache's `get`/`put` and twitter4j.
- Paging values are not validated. twitter4j's `Paging` constructor is not part of this
  model; it may reject a page or count below 1 with an `IllegalArgumentException`. The
  source's catch takes only `TwitterException`, so such an exception would propagate out
  of the lookup. Here any `int32` paging is logged as a request and answered by `reply`.
- Logging through `Logger` is dropped; it has no effect on the state or the results.
- twitter4j is reduced to the reply of each call (`Upstream`) and to whether the factory
  builds a client. Response contents and the client's own work are not modelled.
  The response types become a type parameter that is returned unchanged.
- Only `TwitterException` is modelled as a failure. Any other runtime exception from the
  upstream would propagate out of the Java method; here it cannot occur.
- `TwitterTools.TwitterTool.Init`: the host lookup returning null without throwing is not
  modelled. In the source that path would throw a NullPointerException at line 50.
  `defaultHost` is either a host or None, for a lookup that throws.
- The dotCMS host and secrets APIs and `Try` become the `defaultHost` and `secretsOf`
  parameters. `UtilMethods.isSet` becomes the `isSet` parameter, with no meaning assumed.
- `TwitterToolActivator.java` (bundle start and stop, view-tool registration, copying and
  deleting the app YAML file) is host lifecycle and file I/O; it is not part of this model.
- `AppKeys.java` is used only for its string constants, which appear in `Startup`.
