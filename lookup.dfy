/** The decision logic that all ten lookup methods of the facade share, as values:
    how each request picks its miss-cache key and its paging, and what one lookup
    does to the facade's state. */
module LookupLogic {
  import opened TwitterTypes
  import opened Decimal
  import opened MissCaches

  const DefaultPage: int32 := 1
  const DefaultCount: int32 := 20

  /** The page sent upstream, as the code writes it: the default when the host
      says the parameter IS set, the parameter itself otherwise. */
  function PageSent(isSet: int32 -> bool, pageParam: int32): (page: int32)
    ensures page == pageParam || page == DefaultPage
    ensures pageParam == DefaultPage ==> page == DefaultPage
  {
    if !isSet(pageParam) then pageParam else DefaultPage
  }

  /** The page size sent upstream, selected the same way as the page. */
  function CountSent(isSet: int32 -> bool, countParam: int32): (count: int32)
    ensures count == countParam || count == DefaultCount
    ensures countParam == DefaultCount ==> count == DefaultCount
  {
    if !isSet(countParam) then countParam else DefaultCount
  }

  /** The page the doc comments promise: the default only when the parameter
      is empty. */
  function DocumentedPage(isSet: int32 -> bool, pageParam: int32): int32 {
    if isSet(pageParam) then pageParam else DefaultPage
  }

  function DocumentedCount(isSet: int32 -> bool, countParam: int32): int32 {
    if isSet(countParam) then countParam else DefaultCount
  }

  /** The page sent agrees with the documented page exactly when the parameter
      already equals the default: for every other value, set or not, the
      selection is the reverse of the documented one. */
  lemma PageAgreesWithDocOnlyAtDefault(isSet: int32 -> bool, pageParam: int32)
    ensures PageSent(isSet, pageParam) == DocumentedPage(isSet, pageParam) <==> pageParam == DefaultPage
    ensures isSet(pageParam) ==> PageSent(isSet, pageParam) == DefaultPage
    ensures !isSet(pageParam) ==> PageSent(isSet, pageParam) == pageParam
  {
  }

  lemma CountAgreesWithDocOnlyAtDefault(isSet: int32 -> bool, countParam: int32)
    ensures CountSent(isSet, countParam) == DocumentedCount(isSet, countParam) <==> countParam == DefaultCount
    ensures isSet(countParam) ==> CountSent(isSet, countParam) == DefaultCount
    ensures !isSet(countParam) ==> CountSent(isSet, countParam) == countParam
  {
  }

  /** The user a request is about: a screen name or a numeric id. For the list
      calls it is the list's owner. */
  datatype Subject = ScreenName(name: string) | UserId(id: int64)

  function SubjectOf(req: Request): Subject {
    match req
    case TimelineByName(name, _) => ScreenName(name)
    case TimelineById(id, _) => UserId(id)
    case ShowUserByName(name) => ScreenName(name)
    case ShowUserById(id) => UserId(id)
    case FollowersByName(name, _) => ScreenName(name)
    case FollowersById(id, _) => UserId(id)
    case ListMembersByName(owner, _, _) => ScreenName(owner)
    case ListMembersById(owner, _, _) => UserId(owner)
    case ListStatusesByName(owner, _, _) => ScreenName(owner)
    case ListStatusesById(owner, _, _) => UserId(owner)
  }

  /** The cache key of a user: the screen name itself, or `String.valueOf` of
      the id. Both kinds share one keyspace. */
  function SubjectKey(subject: Subject): string {
    match subject
    case ScreenName(name) => name
    case UserId(id) => LongToString(id)
  }

  /** The miss-cache key a request is checked and poisoned under, as each of
      the ten methods computes it: it depends on the user the request is about
      and on nothing else, so the slug, the paging and the cursor never enter a
      key. */
  function MissKey(req: Request): (key: string)
    ensures key == SubjectKey(SubjectOf(req))
  {
    match req
    case TimelineByName(name, _) => name
    case TimelineById(id, _) => LongToString(id)
    case ShowUserByName(name) => name
    case ShowUserById(id) => LongToString(id)
    case FollowersByName(name, _) => name
    case FollowersById(id, _) => LongToString(id)
    case ListMembersByName(owner, _, _) => owner
    case ListMembersById(owner, _, _) => LongToString(owner)
    case ListStatusesByName(owner, _, _) => owner
    case ListStatusesById(owner, _, _) => LongToString(owner)
  }

  /** Every by-id request is keyed by the decimal text of its id, so by-id keys
      are exactly the texts `Long.parseLong` reads back to that id. */
  lemma ByIdKeyIsDecimalText(req: Request)
    requires SubjectOf(req).UserId?
    ensures IsLongText(MissKey(req))
    ensures TextValue(MissKey(req)) == SubjectOf(req).id as int
  {
    LongToStringRoundTrip(SubjectOf(req).id);
  }

  /** What the facade's lookups can see and change: whether `init` completed,
      the shared miss cache, and (for the proofs) every request sent upstream. */
  datatype State = State(inited: bool, misses: map<string, bool>, calls: seq<Request>)

  /** One lookup: the value returned (None for Java's null) and the state after.
      Whatever happens, a lookup keeps `inited`, changes no other key's cache
      answer, never clears a hit, sends at most one request, and returns
      nothing but the upstream's own value. */
  function Step<R>(s: State, req: Request, reply: Upstream<R>): (r: (Option<R>, State))
    ensures r.1.inited == s.inited
    ensures forall k :: k != MissKey(req) ==> Hit(r.1.misses, k) == Hit(s.misses, k)
    ensures forall k :: Hit(s.misses, k) ==> Hit(r.1.misses, k)
    ensures r.1.calls == s.calls || r.1.calls == s.calls + [req]
    ensures r.0.Some? ==> reply == Ok(r.0.value)
  {
    if !s.inited then (None, s)
    else if Hit(s.misses, MissKey(req)) then (None, s)
    else
      var sent := s.(calls := s.calls + [req]);
      match reply
      case Ok(v) => (Some(v), sent)
      case Err(code) =>
        if code == UserNotFound then (None, sent.(misses := s.misses[MissKey(req) := true]))
        else (None, sent)
  }

  /** A sequence of lookups, each paired with what the upstream would answer. */
  function Run<R>(s: State, steps: seq<(Request, Upstream<R>)>): State
    decreases |steps|
  {
    if steps == [] then s else Run(Step(s, steps[0].0, steps[0].1).1, steps[1..])
  }

  /** Before `init` completes a lookup returns null and touches neither the cache
      nor the upstream. */
  lemma NotInitedIsInert<R>(s: State, req: Request, reply: Upstream<R>)
    requires !s.inited
    ensures Step(s, req, reply) == (None, s)
  {
  }

  /** A key already in the cache short-circuits: null, no upstream call, cache
      unchanged. */
  lemma KnownMissShortCircuits<R>(s: State, req: Request, reply: Upstream<R>)
    requires Hit(s.misses, MissKey(req))
    ensures Step(s, req, reply) == (None, s)
  {
  }

  /** An upstream "user not found" is the one outcome that writes the cache: it
      stores exactly the request's key, sends one request and returns null. */
  lemma NotFoundPoisonsKey<R>(s: State, req: Request)
    requires s.inited && !Hit(s.misses, MissKey(req))
    ensures Step<R>(s, req, Err(UserNotFound)).0 == None
    ensures Step<R>(s, req, Err(UserNotFound)).1
         == State(true, s.misses[MissKey(req) := true], s.calls + [req])
  {
  }

  /** Every other outcome of an upstream call leaves the cache as it was, sends
      one request and returns the upstream value unchanged or null. */
  lemma OtherOutcomesLeaveCache<R>(s: State, req: Request, reply: Upstream<R>)
    requires s.inited && !Hit(s.misses, MissKey(req))
    requires reply != Err(UserNotFound)
    ensures Step(s, req, reply).1 == s.(calls := s.calls + [req])
    ensures Step(s, req, reply).0 == if reply.Ok? then Some(reply.value) else None
  {
  }

  /** After a "user not found", the next lookup of the same key, through any of
      the ten methods, short-circuits: the upstream is asked once over both. */
  lemma PoisonThenShortCircuit<R, U>(s: State, first: Request, second: Request, reply: Upstream<U>)
    requires s.inited && !Hit(s.misses, MissKey(first))
    requires MissKey(second) == MissKey(first)
    ensures var s1 := Step<R>(s, first, Err(UserNotFound)).1;
            Step(s1, second, reply) == (None, s1) && s1.calls == s.calls + [first]
  {
  }

  /** After any other failure the next lookup of the same key asks the upstream
      again. */
  lemma OtherErrorRetries<R, U>(s: State, first: Request, code: int32, second: Request, reply: Upstream<U>)
    requires s.inited && !Hit(s.misses, MissKey(first))
    requires code != UserNotFound
    requires MissKey(second) == MissKey(first)
    ensures var s1 := Step<R>(s, first, Err(code)).1;
            Step(s1, second, reply).1.calls == s.calls + [first, second]
  {
  }

  /** The slug is not part of the key: a not-found on one of an owner's lists
      suppresses every later list call for that owner. */
  lemma OwnerMissCoversEverySlug<R, U>(s: State, owner: string, slug: string, other: string, paging: Paging, reply: Upstream<U>)
    requires s.inited && !Hit(s.misses, owner)
    ensures var s1 := Step<R>(s, ListMembersByName(owner, slug, FirstCursor), Err(UserNotFound)).1;
            Step(s1, ListStatusesByName(owner, other, paging), reply) == (None, s1)
  {
  }

  /** Ids and screen names share one keyspace: a not-found for id 123 also
      suppresses the screen name "123". */
  lemma IdMissSuppressesScreenName<R, U>(s: State, reply: Upstream<U>)
    requires s.inited && !Hit(s.misses, "123")
    ensures var s1 := Step<R>(s, ShowUserById(123), Err(UserNotFound)).1;
            Step(s1, ShowUserByName("123"), reply) == (None, s1)
  {
    LongToString123();
  }

  /** Ids do not collide with each other: a not-found for one id never
      suppresses a different id. */
  lemma IdMissSparesOtherIds<R, U>(s: State, a: int64, b: int64, reply: Upstream<U>)
    requires s.inited && !Hit(s.misses, LongToString(a)) && !Hit(s.misses, LongToString(b))
    requires a != b
    ensures var s1 := Step<R>(s, ShowUserById(a), Err(UserNotFound)).1;
            Step(s1, ShowUserById(b), reply).1.calls == s.calls + [ShowUserById(a), ShowUserById(b)]
  {
    LongToStringInjective(a, b);
  }

  /** Any run of lookups only appends to the upstream log and keeps `inited`. */
  lemma {:induction false} RunExtendsCalls<R>(s: State, steps: seq<(Request, Upstream<R>)>)
    ensures s.calls <= Run(s, steps).calls
    ensures Run(s, steps).inited == s.inited
    decreases |steps|
  {
    if steps != [] {
      RunExtendsCalls(Step(s, steps[0].0, steps[0].1).1, steps[1..]);
    }
  }

  /** The facade's own writes never clear a miss, so however many lookups follow,
      a key that is a hit is never sent upstream again. */
  lemma {:induction false} RunNeverSendsKnownMiss<R>(s: State, steps: seq<(Request, Upstream<R>)>, k: string)
    requires Hit(s.misses, k)
    ensures Hit(Run(s, steps).misses, k)
    ensures forall i :: |s.calls| <= i < |Run(s, steps).calls| ==> MissKey(Run(s, steps).calls[i]) != k
    decreases |steps|
  {
    if steps != [] {
      var s1 := Step(s, steps[0].0, steps[0].1).1;
      RunNeverSendsKnownMiss(s1, steps[1..], k);
      RunExtendsCalls(s1, steps[1..]);
      var t := Run(s, steps);
      assert t == Run(s1, steps[1..]);
      forall i | |s.calls| <= i < |t.calls| ensures MissKey(t.calls[i]) != k {
        if i < |s1.calls| {
          assert s1.calls == s.calls + [steps[0].0];
          assert t.calls[i] == s1.calls[i] == steps[0].0;
        }
      }
    }
  }
}
