/** The view tool itself: the `inited` flag and the client handle that `init`
    sets, `getTwitter`, and the ten lookup methods over the shared miss cache. */
module TwitterTools {
  import opened TwitterTypes
  import opened Decimal
  import opened MissCaches
  import opened LookupLogic
  import opened Startup

  class TwitterTool {
    var twitter: Option<Client>
    var inited: bool
    /** The process-wide miss cache; every tool may share the same one. */
    const cache: MissCache
    /** Every request this tool has sent upstream, oldest first. */
    ghost var calls: seq<Request>
    /** How many times the app secrets have been released. */
    ghost var destroys: nat

    ghost predicate Valid()
      reads this
    {
      inited ==> twitter.Some?
    }

    /** The part of the tool's state that the lookups read and write. */
    ghost function Facade(): State
      reads this, cache
    {
      State(inited, cache.entries, calls)
    }

    constructor (cache: MissCache)
      ensures Valid() && this.cache == cache
      ensures !inited && twitter == None && calls == [] && destroys == 0
    {
      this.cache := cache;
      twitter := None;
      inited := false;
      calls := [];
      destroys := 0;
    }

    /** `init`: find the default host, fetch its secrets, build the client; any
        failure returns early and leaves `inited` as it was. */
    method Init(defaultHost: Option<Host>, secretsOf: (string, Host) -> Option<AppSecrets>, builds: Config -> bool)
      requires Valid()
      modifies this`twitter, this`inited, this`destroys
      ensures Valid()
      ensures var path := PathOf(defaultHost, secretsOf, builds);
        && inited == (old(inited) || path == Started)
        && twitter == (if path == Started
                       then Some(Client(ConfigOf(secretsOf(AppKey, defaultHost.value).value)))
                       else old(twitter))
        && destroys == old(destroys) + (if ReleasesSecrets(path) then 1 else 0)
    {
      if defaultHost.None? {
        return;
      }
      var host := defaultHost.value;
      var appSecrets := secretsOf(AppKey, host);
      if appSecrets.None? {
        return;
      }
      var config := ConfigOf(appSecrets.value);
      var built := builds(config);
      if built {
        twitter := Some(Client(config));
      }
      destroys := destroys + 1;
      if !built {
        return;
      }
      inited := true;
    }

    /** `getTwitter`: the client once `init` has completed, null before. */
    method GetTwitter() returns (t: Option<Client>)
      requires Valid()
      ensures t.Some? <==> inited
      ensures inited ==> t == twitter
    {
      if inited {
        t := twitter;
      } else {
        t := None;
      }
    }

    /** The pattern all ten lookups share: not-initialised guard, miss-cache
        check, upstream call, and on "user not found" a cache write. Each
        method derives its own key, as the source does, and passes it with the
        request; the precondition checks that key against `MissKey`. */
    method Lookup<R>(key: string, req: Request, reply: Upstream<R>) returns (r: Option<R>)
      requires key == MissKey(req)
      modifies this`calls, cache
      ensures (r, Facade()) == Step(old(Facade()), req, reply)
    {
      if !inited {
        return None;
      }
      var isMiss := cache.Get(key);
      if isMiss {
        return None;
      }
      calls := calls + [req];
      match reply
      case Ok(v) =>
        r := Some(v);
      case Err(code) =>
        if code == UserNotFound {
          cache.Put(key, true);
        }
        r := None;
    }

    method GetUserTimelineByName<R>(screenName: string, pageParam: int32, countParam: int32,
                                    isSet: int32 -> bool, reply: Upstream<R>) returns (r: Option<R>)
      modifies this`calls, cache
      ensures (r, Facade()) == Step(old(Facade()),
        TimelineByName(screenName, Paging(PageSent(isSet, pageParam), CountSent(isSet, countParam))), reply)
    {
      var page := PageSent(isSet, pageParam);
      var count := CountSent(isSet, countParam);
      r := Lookup(screenName, TimelineByName(screenName, Paging(page, count)), reply);
    }

    method GetUserTimelineById<R>(userId: int64, pageParam: int32, countParam: int32,
                                  isSet: int32 -> bool, reply: Upstream<R>) returns (r: Option<R>)
      modifies this`calls, cache
      ensures (r, Facade()) == Step(old(Facade()),
        TimelineById(userId, Paging(PageSent(isSet, pageParam), CountSent(isSet, countParam))), reply)
    {
      var page := PageSent(isSet, pageParam);
      var count := CountSent(isSet, countParam);
      r := Lookup(LongToString(userId), TimelineById(userId, Paging(page, count)), reply);
    }

    method ShowUserByName<R>(screenName: string, reply: Upstream<R>) returns (r: Option<R>)
      modifies this`calls, cache
      ensures (r, Facade()) == Step(old(Facade()), Request.ShowUserByName(screenName), reply)
    {
      r := Lookup(screenName, Request.ShowUserByName(screenName), reply);
    }

    method ShowUserById<R>(userId: int64, reply: Upstream<R>) returns (r: Option<R>)
      modifies this`calls, cache
      ensures (r, Facade()) == Step(old(Facade()), Request.ShowUserById(userId), reply)
    {
      r := Lookup(LongToString(userId), Request.ShowUserById(userId), reply);
    }

    method GetFollowersListByName<R>(screenName: string, reply: Upstream<R>) returns (r: Option<R>)
      modifies this`calls, cache
      ensures (r, Facade()) == Step(old(Facade()), FollowersByName(screenName, FirstCursor), reply)
    {
      r := Lookup(screenName, FollowersByName(screenName, FirstCursor), reply);
    }

    method GetFollowersListById<R>(userId: int64, reply: Upstream<R>) returns (r: Option<R>)
      modifies this`calls, cache
      ensures (r, Facade()) == Step(old(Facade()), FollowersById(userId, FirstCursor), reply)
    {
      r := Lookup(LongToString(userId), FollowersById(userId, FirstCursor), reply);
    }

    method GetUserListMembersByName<R>(ownerScreenName: string, slug: string, reply: Upstream<R>) returns (r: Option<R>)
      modifies this`calls, cache
      ensures (r, Facade()) == Step(old(Facade()), ListMembersByName(ownerScreenName, slug, FirstCursor), reply)
    {
      r := Lookup(ownerScreenName, ListMembersByName(ownerScreenName, slug, FirstCursor), reply);
    }

    method GetUserListMembersById<R>(ownerId: int64, slug: string, reply: Upstream<R>) returns (r: Option<R>)
      modifies this`calls, cache
      ensures (r, Facade()) == Step(old(Facade()), ListMembersById(ownerId, slug, FirstCursor), reply)
    {
      r := Lookup(LongToString(ownerId), ListMembersById(ownerId, slug, FirstCursor), reply);
    }

    method GetUserListStatusesByName<R>(ownerScreenName: string, slug: string, pageParam: int32, countParam: int32,
                                        isSet: int32 -> bool, reply: Upstream<R>) returns (r: Option<R>)
      modifies this`calls, cache
      ensures (r, Facade()) == Step(old(Facade()),
        ListStatusesByName(ownerScreenName, slug, Paging(PageSent(isSet, pageParam), CountSent(isSet, countParam))), reply)
    {
      var page := PageSent(isSet, pageParam);
      var count := CountSent(isSet, countParam);
      r := Lookup(ownerScreenName, ListStatusesByName(ownerScreenName, slug, Paging(page, count)), reply);
    }

    method GetUserListStatusesById<R>(ownerId: int64, slug: string, pageParam: int32, countParam: int32,
                                      isSet: int32 -> bool, reply: Upstream<R>) returns (r: Option<R>)
      modifies this`calls, cache
      ensures (r, Facade()) == Step(old(Facade()),
        ListStatusesById(ownerId, slug, Paging(PageSent(isSet, pageParam), CountSent(isSet, countParam))), reply)
    {
      var page := PageSent(isSet, pageParam);
      var count := CountSent(isSet, countParam);
      r := Lookup(LongToString(ownerId), ListStatusesById(ownerId, slug, Paging(page, count)), reply);
    }
  }

  /** Two tools built on the same cache object, as every tool shares the one
      process-wide cache: a "user not found" for an id seen through the first
      tool makes the second tool's lookup of the same key return null without
      contacting the upstream. */
  method SharedCacheAcrossTools<R, U>(a: TwitterTool, b: TwitterTool, id: int64, reply: Upstream<U>)
    returns (first: Option<R>, second: Option<U>)
    requires a != b && a.cache == b.cache
    requires a.inited && b.inited && !Hit(a.cache.entries, LongToString(id))
    modifies a`calls, b`calls, a.cache
    ensures first == None && second == None
    ensures Hit(a.cache.entries, LongToString(id))
    ensures a.calls == old(a.calls) + [Request.ShowUserById(id)] && b.calls == old(b.calls)
  {
    first := a.ShowUserById(id, Err(UserNotFound));
    second := b.GetFollowersListByName(LongToString(id), reply);
  }
}
