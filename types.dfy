/** Values shared by the facade model: Java's integer widths, the null-as-absence
    wrapper, the upstream client's replies and the requests sent to it. */
module TwitterTypes {

  /** Java `int`. */
  newtype int32 = x: int | -0x8000_0000 <= x < 0x8000_0000

  /** Java `long`. */
  newtype int64 = x: int | -0x8000_0000_0000_0000 <= x < 0x8000_0000_0000_0000

  /** A Java reference that may be null: `None` is null. */
  datatype Option<+T> = None | Some(value: T)

  /** What one upstream call does: return a value, or throw a TwitterException
      that carries an error code. */
  datatype Upstream<+R> = Ok(value: R) | Err(code: int32)

  /** twitter4j's `Paging(page, count)`. */
  datatype Paging = Paging(page: int32, count: int32)

  /** One call to the upstream client, one constructor per client method that the
      facade uses, with the arguments the facade passes. */
  datatype Request =
    | TimelineByName(screenName: string, paging: Paging)
    | TimelineById(userId: int64, paging: Paging)
    | ShowUserByName(screenName: string)
    | ShowUserById(userId: int64)
    | FollowersByName(screenName: string, cursor: int64)
    | FollowersById(userId: int64, cursor: int64)
    | ListMembersByName(ownerScreenName: string, slug: string, cursor: int64)
    | ListMembersById(ownerId: int64, slug: string, cursor: int64)
    | ListStatusesByName(ownerScreenName: string, slug: string, paging: Paging)
    | ListStatusesById(ownerId: int64, slug: string, paging: Paging)

  /** The upstream error code for "user not found". */
  const UserNotFound: int32 := 34

  /** The cursor the follower and list-member calls pass: the first page. */
  const FirstCursor: int64 := -1
}
