/**
 * The user row of the bot's database. Identity is the Discord user id alone:
 * two rows describe the same user exactly when their ids agree, whatever
 * their other columns say. `currencyAmount` is the balance that the currency
 * decay job reduces.
 */
module DiscordUserModel {

  /** A Discord snowflake: an unsigned 64-bit integer. */
  type UserId = x: int | 0 <= x < 0x1_0000_0000_0000_0000

  datatype DiscordUser = DiscordUser(
    userId: UserId,
    username: string,
    discriminator: string,
    avatarId: string,
    isClubAdmin: bool,
    totalXp: int,
    currencyAmount: int)

  /** What `Equals(object)` can be handed: a user, an object of another type, or null. */
  datatype Object = UserObject(user: DiscordUser) | OtherObject(typeName: string) | Null

  /** `Equals(object)`: only another user can be equal, and only by id. */
  predicate Equals(self: DiscordUser, obj: Object) {
    match obj
    case UserObject(du) => du.userId == self.userId
    case _ => false
  }

  /**
   * `UInt64.GetHashCode`: the exclusive or of the low and high 32-bit halves
   * of the id, read back as a signed 32-bit int.
   */
  function IdHash(id: UserId): (h: int)
    ensures -0x8000_0000 <= h < 0x8000_0000
  {
    var low := (id % 0x1_0000_0000) as bv32;
    var high := (id / 0x1_0000_0000) as bv32;
    var x := (low ^ high) as int;
    if x >= 0x8000_0000 then x - 0x1_0000_0000 else x
  }

  /** `GetHashCode`: the hash of the id and of nothing else. */
  function HashCode(self: DiscordUser): int
  {
    IdHash(self.userId)
  }

  /** `ToString`: the legacy `name#discriminator` tag. */
  function ToString(self: DiscordUser): (s: string)
    ensures |s| == |self.username| + 1 + |self.discriminator|
    ensures s[..|self.username|] == self.username
    ensures s[|self.username|] == '#'
    ensures s[|self.username| + 1..] == self.discriminator
  {
    self.username + "#" + self.discriminator
  }

  /** Equality is decided by the ids alone, in both directions. */
  lemma EqualsIffSameId(a: DiscordUser, b: DiscordUser)
    ensures Equals(a, UserObject(b)) <==> a.userId == b.userId
  {
  }

  /** Objects of any other type, and null, are never equal to a user. */
  lemma NeverEqualsOtherType(a: DiscordUser, obj: Object)
    requires !obj.UserObject?
    ensures !Equals(a, obj)
  {
  }

  /** Equality between users is an equivalence relation. */
  lemma EqualsIsEquivalence(a: DiscordUser, b: DiscordUser, c: DiscordUser)
    ensures Equals(a, UserObject(a))
    ensures Equals(a, UserObject(b)) ==> Equals(b, UserObject(a))
    ensures Equals(a, UserObject(b)) && Equals(b, UserObject(c)) ==> Equals(a, UserObject(c))
  {
  }

  /** Equal users have equal hash codes, as the `Equals`/`GetHashCode` contract demands. */
  lemma EqualUsersHashEqually(a: DiscordUser, b: DiscordUser)
    requires Equals(a, UserObject(b))
    ensures HashCode(a) == HashCode(b)
  {
  }

  /** The converse fails: ids 0 and 2^32 + 1 are different users with the same hash. */
  lemma HashCollision(a: DiscordUser, b: DiscordUser)
    requires a.userId == 0 && b.userId == 0x1_0000_0001
    ensures !Equals(a, UserObject(b)) && HashCode(a) == HashCode(b) == 0
  {
  }

  /** With discriminators of equal length, the tag determines name and discriminator. */
  lemma ToStringInjective(a: DiscordUser, b: DiscordUser)
    requires |a.discriminator| == |b.discriminator|
    requires ToString(a) == ToString(b)
    ensures a.username == b.username && a.discriminator == b.discriminator
  {
    var s := ToString(a);
    assert |a.username| == |b.username|;
    assert a.username == s[..|a.username|] == b.username;
  }
}
