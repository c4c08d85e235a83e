/** The user table of src/users/users.service.ts: registration with a unique
    email and a hashed password, the password change guard, account
    activation flags, and the per-user booking statistics.

    Password hashing is the function `hash` the service is built with, and a
    password verifies against a stored hash when it hashes to it. */
module Users {
  import opened Outcomes
  import opened BookingSchema
  import Bookings

  const DefaultRole: string := "user"

  /** A stored user. The schema calls the telephone field `phoneNumber`;
      a `phone` field is not part of the schema and is dropped on save. */
  datatype User = User(
    email: string,
    password: string,
    firstName: string,
    lastName: string,
    phoneNumber: Option<string>,
    role: string,
    isActive: bool,
    createdAt: Time,
    updatedAt: Time)

  /** The fields a create request carries. The request type of the service
      names its telephone field `phone`; `phoneNumber` is optional here so that
      a request carrying the schema's field can be stated as well. */
  datatype CreateUserDto = CreateUserDto(
    email: string,
    password: string,
    firstName: string,
    lastName: string,
    phone: Option<string>,
    phoneNumber: Option<string>)

  datatype BookingStats = BookingStats(
    totalBookings: nat,
    activeBookings: nat,
    completedBookings: nat,
    cancelledBookings: nat)

  datatype UserStats = UserStats(user: User, stats: BookingStats)

  /** No two users share an email. */
  predicate EmailsUnique(users: map<ObjectId, User>)
  {
    forall i, j | i in users && j in users && i != j :: users[i].email != users[j].email
  }

  /** The lookup by email that `create` runs first. */
  predicate EmailInUse(users: map<ObjectId, User>, email: string)
  {
    exists k | k in users :: users[k].email == email
  }

  /** The schema's validators on save: every required string is present
      and not empty. */
  predicate UserSatisfiesSchema(u: User)
  {
    && u.email != "" && u.password != "" && u.firstName != "" && u.lastName != ""
    && u.phoneNumber.Some? && u.phoneNumber.value != ""
  }

  /** The document `create` builds from a request and the password's hash:
      the schema's fields of the request, the default role `user`, active,
      both timestamps `now`. */
  function NewUser(dto: CreateUserDto, hashed: string, now: Time): (u: User)
    ensures u.email == dto.email && u.password == hashed
    ensures u.firstName == dto.firstName && u.lastName == dto.lastName && u.phoneNumber == dto.phoneNumber
    ensures u.role == DefaultRole && u.isActive && u.createdAt == now && u.updatedAt == now
  {
    User(dto.email, hashed, dto.firstName, dto.lastName, dto.phoneNumber, DefaultRole, true, now, now)
  }

  /** A request shaped as the service's request type, with `phone` and no
      `phoneNumber`, can never be saved. */
  lemma RequestWithoutPhoneNumberIsRejected(dto: CreateUserDto, hashed: string, now: Time)
    requires dto.phoneNumber.None?
    ensures !UserSatisfiesSchema(NewUser(dto, hashed, now))
  {
  }

  /** `findById`. */
  function FindById(users: map<ObjectId, User>, id: ObjectId): (r: Result<User>)
    ensures r.Ok? <==> id in users
    ensures r.Ok? ==> r.value == users[id]
    ensures r.Err? ==> r.error == NotFound
  {
    if id in users then Ok(users[id]) else Err(NotFound)
  }

  // ---------------------------------------------------------------------
  // Booking statistics

  /** The ids of the user's bookings, restricted to one status when given. */
  function BookingsOf(bookings: map<Bookings.BookingId, Booking>, userId: ObjectId, status: Option<BookingStatus>): (r: set<Bookings.BookingId>)
    ensures forall k :: k in r <==> k in bookings && bookings[k].userId == userId
                                     && (status.Some? ==> bookings[k].status == status.value)
  {
    set k | k in bookings && bookings[k].userId == userId && (status.None? || bookings[k].status == status.value)
  }

  lemma {:induction false} DisjointCardinality<T>(a: set<T>, b: set<T>, c: set<T>, all: set<T>)
    requires a * b == {} && a * c == {} && b * c == {}
    requires a <= all && b <= all && c <= all
    ensures |a| + |b| + |c| <= |all|
  {
    assert |a + b| == |a| + |b|;
    assert (a + b) * c == {};
    assert |a + b + c| == |a + b| + |c|;
    assert a + b + c <= all;
    SubsetCardinality(a + b + c, all);
  }

  lemma {:induction false} SubsetCardinality<T>(small: set<T>, big: set<T>)
    requires small <= big
    ensures |small| <= |big|
  {
    if small != {} {
      var x :| x in small;
      SubsetCardinality(small - {x}, big - {x});
    }
  }

  /** The statistics `getUserStats` reports: all of the user's bookings, and
      those that are active, completed and cancelled. Pending, confirmed and
      expired bookings are counted only in the total. */
  function BookingStatsOf(bookings: map<Bookings.BookingId, Booking>, userId: ObjectId): (s: BookingStats)
    ensures s.activeBookings + s.completedBookings + s.cancelledBookings <= s.totalBookings
    ensures s.totalBookings == |BookingsOf(bookings, userId, None)|
    ensures s.activeBookings == |BookingsOf(bookings, userId, Some(Active))|
    ensures s.completedBookings == |BookingsOf(bookings, userId, Some(Completed))|
    ensures s.cancelledBookings == |BookingsOf(bookings, userId, Some(Cancelled))|
  {
    var all := BookingsOf(bookings, userId, None);
    var active := BookingsOf(bookings, userId, Some(Active));
    var completed := BookingsOf(bookings, userId, Some(Completed));
    var cancelled := BookingsOf(bookings, userId, Some(Cancelled));
    DisjointCardinality(active, completed, cancelled, all);
    BookingStats(|all|, |active|, |completed|, |cancelled|)
  }

  /** A user without bookings gets all zeros. */
  lemma NoBookingsGivesZeros(bookings: map<Bookings.BookingId, Booking>, userId: ObjectId)
    requires forall k :: k in bookings ==> bookings[k].userId != userId
    ensures BookingStatsOf(bookings, userId) == BookingStats(0, 0, 0, 0)
  {
    assert BookingsOf(bookings, userId, None) == {};
  }

  // ---------------------------------------------------------------------
  // The service

  class UsersService {
    /** The password hash function. */
    const hash: string -> string
    var users: map<ObjectId, User>
    var nextId: ObjectId

    ghost predicate Valid()
      reads this
    {
      && (forall k :: k in users ==> k < nextId)
      && EmailsUnique(users)
      && (forall p :: hash(p) != p)
    }

    /** `hash` never returns its input unchanged. */
    constructor (hash: string -> string)
      requires forall p :: hash(p) != p
      ensures Valid() && this.hash == hash && users == map[] && nextId == 0
    {
      this.hash := hash;
      users := map[];
      nextId := 0;
    }

    /** Whether a plaintext password verifies against a stored hash. */
    predicate PasswordMatches(plain: string, stored: string)
    {
      hash(plain) == stored
    }

    /** `create`: refuse a taken email, then save the document holding the
        hash of the password, which the schema's validators may refuse. */
    method Create(dto: CreateUserDto, now: Time) returns (r: Result<User>)
      requires Valid()
      modifies this
      ensures Valid()
      ensures r == (if EmailInUse(old(users), dto.email) then Err(EmailTaken)
                    else if UserSatisfiesSchema(NewUser(dto, hash(dto.password), now)) then Ok(NewUser(dto, hash(dto.password), now))
                    else Err(ValidationFailed))
      ensures r.Ok? ==> r.value.password != dto.password && PasswordMatches(dto.password, r.value.password)
      ensures r.Err? ==> users == old(users) && nextId == old(nextId)
      ensures r.Ok? ==> old(nextId) !in old(users)
                        && users == old(users)[old(nextId) := r.value] && nextId == old(nextId) + 1
    {
      if EmailInUse(users, dto.email) {
        return Err(EmailTaken);
      }
      var user := NewUser(dto, hash(dto.password), now);
      if !UserSatisfiesSchema(user) {
        return Err(ValidationFailed);
      }
      users := users[nextId := user];
      nextId := nextId + 1;
      r := Ok(user);
    }

    /** `updatePassword`: the current password must verify against the
        stored hash; then the new password's hash replaces it. */
    method UpdatePassword(id: ObjectId, currentPassword: string, newPassword: string, now: Time) returns (r: Result<()>)
      requires Valid()
      modifies this`users
      ensures Valid()
      ensures id !in old(users) ==> r == Err(NotFound)
      ensures id in old(users) && !PasswordMatches(currentPassword, old(users)[id].password) ==> r == Err(WrongPassword)
      ensures r.Err? ==> users == old(users)
      ensures r.Ok? <==> id in old(users) && PasswordMatches(currentPassword, old(users)[id].password)
      ensures r.Ok? ==> users == old(users)[id := old(users)[id].(password := hash(newPassword), updatedAt := now)]
    {
      if id !in users {
        return Err(NotFound);
      }
      var user := users[id];
      if !PasswordMatches(currentPassword, user.password) {
        return Err(WrongPassword);
      }
      users := users[id := user.(password := hash(newPassword), updatedAt := now)];
      r := Ok(());
    }

    /** `deactivate`. */
    method Deactivate(id: ObjectId, now: Time) returns (r: Result<User>)
      requires Valid()
      modifies this`users
      ensures Valid()
      ensures r.Err? <==> id !in old(users)
      ensures r.Err? ==> r.error == NotFound && users == old(users)
      ensures r.Ok? ==> r.value == old(users)[id].(isActive := false, updatedAt := now)
                        && users == old(users)[id := r.value]
    {
      if id !in users {
        return Err(NotFound);
      }
      var user := users[id].(isActive := false, updatedAt := now);
      users := users[id := user];
      r := Ok(user);
    }

    /** `activate`. */
    method Activate(id: ObjectId, now: Time) returns (r: Result<User>)
      requires Valid()
      modifies this`users
      ensures Valid()
      ensures r.Err? <==> id !in old(users)
      ensures r.Err? ==> r.error == NotFound && users == old(users)
      ensures r.Ok? ==> r.value == old(users)[id].(isActive := true, updatedAt := now)
                        && users == old(users)[id := r.value]
    {
      if id !in users {
        return Err(NotFound);
      }
      var user := users[id].(isActive := true, updatedAt := now);
      users := users[id := user];
      r := Ok(user);
    }

    /** `getUserStats`: the user, or NotFound, with the counts over the
        booking table. */
    method GetUserStats(id: ObjectId, bookings: map<Bookings.BookingId, Booking>) returns (r: Result<UserStats>)
      ensures r.Err? <==> id !in users
      ensures r.Err? ==> r.error == NotFound
      ensures r.Ok? ==> r.value.user == users[id] && r.value.stats == BookingStatsOf(bookings, id)
      ensures r.Ok? ==> r.value.stats.activeBookings + r.value.stats.completedBookings
                        + r.value.stats.cancelledBookings <= r.value.stats.totalBookings
    {
      var found := FindById(users, id);
      if found.Err? {
        return Err(found.error);
      }
      r := Ok(UserStats(found.value, BookingStatsOf(bookings, id)));
    }
  }
}
