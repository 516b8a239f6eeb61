// The in-memory user table: an ordered sequence of user records and the five
// operations on it (create, find all, find one, update, remove).
//
// Each operation is first given as a function from the old table to an
// Outcome (the result and the new table), with the properties the service
// promises stated in its contract. The class UsersService then performs the
// operations step by step on its field `persistedUsers`, and each method is
// proved to do what its function says.

module Users {
  import opened JsValues
  import opened UserDto
  import opened UserEntity

  /** The messages of the exceptions the service raises. */
  const InvalidParameters := "Invalid User Parameters Provided"
  const EmailTaken := "A User Already Exists with the specified email"
  const UserMissing := "User does not exist"

  /** The message of findOne's not-found error. */
  function NoUserWithId(userId: string): (m: string)
    ensures |m| > |userId| && m[|m| - |userId|..] == userId
  {
    "No user exists with the ID: " + userId
  }

  /** The exceptions the service raises, by kind:
      InvalidClassException, NotAcceptableException and NotFoundException. */
  datatype Error =
    | ValidationFailed(message: string)
    | Conflict(message: string)
    | NotFound(message: string)

  datatype Result<T> = Ok(value: T) | Err(error: Error)

  /** What an operation returns, and the table after it. */
  datatype Outcome<T> = Outcome(result: Result<T>, users: seq<User>)

  /** The library calls the service depends on: class-validator's email-format
      test, class-validator's verdict on an update payload, and the dayjs date
      conversion the User constructor applies. */
  datatype Libraries = Libraries(
    isEmail: string -> bool,
    acceptsUpdate: UpdateUserDto -> bool,
    toDate: Value -> Date)

  /** The two searches the service runs over the table. */
  datatype Lookup = UuidIs(id: string) | EmailIs(email: Value)

  /** `uuid === id`, respectively `email === data.email` (for the string
      emails that validation admits, strict equality is value equality). */
  predicate Matches(u: User, key: Lookup) {
    match key
    case UuidIs(id) => u.uuid == Some(id)
    case EmailIs(email) => u.email == email
  }

  /** `Array.prototype.findIndex`: the position of the first matching record,
      or None when no record matches. */
  function FirstMatch(users: seq<User>, key: Lookup): (r: Option<nat>)
    ensures r.Some? ==> r.value < |users| && Matches(users[r.value], key)
    ensures r.Some? ==> forall j :: 0 <= j < r.value ==> !Matches(users[j], key)
    ensures r.None? <==> forall j :: 0 <= j < |users| ==> !Matches(users[j], key)
  {
    if users == [] then None
    else if Matches(users[0], key) then Some(0)
    else
      match FirstMatch(users[1..], key)
      case None => None
      case Some(k) => Some(k + 1)
  }

  /** `create(data)` with `uuid` as the identifier uuidv4 generates. */
  function CreateOutcome(users: seq<User>, data: CreateUserDto, uuid: string, libs: Libraries)
    : (o: Outcome<User>)
    // validation comes first, whatever the table holds
    ensures !IsValidCreate(data, libs.isEmail) ==>
      o == Outcome(Err(ValidationFailed(InvalidParameters)), users)
    // then a stored record with the same email is a conflict
    ensures (IsValidCreate(data, libs.isEmail) &&
             exists k :: 0 <= k < |users| && users[k].email == data.email) ==>
      o == Outcome(Err(Conflict(EmailTaken)), users)
    ensures o.result.Ok? <==> (IsValidCreate(data, libs.isEmail) &&
                               forall k :: 0 <= k < |users| ==> users[k].email != data.email)
    // otherwise the constructed record, numbered after the old length, is
    // appended at the end and returned
    ensures o.result.Ok? ==>
      && o.users == users + [o.result.value]
      && o.result.value.id == Some(|users| + 1)
      && o.result.value.uuid == Some(uuid)
      && o.result.value.email == data.email
      && o.result.value == NewUser(Some(data), libs.toDate).(id := Some(|users| + 1), uuid := Some(uuid))
  {
    if !IsValidCreate(data, libs.isEmail) then
      Outcome(Err(ValidationFailed(InvalidParameters)), users)
    else if FirstMatch(users, EmailIs(data.email)).Some? then
      Outcome(Err(Conflict(EmailTaken)), users)
    else
      var user := NewUser(Some(data), libs.toDate).(id := Some(|users| + 1), uuid := Some(uuid));
      Outcome(Ok(user), users + [user])
  }

  /** `findOne(userId)`. */
  function FindOneResult(users: seq<User>, userId: string): (r: Result<User>)
    ensures r.Ok? <==> exists k :: 0 <= k < |users| && users[k].uuid == Some(userId)
    ensures r.Ok? ==>
      && r.value.uuid == Some(userId)
      && FirstMatch(users, UuidIs(userId)).Some?
      && r.value == users[FirstMatch(users, UuidIs(userId)).value]
    ensures r.Err? ==> r.error == NotFound(NoUserWithId(userId))
  {
    match FirstMatch(users, UuidIs(userId))
    case Some(i) => Ok(users[i])
    case None => Err(NotFound(NoUserWithId(userId)))
  }

  /** `UserGender[updatedGender] || gender`: a resolved member replaces the
      stored gender, an unresolved name keeps it. */
  function OrGender(updated: Option<Gender>, stored: Option<Gender>): Option<Gender> {
    if updated.Some? then updated else stored
  }

  /** The field merge of `update`: each supplied value that is truthy replaces
      the stored one; identifiers are never touched. */
  function Merge(user: User, data: UpdateUserDto): User {
    user.(
      dateOfBirth := Or(data.dateOfBirth, user.dateOfBirth),
      email := Or(data.email, user.email),
      firstName := Or(data.firstName, user.firstName),
      gender := OrGender(GenderNamed(data.gender), user.gender),
      lastName := Or(data.lastName, user.lastName),
      otherNames := Or(data.otherNames, user.otherNames))
  }

  /** `update(userId, data)`. */
  function UpdateOutcome(users: seq<User>, userId: string, data: UpdateUserDto, libs: Libraries)
    : (o: Outcome<User>)
    // validation comes first, even for an unknown id
    ensures !libs.acceptsUpdate(data) ==>
      o == Outcome(Err(ValidationFailed(InvalidParameters)), users)
    ensures (libs.acceptsUpdate(data) &&
             forall k :: 0 <= k < |users| ==> users[k].uuid != Some(userId)) ==>
      o == Outcome(Err(NotFound(UserMissing)), users)
    ensures o.result.Ok? <==> (libs.acceptsUpdate(data) &&
                               exists k :: 0 <= k < |users| && users[k].uuid == Some(userId))
    // the first record with that uuid is merged in place; nothing else moves
    ensures o.result.Ok? ==>
      && FirstMatch(users, UuidIs(userId)).Some?
      && var i := FirstMatch(users, UuidIs(userId)).value;
      && o.result.value == Merge(users[i], data)
      && |o.users| == |users|
      && o.users[i] == o.result.value
      && (forall k :: 0 <= k < |users| && k != i ==> o.users[k] == users[k])
      && o.result.value.id == users[i].id
      && o.result.value.uuid == Some(userId)
  {
    if !libs.acceptsUpdate(data) then
      Outcome(Err(ValidationFailed(InvalidParameters)), users)
    else
      match FirstMatch(users, UuidIs(userId))
      case None => Outcome(Err(NotFound(UserMissing)), users)
      case Some(i) =>
        var user := Merge(users[i], data);
        Outcome(Ok(user), users[i := user])
  }

  /** `remove(userId)`. */
  function RemoveOutcome(users: seq<User>, userId: string): (o: Outcome<User>)
    ensures o.result.Err? <==> forall k :: 0 <= k < |users| ==> users[k].uuid != Some(userId)
    ensures o.result.Err? ==> o == Outcome(Err(NotFound(UserMissing)), users)
    // the first record with that uuid is cut out and returned; the others
    // keep their order
    ensures o.result.Ok? ==>
      && FirstMatch(users, UuidIs(userId)).Some?
      && var i := FirstMatch(users, UuidIs(userId)).value;
      && o.result.value == users[i]
      && o.users == users[..i] + users[i + 1..]
    ensures o.result.Ok? ==> o.result.value.uuid == Some(userId) && |o.users| == |users| - 1
  {
    match FirstMatch(users, UuidIs(userId))
    case None => Outcome(Err(NotFound(UserMissing)), users)
    case Some(i) => Outcome(Ok(users[i]), users[..i] + users[i + 1..])
  }

  /** The service: the table of persisted users and the libraries it calls. */
  class UsersService {
    var persistedUsers: seq<User>
    const libs: Libraries

    constructor(libs: Libraries)
      ensures persistedUsers == []
      ensures this.libs == libs
    {
      this.libs := libs;
      persistedUsers := [];
    }

    /** `findUserIndex`: the position of the first record with the uuid, or
        the not-found error. */
    method FindUserIndex(userId: string) returns (r: Result<nat>)
      ensures r.Ok? ==> FirstMatch(persistedUsers, UuidIs(userId)) == Some(r.value)
      ensures r.Err? ==>
        FirstMatch(persistedUsers, UuidIs(userId)) == None && r.error == NotFound(UserMissing)
    {
      var i := 0;
      while i < |persistedUsers| && persistedUsers[i].uuid != Some(userId)
        invariant 0 <= i <= |persistedUsers|
        invariant forall j :: 0 <= j < i ==> !Matches(persistedUsers[j], UuidIs(userId))
      {
        i := i + 1;
      }
      var userIndex := if i < |persistedUsers| then i else -1;
      if userIndex < 0 {
        return Err(NotFound(UserMissing));
      }
      return Ok(userIndex);
    }

    method Create(data: CreateUserDto, uuid: string) returns (r: Result<User>)
      modifies this
      ensures Outcome(r, persistedUsers) == CreateOutcome(old(persistedUsers), data, uuid, libs)
    {
      if !IsValidCreate(data, libs.isEmail) {
        return Err(ValidationFailed(InvalidParameters));
      }
      var i := 0;
      while i < |persistedUsers| && persistedUsers[i].email != data.email
        invariant 0 <= i <= |persistedUsers|
        invariant forall j :: 0 <= j < i ==> !Matches(persistedUsers[j], EmailIs(data.email))
      {
        i := i + 1;
      }
      if i < |persistedUsers| {
        return Err(Conflict(EmailTaken));
      }
      var user := NewUser(Some(data), libs.toDate);
      user := user.(id := Some(|persistedUsers| + 1));
      user := user.(uuid := Some(uuid));
      persistedUsers := persistedUsers + [user];
      r := Ok(user);
    }

    method FindAll() returns (users: seq<User>)
      ensures users == persistedUsers
    {
      users := persistedUsers;
    }

    /** `findOne`: `Array.prototype.find` over the table. */
    method FindOne(userId: string) returns (r: Result<User>)
      ensures r == FindOneResult(persistedUsers, userId)
    {
      var i := 0;
      while i < |persistedUsers|
        invariant 0 <= i <= |persistedUsers|
        invariant forall j :: 0 <= j < i ==> persistedUsers[j].uuid != Some(userId)
      {
        if persistedUsers[i].uuid == Some(userId) {
          return Ok(persistedUsers[i]);
        }
        i := i + 1;
      }
      r := Err(NotFound(NoUserWithId(userId)));
    }

    method Update(userId: string, data: UpdateUserDto) returns (r: Result<User>)
      modifies this
      ensures Outcome(r, persistedUsers) == UpdateOutcome(old(persistedUsers), userId, data, libs)
    {
      if !libs.acceptsUpdate(data) {
        return Err(ValidationFailed(InvalidParameters));
      }
      var found := FindUserIndex(userId);
      if found.Err? {
        return Err(found.error);
      }
      var userIndex := found.value;
      var user := persistedUsers[userIndex];
      user := user.(dateOfBirth := Or(data.dateOfBirth, user.dateOfBirth));
      user := user.(email := Or(data.email, user.email));
      user := user.(firstName := Or(data.firstName, user.firstName));
      user := user.(gender := OrGender(GenderNamed(data.gender), user.gender));
      user := user.(lastName := Or(data.lastName, user.lastName));
      user := user.(otherNames := Or(data.otherNames, user.otherNames));
      persistedUsers := persistedUsers[userIndex := user];
      r := Ok(user);
    }

    method Remove(userId: string) returns (r: Result<User>)
      modifies this
      ensures Outcome(r, persistedUsers) == RemoveOutcome(old(persistedUsers), userId)
    {
      var found := FindUserIndex(userId);
      if found.Err? {
        return Err(found.error);
      }
      var userIndex := found.value;
      var deletedUser := persistedUsers[userIndex];
      persistedUsers := persistedUsers[..userIndex] + persistedUsers[userIndex + 1..];
      r := Ok(deletedUser);
    }
  }
}
