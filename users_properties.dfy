// Properties of the user table that relate several operations, the update
// merge rule, and the concrete scenarios of the service's unit tests.

module UsersProperties {
  import opened JsValues
  import opened UserDto
  import opened UserEntity
  import opened Users

  // ---------------------------------------------------------------------
  // The update merge

  /** An update payload that supplies nothing. */
  const NoChanges := UpdateUserDto(Undefined, Undefined, Undefined, Undefined, Undefined, Undefined)

  /** Field by field: a truthy supplied value replaces the stored one, any
      other supplied value (absent, null, empty, zero, false) keeps it; the
      gender changes only to a member the supplied name resolves to; id and
      uuid never change. */
  lemma MergeFields(user: User, data: UpdateUserDto)
    ensures var m := Merge(user, data);
      && m.id == user.id && m.uuid == user.uuid
      && m.firstName == (if Truthy(data.firstName) then data.firstName else user.firstName)
      && m.lastName == (if Truthy(data.lastName) then data.lastName else user.lastName)
      && m.otherNames == (if Truthy(data.otherNames) then data.otherNames else user.otherNames)
      && m.email == (if Truthy(data.email) then data.email else user.email)
      && m.dateOfBirth == (if Truthy(data.dateOfBirth) then data.dateOfBirth else user.dateOfBirth)
      && m.gender == (if GenderNamed(data.gender).Some? then GenderNamed(data.gender) else user.gender)
  {
  }

  /** No update can clear a field: a truthy field stays truthy and an
      assigned gender stays assigned. */
  lemma MergeCannotClear(user: User, data: UpdateUserDto)
    ensures var m := Merge(user, data);
      && (Truthy(user.firstName) ==> Truthy(m.firstName))
      && (Truthy(user.lastName) ==> Truthy(m.lastName))
      && (Truthy(user.otherNames) ==> Truthy(m.otherNames))
      && (Truthy(user.email) ==> Truthy(m.email))
      && (Truthy(user.dateOfBirth) ==> Truthy(m.dateOfBirth))
      && (user.gender.Some? ==> m.gender.Some?)
  {
  }

  /** Applying the same payload twice is the same as applying it once. */
  lemma MergeIdempotent(user: User, data: UpdateUserDto)
    ensures Merge(Merge(user, data), data) == Merge(user, data)
  {
  }

  /** A payload that supplies nothing leaves the record as it was. */
  lemma MergeNothing(user: User)
    ensures Merge(user, NoChanges) == user
  {
  }

  // ---------------------------------------------------------------------
  // Operations in sequence

  /** A record just created under a uuid no stored record carries is what
      findOne returns for that uuid. */
  lemma {:induction false} CreateThenFindOne(users: seq<User>, data: CreateUserDto, uuid: string, libs: Libraries)
    requires CreateOutcome(users, data, uuid, libs).result.Ok?
    requires forall k :: 0 <= k < |users| ==> users[k].uuid != Some(uuid)
    ensures var o := CreateOutcome(users, data, uuid, libs);
      FindOneResult(o.users, uuid) == o.result
  {
    var o := CreateOutcome(users, data, uuid, libs);
    assert o.users[|users|].uuid == Some(uuid);
    var i := FirstMatch(o.users, UuidIs(uuid));
    assert i == Some(|users|) by {
      assert forall k :: 0 <= k < |users| ==> o.users[k] == users[k];
    }
  }

  /** Creating twice with the same payload: the second call meets the first
      record's email and fails with the conflict, table unchanged. */
  lemma {:induction false} CreateSameEmailTwice(users: seq<User>, data: CreateUserDto, uuid: string, uuid': string, libs: Libraries)
    requires CreateOutcome(users, data, uuid, libs).result.Ok?
    ensures var o := CreateOutcome(users, data, uuid, libs);
      CreateOutcome(o.users, data, uuid', libs) == Outcome(Err(Conflict(EmailTaken)), o.users)
  {
    var o := CreateOutcome(users, data, uuid, libs);
    assert o.users[|users|].email == data.email;
  }

  /** After an update, findOne on the same uuid finds the merged record: the
      record keeps its position and its identifier. */
  lemma {:induction false} UpdateThenFindOne(users: seq<User>, userId: string, data: UpdateUserDto, libs: Libraries)
    requires UpdateOutcome(users, userId, data, libs).result.Ok?
    ensures var o := UpdateOutcome(users, userId, data, libs);
      FindOneResult(o.users, userId) == o.result
  {
    var o := UpdateOutcome(users, userId, data, libs);
    var i := FirstMatch(users, UuidIs(userId)).value;
    assert forall k :: 0 <= k < i ==> !Matches(o.users[k], UuidIs(userId)) by {
      assert forall k :: 0 <= k < i ==> !Matches(users[k], UuidIs(userId));
    }
    assert FirstMatch(o.users, UuidIs(userId)) == Some(i);
  }

  /** An accepted update that supplies nothing returns the stored record and
      leaves the table exactly as it was. */
  lemma {:induction false} UpdateWithNoChanges(users: seq<User>, userId: string, libs: Libraries)
    requires libs.acceptsUpdate(NoChanges)
    requires exists k :: 0 <= k < |users| && users[k].uuid == Some(userId)
    ensures var o := UpdateOutcome(users, userId, NoChanges, libs);
      o.users == users && o.result == FindOneResult(users, userId)
  {
    var o := UpdateOutcome(users, userId, NoChanges, libs);
    var i := FirstMatch(users, UuidIs(userId)).value;
    MergeNothing(users[i]);
    assert o.users == users[i := users[i]];
  }

  /** Remove takes out exactly the returned record: the table loses one
      occurrence of it and keeps every other record. */
  lemma {:induction false} RemoveTakesOne(users: seq<User>, userId: string)
    requires RemoveOutcome(users, userId).result.Ok?
    ensures var o := RemoveOutcome(users, userId);
      multiset(o.users) + multiset{o.result.value} == multiset(users)
  {
    var o := RemoveOutcome(users, userId);
    var i := FirstMatch(users, UuidIs(userId)).value;
    assert users == users[..i] + [users[i]] + users[i + 1..];
  }

  /** When only one record carries the uuid, it is gone after remove: findOne
      then fails with the not-found error. */
  lemma {:induction false} RemoveThenFindOne(users: seq<User>, userId: string)
    requires RemoveOutcome(users, userId).result.Ok?
    requires forall j, k :: 0 <= j < k < |users| && users[j].uuid == Some(userId) ==> users[k].uuid != Some(userId)
    ensures var o := RemoveOutcome(users, userId);
      FindOneResult(o.users, userId) == Err(NotFound(NoUserWithId(userId)))
  {
    var o := RemoveOutcome(users, userId);
    var i := FirstMatch(users, UuidIs(userId)).value;
    forall k | 0 <= k < |o.users| ensures o.users[k].uuid != Some(userId) {
      if k < i {
        assert o.users[k] == users[k];
      } else {
        assert o.users[k] == users[k + 1];
      }
    }
  }

  /** A uuid that no stored record carries is not found by findOne, by an
      accepted update, or by remove, and none of them changes the table. */
  lemma UnknownIdIsNotFound(users: seq<User>, userId: string, data: UpdateUserDto, libs: Libraries)
    requires forall k :: 0 <= k < |users| ==> users[k].uuid != Some(userId)
    requires libs.acceptsUpdate(data)
    ensures FindOneResult(users, userId) == Err(NotFound(NoUserWithId(userId)))
    ensures UpdateOutcome(users, userId, data, libs) == Outcome(Err(NotFound(UserMissing)), users)
    ensures RemoveOutcome(users, userId) == Outcome(Err(NotFound(UserMissing)), users)
  {
  }

  // ---------------------------------------------------------------------
  // What the code does not maintain

  /** The number `length + 1` can repeat an existing record's id once an
      earlier record has been removed. */
  lemma IdRepeatsAfterRemove(data: CreateUserDto, libs: Libraries)
    requires IsValidCreate(data, libs.isEmail)
    requires data.email != Str("second")
    ensures
      var first := Blank.(id := Some(1), uuid := Some("a"), email := Str("first"));
      var second := Blank.(id := Some(2), uuid := Some("b"), email := Str("second"));
      var afterRemove := RemoveOutcome([first, second], "a").users;
      var created := CreateOutcome(afterRemove, data, "c", libs);
      && created.result.Ok?
      && created.result.value.id == Some(2)
      && created.users[0].id == Some(2)
  {
    var first := Blank.(id := Some(1), uuid := Some("a"), email := Str("first"));
    var second := Blank.(id := Some(2), uuid := Some("b"), email := Str("second"));
    assert FirstMatch([first, second], UuidIs("a")) == Some(0);
    assert RemoveOutcome([first, second], "a").users == [second];
  }

  /** Update does not look for a conflicting email: it can give a second
      record the email of the first. */
  lemma UpdateCanDuplicateEmail(libs: Libraries)
    requires libs.acceptsUpdate(NoChanges.(email := Str("first")))
    ensures
      var first := Blank.(id := Some(1), uuid := Some("a"), email := Str("first"));
      var second := Blank.(id := Some(2), uuid := Some("b"), email := Str("second"));
      var o := UpdateOutcome([first, second], "b", NoChanges.(email := Str("first")), libs);
      o.result.Ok? && o.users[0].email == o.users[1].email
  {
    var first := Blank.(id := Some(1), uuid := Some("a"), email := Str("first"));
    var second := Blank.(id := Some(2), uuid := Some("b"), email := Str("second"));
    assert FirstMatch([first, second], UuidIs("b")) == Some(1);
  }

  // ---------------------------------------------------------------------
  // The unit-test scenarios

  const Born := DateObj(Instant(1317826080000))  // 2011-10-05T14:48:00.000Z

  const Uuid1 := "8248c277-dd8e-42bc-97d5-fa10bc5e5642"
  const Uuid2 := "d96f1582-9814-4c62-9182-c172bdc6dbca"
  const Uuid3 := "6c556502-a559-4bce-ac2d-e2940af5464e"
  const UnknownUuid := "8248c277-dd8e-42bc-97d5-fa10bc5e56t2"

  /** The three records the tests seed the table with (they carry no id). */
  const DummyUsers := [
    User(None, Some(Uuid1), Str("User 1"), Str("Test"), Str("One"), Str("user1@test.com"), Born, Some(Male)),
    User(None, Some(Uuid2), Str("User 2"), Str("Test"), Str("Two"), Str("user2@test.com"), Born, Some(Female)),
    User(None, Some(Uuid3), Str("User 3"), Str("Test"), Str("Three"), Str("user3@test.com"), Born, Some(Others))
  ]

  /** The create payload of the tests, with the gender value left open. */
  function CreatePayload(email: Value, gender: Value): CreateUserDto {
    CreateUserDto(Str("User 4"), Str("Test"), Str("Four"), email, Born, gender)
  }

  /** The update payload of the tests. */
  function UpdatePayload(email: Value): UpdateUserDto {
    UpdateUserDto(Str("User 1"), Str("Updated Test"), Undefined, email, Undefined, Undefined)
  }

  lemma CreateScenario(libs: Libraries, gender: Value, uuid: string)
    requires libs.isEmail("user4@test.com")
    requires NonEmptyText(gender)
    ensures var o := CreateOutcome(DummyUsers, CreatePayload(Str("user4@test.com"), gender), uuid, libs);
      && o.result.Ok?
      && o.result.value.email == Str("user4@test.com")
      && o.result.value.id == Some(4) && o.result.value.uuid == Some(uuid)
      && |o.users| == 4 && o.users[3].email == Str("user4@test.com")
  {
    var data := CreatePayload(Str("user4@test.com"), gender);
    ValidCreateFields(data, libs.isEmail);
    assert Str("user4@test.com") != Str("user1@test.com") by {
      assert "user4@test.com"[4] != "user1@test.com"[4];
    }
    assert Str("user4@test.com") != Str("user2@test.com") by {
      assert "user4@test.com"[4] != "user2@test.com"[4];
    }
    assert Str("user4@test.com") != Str("user3@test.com") by {
      assert "user4@test.com"[4] != "user3@test.com"[4];
    }
  }

  lemma CreateConflictScenario(libs: Libraries, gender: Value, uuid: string)
    requires libs.isEmail("user1@test.com")
    requires NonEmptyText(gender)
    ensures CreateOutcome(DummyUsers, CreatePayload(Str("user1@test.com"), gender), uuid, libs)
         == Outcome(Err(Conflict(EmailTaken)), DummyUsers)
  {
    ValidCreateFields(CreatePayload(Str("user1@test.com"), gender), libs.isEmail);
    assert DummyUsers[0].email == Str("user1@test.com");
  }

  lemma CreateWithoutEmailScenario(libs: Libraries, gender: Value, uuid: string)
    ensures CreateOutcome(DummyUsers, CreatePayload(Undefined, gender), uuid, libs)
         == Outcome(Err(ValidationFailed(InvalidParameters)), DummyUsers)
  {
    ValidCreateFields(CreatePayload(Undefined, gender), libs.isEmail);
  }

  lemma FindOneScenario()
    ensures FindOneResult(DummyUsers, Uuid1).Ok?
    ensures FindOneResult(DummyUsers, Uuid1).value.email == Str("user1@test.com")
    ensures FindOneResult(DummyUsers, UnknownUuid) == Err(NotFound(NoUserWithId(UnknownUuid)))
  {
    assert DummyUsers[0].uuid == Some(Uuid1);
    assert Uuid1 != UnknownUuid by { assert Uuid1[34] != UnknownUuid[34]; }
    assert Uuid2 != UnknownUuid by { assert Uuid2[0] != UnknownUuid[0]; }
    assert Uuid3 != UnknownUuid by { assert Uuid3[0] != UnknownUuid[0]; }
  }

  lemma UpdateScenario(libs: Libraries)
    requires libs.acceptsUpdate(UpdatePayload(Str("updated-email@test.com")))
    requires !libs.acceptsUpdate(UpdatePayload(Str("not-a-valid-email")))
    ensures UpdateOutcome(DummyUsers, UnknownUuid, UpdatePayload(Str("updated-email@test.com")), libs)
         == Outcome(Err(NotFound(UserMissing)), DummyUsers)
    ensures UpdateOutcome(DummyUsers, UnknownUuid, UpdatePayload(Str("not-a-valid-email")), libs)
         == Outcome(Err(ValidationFailed(InvalidParameters)), DummyUsers)
    ensures var o := UpdateOutcome(DummyUsers, Uuid1, UpdatePayload(Str("updated-email@test.com")), libs);
      && o.result.Ok?
      && o.result.value == DummyUsers[0].(lastName := Str("Updated Test"), email := Str("updated-email@test.com"))
      && o.users[0] == o.result.value
      && o.users[1..] == DummyUsers[1..]
  {
    assert Uuid1 != UnknownUuid by { assert Uuid1[34] != UnknownUuid[34]; }
    assert Uuid2 != UnknownUuid by { assert Uuid2[0] != UnknownUuid[0]; }
    assert Uuid3 != UnknownUuid by { assert Uuid3[0] != UnknownUuid[0]; }
    assert DummyUsers[0].uuid == Some(Uuid1);
    assert GenderNamed(Undefined) == None;
  }

  lemma RemoveScenario()
    ensures RemoveOutcome(DummyUsers, UnknownUuid) == Outcome(Err(NotFound(UserMissing)), DummyUsers)
    ensures var o := RemoveOutcome(DummyUsers, Uuid1);
      && o.result.Ok? && o.result.value.uuid == Some(Uuid1)
      && o.users == DummyUsers[1..] && |o.users| == 2
  {
    assert Uuid1 != UnknownUuid by { assert Uuid1[34] != UnknownUuid[34]; }
    assert Uuid2 != UnknownUuid by { assert Uuid2[0] != UnknownUuid[0]; }
    assert Uuid3 != UnknownUuid by { assert Uuid3[0] != UnknownUuid[0]; }
    assert DummyUsers[0].uuid == Some(Uuid1);
  }
}
