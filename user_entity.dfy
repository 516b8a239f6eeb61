// The user record and its constructor, which copies a CreateUserDto into a
// fresh record and resolves the gender name through the UserGender enum.

module UserEntity {
  import opened JsValues
  import opened UserDto

  /** The members of the UserGender enum. */
  datatype Gender = Male | Female | Others

  /** The key under which each member is declared. */
  function GenderName(g: Gender): string {
    match g
    case Male => "MALE"
    case Female => "FEMALE"
    case Others => "OTHERS"
  }

  /** `UserGender[v]`: the member declared under the key `v`, or undefined
      when `v` names no member (only a string can be such a key). */
  function GenderNamed(v: Value): Option<Gender> {
    if v == Str("MALE") then Some(Male)
    else if v == Str("FEMALE") then Some(Female)
    else if v == Str("OTHERS") then Some(Others)
    else None
  }

  /** Looking a member up by its own key finds that member, and only a
      member's key finds it. */
  lemma GenderNamedRoundTrip(g: Gender, v: Value)
    ensures GenderNamed(Str(GenderName(g))) == Some(g)
    ensures GenderNamed(v) == Some(g) <==> v == Str(GenderName(g))
  {
  }

  /** A user record. `id` and `uuid` are assigned by the service after
      construction; every other property holds whatever value was copied
      into it. None / Undefined stand for a property never assigned. */
  datatype User = User(
    id: Option<nat>,
    uuid: Option<string>,
    firstName: Value,
    lastName: Value,
    otherNames: Value,
    email: Value,
    dateOfBirth: Value,
    gender: Option<Gender>)

  /** The record `new User()` builds: no property assigned. */
  const Blank := User(None, None, Undefined, Undefined, Undefined, Undefined, Undefined, None)

  /** `new User(data)`. The date conversion `dayjs(x).toDate()` is the
      library call `toDate`. */
  function NewUser(data: Option<CreateUserDto>, toDate: Value -> Date): (u: User)
    ensures u.id.None? && u.uuid.None?
    ensures data.None? ==> u == Blank
  {
    match data
    case None => Blank
    case Some(d) =>
      User(
        id := None,
        uuid := None,
        firstName := d.firstName,
        lastName := d.lastName,
        otherNames := d.otherNames,
        email := d.email,
        dateOfBirth := DateObj(toDate(d.dateOfBirth)),
        gender := GenderNamed(d.gender))
  }

  /** Given data, the text fields are copied unchanged (other names even when
      absent), the date of birth is the conversion of the supplied date, and
      so the record depends on the conversion only at that date. */
  lemma NewUserCopiesFields(d: CreateUserDto, toDate: Value -> Date, toDate': Value -> Date)
    requires toDate(d.dateOfBirth) == toDate'(d.dateOfBirth)
    ensures var u := NewUser(Some(d), toDate);
      && u.firstName == d.firstName
      && u.lastName == d.lastName
      && u.otherNames == d.otherNames
      && u.email == d.email
      && u.dateOfBirth == DateObj(toDate(d.dateOfBirth))
      && u == NewUser(Some(d), toDate')
  {
  }

  /** The record's gender is a member exactly when the supplied gender is that
      member's key; any other value leaves the gender undefined instead of
      failing. */
  lemma {:induction false} NewUserGender(d: CreateUserDto, toDate: Value -> Date, g: Gender)
    ensures NewUser(Some(d), toDate).gender == Some(g) <==> d.gender == Str(GenderName(g))
    ensures NewUser(Some(d), toDate).gender.None? <==>
      forall h: Gender :: d.gender != Str(GenderName(h))
  {
    GenderNamedRoundTrip(g, d.gender);
    if NewUser(Some(d), toDate).gender.Some? {
      var h := NewUser(Some(d), toDate).gender.value;
      GenderNamedRoundTrip(h, d.gender);
    } else {
      forall h: Gender ensures d.gender != Str(GenderName(h)) {
        GenderNamedRoundTrip(h, d.gender);
      }
    }
  }
}
