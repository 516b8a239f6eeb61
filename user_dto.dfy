// The request payloads of the user registry. CreateUserDto's validation rules
// are class-validator decorators on its fields; they are kept here as data
// (one list of decorators per field) together with what each decorator checks.

module UserDto {
  import opened JsValues

  /** The class-validator decorators CreateUserDto uses. */
  datatype Decorator = IsNotEmpty | IsString | IsOptional | IsEmail | IsDate

  /** The payload of a create request. */
  datatype CreateUserDto = CreateUserDto(
    firstName: Value,
    lastName: Value,
    otherNames: Value,
    email: Value,
    dateOfBirth: Value,
    gender: Value)

  /** The payload of an update request: the same six fields, all optional.
      Its validation rules are not part of this model (see Users.Libraries). */
  datatype UpdateUserDto = UpdateUserDto(
    firstName: Value,
    lastName: Value,
    otherNames: Value,
    email: Value,
    dateOfBirth: Value,
    gender: Value)

  /** The decorators on each field of CreateUserDto, in declaration order. */
  const FirstNameRules: seq<Decorator> := [IsNotEmpty, IsString]
  const LastNameRules: seq<Decorator> := [IsNotEmpty, IsString]
  const OtherNamesRules: seq<Decorator> := [IsOptional, IsString]
  const EmailRules: seq<Decorator> := [IsNotEmpty, IsEmail]
  const DateOfBirthRules: seq<Decorator> := [IsNotEmpty, IsDate]
  const GenderRules: seq<Decorator> := [IsNotEmpty, IsString]

  /** What one decorator checks of a value. The email-format test of IsEmail
      belongs to the validator library and is the parameter `isEmail`.
      IsOptional checks nothing by itself (see Conforms). */
  predicate Holds(d: Decorator, v: Value, isEmail: string -> bool) {
    match d
    case IsNotEmpty => v != Str("") && !Nullish(v)
    case IsString => v.Str?
    case IsOptional => true
    case IsEmail => v.Str? && isEmail(v.s)
    case IsDate => v.DateObj? && v.date.Instant?
  }

  /** A field passes its decorators when every one of them holds, except that
      IsOptional waives them all for a null or undefined value. */
  predicate Conforms(v: Value, rules: seq<Decorator>, isEmail: string -> bool) {
    (IsOptional in rules && Nullish(v)) || forall d <- rules :: Holds(d, v, isEmail)
  }

  /** `validate(dto)` reports no error. */
  predicate IsValidCreate(dto: CreateUserDto, isEmail: string -> bool) {
    && Conforms(dto.firstName, FirstNameRules, isEmail)
    && Conforms(dto.lastName, LastNameRules, isEmail)
    && Conforms(dto.otherNames, OtherNamesRules, isEmail)
    && Conforms(dto.email, EmailRules, isEmail)
    && Conforms(dto.dateOfBirth, DateOfBirthRules, isEmail)
    && Conforms(dto.gender, GenderRules, isEmail)
  }

  /** A non-empty string. */
  predicate NonEmptyText(v: Value) {
    v.Str? && v.s != ""
  }

  /** The decorators amount to these field rules: first name, last name and
      gender are non-empty strings, other names is absent (null or undefined)
      or a string, the email is a non-empty string in email format, and the
      date of birth is a valid Date. */
  lemma {:induction false} ValidCreateFields(dto: CreateUserDto, isEmail: string -> bool)
    ensures IsValidCreate(dto, isEmail) <==>
      && NonEmptyText(dto.firstName)
      && NonEmptyText(dto.lastName)
      && (Nullish(dto.otherNames) || dto.otherNames.Str?)
      && NonEmptyText(dto.email) && isEmail(dto.email.s)
      && dto.dateOfBirth.DateObj? && dto.dateOfBirth.date.Instant?
      && NonEmptyText(dto.gender)
  {
    RequiredField(dto.firstName, IsString, isEmail);
    RequiredField(dto.lastName, IsString, isEmail);
    RequiredField(dto.email, IsEmail, isEmail);
    RequiredField(dto.dateOfBirth, IsDate, isEmail);
    RequiredField(dto.gender, IsString, isEmail);
    OptionalField(dto.otherNames, IsString, isEmail);
  }

  /** A field marked `@IsNotEmpty()` and one more decorator passes exactly
      when it is not empty and the other decorator holds. */
  lemma {:induction false} RequiredField(v: Value, d: Decorator, isEmail: string -> bool)
    requires d != IsOptional
    ensures Conforms(v, [IsNotEmpty, d], isEmail) <==>
      v != Str("") && !Nullish(v) && Holds(d, v, isEmail)
  {
    assert IsOptional !in [IsNotEmpty, d];
    if Holds(IsNotEmpty, v, isEmail) && Holds(d, v, isEmail) {
      forall e <- [IsNotEmpty, d] ensures Holds(e, v, isEmail) { }
    }
  }

  /** A field marked `@IsOptional()` and one more decorator passes exactly
      when it is null, undefined, or satisfies the other decorator. */
  lemma {:induction false} OptionalField(v: Value, d: Decorator, isEmail: string -> bool)
    ensures Conforms(v, [IsOptional, d], isEmail) <==> Nullish(v) || Holds(d, v, isEmail)
  {
    assert IsOptional in [IsOptional, d];
    if Holds(d, v, isEmail) {
      forall e <- [IsOptional, d] ensures Holds(e, v, isEmail) { }
    }
  }
}
