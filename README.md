# User registry model

This project models the in-memory user table of a small NestJS user registry.
The `UsersService` keeps an ordered array of `User` records and offers five
operations on it:

- **create** validates a `CreateUserDto`, rejects an email that a stored record already has, builds the record with the `User` constructor, numbers it `length + 1`, gives it a uuid and appends it.
- **findAll** returns the table.
- **findOne** returns the first record with a given uuid.
- **update** validates an `UpdateUserDto`, finds the record by uuid and merges the supplied fields into it in place.
- **remove** splices the record with a given uuid out of the table.

The files:

- `js_values.dfy` (module `JsValues`) holds the JavaScript values the service handles. A property may be undefined (`Option`). A `Date` may be valid or an Invalid Date. A request-body field is a loosely typed `Value`. It also defines truthiness and the `||` operator that the update merge is built on.
- `user_dto.dfy` (module `UserDto`) holds the two payloads. The class-validator decorators of `CreateUserDto` are kept as data, one list per field. An interpreter says what each decorator checks. `IsOptional` waives the other checks for a null or undefined value.
- `user_entity.dfy` (module `UserEntity`) holds the `User` record, the `UserGender` enum and the lookup of a member by its key. It also holds the constructor `NewUser`.
- `users_service.dfy` (module `Users`) gives each operation as a function from the old table to an `Outcome`: the result (`Ok`, or an error `ValidationFailed`, `Conflict` or `NotFound` with the source's message) and the new table. The class `UsersService` holds the table in its field `persistedUsers`. Its methods perform each operation step by step: a `findIndex` or `find` loop, an append, an element assignment, a splice. Each method is proved to produce exactly the outcome its function gives.
- `users_properties.dfy` (module `UsersProperties`) holds the properties that relate several operations, the rules of the update merge, what the code does not maintain, and the scenarios of the unit tests.

Exceptions become `Err` results. The library calls the service makes are the parameters bundled in `Users.Libraries`:

- class-validator's email-format test (`isEmail`);
- class-validator's verdict on an update payload (`acceptsUpdate`);
- dayjs's date conversion (`toDate`).

The uuid that `uuidv4()` would generate is a parameter of `create`.

Four facts about the code that the model keeps as they are:

- `update` validates the payload before it looks the record up (src/users/users.service.ts:69-74). An invalid payload is therefore a validation error even for an unknown id.
- The number `length + 1` can repeat an id that is still in use once an earlier record has been spliced out (src/users/users.service.ts:47, 102; `UsersProperties.IdRepeatsAfterRemove`).
- `update` does not look for an email conflict, so two records can end up sharing an email (src/users/users.service.ts:88; `UsersProperties.UpdateCanDuplicateEmail`).
- A gender name that no enum member has is not rejected; the record's gender is then undefined (src/users/entities/user.entity.ts:14; `UserEntity.NewUserGender`).

## Model

| member | source | states |
|---|---|---|
| `JsValues.Or` | src/users/users.service.ts:87-92 | The or-operator returns the left operand when it is truthy and the right operand otherwise (so null or-ed with undefined gives undefined). The result is truthy iff either operand is. |
| `UserDto.ValidCreateFields` | src/users/dto/create-user.dto.ts:9-33 | A `CreateUserDto` passes validation iff all of these hold: first name, last name and gender are non-empty strings; other names is null, undefined or a string; the email is a non-empty string in email format; the date of birth is a valid Date. |
| `UserDto.RequiredField` | src/users/dto/create-user.dto.ts:10-16 | A field marked `@IsNotEmpty()` plus one more decorator passes iff it is not `''`, null or undefined and the other decorator holds. |
| `UserDto.OptionalField` | src/users/dto/create-user.dto.ts:18-20 | A field marked `@IsOptional()` plus one more decorator passes iff it is null or undefined, or the other decorator holds. |
| `UserEntity.GenderNamedRoundTrip` | src/users/entities/user.entity.ts:14 | Looking an enum member up by its key finds that member. A value finds a member only if it is that member's key. |
| `UserEntity.NewUser` | src/users/entities/user.entity.ts:7-16 | The constructor never assigns `id` or `uuid`. Without data it assigns no property at all. |
| `UserEntity.NewUserCopiesFields` | src/users/entities/user.entity.ts:8-13 | Given data, email, first name, last name and other names are copied unchanged, an absent other names included. The date of birth is the Date that the conversion makes of the supplied date, so two conversions that agree on that date build the same record. |
| `UserEntity.NewUserGender` | src/users/entities/user.entity.ts:14 | The record's gender is member `g` iff the supplied gender is `g`'s key. It is undefined, and no error is raised, iff the supplied value is no member's key. |
| `Users.NoUserWithId` | src/users/users.service.ts:62 | findOne's not-found message ends with the id that was asked for. |
| `Users.FirstMatch` | src/users/users.service.ts:19-21 | `findIndex` returns the first position whose record matches. It returns none iff no record matches. |
| `Users.CreateOutcome` | src/users/users.service.ts:30-52 | An invalid payload fails with the validation error and leaves the table unchanged, even when its email is taken. A valid payload whose email equals a stored record's email fails with the conflict error, table unchanged. Otherwise create succeeds. The constructed record gets id = old length + 1, the given uuid and the input email. It is appended at the end and returned, and the earlier records are untouched. |
| `Users.FindOneResult` | src/users/users.service.ts:58-66 | findOne succeeds iff some record has the uuid. It then returns the first such record. Otherwise it fails NotFound with "No user exists with the ID: " followed by the id. |
| `Users.UpdateOutcome` | src/users/users.service.ts:68-97 | A rejected payload fails with the validation error, even for an unknown id. An accepted payload with an unknown uuid fails NotFound with "User does not exist". Both failures leave the table unchanged. On success the first record with the uuid is replaced in place by its merge with the payload. The length and every other position are unchanged, and id and uuid are kept. |
| `Users.RemoveOutcome` | src/users/users.service.ts:99-104 | An unknown uuid fails NotFound with "User does not exist", table unchanged. Otherwise the first record with the uuid is returned. The new table is the old one without that position, so it is one shorter and the other records keep their order. |
| `Users.UsersService.constructor` | src/users/users.service.ts:15-16 | A new service starts with an empty table. |
| `Users.UsersService.FindUserIndex` | src/users/users.service.ts:18-28 | The scan returns the first position with the uuid. If there is none it fails NotFound with "User does not exist". |
| `Users.UsersService.Create` | src/users/users.service.ts:30-52 | The validation check, the email scan, the construction, the numbering and the push produce exactly `CreateOutcome`'s result and new table. |
| `Users.UsersService.FindAll` | src/users/users.service.ts:54-56 | Returns the stored sequence in insertion order. An empty table gives an empty sequence. |
| `Users.UsersService.FindOne` | src/users/users.service.ts:58-66 | The `find` loop returns exactly `FindOneResult`. The table is not changed. |
| `Users.UsersService.Update` | src/users/users.service.ts:68-97 | The validation, the index lookup, the six field assignments and the element store produce exactly `UpdateOutcome`'s result and new table. |
| `Users.UsersService.Remove` | src/users/users.service.ts:99-104 | The index lookup and the splice produce exactly `RemoveOutcome`'s result and new table. |
| `UsersProperties.MergeFields` | src/users/users.service.ts:76-92 | Each field takes the supplied value if it is truthy. Otherwise (absent, null, empty) the field keeps its old value. The gender changes only to a member that the supplied name resolves to. id and uuid are untouched. |
| `UsersProperties.MergeCannotClear` | src/users/users.service.ts:87-92 | No update can clear a field. A truthy field stays truthy and an assigned gender stays assigned. |
| `UsersProperties.MergeIdempotent` | src/users/users.service.ts:87-92 | Merging the same payload twice gives the same record as merging it once. |
| `UsersProperties.MergeNothing` | src/users/users.service.ts:87-92 | A payload that supplies no field leaves the record unchanged. |
| `UsersProperties.CreateThenFindOne` | src/users/users.service.ts:46-51 | After a successful create under a uuid that no stored record carries, findOne with that uuid returns the created record. |
| `UsersProperties.CreateSameEmailTwice` | src/users/users.service.ts:36-44 | Repeating a successful create with the same payload fails with the conflict error and leaves the table unchanged. |
| `UsersProperties.UpdateThenFindOne` | src/users/users.service.ts:94 | After a successful update, findOne with the same uuid returns the merged record. |
| `UsersProperties.UpdateWithNoChanges` | src/users/users.service.ts:84-94 | An accepted update that supplies nothing leaves the table as it was. It returns the record that findOne returns. |
| `UsersProperties.RemoveTakesOne` | src/users/users.service.ts:102-103 | The table after remove, plus the returned record, is the old table as a multiset. |
| `UsersProperties.RemoveThenFindOne` | src/users/users.service.ts:99-104 | When one record alone carries the uuid, findOne with that uuid fails NotFound after the remove. |
| `UsersProperties.UnknownIdIsNotFound` | src/users/users.service.ts:18-28 | For a uuid that no record carries, findOne, an accepted update and remove all fail NotFound and leave the table unchanged. |
| `UsersProperties.IdRepeatsAfterRemove` | src/users/users.service.ts:47 | Remove the first of two records, then create: the new record gets id 2, which the remaining record already has. |
| `UsersProperties.UpdateCanDuplicateEmail` | src/users/users.service.ts:88 | An update can give a record an email that another stored record already has. |
| `UsersProperties.CreateScenario` | src/users/users.service.spec.ts:198-221 | Created over the three seeded records, user4 is returned with its email, id 4 and the given uuid. It is the fourth record. |
| `UsersProperties.CreateConflictScenario` | src/users/users.service.spec.ts:150-173 | Creating with the email user1@test.com fails with the conflict error. |
| `UsersProperties.CreateWithoutEmailScenario` | src/users/users.service.spec.ts:175-196 | Creating without an email fails with the validation error. |
| `UsersProperties.FindOneScenario` | src/users/users.service.spec.ts:100-134 | A seeded uuid finds user1@test.com. An unknown uuid fails with the message that names it. |
| `UsersProperties.UpdateScenario` | src/users/users.service.spec.ts:224-296 | An unknown uuid fails NotFound. A rejected payload fails with the validation error, even for an unknown uuid. The known uuid gets the new last name and email and keeps the other fields, and the other records are unchanged. |
| `UsersProperties.RemoveScenario` | src/users/users.service.spec.ts:299-346 | An unknown uuid fails NotFound. Removing the first seeded record returns it and leaves the two others. |

## Left out

- The HTTP controller (`users.controller.ts`) is not part of this model. It only routes requests and passes service results and errors through unchanged.
- Promises and exceptions are replaced by the returned `Result`. The exception classes become the error kinds `ValidationFailed`, `Conflict` and `NotFound`.
- Object aliasing is not modelled. The model uses values instead. `findAll` in the source returns the live array, and `update` mutates the stored object that earlier callers may still hold.
- `uuidv4()` is a random generator. The uuid is a parameter of create, and the model does not claim it is fresh.
- class-validator's email-format test is the parameter `isEmail`.
- `UpdateUserDto`'s decorators are not part of this model. Its validation is the parameter `acceptsUpdate`.
- Validation is assumed to apply the DTO's decorators. `validate` of a plain object without decorator metadata, and the `forbidUnknownValues` option, are not modelled.
- The `UserGender` enum file is not part of this model. Its keys MALE, FEMALE and OTHERS come from the tests, and its values are taken to be truthy. Keys inherited from `Object.prototype` (such as `toString`) are not modelled.
- dayjs's conversion is the parameter `toDate`, applied to whatever value is supplied. `dayjs(undefined)` reads the clock, which the model folds into that parameter; create never reaches this case, because validation requires a date.
- Plain objects and arrays in a request body are not modelled as values. Both are truthy and fail every create decorator except `IsNotEmpty`, and update validation is the parameter `acceptsUpdate`.
- JavaScript numbers are integers here: no fractions, no NaN, no 53-bit precision limit. The id is an unbounded natural number.
- `Users.Matches` treats `===` as value equality. For two Date objects, `===` compares identity instead, but the searched email is always a string after validation.
- The `@Exclude()` on `id` only affects serialization, so it is not modelled.
