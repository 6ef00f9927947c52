# Response envelope, error taxonomy, entity lifecycle and auditor of spring-auth, in Dafny

This project models four small pieces of the spring-auth backend scaffold and proves
properties of them:

- **Response envelope builder** (`ApiResponseFactory`, `StandardApiResponse`): `ResponseBuild`
  makes the six-field envelope and the status it is sent with. The twenty-two `success`/`error`
  overloads fill in defaults: status 200 or 400, `success` forced to true or false, and null
  for an omitted message, payload or request. Java tells the overloads apart by parameter
  types. Here each one has its own name, such as `SuccessStatusMessage` or
  `ErrorMessagePayloadRequest`. The timestamp's `yyyy-MM-dd HH:mm:ss` rendering is modelled in
  `Timestamps`. That includes the year-of-era rule and the `+` sign that `yyyy` puts in front
  of a year-of-era above 9999, which includes years below -9998. A parser for the pattern
  serves as the formatter's inverse in the round-trip lemma.
- **Error taxonomy and translator** (`BaseException`, its four subclasses,
  `GlobalExceptionHandler`): exceptions are values, and the four subclass constructors fix the
  (code, status) pair. `ErrorKind` is the tag of the four kinds. `Translate` is a match over a
  `Fault`, which is either a raised `BaseException` or an unclassified exception with its message.
- **Entity lifecycle** (`BaseEntity`): a class with the nine mutable fields and a constant
  runtime class. `SoftDelete` and `Restore` are methods, specified by the value-level
  transitions `SoftDeleted` and `Restored` on `EntityState`. The class also provides
  `IsSoftDeleted`, `Equals` and `HashCode`. `HashCode` is `Objects.hash(id)`, worked out in
  32-bit arithmetic from `UUID.hashCode()`. A Java `int` is its 32-bit two's-complement pattern, a `bv32`.
- **Auditor resolution** (`AuditorAwareImpl`): `GetCurrentAuditor` is a pure function of the
  security context. The context is a parameter, and `Faulted` stands for a context whose
  reading throws. The model includes Java's `trim()` rule (characters at or below U+0020).

Java `null` is `None` of `Option` throughout. An `HttpStatus` is its numeric value, in
100..599. An `HttpServletRequest` is its request URI. A payload of type `Object` is a
`JavaObject`: either a string or another object known only by identity.

Three behaviours of the code that are easy to get wrong:

- An unclassified fault is answered with status **400**, not 500. `handleGenericException`
  calls `error(String, T, HttpServletRequest)`, and that overload sends `BAD_REQUEST`.
- `equals` is not a function of `id` alone. It is also false for an object of a different
  runtime class.
- `softDelete(null)` sets the deleted flag and the time but leaves `softDeletedBy` null. So
  the three marker fields are not always set together.

## Model

| member | source | states |
|---|---|---|
| `Http.Is2xxSuccessful` | src/main/java/com/example/demo/response/factory/ApiResponseFactory.java:33 | the status is in the SUCCESSFUL series exactly when it lies in 200..299 |
| `ApiResponseFactory.ResponseBuild` | src/main/java/com/example/demo/response/factory/ApiResponseFactory.java:28-40 | the response is sent with the status its body reports; `success` is the given flag, or "status in 200..299" when the flag is null; message and payload are copied, null included; path is the request URI, or "N/A" for a null request; the timestamp is the clock value |
| `ApiResponseFactory.RequestPath` | src/main/java/com/example/demo/response/factory/ApiResponseFactory.java:37 | the path is the request URI when there is a request and "N/A" when it is null |
| `ApiResponseFactory.SuccessStatusMessagePayloadRequest` | src/main/java/com/example/demo/response/factory/ApiResponseFactory.java:45-48 | success true for any status; status, message, payload and path as given |
| `ApiResponseFactory.SuccessStatusMessagePayload` | src/main/java/com/example/demo/response/factory/ApiResponseFactory.java:51-54 | success true; path "N/A" |
| `ApiResponseFactory.SuccessStatusMessageRequest` | src/main/java/com/example/demo/response/factory/ApiResponseFactory.java:57-60 | success true; payload null |
| `ApiResponseFactory.SuccessStatusPayloadRequest` | src/main/java/com/example/demo/response/factory/ApiResponseFactory.java:63-66 | success true; message null |
| `ApiResponseFactory.SuccessMessagePayloadRequest` | src/main/java/com/example/demo/response/factory/ApiResponseFactory.java:69-72 | success true; status 200 |
| `ApiResponseFactory.SuccessStatusMessage` | src/main/java/com/example/demo/response/factory/ApiResponseFactory.java:75-78 | success true for any status, e.g. 400; payload null; path "N/A" |
| `ApiResponseFactory.SuccessStatusPayload` | src/main/java/com/example/demo/response/factory/ApiResponseFactory.java:81-83 | success true; message null; path "N/A" |
| `ApiResponseFactory.SuccessStatusRequest` | src/main/java/com/example/demo/response/factory/ApiResponseFactory.java:86-89 | success true; message and payload null |
| `ApiResponseFactory.SuccessMessagePayload` | src/main/java/com/example/demo/response/factory/ApiResponseFactory.java:92-94 | success true; status 200; path "N/A" |
| `ApiResponseFactory.SuccessMessageRequest` | src/main/java/com/example/demo/response/factory/ApiResponseFactory.java:97-100 | success true; status 200; payload null |
| `ApiResponseFactory.SuccessPayloadRequest` | src/main/java/com/example/demo/response/factory/ApiResponseFactory.java:103-106 | success true; status 200; message null |
| `ApiResponseFactory.ErrorStatusMessagePayloadRequest` | src/main/java/com/example/demo/response/factory/ApiResponseFactory.java:111-114 | success false for any status, 2xx included; status, message, payload and path as given |
| `ApiResponseFactory.ErrorStatusMessagePayload` | src/main/java/com/example/demo/response/factory/ApiResponseFactory.java:117-120 | success false; path "N/A" |
| `ApiResponseFactory.ErrorStatusMessageRequest` | src/main/java/com/example/demo/response/factory/ApiResponseFactory.java:123-126 | success false; payload null |
| `ApiResponseFactory.ErrorStatusPayloadRequest` | src/main/java/com/example/demo/response/factory/ApiResponseFactory.java:129-132 | success false; message null |
| `ApiResponseFactory.ErrorMessagePayloadRequest` | src/main/java/com/example/demo/response/factory/ApiResponseFactory.java:135-138 | success false; status 400 |
| `ApiResponseFactory.ErrorStatusMessage` | src/main/java/com/example/demo/response/factory/ApiResponseFactory.java:141-144 | success false; payload null; path "N/A" |
| `ApiResponseFactory.ErrorStatusPayload` | src/main/java/com/example/demo/response/factory/ApiResponseFactory.java:147-149 | success false; message null; path "N/A" |
| `ApiResponseFactory.ErrorStatusRequest` | src/main/java/com/example/demo/response/factory/ApiResponseFactory.java:152-155 | success false; message and payload null |
| `ApiResponseFactory.ErrorMessagePayload` | src/main/java/com/example/demo/response/factory/ApiResponseFactory.java:158-160 | success false; status 400; path "N/A" |
| `ApiResponseFactory.ErrorMessageRequest` | src/main/java/com/example/demo/response/factory/ApiResponseFactory.java:163-166 | success false; status 400; payload null |
| `ApiResponseFactory.ErrorPayloadRequest` | src/main/java/com/example/demo/response/factory/ApiResponseFactory.java:169-172 | success false; status 400; message null |
| `ApiResponseFactory.SuccessAndErrorDifferOnlyInFlag` | src/main/java/com/example/demo/response/factory/ApiResponseFactory.java:45-155 | for each of the seven overload pairs that take a status, the error overload's response is the success overload's with `success` turned false, and nothing else changed |
| `ApiResponseFactory.DefaultStatusesDiffer` | src/main/java/com/example/demo/response/factory/ApiResponseFactory.java:69-172 | for each of the four overload pairs without a status, the error overload's response is the success overload's with `success` false and the status 400 instead of 200, both on the response and in the body |
| `ApiResponseFactory.InferredFlagMatchesOverloads` | src/main/java/com/example/demo/response/factory/ApiResponseFactory.java:33 | with a null flag the envelope equals the success overload's on 2xx statuses and the error overload's on all other statuses |
| `ApiResponseFactory.ShortOverloadsFillDefaults` | src/main/java/com/example/demo/response/factory/ApiResponseFactory.java:51-172 | each of the twenty shorter overloads equals the four-argument overload of its kind with null, or status 200 for success and 400 for error, in place of what it omits |
| `ApiResponseModel.RenderedTimestamp` | src/main/java/com/example/demo/response/model/StandardApiResponse.java:18-19 | the wire timestamp is present exactly when the field is; for years 1..9999 it has the 19-character pattern shape and reads back as the instant truncated to the second |
| `Timestamps.Format` | src/main/java/com/example/demo/response/model/StandardApiResponse.java:18 | for a year-of-era up to 9999 the text has 19 characters: `-` at 4 and 7, a space at 10, `:` at 13 and 16, and digits everywhere else; beyond 9999 it starts with `+` and is longer |
| `Timestamps.FormatRoundTrip` | src/main/java/com/example/demo/response/model/StandardApiResponse.java:18-19 | parsing the rendered timestamp gives back the instant without its fraction of a second, for years 1..9999 |
| `Timestamps.EraIsNotPrinted` | src/main/java/com/example/demo/response/model/StandardApiResponse.java:18 | year `y` and year `1 - y` render alike, because `yyyy` prints the year-of-era without the era |
| `Timestamps.FormatDistinguishesSeconds` | src/main/java/com/example/demo/response/model/StandardApiResponse.java:18-19 | for years 1..9999, two instants render alike exactly when they agree to the second |
| `Timestamps.ParseTimestamp` | src/main/java/com/example/demo/response/model/StandardApiResponse.java:18 | only text of the pattern's shape parses, and it parses to a valid date and time with no fraction of a second |
| `Exceptions.NewBaseException` | src/main/java/com/example/demo/response/exceptions/BaseException.java:10-31 | accepts any message, code, status and debug payload, with no relation between code and status; the getters return exactly the arguments |
| `Exceptions.NewBaseExceptionWithoutDebugInfo` | src/main/java/com/example/demo/response/exceptions/BaseException.java:17-19 | the same fields, with a null debug payload |
| `Exceptions.ResourceNotFoundException` | src/main/java/com/example/demo/response/exceptions/ResourceNotFoundException.java:5-8 | code "NOT_FOUND", status 404, the given message, null debug payload |
| `Exceptions.UnauthorizedException` | src/main/java/com/example/demo/response/exceptions/UnauthorizedException.java:5-8 | code "UNAUTHORIZED", status 401, the given message, null debug payload |
| `Exceptions.AccessDeniedException` | src/main/java/com/example/demo/response/exceptions/AccessDeniedException.java:5-8 | code "FORBIDDEN", status 403, the given message, null debug payload |
| `Exceptions.BadRequestException` | src/main/java/com/example/demo/response/exceptions/BadRequestException.java:5-8 | code "BAD_REQUEST", status 400, the given message, null debug payload |
| `Exceptions.Raise` | src/main/java/com/example/demo/response/exceptions/BaseException.java:5 | the exception of each kind carries that kind's code and status, the message, and no debug payload |
| `Exceptions.KindsAreDistinguishable` | src/main/java/com/example/demo/response/exceptions/BaseException.java:5 | the four kinds have pairwise different statuses and pairwise different codes |
| `Exceptions.KindsAreClientErrors` | src/main/java/com/example/demo/response/exceptions/BaseException.java:5 | every subclass exception has a status in 400..499 |
| `ExceptionHandler.MessagePayload` | src/main/java/com/example/demo/response/handler/GlobalExceptionHandler.java:29 | the fault's message becomes a string payload, and a null message a null payload |
| `ExceptionHandler.HandleBaseException` | src/main/java/com/example/demo/response/handler/GlobalExceptionHandler.java:14-22 | status, message and payload are the exception's status, message and debug payload; success false; path is the request URI |
| `ExceptionHandler.HandleGenericException` | src/main/java/com/example/demo/response/handler/GlobalExceptionHandler.java:25-32 | status 400, message "Internal server error", the fault's own message (possibly null) as payload, success false, path is the request URI |
| `ExceptionHandler.Translate` | src/main/java/com/example/demo/response/handler/GlobalExceptionHandler.java:14-32 | every fault gives exactly one envelope; it never succeeds, reports the status it is sent with, and has the request's path; a taxonomy error's status, message and debug payload are used; an unclassified fault gets 400 |
| `ExceptionHandler.TranslationIgnoresErrorCode` | src/main/java/com/example/demo/response/handler/GlobalExceptionHandler.java:16-21 | the error code never reaches the envelope |
| `ExceptionHandler.TaxonomyEnvelope` | src/main/java/com/example/demo/response/handler/GlobalExceptionHandler.java:14-22 | an exception of any subclass yields its kind's status, its message, a null payload and success false |
| `ExceptionHandler.NotFoundScenario` | src/main/java/com/example/demo/response/handler/GlobalExceptionHandler.java:14-22 | `ResourceNotFoundException("User 7 not found")` at `/api/users/7` yields {false, 404, "User 7 not found", "/api/users/7", null} |
| `ExceptionHandler.UnclassifiedScenario` | src/main/java/com/example/demo/response/handler/GlobalExceptionHandler.java:25-32 | a fault "npe" at `/api/orders` yields {false, 400, "Internal server error", "/api/orders", "npe"} |
| `EntityBase.UuidHash` | src/main/java/com/example/demo/model/entity/base/BaseEntity.java:104 | `UUID.hashCode()` is the xor of the four 32-bit words of the UUID |
| `EntityBase.ObjectsHash` | src/main/java/com/example/demo/model/entity/base/BaseEntity.java:103-105 | `Objects.hash(id)` in 32-bit arithmetic: 31 for a null id, otherwise 31 plus `UUID.hashCode()` modulo 2^32 |
| `EntityBase.SoftDeleted` | src/main/java/com/example/demo/model/entity/base/BaseEntity.java:70-74 | the flag becomes TRUE, the time becomes `now` and the actor becomes `deletedBy`; id, audit fields and version are unchanged; the entity then reads as soft-deleted |
| `EntityBase.Restored` | src/main/java/com/example/demo/model/entity/base/BaseEntity.java:79-83 | the flag becomes FALSE and the time and actor become null; id, audit fields and version are unchanged; the entity then reads as not deleted |
| `EntityBase.RestoreIsIdempotent` | src/main/java/com/example/demo/model/entity/base/BaseEntity.java:79-83 | restoring twice is restoring once |
| `EntityBase.RestoreAtRestIsNoOp` | src/main/java/com/example/demo/model/entity/base/BaseEntity.java:79-83 | restoring an entity that is not deleted and has no marker changes nothing |
| `EntityBase.SoftDeleteOverwrites` | src/main/java/com/example/demo/model/entity/base/BaseEntity.java:70-74 | a second soft delete only overwrites the time and the actor; the flag stays TRUE |
| `EntityBase.RestoreUndoesSoftDelete` | src/main/java/com/example/demo/model/entity/base/BaseEntity.java:70-83 | restoring after a soft delete gives the same state as restoring without it |
| `EntityBase.BaseEntity.constructor` | src/main/java/com/example/demo/model/entity/base/BaseEntity.java:52-53 | a new entity has every field null except `isDeleted`, which is FALSE |
| `EntityBase.BaseEntity.AllArgs` | src/main/java/com/example/demo/model/entity/base/BaseEntity.java:25 | every field is as given, a null flag included |
| `EntityBase.BaseEntity.SoftDelete` | src/main/java/com/example/demo/model/entity/base/BaseEntity.java:70-74 | the new state is `SoftDeleted` of the old one: only the three marker fields change |
| `EntityBase.BaseEntity.Restore` | src/main/java/com/example/demo/model/entity/base/BaseEntity.java:79-83 | the new state is `Restored` of the old one: only the three marker fields change |
| `EntityBase.BaseEntity.IsSoftDeleted` | src/main/java/com/example/demo/model/entity/base/BaseEntity.java:90-92 | true exactly when the flag is TRUE; false when it is FALSE or null |
| `EntityBase.BaseEntity.Equals` | src/main/java/com/example/demo/model/entity/base/BaseEntity.java:94-100 | takes any object; true for the same object; false for null, for an object that is not an entity, and for an entity of another runtime class; otherwise true exactly when the ids are equal, two null ids included |
| `EntityBase.BaseEntity.HashCode` | src/main/java/com/example/demo/model/entity/base/BaseEntity.java:102-105 | depends on the id alone |
| `EntityBase.EqualityIsIdentity` | src/main/java/com/example/demo/model/entity/base/BaseEntity.java:95-100 | two entities of one class are equal exactly when their ids are, whatever their other fields hold |
| `EntityBase.EqualsIsSymmetric` | src/main/java/com/example/demo/model/entity/base/BaseEntity.java:95-100 | `a.equals(b) == b.equals(a)` |
| `EntityBase.EqualsIsTransitive` | src/main/java/com/example/demo/model/entity/base/BaseEntity.java:95-100 | equality is transitive |
| `EntityBase.EqualEntitiesHashAlike` | src/main/java/com/example/demo/model/entity/base/BaseEntity.java:94-105 | equal entities have equal hash codes |
| `AuditorAware.Trim` | src/main/java/com/example/demo/config/jpa/AuditorAwareImpl.java:48 | the result is the slice of the name between its leading and its trailing characters at or below U+0020, everything outside it is at or below U+0020, and it is empty or starts and ends above U+0020 |
| `AuditorAware.TrimLeading` | src/main/java/com/example/demo/config/jpa/AuditorAwareImpl.java:48 | the result is a suffix of the input; everything removed is at or below U+0020, and the result is empty or starts above it |
| `AuditorAware.TrimTrailing` | src/main/java/com/example/demo/config/jpa/AuditorAwareImpl.java:48 | the result is a prefix of the input; everything removed is at or below U+0020, and the result is empty or ends above it |
| `AuditorAware.TrimmedEmptyIffBlank` | src/main/java/com/example/demo/config/jpa/AuditorAwareImpl.java:48 | `trim()` gives the empty string exactly when every character is at or below U+0020 |
| `AuditorAware.GetCurrentAuditor` | src/main/java/com/example/demo/config/jpa/AuditorAwareImpl.java:29-66 | the result is always present and at most 50 long; a fault gives "SYSTEM"; no or an unauthenticated authentication gives "ANONYMOUS"; the name "anonymousUser" gives "ANONYMOUS" before the blank check; a null or blank name gives "SYSTEM"; a longer name gives its first 50 characters; any other name is returned unchanged |
| `AuditorAware.OrdinaryNameIsKept` | src/main/java/com/example/demo/config/jpa/AuditorAwareImpl.java:59-60 | a non-blank name of at most 50 characters other than "anonymousUser" is returned unchanged, surrounding blanks included |
| `AuditorAware.LongNameIsTruncated` | src/main/java/com/example/demo/config/jpa/AuditorAwareImpl.java:54-57 | a non-blank name over 50 characters gives exactly its first 50 characters |
| `AuditorAware.AuditorIsNeverAnonymousPrincipal` | src/main/java/com/example/demo/config/jpa/AuditorAwareImpl.java:40-43 | "anonymousUser" is never returned |
| `AuditorAware.ResolutionIsStable` | src/main/java/com/example/demo/config/jpa/AuditorAwareImpl.java:29-66 | signing in with the resolved value resolves to it again, unless truncation made it blank |
| `AuditorAware.BlankPrefixSurvivesTruncation` | src/main/java/com/example/demo/config/jpa/AuditorAwareImpl.java:48-57 | the blank check comes before truncation, so 50 spaces and a letter give an auditor of 50 spaces |

## Left out

- Time: `LocalDateTime.now()` is the parameter `now` of `ResponseBuild`, the overloads, the handlers and `SoftDelete`.
- Logging: the SLF4J calls in `AuditorAwareImpl` are not modelled.
- Security context: the ambient `SecurityContextHolder` lookup is the parameter `context`.
- `getName()` is read once: the model assumes it returns the same value at both of its calls (lines 40 and 45).
- `GetCurrentAuditor` does not say which Java call threw. Every exception inside the `try` is the single `Faulted` input.
- Strings: a Java `String` is modelled as a Dafny `string`, whose characters are Unicode scalar values, not UTF-16 units. No surrogate unit, paired or lone, can be represented.
- `GetCurrentAuditor`: only names without characters above U+FFFF are modelled exactly. Dafny counts code points, while Java's `length()` and `substring(0, 50)` count UTF-16 units, so a name of 26 emoji (52 units) is cut to 25 by Java and kept whole by the model.
- Overload choice: Java picks an overload at compile time from the static argument types. For example, a `String` argument goes to the `message` overload rather than the payload one. The model gives each overload its own name instead.
- `NewBaseException` takes a non-null status. A null `HttpStatus` would make `ResponseEntity.status` throw in the handler, and that path is not modelled.
- `ResponseBuild` takes a request URI that is never null.
- `ResponseBuild` and the twenty-two overloads take a non-null status. Java's `ResponseEntity.status(null)` throws `IllegalArgumentException`, for example in `success(null, "m")`, and that path is not modelled.
- JSON output: Jackson serialisation of the envelope is not modelled beyond the timestamp pattern. Field order and payload rendering are left out.
- `Timestamps.FormatRoundTrip` is stated for years 1 to 9999 only. Above year-of-era 9999 the text gains a `+` and more digits, which `ParseTimestamp` does not read. For years 0 and below the text has the 19-character shape, but year `y` and year `1 - y` render alike (`Timestamps.EraIsNotPrinted`), so the year cannot be read back.
- Handler dispatch: Spring's `@ExceptionHandler` mechanism is the choice of `Fault` constructor. A `BaseException` of any subclass goes to `HandleBaseException`, and anything else goes to `HandleGenericException`.
- Hibernate and Spring Data behaviour of `BaseEntity` is not modelled: the `@SQLDelete` rewrite, `@Where` filtering, `@Version` increments, creation and update timestamps, `@CreatedBy`/`@LastModifiedBy` stamping and UUID generation. `version` and the audit fields are plain fields that `SoftDelete` and `Restore` leave unchanged.
- Lombok getters, setters and `toString` on `BaseEntity` are not modelled. The model reads and writes the fields directly.
- SecurityConfig.java is not part of this model. It is filter-chain wiring, and `sendError` is servlet I/O.
- AuditorAwareConfig.java is not part of this model. It is a second bean named `auditorProvider`. Which of the two beans wins is container configuration.
- EntityAuditListener.java is not part of this model. It only prints.
- UserEntity.java is not part of this model. It declares only fields, and its Lombok-generated `equals` is not visible in the source.
