# easyrest path resolution, modelled in Dafny

easyrest turns a request path of segments plus an HTTP verb and a body into
CRUD calls on a graph of entities that a schema describes. This project models
three parts of its core:

- the step that resolves one segment against an entity instance
  (`EntityObjectQueryHandler.handleQueryElement`);
- the handle on an array member that turns a positional index into an element
  id (`ArrayObject`);
- the closed set of errors the engine throws, each with its HTTP status and
  message (`errors.ts`).

Modules, leaves first:

- `Wrappers`: Option and Result.
- `Errors`: `EasyRestError` is the record an error stores: its message and its
  code, exactly as given. The three parent constructors (`MethodNotAllowedError`,
  `NotFoundError`, `BadRequestError`) apply JavaScript's `message || fallback`.
  `ErrorKind` lists every concrete error class with its constructor arguments.
  `Raise(k)` is the error object `new <Kind>(…)` produces, built through the
  parent class the kind extends.
- `Schema`: what the core consumes: members, entities, projections (`Include`),
  entity objects, and the store. The store hooks are not modelled; a `Store`
  object only records each hook call as a `StoreCall` tag. Payloads name the
  call that produced them (`HookResult(call)`, `ValueOf(call)` for
  `{value: …}`). The one store read whose value the core branches on is the id
  list of an array member, which `Store.arrayIds` answers.
- `JsNumbers`: `parseInt(string)` with no radix, and `===` on numbers. NaN is
  strictly equal to nothing.
- `ArrayObjects`: the `ArrayObject` handle, `parseIndex` as written and as its
  error class intends it, the JavaScript array lookup, and `getIdByIndex`.
- `EntityQuery`: `Query`, the driver's path array, which the handler shifts in
  place. `Resolve` is the decision chain that follows the shift, as a pure
  function returning an `Outcome`: `Done`, `ToArray`, `ToEntity` or `Fail`.
  `HandleQueryElement` is the method: it shifts, takes the branch and calls
  the store. Its contract ties the new path, the outcome and the store log to
  `Shifted` and `Resolve`.

The handler and `ArrayObject` are datatypes. Their constructors set their
fields, and nothing in the modelled code reassigns them. The caller's path
array is a class, because handlers shorten it in place.

Assumptions taken from the schema layer:

- `WellFormedEntity`: a primitive member whose type name is "array" is an
  array member, so it has an element description (an `ArrayOf`).
- One members table stands for both `entityBlueprint.members`, which the
  handler reads, and `entityData.members`, which `ArrayObject` reads. One
  `name` stands for both `entity.name` and `entity.entityData.name`.
- `EntityObject.mutate(body)` calls the entity's mutate hook with the object's
  id. So both mutation paths are recorded as the same `Mutate` call.

The model follows the code as written where it differs from its evident
intent. `IndexIsNaNError` exists so that `parseIndex` can reject a non-numeric
index, and one might expect such an index to parse to zero. In the code:

- the guard `indexNumber === NaN` (src/ArrayObject.ts:40) is never true, so
  `IndexIsNaNError` is never thrown;
- a non-numeric index reaches the lookup as NaN, finds no element, and fails
  with `MemeberOrMethodNotFoundError`. It does not resolve to element 0.

`ParseIndex`, `IdByIndex` and `NonNumericIndexIsNotFound` state this, and
`GetIdByIndex` keeps the code's behaviour. `ParseIndexIntended` is the guard as
intended, `parseInt(index)` tested with `isNaN`; "## Findings" below compares the
two.

## Model

| member | source | states |
|---|---|---|
| `Errors.MethodNotAllowedError` | src/errors.ts:10-14 | code 405; a non-empty message is kept, an absent or empty one becomes "Method not allowed." |
| `Errors.NotFoundError` | src/errors.ts:16-20 | code 404; a non-empty message is kept, an absent or empty one becomes "Not found." |
| `Errors.BadRequestError` | src/errors.ts:22-26 | code 400; a non-empty message is kept, an absent or empty one becomes "Bad request." |
| `Errors.Raise` | src/errors.ts:1-123 | every concrete error carries a code in {400, 404, 405} and a non-empty message; its message is the class's template (`Detail`) passed to the parent class |
| `Errors.StatusFollowsFamily` | src/errors.ts:10-123 | an error's code is the one of the parent class it extends, whatever its arguments |
| `Errors.NotFoundKinds` | src/errors.ts:28-105 | code 404 exactly for NotFound, InvalidEntityId, EntitiesPrefixMissing, InvalidEntityName, the three "no function provided" errors, InvalidRequestPath, MemeberOrMethodNotFound and IndexIsNaN |
| `Errors.MethodNotAllowedKinds` | src/errors.ts:10-99 | code 405 exactly for MethodNotAllowed, InvalidPutUsage and TryingToVariateNotVariableMember |
| `Errors.BadRequestKinds` | src/errors.ts:107-123 | code 400 exactly for BadRequest and the three invalid-arguments errors |
| `Errors.MessageQuotesArguments` | src/errors.ts:28-105 | every constructor argument appears verbatim in the message that the class's template (`Detail`) builds |
| `Errors.MemberOrMethodNotFoundText` | src/errors.ts:85-91 | `MemeberOrMethodNotFoundError(e, m)` is "Entity e has no member or method member m." with code 404 |
| `JsNumbers.StrictEquals` | src/ArrayObject.ts:40 | definition of `===` on numbers: it holds only between equal integers, and NaN equals nothing, not even NaN |
| `JsNumbers.ParseIntDecimal` | src/ArrayObject.ts:39 | `ParseInt` (parseInt with no radix) reads back any natural number from its decimal spelling. It ignores a suffix that does not continue the digits: "3abc" and "3x" give 3, while "0x…" would switch to hex |
| `JsNumbers.ParseIntNegativeDecimal` | src/ArrayObject.ts:39 | `ParseInt` of "-" followed by such a decimal spelling gives the negated number |
| `JsNumbers.ParseIntNonNumeric` | src/ArrayObject.ts:39 | `ParseInt` of an empty string, or of one starting with anything other than white space, a sign or a digit, gives NaN |
| `ArrayObjects.NewArrayObject` | src/ArrayObject.ts:9-20 | keeps the member name and owner; elementEntity is set if and only if the element is not primitive and its type is in the registry, and then to that type's registry entry |
| `ArrayObjects.ElementEntitySetIffReference` | src/ArrayObject.ts:16-19 | when the registry holds the element type, elementEntity is set if and only if the element is not primitive |
| `ArrayObjects.FetchCall` | src/ArrayObject.ts:21-26 | definition of the call fetch makes: the owner's read-only fetchOneMember of this member, with the include passed through |
| `ArrayObjects.Fetch` | src/ArrayObject.ts:21-26 | makes exactly that one store call and returns its result |
| `ArrayObjects.ParseIndex` | src/ArrayObject.ts:38-42 | always succeeds with `parseInt(index)`: the NaN guard never fires |
| `ArrayObjects.Element` | src/ArrayObject.ts:31 | definition of `ids[n]` on a JavaScript array: defined exactly for an integer n with 0 <= n < length, and then the n-th id |
| `ArrayObjects.IdByIndex` | src/ArrayObject.ts:27-37 | succeeds if and only if the parsed index is an in-bounds integer, with the id at that position; otherwise fails with MemeberOrMethodNotFound(`ArrayLabel`, raw index), where `ArrayLabel` is "<owner entity>.<member> array" |
| `ArrayObjects.GetIdByIndex` | src/ArrayObject.ts:27-37 | makes exactly one store call, the id-only fetch of the member, and returns IdByIndex of the ids it returned |
| `ArrayObjects.NonNumericIndexIsNotFound` | src/ArrayObject.ts:40 | an index parsing to NaN is returned by parseIndex unchanged and ends in MemeberOrMethodNotFound, never IndexIsNaN |
| `ArrayObjects.DecimalIndex` | src/ArrayObject.ts:28-36 | a decimal index, followed by any suffix that does not continue its digits ("3", "3abc", "3x"), selects that position when in bounds and fails as not found otherwise |
| `ArrayObjects.NegativeIndex` | src/ArrayObject.ts:31-35 | a negative index always fails as not found |
| `ArrayObjects.ParseIndexOfDigit` | src/ArrayObject.ts:38-42 | parseIndex("3") is 3 |
| `ArrayObjects.ParseIndexOfDigitThenLetters` | src/ArrayObject.ts:38-42 | parseIndex("3abc") is 3 |
| `ArrayObjects.ParseIndexOfLetter` | src/ArrayObject.ts:38-42 | parseIndex("x") is NaN, not an error |
| `ArrayObjects.ParseIndexIntended` | src/ArrayObject.ts:38-42 | the guard as intended (IndexIsNaNError, src/errors.ts:101-105): fails with IndexIsNaN(index) if and only if parseInt gives NaN, and otherwise succeeds with the integer parseInt gives |
| `ArrayObjects.IdByIndexIntended` | src/ArrayObject.ts:27-42 | getIdByIndex over the intended guard: a NaN index fails with IndexIsNaN; an integer index gives the same result as the code as written |
| `ArrayObjects.IntendedAgreesOnNumbers` | src/ArrayObject.ts:38-42 | on every index that parses to an integer, the intended guard and the code as written return the same result |
| `ArrayObjects.IntendedDiffersOnNaN` | src/ArrayObject.ts:27-42 | on every index that parses to NaN, the code as written passes NaN on and fails with MemeberOrMethodNotFound, while the intended guard fails with IndexIsNaN |
| `ArrayObjects.ParseIndexDiscrepancy` | src/ArrayObject.ts:38-42 | on the index "x": parseIndex as written gives NaN and getIdByIndex fails with MemeberOrMethodNotFound; as intended both fail with IndexIsNaN("x") |
| `EntityQuery.Shifted` | src/queryHandlers/EntityObjectQueryHandler.ts:19 | definition of the path after `shift()`: the old one without its first segment, and an empty path stays empty |
| `EntityQuery.Query.Shift` | src/queryHandlers/EntityObjectQueryHandler.ts:19 | removes the first segment in place and returns it, or undefined on an empty array |
| `EntityQuery.Resolve` | src/queryHandlers/EntityObjectQueryHandler.ts:20-97 | an error is always 404 or 405; a terminal result makes exactly one store call; a hand-over happens only for a declared member, and an array hand-over wraps that member of this object |
| `EntityQuery.HandleQueryElement` | src/queryHandlers/EntityObjectQueryHandler.ts:18-99 | the caller's path loses its first segment before any branch; the outcome is Resolve of the shortened path; the store log grows by exactly that outcome's calls |
| `EntityQuery.EmptyPath` | src/queryHandlers/EntityObjectQueryHandler.ts:20-30 | with no segment left: GET returns 200 with fetch(default include), POST 200 with mutate(body), DELETE 200 with delete(); any other verb fails InvalidRequestPath |
| `EntityQuery.MethodCall` | src/queryHandlers/EntityObjectQueryHandler.ts:32-45 | a non-POST verb on a method fails 405; POST invokes it exactly once with the id and body and returns 200 with its result |
| `EntityQuery.MethodsShadowMembers` | src/queryHandlers/EntityObjectQueryHandler.ts:32-46 | a name that is both a method and a member resolves as if the member did not exist |
| `EntityQuery.ArrayMemberDelegates` | src/queryHandlers/EntityObjectQueryHandler.ts:51-60 | an array member hands over to a fresh ArrayObject over that member and this object, whatever the verb and the rest of the path |
| `EntityQuery.ScalarMember` | src/queryHandlers/EntityObjectQueryHandler.ts:61-78 | more path after a scalar fails InvalidRequestPath before any verb check; as last segment GET gives 200 {value}, POST fails TryingToVariateNotVariableMember on a constant or mutates and returns the no-argument result, other verbs fail 405 |
| `EntityQuery.ReferenceMemberDelegates` | src/queryHandlers/EntityObjectQueryHandler.ts:79-91 | a reference member fetches {[name]: {id: true}} and hands over to the referenced type's handler, whatever the verb |
| `EntityQuery.UnknownSegmentFails` | src/queryHandlers/EntityObjectQueryHandler.ts:94-97 | a name neither method nor member fails MemeberOrMethodNotFound(entity name, segment), calling no hook |
| `EntityQuery.ReadOnlyVerbsChangeNothing` | src/queryHandlers/EntityObjectQueryHandler.ts:18-97 | a verb other than POST and DELETE never reaches a mutate, delete or method hook |
| `EntityQuery.ConstantMemberNeverMutated` | src/queryHandlers/EntityObjectQueryHandler.ts:66-71 | POST on a non-variable scalar fails and calls no hook, whatever the body |
| `EntityQuery.UserPetsExample` | src/queryHandlers/EntityObjectQueryHandler.ts:18-60 | the walk of User 42, pets, 0 hands over to the pets array, resolves index "0" to the listed id and ends with 200 and Pet's fetch with its default projection |

## Findings

| source | as written | input that shows it | evidently intended | confidence | as-written member | corrected member |
|---|---|---|---|---|---|---|
| src/ArrayObject.ts:40 | `if (indexNumber === NaN) throw new IndexIsNaNError(index)`: `===` is false whenever one side is NaN, so the guard never fires and NaN is returned | index "x": parseIndex returns NaN, and getIdByIndex then throws MemeberOrMethodNotFoundError | throw IndexIsNaNError (404, "Index must be a number. x is not a number.") whenever parseInt gives NaN, as `isNaN(indexNumber)` would test | not executed | `ArrayObjects.ParseIndexDiscrepancy` (about `ArrayObjects.ParseIndex`) | `ArrayObjects.ParseIndexIntended` (with `ArrayObjects.IntendedAgreesOnNumbers`) |

`GetIdByIndex` and `EntityQuery` keep the code's behaviour. `ParseIndexIntended`
and `IdByIndexIntended` are there to state the intended one.

## Left out

- The store hooks (`fetch`, `mutate`, `delete`, `fetchOneMember`, method `func`) and `await`: they are outside this model. A `Store` records each call as a tag, and payloads are symbolic.
- `EntityObject`, `ArrayQueryHandler`, `QueryHandler`/`ApiResult`, `EntitiesData` and the driver loop are not part of this model. Hand-overs are outcome tags. The no-argument `ApiResult()` is `DefaultApiResult`, whose status is set in `QueryHandler`.
- The JavaScript `Error` machinery (prototype chain, stack traces, `instanceof`): flattened into `ErrorKind` and `Raise`.
- `parseInt`: no number wider than 2^53 is rounded. No such index can be in range, so no lookup changes. Negative zero is `Int(0)`; both name slot "0".
- `Store.arrayIds`: the id list does not change between calls. So the race between resolving an index and using the id across concurrent requests is not modelled.
- Runtime TypeErrors on odd data are left out:
  - a `null` array entry;
  - `entities[typeName]` missing for a reference member (the `ToEntity` outcome carries only the type name);
  - a name that JavaScript's `in` finds on the prototype chain of the methods or members object, such as `toString`.
- `NewArrayObject`: requires that the member is declared as an array. The source casts without checking.
- Argument validation for methods and mutators is not implemented in the source (TODOs at src/queryHandlers/EntityObjectQueryHandler.ts:38 and :73).
