/**
 * The error taxonomy of the resolver (src/errors.ts). Every error the engine
 * throws is an EasyRestError: a message plus the HTTP status the driver
 * answers with. The JavaScript subclass chain is flattened into one closed
 * datatype of kinds; `Raise` builds the record a kind's constructor produces,
 * going through the same parent constructor as the source does.
 */
module Errors {
  import opened Wrappers

  /** What an EasyRestError stores: exactly the message and code given to it. */
  datatype EasyRestError = EasyRestError(message: string, httpCode: int)

  /** JavaScript `message || fallback`: undefined and "" are both falsy. */
  function OrFallback(message: Option<string>, fallback: string): string
  {
    if message.Some? && message.value != "" then message.value else fallback
  }

  /** `new MethodNotAllowedError(message?)` */
  function MethodNotAllowedError(message: Option<string>): (e: EasyRestError)
    ensures e.httpCode == 405
    ensures message.Some? && message.value != "" ==> e.message == message.value
    ensures message.None? || message.value == "" ==> e.message == "Method not allowed."
  {
    EasyRestError(OrFallback(message, "Method not allowed."), 405)
  }

  /** `new NotFoundError(message?)` */
  function NotFoundError(message: Option<string>): (e: EasyRestError)
    ensures e.httpCode == 404
    ensures message.Some? && message.value != "" ==> e.message == message.value
    ensures message.None? || message.value == "" ==> e.message == "Not found."
  {
    EasyRestError(OrFallback(message, "Not found."), 404)
  }

  /** `new BadRequestError(message?)` */
  function BadRequestError(message: Option<string>): (e: EasyRestError)
    ensures e.httpCode == 400
    ensures message.Some? && message.value != "" ==> e.message == message.value
    ensures message.None? || message.value == "" ==> e.message == "Bad request."
  {
    EasyRestError(OrFallback(message, "Bad request."), 400)
  }

  /** The concrete error classes, with the constructor arguments each takes. */
  datatype ErrorKind =
    | MethodNotAllowed(message: Option<string>)
    | NotFound(message: Option<string>)
    | BadRequest(message: Option<string>)
    | InvalidEntityId(id: string, entityName: string)
    | InvalidPutUsage
    | EntitiesPrefixMissing
    | InvalidEntityName(entityName: string)
    | NoCreatorFunctionProvided(entityName: string)
    | NoMutatorFunctionProvided(entityName: string)
    | NoDeleterFunctionProvided(entityName: string)
    | InvalidRequestPath
    | MemeberOrMethodNotFound(entityName: string, memberOrMethodName: string)
    | TryingToVariateNotVariableMember(entityName: string, memberName: string)
    | IndexIsNaN(index: string)
    | InvalidMethodArguments
    | InvalidCreatorArguments
    | InvalidMutatorArguments

  /**
   * The message a kind's constructor passes up to its parent class; the three
   * parent classes themselves forward their optional argument.
   */
  function Detail(k: ErrorKind): Option<string>
  {
    match k
    case MethodNotAllowed(m) => m
    case NotFound(m) => m
    case BadRequest(m) => m
    case InvalidEntityId(id, entityName) =>
      Some("Failed to find object with id " + id + " of the entity " + entityName + ".")
    case InvalidPutUsage =>
      Some("It's allowed to use PUT method only for creating new objects.")
    case EntitiesPrefixMissing =>
      Some("\"/entities/\" prefix is missing. Each api request path must start with this prefix.")
    case InvalidEntityName(entityName) =>
      Some("Failed to find entity " + entityName + ".")
    case NoCreatorFunctionProvided(entityName) =>
      Some("There is no creator function provided for the entity " + entityName + ".")
    case NoMutatorFunctionProvided(entityName) =>
      Some("There is no mutator function provided for the entity " + entityName + ".")
    case NoDeleterFunctionProvided(entityName) =>
      Some("There is no deleter function provided for the entity " + entityName + ".")
    case InvalidRequestPath =>
      Some("Invalid request path.")
    case MemeberOrMethodNotFound(entityName, name) =>
      Some("Entity " + entityName + " has no member or method member " + name + ".")
    case TryingToVariateNotVariableMember(entityName, memberName) =>
      Some("It's not allowed to variate member " + memberName + " of entity " + entityName + ".")
    case IndexIsNaN(index) =>
      Some("Index must be a number. " + index + " is not a number.")
    case InvalidMethodArguments =>
      Some("Invalid method arguments.")
    case InvalidCreatorArguments =>
      Some("Invalid creator arguments.")
    case InvalidMutatorArguments =>
      Some("Invalid mutator arguments.")
  }

  /** The error object `new <Kind>(args)` evaluates to: its parent's constructor applied to its detail. */
  function Raise(k: ErrorKind): (e: EasyRestError)
    ensures e.httpCode in {400, 404, 405}
    ensures e.message != ""
  {
    match FamilyOf(k)
    case MethodNotAllowedFamily => MethodNotAllowedError(Detail(k))
    case NotFoundFamily => NotFoundError(Detail(k))
    case BadRequestFamily => BadRequestError(Detail(k))
  }

  /** The parent class each concrete error extends. */
  datatype Family = MethodNotAllowedFamily | NotFoundFamily | BadRequestFamily

  function FamilyOf(k: ErrorKind): Family
  {
    match k
    case MethodNotAllowed(_) | InvalidPutUsage | TryingToVariateNotVariableMember(_, _) =>
      MethodNotAllowedFamily
    case BadRequest(_) | InvalidMethodArguments | InvalidCreatorArguments | InvalidMutatorArguments =>
      BadRequestFamily
    case _ => NotFoundFamily
  }

  /** The status each parent class passes to EasyRestError. */
  function FamilyStatus(f: Family): int
  {
    match f
    case MethodNotAllowedFamily => 405
    case NotFoundFamily => 404
    case BadRequestFamily => 400
  }

  /** A raised error's status is fixed by the class it extends, never by its arguments. */
  lemma StatusFollowsFamily(k: ErrorKind)
    ensures Raise(k).httpCode == FamilyStatus(FamilyOf(k))
  {
  }

  /** The 404 group: exactly the misses the engine reports as "not found". */
  lemma NotFoundKinds(k: ErrorKind)
    ensures Raise(k).httpCode == 404 <==>
      k.NotFound? || k.InvalidEntityId? || k.EntitiesPrefixMissing? || k.InvalidEntityName? ||
      k.NoCreatorFunctionProvided? || k.NoMutatorFunctionProvided? || k.NoDeleterFunctionProvided? ||
      k.InvalidRequestPath? || k.MemeberOrMethodNotFound? || k.IndexIsNaN?
  {
    StatusFollowsFamily(k);
    NotFoundFamilyKinds(k);
  }

  /** The kinds whose class extends NotFoundError. */
  lemma NotFoundFamilyKinds(k: ErrorKind)
    ensures FamilyOf(k) == NotFoundFamily <==>
      k.NotFound? || k.InvalidEntityId? || k.EntitiesPrefixMissing? || k.InvalidEntityName? ||
      k.NoCreatorFunctionProvided? || k.NoMutatorFunctionProvided? || k.NoDeleterFunctionProvided? ||
      k.InvalidRequestPath? || k.MemeberOrMethodNotFound? || k.IndexIsNaN?
  {
  }

  /** The 405 group: a wrong verb, PUT used for update, varying a constant member. */
  lemma MethodNotAllowedKinds(k: ErrorKind)
    ensures Raise(k).httpCode == 405 <==>
      k.MethodNotAllowed? || k.InvalidPutUsage? || k.TryingToVariateNotVariableMember?
  {
    StatusFollowsFamily(k);
  }

  /** The 400 group: argument validation failures. */
  lemma BadRequestKinds(k: ErrorKind)
    ensures Raise(k).httpCode == 400 <==>
      k.BadRequest? || k.InvalidMethodArguments? || k.InvalidCreatorArguments? || k.InvalidMutatorArguments?
  {
    StatusFollowsFamily(k);
    BadRequestFamilyKinds(k);
  }

  /** The kinds whose class extends BadRequestError. */
  lemma BadRequestFamilyKinds(k: ErrorKind)
    ensures FamilyOf(k) == BadRequestFamily <==>
      k.BadRequest? || k.InvalidMethodArguments? || k.InvalidCreatorArguments? || k.InvalidMutatorArguments?
  {
  }

  /** The constructor arguments a kind interpolates into its message. */
  function Arguments(k: ErrorKind): seq<string>
  {
    match k
    case InvalidEntityId(id, entityName) => [id, entityName]
    case InvalidEntityName(entityName) => [entityName]
    case NoCreatorFunctionProvided(entityName) => [entityName]
    case NoMutatorFunctionProvided(entityName) => [entityName]
    case NoDeleterFunctionProvided(entityName) => [entityName]
    case MemeberOrMethodNotFound(entityName, name) => [entityName, name]
    case TryingToVariateNotVariableMember(entityName, memberName) => [entityName, memberName]
    case IndexIsNaN(index) => [index]
    case _ => []
  }

  /** `t` appears in `s` as a contiguous run. */
  ghost predicate Occurs(t: string, s: string)
  {
    exists i :: 0 <= i && OccursAt(t, s, i)
  }

  predicate OccursAt(t: string, s: string, i: nat)
  {
    i + |t| <= |s| && s[i..i + |t|] == t
  }

  lemma OccursBetween(pre: string, t: string, post: string)
    ensures Occurs(t, pre + t + post)
  {
    var s := pre + t + post;
    assert s[|pre|..|pre| + |t|] == t;
    assert OccursAt(t, s, |pre|);
  }

  /** Both holes of a two-argument template are quoted. */
  lemma OccursInTemplate(a: string, x: string, b: string, y: string, c: string)
    ensures Occurs(x, a + x + b + y + c) && Occurs(y, a + x + b + y + c)
  {
    assert a + x + b + y + c == a + x + (b + y + c);
    OccursBetween(a, x, b + y + c);
    OccursBetween(a + x + b, y, c);
  }

  /** A non-empty detail is the message, whichever parent class passes it on. */
  lemma RaiseKeepsDetail(k: ErrorKind)
    requires Detail(k).Some? && Detail(k).value != ""
    ensures Raise(k).message == Detail(k).value
  {
    var d := Detail(k);
    match FamilyOf(k)
    case MethodNotAllowedFamily => assert Raise(k) == MethodNotAllowedError(d);
    case NotFoundFamily => assert Raise(k) == NotFoundError(d);
    case BadRequestFamily => assert Raise(k) == BadRequestError(d);
  }

  /** A detail built from a two-hole template puts both holes into the message. */
  lemma QuotesTwo(k: ErrorKind, a: string, x: string, b: string, y: string, c: string)
    requires Detail(k) == Some(a + x + b + y + c) && c != ""
    ensures Occurs(x, Raise(k).message) && Occurs(y, Raise(k).message)
  {
    RaiseKeepsDetail(k);
    OccursInTemplate(a, x, b, y, c);
  }

  /** A detail built from a one-hole template puts the hole into the message. */
  lemma QuotesOne(k: ErrorKind, a: string, x: string, c: string)
    requires Detail(k) == Some(a + x + c) && c != ""
    ensures Occurs(x, Raise(k).message)
  {
    RaiseKeepsDetail(k);
    OccursBetween(a, x, c);
  }

  // One lemma per template keeps each proof small.

  lemma QuotesInvalidEntityId(id: string, entityName: string)
    ensures var k := InvalidEntityId(id, entityName);
      forall i :: 0 <= i < |Arguments(k)| ==> Occurs(Arguments(k)[i], Raise(k).message)
  {
    var k := InvalidEntityId(id, entityName);
    QuotesTwo(k, "Failed to find object with id ", id, " of the entity ", entityName, ".");
    assert Arguments(k) == [id, entityName];
  }

  lemma QuotesInvalidEntityName(entityName: string)
    ensures var k := InvalidEntityName(entityName);
      forall i :: 0 <= i < |Arguments(k)| ==> Occurs(Arguments(k)[i], Raise(k).message)
  {
    var k := InvalidEntityName(entityName);
    QuotesOne(k, "Failed to find entity ", entityName, ".");
    assert Arguments(k) == [entityName];
  }

  lemma QuotesNoCreatorFunctionProvided(entityName: string)
    ensures var k := NoCreatorFunctionProvided(entityName);
      forall i :: 0 <= i < |Arguments(k)| ==> Occurs(Arguments(k)[i], Raise(k).message)
  {
    var k := NoCreatorFunctionProvided(entityName);
    QuotesOne(k, "There is no creator function provided for the entity ", entityName, ".");
    assert Arguments(k) == [entityName];
  }

  lemma QuotesNoMutatorFunctionProvided(entityName: string)
    ensures var k := NoMutatorFunctionProvided(entityName);
      forall i :: 0 <= i < |Arguments(k)| ==> Occurs(Arguments(k)[i], Raise(k).message)
  {
    var k := NoMutatorFunctionProvided(entityName);
    QuotesOne(k, "There is no mutator function provided for the entity ", entityName, ".");
    assert Arguments(k) == [entityName];
  }

  lemma QuotesNoDeleterFunctionProvided(entityName: string)
    ensures var k := NoDeleterFunctionProvided(entityName);
      forall i :: 0 <= i < |Arguments(k)| ==> Occurs(Arguments(k)[i], Raise(k).message)
  {
    var k := NoDeleterFunctionProvided(entityName);
    QuotesOne(k, "There is no deleter function provided for the entity ", entityName, ".");
    assert Arguments(k) == [entityName];
  }

  lemma QuotesMemeberOrMethodNotFound(entityName: string, name: string)
    ensures var k := MemeberOrMethodNotFound(entityName, name);
      forall i :: 0 <= i < |Arguments(k)| ==> Occurs(Arguments(k)[i], Raise(k).message)
  {
    var k := MemeberOrMethodNotFound(entityName, name);
    QuotesTwo(k, "Entity ", entityName, " has no member or method member ", name, ".");
    assert Arguments(k) == [entityName, name];
  }

  lemma QuotesTryingToVariateNotVariableMember(entityName: string, memberName: string)
    ensures var k := TryingToVariateNotVariableMember(entityName, memberName);
      forall i :: 0 <= i < |Arguments(k)| ==> Occurs(Arguments(k)[i], Raise(k).message)
  {
    var k := TryingToVariateNotVariableMember(entityName, memberName);
    QuotesTwo(k, "It's not allowed to variate member ", memberName, " of entity ", entityName, ".");
    assert Arguments(k) == [entityName, memberName];
  }

  lemma QuotesIndexIsNaN(index: string)
    ensures var k := IndexIsNaN(index);
      forall i :: 0 <= i < |Arguments(k)| ==> Occurs(Arguments(k)[i], Raise(k).message)
  {
    var k := IndexIsNaN(index);
    QuotesOne(k, "Index must be a number. ", index, " is not a number.");
    assert Arguments(k) == [index];
  }

  /** Every message quotes each of its constructor's arguments verbatim. */
  lemma {:induction false} MessageQuotesArguments(k: ErrorKind)
    ensures forall i :: 0 <= i < |Arguments(k)| ==> Occurs(Arguments(k)[i], Raise(k).message)
  {
    match k
    case InvalidEntityId(id, entityName) => QuotesInvalidEntityId(id, entityName);
    case InvalidEntityName(entityName) => QuotesInvalidEntityName(entityName);
    case NoCreatorFunctionProvided(entityName) => QuotesNoCreatorFunctionProvided(entityName);
    case NoMutatorFunctionProvided(entityName) => QuotesNoMutatorFunctionProvided(entityName);
    case NoDeleterFunctionProvided(entityName) => QuotesNoDeleterFunctionProvided(entityName);
    case MemeberOrMethodNotFound(entityName, name) => QuotesMemeberOrMethodNotFound(entityName, name);
    case TryingToVariateNotVariableMember(entityName, memberName) => QuotesTryingToVariateNotVariableMember(entityName, memberName);
    case IndexIsNaN(index) => QuotesIndexIsNaN(index);
    case _ =>
  }

  /** The not-found message of a missing member or method, with both names as given. */
  lemma MemberOrMethodNotFoundText(entityName: string, name: string)
    ensures Raise(MemeberOrMethodNotFound(entityName, name)) ==
      EasyRestError("Entity " + entityName + " has no member or method member " + name + ".", 404)
  {
  }
}
