/**
 * The schema surface the resolver consumes (entities, members, projections)
 * and the store hooks it calls. The hooks live outside this model: a Store
 * records every call made to it, in order, and answers the one read whose
 * value the resolver inspects (the id list of an array member).
 */
module Schema {
  import opened Wrappers

  /** A projection: each selected member maps to `true` or to a nested projection. */
  datatype Include = Include(fields: map<string, Selection>)
  datatype Selection = Whole | Nested(sub: Include)

  /** `{id: true}` */
  const IdOnly: Include := Include(map["id" := Whole])

  /** `{[name]: {id: true}}` */
  function IdOfMember(name: string): Include
  {
    Include(map[name := Nested(IdOnly)])
  }

  /**
   * A declared member. Arrays are primitive members whose type name is
   * "array" and which describe their elements; references are the only
   * non-primitive members.
   */
  datatype Member =
    | Scalar(typeName: string, isVariable: bool)
    | ArrayOf(elementMember: Member)
    | Reference(typeName: string)
  {
    predicate IsPrimitive()
    {
      !Reference?
    }

    function TypeName(): string
    {
      match this
      case Scalar(t, _) => t
      case ArrayOf(_) => "array"
      case Reference(t) => t
    }
  }

  /** The schema layer only builds array-typed members as ArrayOf. */
  predicate WellFormedMember(m: Member)
  {
    match m
    case Scalar(t, _) => t != "array"
    case ArrayOf(e) => WellFormedMember(e)
    case Reference(_) => true
  }

  /** One resource type: its members, its custom methods and its default projection. */
  datatype Entity = Entity(name: string, members: map<string, Member>, methods: set<string>, defaultInclude: Include)

  predicate WellFormedEntity(e: Entity)
  {
    forall n :: n in e.members ==> WellFormedMember(e.members[n])
  }

  /** The registry of entities by type name (EntitiesData.entities). */
  type Registry = map<string, Entity>

  /** A handle on one instance: an identity bound to its entity. */
  datatype EntityObject = EntityObject(id: string, entity: Entity)

  /** A request body, passed through to the hooks untouched. */
  type Body = string

  /** One invocation of a store hook. */
  datatype StoreCall =
    | Fetch(entity: string, id: string, projection: Include)
    | FetchOneMember(entity: string, id: string, member: string, memberInclude: Option<Include>)
    | Mutate(entity: string, id: string, body: Body)
    | Delete(entity: string, id: string)
    | Invoke(entity: string, methodName: string, id: string, body: Body)
  {
    /** The hooks that change the store. */
    predicate Changes()
    {
      Mutate? || Delete? || Invoke?
    }
  }

  /** A reply body: what a hook call returned, or `{value: <what it returned>}`. */
  datatype Payload = HookResult(call: StoreCall) | ValueOf(call: StoreCall)

  /** `new ApiResult(statusCode, payload)`, or the no-argument `new ApiResult()`. */
  datatype ApiResult = ApiResult(statusCode: int, payload: Payload) | DefaultApiResult

  /** The backing store as the resolver sees it. */
  class Store {
    /** Every hook call made so far, oldest first. */
    var log: seq<StoreCall>
    /** The ids an id-only fetch of (entity, object id, array member) currently returns. */
    var arrayIds: (string, string, string) -> seq<string>

    constructor (arrayIds: (string, string, string) -> seq<string>)
      ensures log == [] && this.arrayIds == arrayIds
    {
      log := [];
      this.arrayIds := arrayIds;
    }

    /** Calls a hook whose result is passed on without being inspected. */
    method Call(c: StoreCall) returns (p: Payload)
      modifies this`log
      ensures log == old(log) + [c]
      ensures p == HookResult(c)
    {
      log := log + [c];
      p := HookResult(c);
    }

    /** `fetchOneMember(member, {id: true})` on an array member: the current ids, in order. */
    method FetchIds(entity: string, id: string, member: string) returns (ids: seq<string>)
      modifies this`log
      ensures log == old(log) + [FetchOneMember(entity, id, member, Some(IdOnly))]
      ensures ids == arrayIds(entity, id, member)
    {
      log := log + [FetchOneMember(entity, id, member, Some(IdOnly))];
      ids := arrayIds(entity, id, member);
    }
  }
}
