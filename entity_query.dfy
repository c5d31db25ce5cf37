/**
 * One resolution step against an entity instance
 * (EntityObjectQueryHandler.handleQueryElement). The handler first drops
 * its own segment from the caller's query array, in place; what remains of
 * the path, the verb and the schema then select one outcome: a terminal
 * ApiResult, a narrower handler to continue with, or an error.
 */
module EntityQuery {
  import opened Wrappers
  import opened Errors
  import opened Schema
  import opened ArrayObjects

  /** The handler's fields, set by its constructor only. */
  datatype EntityObjectQueryHandler = EntityObjectQueryHandler(entityObject: EntityObject, entitiesData: Registry)

  /** `query.shift()` on the remaining path: the tail, or [] for an empty array. */
  function Shifted(s: seq<string>): (r: seq<string>)
    ensures s == [] ==> r == []
    ensures s != [] ==> s == [s[0]] + r
  {
    if s == [] then [] else s[1..]
  }

  /** The path array the driver owns and hands from handler to handler. */
  class Query {
    var segments: seq<string>

    constructor (segments: seq<string>)
      ensures this.segments == segments
    {
      this.segments := segments;
    }

    /** `shift()`: removes and returns the first segment; undefined on an empty array. */
    method Shift() returns (first: Option<string>)
      modifies this
      ensures segments == Shifted(old(segments))
      ensures first == if old(segments) == [] then None else Some(old(segments)[0])
    {
      if segments == [] {
        first := None;
      } else {
        first := Some(segments[0]);
        segments := segments[1..];
      }
    }
  }

  /** What one step produces. */
  datatype Outcome =
      /** A terminal result, with the store calls made to produce it. */
    | Done(result: ApiResult, calls: seq<StoreCall>)
      /** `new ArrayQueryHandler(arrayObject, entitiesData)` */
    | ToArray(arrayObject: ArrayObject)
      /**
       * `new EntityObjectQueryHandler(new EntityObject(id, entities[typeName]))`
       * where id is `<result of lookup>[memberName].id`.
       */
    | ToEntity(lookup: StoreCall, memberName: string, typeName: string)
      /** A thrown error; no further step runs. */
    | Fail(error: ErrorKind)
  {
    /** The store calls the step made, in order. */
    function Calls(): seq<StoreCall>
    {
      match this
      case Done(_, calls) => calls
      case ToEntity(lookup, _, _) => [lookup]
      case _ => []
    }
  }

  /** The message of the 405 thrown when a method is reached with another verb than POST. */
  const MethodsOnlyPost := "For methods calling only POST requests are being accepted."

  /** The decision chain after the shift, on the remaining path `query`. */
  function Resolve(h: EntityObjectQueryHandler, query: seq<string>, httpMethod: string, body: Body): (o: Outcome)
    requires WellFormedEntity(h.entityObject.entity)
    ensures o.Fail? ==> Raise(o.error).httpCode in {404, 405}
    ensures o.Done? ==> |o.calls| == 1
    ensures o.ToArray? || o.ToEntity? ==> |query| > 0 && query[0] in h.entityObject.entity.members
    ensures o.ToArray? ==>
              o.arrayObject.entityMemberName == query[0] && o.arrayObject.ownerEntityObject == h.entityObject
  {
    var eo := h.entityObject;
    var entity := eo.entity;
    if httpMethod == "GET" && |query| == 0 then
      var call := Fetch(entity.name, eo.id, entity.defaultInclude);
      Done(ApiResult(200, HookResult(call)), [call])
    else if httpMethod == "POST" && |query| == 0 then
      var call := Mutate(entity.name, eo.id, body);
      Done(ApiResult(200, HookResult(call)), [call])
    else if httpMethod == "DELETE" && |query| == 0 then
      var call := Delete(entity.name, eo.id);
      Done(ApiResult(200, HookResult(call)), [call])
    else if |query| == 0 then
      Fail(InvalidRequestPath)
    else if query[0] in entity.methods then
      if httpMethod != "POST" then
        Fail(MethodNotAllowed(Some(MethodsOnlyPost)))
      else
        var call := Invoke(entity.name, query[0], eo.id, body);
        Done(ApiResult(200, HookResult(call)), [call])
    else if query[0] in entity.members then
      var entityMemberName := query[0];
      var entityMember := entity.members[entityMemberName];
      if entityMember.IsPrimitive() then
        if entityMember.TypeName() == "array" then
          ToArray(NewArrayObject(entityMemberName, eo, h.entitiesData))
        else if |query| > 1 then
          Fail(InvalidRequestPath)
        else if httpMethod == "GET" then
          var call := FetchOneMember(entity.name, eo.id, entityMemberName, None);
          Done(ApiResult(200, ValueOf(call)), [call])
        else if httpMethod == "POST" then
          if !entityMember.isVariable then
            Fail(TryingToVariateNotVariableMember(entity.name, entityMemberName))
          else
            Done(DefaultApiResult, [Mutate(entity.name, eo.id, body)])
        else
          Fail(MethodNotAllowed(None))
      else
        ToEntity(Fetch(entity.name, eo.id, IdOfMember(entityMemberName)), entityMemberName, entityMember.typeName)
    else
      Fail(MemeberOrMethodNotFound(entity.name, query[0]))
  }

  /**
   * `handleQueryElement(query, httpMethod, body)`: shifts the caller's
   * array, then takes the branch Resolve describes, calling the store hooks
   * that branch calls. A handler returned to the driver works on the same,
   * already shortened, array.
   */
  method HandleQueryElement(h: EntityObjectQueryHandler, query: Query, httpMethod: string, body: Body, store: Store)
    returns (o: Outcome)
    requires WellFormedEntity(h.entityObject.entity)
    modifies query, store`log
    ensures query.segments == Shifted(old(query.segments))
    ensures o == Resolve(h, query.segments, httpMethod, body)
    ensures store.log == old(store.log) + o.Calls()
  {
    var _ := query.Shift();
    var eo := h.entityObject;
    var entity := eo.entity;
    var path := query.segments;
    if httpMethod == "GET" && |path| == 0 {
      var call := Fetch(entity.name, eo.id, entity.defaultInclude);
      var p := store.Call(call);
      return Done(ApiResult(200, p), [call]);
    } else if httpMethod == "POST" && |path| == 0 {
      var call := Mutate(entity.name, eo.id, body);
      var p := store.Call(call);
      return Done(ApiResult(200, p), [call]);
    } else if httpMethod == "DELETE" && |path| == 0 {
      var call := Delete(entity.name, eo.id);
      var p := store.Call(call);
      return Done(ApiResult(200, p), [call]);
    }
    if |path| == 0 {
      return Fail(InvalidRequestPath);
    }
    if path[0] in entity.methods {
      if httpMethod != "POST" {
        return Fail(MethodNotAllowed(Some(MethodsOnlyPost)));
      }
      var call := Invoke(entity.name, path[0], eo.id, body);
      var p := store.Call(call);
      return Done(ApiResult(200, p), [call]);
    } else if path[0] in entity.members {
      var entityMemberName := path[0];
      var entityMember := entity.members[entityMemberName];
      if entityMember.IsPrimitive() {
        if entityMember.TypeName() == "array" {
          return ToArray(NewArrayObject(entityMemberName, eo, h.entitiesData));
        } else if |path| > 1 {
          return Fail(InvalidRequestPath);
        } else if httpMethod == "GET" {
          var call := FetchOneMember(entity.name, eo.id, entityMemberName, None);
          var p := store.Call(call);
          return Done(ApiResult(200, ValueOf(p.call)), [call]);
        } else if httpMethod == "POST" {
          if !entityMember.isVariable {
            return Fail(TryingToVariateNotVariableMember(entity.name, entityMemberName));
          }
          var call := Mutate(entity.name, eo.id, body);
          var _ := store.Call(call);
          return Done(DefaultApiResult, [call]);
        }
        return Fail(MethodNotAllowed(None));
      } else {
        var lookup := Fetch(entity.name, eo.id, IdOfMember(entityMemberName));
        var _ := store.Call(lookup);
        return ToEntity(lookup, entityMemberName, entityMember.typeName);
      }
    }
    return Fail(MemeberOrMethodNotFound(entity.name, path[0]));
  }

  /** How the next segment names something of the entity; methods are looked up first. */
  datatype SegmentKind =
    | MethodSegment
    | ArraySegment
    | ScalarSegment(isVariable: bool)
    | ReferenceSegment(typeName: string)
    | UnknownSegment

  function Classify(e: Entity, segment: string): SegmentKind
  {
    if segment in e.methods then MethodSegment
    else if segment in e.members then
      match e.members[segment]
      case ArrayOf(_) => ArraySegment
      case Scalar(_, v) => ScalarSegment(v)
      case Reference(t) => ReferenceSegment(t)
    else UnknownSegment
  }

  /** With no segment left: GET fetches, POST mutates, DELETE deletes, anything else is a bad path. */
  lemma EmptyPath(h: EntityObjectQueryHandler, httpMethod: string, body: Body)
    requires WellFormedEntity(h.entityObject.entity)
    ensures var eo := h.entityObject;
      var o := Resolve(h, [], httpMethod, body);
      && (httpMethod == "GET" ==>
            o == Done(ApiResult(200, HookResult(Fetch(eo.entity.name, eo.id, eo.entity.defaultInclude))),
                      [Fetch(eo.entity.name, eo.id, eo.entity.defaultInclude)]))
      && (httpMethod == "POST" ==>
            o == Done(ApiResult(200, HookResult(Mutate(eo.entity.name, eo.id, body))), [Mutate(eo.entity.name, eo.id, body)]))
      && (httpMethod == "DELETE" ==>
            o == Done(ApiResult(200, HookResult(Delete(eo.entity.name, eo.id))), [Delete(eo.entity.name, eo.id)]))
      && (httpMethod !in {"GET", "POST", "DELETE"} ==> o == Fail(InvalidRequestPath))
  {
  }

  /** A method accepts only POST, which invokes it exactly once and returns what it returned. */
  lemma MethodCall(h: EntityObjectQueryHandler, query: seq<string>, httpMethod: string, body: Body)
    requires WellFormedEntity(h.entityObject.entity)
    requires |query| > 0 && Classify(h.entityObject.entity, query[0]) == MethodSegment
    ensures var eo := h.entityObject;
      var o := Resolve(h, query, httpMethod, body);
      var call := Invoke(eo.entity.name, query[0], eo.id, body);
      && (httpMethod != "POST" ==> o == Fail(MethodNotAllowed(Some(MethodsOnlyPost))) && Raise(o.error).httpCode == 405)
      && (httpMethod == "POST" ==> o == Done(ApiResult(200, HookResult(call)), [call]))
  {
  }

  /** A name declared both as a method and as a member resolves as the method. */
  lemma MethodsShadowMembers(h: EntityObjectQueryHandler, query: seq<string>, httpMethod: string, body: Body)
    requires WellFormedEntity(h.entityObject.entity)
    requires |query| > 0 && query[0] in h.entityObject.entity.methods
    ensures var e := h.entityObject.entity;
      var hidden := EntityObjectQueryHandler(
        EntityObject(h.entityObject.id, e.(members := e.members - {query[0]})), h.entitiesData);
      WellFormedEntity(hidden.entityObject.entity) &&
      Resolve(h, query, httpMethod, body) == Resolve(hidden, query, httpMethod, body)
  {
  }

  /** An array member always hands over to an array handler, whatever the verb and the rest of the path. */
  lemma ArrayMemberDelegates(h: EntityObjectQueryHandler, query: seq<string>, httpMethod: string, body: Body)
    requires WellFormedEntity(h.entityObject.entity)
    requires |query| > 0 && Classify(h.entityObject.entity, query[0]) == ArraySegment
    ensures IsArrayMemberOf(query[0], h.entityObject)
    ensures Resolve(h, query, httpMethod, body) == ToArray(NewArrayObject(query[0], h.entityObject, h.entitiesData))
  {
  }

  /**
   * A scalar member is a leaf: a longer path is rejected before the verb is
   * looked at; as the last segment GET reads it, POST varies it when it is
   * variable, other verbs are refused.
   */
  lemma ScalarMember(h: EntityObjectQueryHandler, query: seq<string>, httpMethod: string, body: Body)
    requires WellFormedEntity(h.entityObject.entity)
    requires |query| > 0 && Classify(h.entityObject.entity, query[0]).ScalarSegment?
    ensures var eo := h.entityObject;
      var o := Resolve(h, query, httpMethod, body);
      var variable := Classify(eo.entity, query[0]).isVariable;
      && (|query| > 1 ==> o == Fail(InvalidRequestPath))
      && (|query| == 1 && httpMethod == "GET" ==>
            o == Done(ApiResult(200, ValueOf(FetchOneMember(eo.entity.name, eo.id, query[0], None))),
                      [FetchOneMember(eo.entity.name, eo.id, query[0], None)]))
      && (|query| == 1 && httpMethod == "POST" && !variable ==>
            o == Fail(TryingToVariateNotVariableMember(eo.entity.name, query[0])))
      && (|query| == 1 && httpMethod == "POST" && variable ==>
            o == Done(DefaultApiResult, [Mutate(eo.entity.name, eo.id, body)]))
      && (|query| == 1 && httpMethod != "GET" && httpMethod != "POST" ==> o == Fail(MethodNotAllowed(None)))
  {
  }

  /** A reference member looks up the referenced id and hands over to that entity's handler, whatever the verb. */
  lemma ReferenceMemberDelegates(h: EntityObjectQueryHandler, query: seq<string>, httpMethod: string, body: Body)
    requires WellFormedEntity(h.entityObject.entity)
    requires |query| > 0 && Classify(h.entityObject.entity, query[0]).ReferenceSegment?
    ensures var eo := h.entityObject;
      Resolve(h, query, httpMethod, body) ==
      ToEntity(Fetch(eo.entity.name, eo.id, IdOfMember(query[0])), query[0], Classify(eo.entity, query[0]).typeName)
  {
  }

  /** A name that is neither a method nor a member fails naming the entity and the segment, calling no hook. */
  lemma UnknownSegmentFails(h: EntityObjectQueryHandler, query: seq<string>, httpMethod: string, body: Body)
    requires WellFormedEntity(h.entityObject.entity)
    requires |query| > 0 && Classify(h.entityObject.entity, query[0]) == UnknownSegment
    ensures Resolve(h, query, httpMethod, body) == Fail(MemeberOrMethodNotFound(h.entityObject.entity.name, query[0]))
    ensures Resolve(h, query, httpMethod, body).Calls() == []
  {
  }

  /** Only POST and DELETE can reach a hook that changes the store. */
  lemma ReadOnlyVerbsChangeNothing(h: EntityObjectQueryHandler, query: seq<string>, httpMethod: string, body: Body)
    requires WellFormedEntity(h.entityObject.entity)
    requires httpMethod != "POST" && httpMethod != "DELETE"
    ensures forall c :: c in Resolve(h, query, httpMethod, body).Calls() ==> !c.Changes()
  {
  }

  /** POST on a member that is not variable never mutates, whatever the body. */
  lemma ConstantMemberNeverMutated(h: EntityObjectQueryHandler, query: seq<string>, body: Body)
    requires WellFormedEntity(h.entityObject.entity)
    requires |query| == 1 && Classify(h.entityObject.entity, query[0]) == ScalarSegment(false)
    ensures Resolve(h, query, "POST", body).Fail?
    ensures Resolve(h, query, "POST", body).Calls() == []
  {
  }

  /**
   * The walk of GET /entities/User/42/pets/0, where User has an array member
   * "pets" of Pet references and the pets id list is ["p7"]: the User handler
   * hands over to an array handler over "pets", index "0" resolves to "p7",
   * and the Pet handler, left with no segment, fetches Pet p7 with Pet's
   * default projection. (The array handler's own step is not part of this
   * model; the example calls its getIdByIndex directly.)
   */
  lemma UserPetsExample(petInclude: Include, userInclude: Include, body: Body)
    ensures var pet := Entity("Pet", map[], {}, petInclude);
      var user := Entity("User", map["pets" := ArrayOf(Reference("Pet"))], {}, userInclude);
      var registry := map["User" := user, "Pet" := pet];
      var users42 := EntityObjectQueryHandler(EntityObject("42", user), registry);
      var pets := ArrayObject("pets", EntityObject("42", user), Some(pet));
      && Shifted(["42", "pets", "0"]) == ["pets", "0"]
      && Resolve(users42, ["pets", "0"], "GET", body) == ToArray(pets)
      && IdByIndex(pets, "0", ["p7"]) == Success("p7")
      && Resolve(EntityObjectQueryHandler(EntityObject("p7", pet), registry), [], "GET", body) ==
         Done(ApiResult(200, HookResult(Fetch("Pet", "p7", petInclude))), [Fetch("Pet", "p7", petInclude)])
  {
    var pet := Entity("Pet", map[], {}, petInclude);
    var user := Entity("User", map["pets" := ArrayOf(Reference("Pet"))], {}, userInclude);
    var registry := map["User" := user, "Pet" := pet];
    var pets := ArrayObject("pets", EntityObject("42", user), Some(pet));
    assert WellFormedEntity(user) by {
      assert user.members.Keys == {"pets"};
    }
    var users42 := EntityObjectQueryHandler(EntityObject("42", user), registry);
    assert Classify(user, "pets") == ArraySegment;
    ArrayMemberDelegates(users42, ["pets", "0"], "GET", body);
    assert NewArrayObject("pets", EntityObject("42", user), registry) == pets;
    EmptyPath(EntityObjectQueryHandler(EntityObject("p7", pet), registry), "GET", body);
    JsNumbers.ParseIntDecimal(0, "");
    assert JsNumbers.DecimalString(0) + "" == "0";
  }
}
