/**
 * A handle on one array-typed member of an owner object, and the
 * translation of a positional index segment into the identity of the
 * element at that position (src/ArrayObject.ts).
 */
module ArrayObjects {
  import opened Wrappers
  import opened Errors
  import opened Schema
  import opened JsNumbers

  /**
   * The handle's fields; the constructor sets them and nothing reassigns
   * them. `elementEntity` is the entity of the elements when they are
   * references, and None when they are primitives.
   */
  datatype ArrayObject = ArrayObject(entityMemberName: string, ownerEntityObject: EntityObject, elementEntity: Option<Entity>)

  /** `name` is declared by the owner's entity as an array member. */
  predicate IsArrayMemberOf(name: string, owner: EntityObject)
  {
    name in owner.entity.members && owner.entity.members[name].ArrayOf?
  }

  /** The getter `elementEntityMember`: the element description of the wrapped member. */
  function ElementMember(name: string, owner: EntityObject): Member
    requires IsArrayMemberOf(name, owner)
  {
    owner.entity.members[name].elementMember
  }

  /** `new ArrayObject(name, owner, entitiesData)` */
  function NewArrayObject(name: string, owner: EntityObject, entitiesData: Registry): (a: ArrayObject)
    requires IsArrayMemberOf(name, owner)
    ensures a.entityMemberName == name && a.ownerEntityObject == owner
    ensures a.elementEntity.Some? <==>
              !ElementMember(name, owner).IsPrimitive() && ElementMember(name, owner).TypeName() in entitiesData
    ensures !ElementMember(name, owner).IsPrimitive() && ElementMember(name, owner).TypeName() in entitiesData ==>
      a.elementEntity == Some(entitiesData[ElementMember(name, owner).TypeName()])
  {
    var element := ElementMember(name, owner);
    // a type name missing from the registry reads as undefined, i.e. unset
    var elementEntity :=
      if !element.IsPrimitive() && element.TypeName() in entitiesData
      then Some(entitiesData[element.TypeName()])
      else None;
    ArrayObject(name, owner, elementEntity)
  }

  /** In a registry that holds every referenced type, elementEntity is set exactly for reference elements. */
  lemma ElementEntitySetIffReference(name: string, owner: EntityObject, entitiesData: Registry)
    requires IsArrayMemberOf(name, owner)
    requires !ElementMember(name, owner).IsPrimitive() ==> ElementMember(name, owner).TypeName() in entitiesData
    ensures NewArrayObject(name, owner, entitiesData).elementEntity.Some? <==> !ElementMember(name, owner).IsPrimitive()
  {
  }

  /** The store call behind `fetch(include)`: the owner's fetchOneMember on this member. */
  function FetchCall(a: ArrayObject, elementInclude: Option<Include>): (c: StoreCall)
    ensures c.FetchOneMember? && !c.Changes()
    ensures c.entity == a.ownerEntityObject.entity.name && c.id == a.ownerEntityObject.id
    ensures c.member == a.entityMemberName && c.memberInclude == elementInclude
  {
    FetchOneMember(a.ownerEntityObject.entity.name, a.ownerEntityObject.id, a.entityMemberName, elementInclude)
  }

  /** `fetch(elementInclude?)`: exactly one fetchOneMember on the owner, result passed through. */
  method Fetch(a: ArrayObject, store: Store, elementInclude: Option<Include>) returns (p: Payload)
    modifies store`log
    ensures store.log == old(store.log) + [FetchCall(a, elementInclude)]
    ensures p == HookResult(FetchCall(a, elementInclude))
  {
    p := store.Call(FetchCall(a, elementInclude));
  }

  /**
   * `parseIndex(index)` as written: the guard `indexNumber === NaN` compares
   * with NaN, which is strictly equal to nothing, so the guard never fires and
   * NaN itself is returned for a non-numeric index.
   */
  function ParseIndex(index: string): (r: Result<JsNumber, ErrorKind>)
    ensures r == Success(ParseInt(index))
  {
    var indexNumber := ParseInt(index);
    if StrictEquals(indexNumber, NaN) then Failure(IndexIsNaN(index)) else Success(indexNumber)
  }

  /** `ids[n]` on a JavaScript array: None stands for undefined. */
  function Element(ids: seq<string>, n: JsNumber): (r: Option<string>)
    ensures r.Some? <==> n.Int? && 0 <= n.value < |ids|
    ensures r.Some? ==> r.value == ids[n.value]
  {
    match n
    case Int(k) => if 0 <= k < |ids| then Some(ids[k]) else None
    case NaN => None
  }

  /** The entity part of the not-found error: "<owner entity>.<member> array". */
  function ArrayLabel(a: ArrayObject): string
  {
    a.ownerEntityObject.entity.name + "." + a.entityMemberName + " array"
  }

  /** What getIdByIndex(index) yields when the id-only fetch returns `ids`. */
  function IdByIndex(a: ArrayObject, index: string, ids: seq<string>): (r: Result<string, ErrorKind>)
    ensures r.Success? <==> ParseInt(index).Int? && 0 <= ParseInt(index).value < |ids|
    ensures r.Success? ==> r.value == ids[ParseInt(index).value]
    ensures r.Failure? ==> r.error == MemeberOrMethodNotFound(ArrayLabel(a), index)
  {
    match ParseIndex(index)
    case Failure(e) => Failure(e)
    case Success(n) =>
      match Element(ids, n)
      case None => Failure(MemeberOrMethodNotFound(ArrayLabel(a), index))
      case Some(id) => Success(id)
  }

  /** The single store call getIdByIndex makes: fetchOneMember(member, {id: true}). */
  function IdFetch(a: ArrayObject): StoreCall
  {
    FetchCall(a, Some(IdOnly))
  }

  /**
   * `getIdByIndex(index)`: parse the index, fetch the current ids once,
   * return the id at the parsed position or fail naming the array.
   */
  method GetIdByIndex(a: ArrayObject, store: Store, index: string) returns (r: Result<string, ErrorKind>)
    modifies store`log
    ensures store.log == old(store.log) + [IdFetch(a)]
    ensures r == IdByIndex(a, index, old(store.arrayIds)(a.ownerEntityObject.entity.name, a.ownerEntityObject.id, a.entityMemberName))
  {
    // ParseIndex never fails (see its contract), so there is no early exit
    var elementIndex := ParseIndex(index).value;
    var arrayElementsIds := store.FetchIds(a.ownerEntityObject.entity.name, a.ownerEntityObject.id, a.entityMemberName);
    var element := Element(arrayElementsIds, elementIndex);
    if element.None? {
      r := Failure(MemeberOrMethodNotFound(ArrayLabel(a), index));
    } else {
      r := Success(element.value);
    }
  }

  /** The not-a-number error is unreachable: a non-numeric index fails as a missing member. */
  lemma NonNumericIndexIsNotFound(a: ArrayObject, index: string, ids: seq<string>)
    requires ParseInt(index).NaN?
    ensures ParseIndex(index) == Success(NaN)
    ensures IdByIndex(a, index, ids) == Failure(MemeberOrMethodNotFound(ArrayLabel(a), index))
    ensures IdByIndex(a, index, ids) != Failure(IndexIsNaN(index))
  {
  }

  /**
   * An index spelled as a decimal number (possibly followed by non-digits,
   * as in "3abc") selects that position when it is in bounds, and fails as
   * not found otherwise.
   */
  lemma DecimalIndex(a: ArrayObject, n: nat, rest: string, ids: seq<string>)
    requires StopsDecimal(n, rest)
    ensures n < |ids| ==> IdByIndex(a, DecimalString(n) + rest, ids) == Success(ids[n])
    ensures n >= |ids| ==>
              IdByIndex(a, DecimalString(n) + rest, ids) ==
              Failure(MemeberOrMethodNotFound(ArrayLabel(a), DecimalString(n) + rest))
  {
    ParseIntDecimal(n, rest);
  }

  /** A negative index never names an element. */
  lemma NegativeIndex(a: ArrayObject, n: nat, ids: seq<string>)
    requires n > 0
    ensures IdByIndex(a, "-" + DecimalString(n), ids) ==
      Failure(MemeberOrMethodNotFound(ArrayLabel(a), "-" + DecimalString(n)))
  {
    ParseIntNegativeDecimal(n, "");
    assert "-" + DecimalString(n) + "" == "-" + DecimalString(n);
  }

  // The examples take the index as a parameter pinned down by their requires
  // (the one-letter index "x" is written by its length and its character), so
  // that the verifier does not evaluate parseInt on a literal eagerly.

  /** parseIndex("3") is 3. */
  lemma ParseIndexOfDigit(index: string)
    requires index == "3"
    ensures ParseIndex(index) == Success(Int(3))
  {
    assert DecimalString(3) == "3";
    ParseIntDecimal(3, "");
    assert DecimalString(3) + "" == index;
  }

  /** parseIndex("3abc") is 3: the letters after the digits are ignored. */
  lemma ParseIndexOfDigitThenLetters(index: string)
    requires index == "3abc"
    ensures ParseIndex(index) == Success(Int(3))
  {
    assert DecimalString(3) == "3";
    ParseIntDecimal(3, "abc");
    assert DecimalString(3) + "abc" == index;
  }

  /** parseIndex("x") is NaN rather than an error. */
  lemma ParseIndexOfLetter(index: string)
    requires |index| == 1 && index[0] == 'x'
    ensures ParseIndex(index) == Success(NaN)
  {
    assert ParseInt(index).NaN? by {
      ParseIntNonNumeric(index);
    }
  }

  /**
   * parseIndex as its error class intends it: a string that does not parse
   * to an integer is rejected with IndexIsNaN.
   */
  function ParseIndexIntended(index: string): (r: Result<JsNumber, ErrorKind>)
    ensures r.Failure? <==> ParseInt(index).NaN?
    ensures r.Failure? ==> r.error == IndexIsNaN(index)
    ensures r.Success? ==> r.value.Int? && r.value == ParseInt(index)
  {
    var indexNumber := ParseInt(index);
    if indexNumber.NaN? then Failure(IndexIsNaN(index)) else Success(indexNumber)
  }

  /** getIdByIndex on top of the intended parseIndex. */
  function IdByIndexIntended(a: ArrayObject, index: string, ids: seq<string>): (r: Result<string, ErrorKind>)
    ensures ParseInt(index).NaN? ==> r == Failure(IndexIsNaN(index))
    ensures ParseInt(index).Int? ==> r == IdByIndex(a, index, ids)
  {
    match ParseIndexIntended(index)
    case Failure(e) => Failure(e)
    case Success(n) =>
      match Element(ids, n)
      case None => Failure(MemeberOrMethodNotFound(ArrayLabel(a), index))
      case Some(id) => Success(id)
  }

  /** On every index that parses to an integer, the code as written and the intended parse agree. */
  lemma IntendedAgreesOnNumbers(index: string)
    requires ParseInt(index).Int?
    ensures ParseIndexIntended(index) == ParseIndex(index)
  {
  }

  /** On an index that parses to NaN the two differ in the error they report. */
  lemma IntendedDiffersOnNaN(a: ArrayObject, index: string, ids: seq<string>)
    requires ParseInt(index).NaN?
    ensures ParseIndex(index) == Success(NaN)
    ensures ParseIndexIntended(index) == Failure(IndexIsNaN(index))
    ensures IdByIndex(a, index, ids) == Failure(MemeberOrMethodNotFound(ArrayLabel(a), index))
    ensures IdByIndexIntended(a, index, ids) == Failure(IndexIsNaN(index))
  {
  }

  /** The input "x" shows the difference: no error as written, IndexIsNaN as intended. */
  lemma ParseIndexDiscrepancy(a: ArrayObject, index: string, ids: seq<string>)
    requires |index| == 1 && index[0] == 'x'
    ensures ParseIndex(index) == Success(NaN)
    ensures ParseIndexIntended(index) == Failure(IndexIsNaN(index))
    ensures IdByIndex(a, index, ids) == Failure(MemeberOrMethodNotFound(ArrayLabel(a), index))
    ensures IdByIndexIntended(a, index, ids) == Failure(IndexIsNaN(index))
  {
    assert ParseInt(index).NaN? by {
      ParseIntNonNumeric(index);
    }
    IntendedDiffersOnNaN(a, index, ids);
  }
}
