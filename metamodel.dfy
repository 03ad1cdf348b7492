/**
 * The slice of the B-UML structural metamodel that the server's tools read
 * and change, and the few library operations they rely on.
 *
 * Python sets are modelled as sequences in their iteration order; an element
 * added to a set goes at the end. "First match" and "last match" refer to
 * that order.
 */
module Metamodel {
  import opened Wrappers
  import opened Multiplicities

  /** What an element's `type` (or owner, or context) points at: a type of the model, or `None` when `get_type_by_name` found nothing. */
  datatype TypeRef = Ref(name: string) | NoType

  /** A multiplicity as handed to `Property`: parsed bounds, or raw text (the pre-pass passes `"1"`). */
  datatype MultiplicityArg = Bounds(m: Multiplicity) | Text(text: string)

  datatype Attribute = Attribute(
    name: string, typ: TypeRef, multiplicity: MultiplicityArg, visibility: string,
    isComposite: bool, isNavigable: bool, isId: bool, isReadOnly: bool)

  datatype Parameter = Parameter(name: string, typ: TypeRef)

  datatype Method = Method(
    name: string, visibility: string, isAbstract: bool, parameters: seq<Parameter>,
    returnType: TypeRef, code: string)

  /** One end of a binary association: a `Property` with its type and owner. */
  datatype End = End(
    name: string, typ: TypeRef, owner: TypeRef, multiplicity: Multiplicity,
    isComposite: bool, isNavigable: bool)

  datatype Association = Association(name: string, ends: seq<End>)

  datatype Generalization = Generalization(general: TypeRef, specific: TypeRef)

  datatype Constraint = Constraint(name: string, context: TypeRef, expression: string, language: string)

  /** The members of `DomainModel.types`. */
  datatype Type =
    | Class(name: string, attributes: seq<Attribute>, methods: seq<Method>, isAbstract: bool, isReadOnly: bool)
    | AssociationClass(name: string, attributes: seq<Attribute>, methods: seq<Method>, association: Association)
    | Enumeration(name: string, literals: seq<string>)
    | PrimitiveDataType(name: string)

  /** A value snapshot of a `DomainModel`. */
  datatype Model = Model(
    name: string, types: seq<Type>, associations: seq<Association>,
    generalizations: seq<Generalization>, constraints: seq<Constraint>)

  /** The B-UML domain model object that the tools change in place. */
  class DomainModel {
    var name: string
    var types: seq<Type>
    var associations: seq<Association>
    var generalizations: seq<Generalization>
    var constraints: seq<Constraint>

    function Snapshot(): Model
      reads this
    {
      Model(name, types, associations, generalizations, constraints)
    }

    constructor (m: Model)
      ensures Snapshot() == m
    {
      name, types, associations := m.name, m.types, m.associations;
      generalizations, constraints := m.generalizations, m.constraints;
    }
  }

  /** How a library call that the tools cannot see ended: normally, or by raising. */
  datatype ErrorKind = ValueError | OtherError
  datatype Library = Accepts | Raises(kind: ErrorKind, message: string)

  /** What a `base_*` function returns: the (changed) model object itself, or an error string. */
  datatype Returned = TheModel | Message(text: string)

  /**
   * The object after a `base_*` call whose result, computed on the model
   * before the call, is `r`: the new model and the model object returned on
   * success; the unchanged model and the error string on failure.
   */
  ghost predicate Reflects(dm: DomainModel, before: Model, r: Result<Model, string>, status: Returned)
    reads dm
  {
    match r
    case Success(after) => dm.Snapshot() == after && status == TheModel
    case Failure(e) => dm.Snapshot() == before && status == Message(e)
  }

  /** The error strings the tools return all begin with `Error`. */
  predicate IsErrorText(s: string)
  {
    |s| >= 5 && s[..5] == "Error"
  }

  // ----- library queries -----

  /** Classes in the sense of `get_classes` (association classes are classes). */
  predicate IsClass(t: Type)
  {
    t.Class? || t.AssociationClass?
  }

  function TypeNames(ts: seq<Type>): (names: seq<string>)
    ensures |names| == |ts| && forall i :: 0 <= i < |ts| ==> names[i] == ts[i].name
  {
    seq(|ts|, i requires 0 <= i < |ts| => ts[i].name)
  }

  function MethodNames(ms: seq<Method>): (names: seq<string>)
    ensures |names| == |ms| && forall i :: 0 <= i < |ms| ==> names[i] == ms[i].name
  {
    seq(|ms|, i requires 0 <= i < |ms| => ms[i].name)
  }

  function AttributeNames(attrs: seq<Attribute>): (names: seq<string>)
    ensures |names| == |attrs| && forall i :: 0 <= i < |attrs| ==> names[i] == attrs[i].name
  {
    seq(|attrs|, i requires 0 <= i < |attrs| => attrs[i].name)
  }

  function AssociationNames(assocs: seq<Association>): (names: seq<string>)
    ensures |names| == |assocs| && forall i :: 0 <= i < |assocs| ==> names[i] == assocs[i].name
  {
    seq(|assocs|, i requires 0 <= i < |assocs| => assocs[i].name)
  }

  /** The position of the first occurrence of `x` in `s`. */
  function FirstIndex<T(==)>(s: seq<T>, x: T): (r: Option<nat>)
    ensures r.None? <==> x !in s
    ensures r.Some? ==> r.value < |s| && s[r.value] == x && x !in s[..r.value]
  {
    if |s| == 0 then None
    else if s[0] == x then Some(0)
    else match FirstIndex(s[1..], x)
      case None => None
      case Some(i) => assert s[..i + 1] == [s[0]] + s[1..][..i]; Some(i + 1)
  }

  /** The position of the last occurrence of `x` in `s`. */
  function LastIndex<T(==)>(s: seq<T>, x: T): (r: Option<nat>)
    ensures r.None? <==> x !in s
    ensures r.Some? ==> r.value < |s| && s[r.value] == x && x !in s[r.value + 1..]
  {
    if |s| == 0 then None
    else if s[|s| - 1] == x then Some(|s| - 1)
    else
      assert s == s[..|s| - 1] + [s[|s| - 1]];
      LastIndex(s[..|s| - 1], x)
  }

  /** A position holding `x` with no `x` before it is the first occurrence. */
  lemma FirstIndexAt<T>(s: seq<T>, x: T, k: nat)
    requires k < |s| && s[k] == x && forall j :: 0 <= j < k ==> s[j] != x
    ensures FirstIndex(s, x) == Some(k)
  {
    assert x in s;
    var r := FirstIndex(s, x).value;
    assert r <= k ==> s[..r] == s[..k][..r];
  }

  /** The last occurrence in a prefix one element longer. */
  lemma LastIndexExtend<T>(s: seq<T>, x: T, k: nat)
    requires k < |s|
    ensures LastIndex(s[..k + 1], x) == if s[k] == x then Some(k) else LastIndex(s[..k], x)
  {
    assert s[..k + 1][..k] == s[..k];
  }

  /** `s` with the element at position `i` taken out (`set.remove` of that element). */
  function RemoveAt<T>(s: seq<T>, i: nat): (r: seq<T>)
    requires i < |s|
    ensures |r| == |s| - 1
    ensures forall k :: 0 <= k < i ==> r[k] == s[k]
    ensures forall k :: i <= k < |r| ==> r[k] == s[k + 1]
  {
    s[..i] + s[i + 1..]
  }

  /** Removing the element just appended gives back the original sequence. */
  lemma RemoveLast<T>(s: seq<T>, x: T)
    ensures RemoveAt(s + [x], |s|) == s
  {
    assert (s + [x])[..|s|] == s;
  }

  /** `get_type_by_name`: the position of the first type with that name, or `None`. */
  function TypeByName(m: Model, name: string): (r: Option<nat>)
    ensures r.None? <==> name !in TypeNames(m.types)
    ensures r.Some? ==> r.value < |m.types| && m.types[r.value].name == name
  {
    FirstIndex(TypeNames(m.types), name)
  }

  /** The reference an element gets when it is given the result of `get_type_by_name(name)`. */
  function RefTo(m: Model, name: string): (r: TypeRef)
    ensures r.NoType? <==> name !in TypeNames(m.types)
    ensures r.Ref? ==> r.name == name
  {
    if name in TypeNames(m.types) then Ref(name) else NoType
  }

  /** `get_classes()`, in iteration order. */
  function Classes(ts: seq<Type>): (cs: seq<Type>)
    ensures |cs| <= |ts|
    ensures forall c :: c in cs ==> IsClass(c) && c in ts
    ensures forall i :: 0 <= i < |cs| ==> IsClass(cs[i])
    ensures forall t :: t in ts && IsClass(t) ==> t in cs
  {
    if |ts| == 0 then []
    else
      var init := ts[..|ts| - 1];
      assert ts == init + [ts[|ts| - 1]];
      Classes(init) + (if IsClass(ts[|ts| - 1]) then [ts[|ts| - 1]] else [])
  }

  lemma ClassesAppend(ts: seq<Type>, t: Type)
    ensures Classes(ts + [t]) == Classes(ts) + (if IsClass(t) then [t] else [])
  {
    assert (ts + [t])[..|ts|] == ts;
  }

  /** The names of the classes, as `{cls.name for cls in get_classes()}`. */
  function ClassNames(m: Model): set<string>
  {
    set c | c in Classes(m.types) :: c.name
  }

  /** No two classes of the model share a name. */
  predicate UniqueClassNames(m: Model)
  {
    var cs := Classes(m.types);
    forall i, j :: 0 <= i < j < |cs| ==> cs[i].name != cs[j].name
  }

  /** The Python class name that an `AttributeError` about a type object mentions. */
  function PythonTypeName(owner: Option<Type>): string
  {
    match owner
    case None => "NoneType"
    case Some(Class(_, _, _, _, _)) => "Class"
    case Some(AssociationClass(_, _, _, _)) => "AssociationClass"
    case Some(Enumeration(_, _)) => "Enumeration"
    case Some(PrimitiveDataType(_)) => "PrimitiveDataType"
  }

  /** The text of the `AttributeError` raised by reading `owner.<attribute>` on an object that lacks it. */
  function NoAttributeText(owner: Option<Type>, attribute: string): string
  {
    "'" + PythonTypeName(owner) + "' object has no attribute '" + attribute + "'"
  }

  /** Every other exception is reported as a processing error. */
  function ProcessingErrorText(message: string): (s: string)
    ensures IsErrorText(s)
  {
    "Error processing domain model: " + message
  }

  /** Nothing but the types changed. */
  predicate OnlyTypesChanged(m: Model, m': Model)
  {
    m'.name == m.name && m'.associations == m.associations &&
    m'.generalizations == m.generalizations && m'.constraints == m.constraints
  }

  /** Nothing but the type at position `i` changed, and it kept its name and kind. */
  predicate OnlyTypeAtChanged(m: Model, m': Model, i: nat)
  {
    OnlyTypesChanged(m, m') && |m'.types| == |m.types| && i < |m.types| &&
    m'.types[i].name == m.types[i].name &&
    (forall k :: 0 <= k < |m.types| && k != i ==> m'.types[k] == m.types[k])
  }
}
