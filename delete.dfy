/**
 * The `base_delete_*` functions: each finds the element to remove (by
 * `get_type_by_name`, or by a scan over a member set), removes it in place,
 * or returns an error string and leaves the model as it was.
 *
 * Removing a member that was just found from the set it was found in
 * cannot raise, so those deletions take no `Library` outcome. The type
 * deletions remove from `domain_model.type`, an attribute the scan did not
 * use, so how that call ends is a parameter.
 */
module Deletion {
  import opened Wrappers
  import opened Metamodel
  import Creation

  /** The type object `get_type_by_name(name)` returns, or `None`. */
  function TypeObject(m: Model, name: string): (r: Option<Type>)
    ensures r.None? <==> name !in TypeNames(m.types)
    ensures r.Some? ==> r.value == m.types[TypeByName(m, name).value]
  {
    match TypeByName(m, name)
    case None => None
    case Some(i) => Some(m.types[i])
  }

  /** Changing one type in place, without renaming it, leaves every lookup by name as it was. */
  lemma SameTypeNames(m: Model, m': Model, i: nat)
    requires OnlyTypeAtChanged(m, m', i)
    ensures TypeNames(m'.types) == TypeNames(m.types)
    ensures forall n :: TypeByName(m', n) == TypeByName(m, n)
  {
    assert forall k :: 0 <= k < |m.types| ==> TypeNames(m'.types)[k] == TypeNames(m.types)[k];
  }

  // ===== base_delete_class, base_delete_association_class, base_delete_enumeration =====

  function ClassNotFoundText(name: string): (s: string)
    ensures IsErrorText(s)
  {
    "Error removing class '" + (name + "': No class with name '" + name + "' exists in the model")
  }

  function AssociationClassNotFoundText(name: string): (s: string)
    ensures IsErrorText(s)
  {
    "Error removing association class '" + (name + "': No association class with name '" + name + "' exists in the model")
  }

  function EnumerationNotFoundText(name: string): (s: string)
    ensures IsErrorText(s)
  {
    "Error removing enumeration '" + (name + "': No enumeration with name '" + name + "' exists in the model")
  }

  /** The kind of type a type deletion names in its texts. */
  datatype TypeKind = ClassKind | AssociationClassKind | EnumerationKind

  function KindWord(kind: TypeKind): string
  {
    match kind
    case ClassKind => "class"
    case AssociationClassKind => "association class"
    case EnumerationKind => "enumeration"
  }

  function NotFoundText(kind: TypeKind, name: string): (s: string)
    ensures IsErrorText(s)
  {
    match kind
    case ClassKind => ClassNotFoundText(name)
    case AssociationClassKind => AssociationClassNotFoundText(name)
    case EnumerationKind => EnumerationNotFoundText(name)
  }

  /** The reply to a ValueError raised by the removal: `Error removing <kind> '<name>': <message>`. */
  function RemovalErrorText(kind: TypeKind, name: string, message: string): (s: string)
    ensures IsErrorText(s)
  {
    "Error removing " + (KindWord(kind) + " '" + name + "': " + message)
  }

  /** The message of the AttributeError that reading `domain_model.type` raises when the model object has no such attribute. */
  const NoTypeAttributeText := "'DomainModel' object has no attribute 'type'"

  /**
   * The result shared by the three type deletions, which differ only in
   * their texts: the type `get_type_by_name` finds, whatever its kind, is
   * removed by `domain_model.type.remove`, and `remove` is how that call
   * ends. When it removes, the type leaves the model's `types`; a
   * ValueError gives the deletion's own text, any other exception the
   * processing error, and the model stays as it was.
   */
  function DeleteTypeSpec(m: Model, name: string, kind: TypeKind, remove: Library): (r: Result<Model, string>)
    ensures r.Success? <==> name in TypeNames(m.types) && remove == Accepts
    ensures name !in TypeNames(m.types) ==> r == Failure(NotFoundText(kind, name))
    ensures name in TypeNames(m.types) && remove.Raises? ==>
      r == Failure(if remove.kind == ValueError then RemovalErrorText(kind, name, remove.message)
                   else ProcessingErrorText(remove.message))
    ensures r.Failure? ==> IsErrorText(r.error)
    ensures r.Success? ==>
      var i := TypeByName(m, name).value;
      OnlyTypesChanged(m, r.value) && |r.value.types| == |m.types| - 1 &&
      (forall k :: 0 <= k < i ==> r.value.types[k] == m.types[k]) &&
      (forall k :: i < k < |m.types| ==> r.value.types[k - 1] == m.types[k])
  {
    match TypeByName(m, name)
    case None => Failure(NotFoundText(kind, name))
    case Some(i) =>
      match remove
      case Accepts => Success(m.(types := RemoveAt(m.types, i)))
      case Raises(ValueError, e) => Failure(RemovalErrorText(kind, name, e))
      case Raises(OtherError, e) => Failure(ProcessingErrorText(e))
  }

  method DeleteType(dm: DomainModel, name: string, kind: TypeKind, remove: Library) returns (status: Returned)
    modifies dm
    ensures Reflects(dm, old(dm.Snapshot()), DeleteTypeSpec(old(dm.Snapshot()), name, kind, remove), status)
  {
    var toRemove := TypeByName(dm.Snapshot(), name);
    if toRemove.None? {
      return Message(NotFoundText(kind, name));
    }
    match remove {
      case Accepts =>
        dm.types := RemoveAt(dm.types, toRemove.value);
      case Raises(ValueError, e) =>
        return Message(RemovalErrorText(kind, name, e));
      case Raises(OtherError, e) =>
        return Message(ProcessingErrorText(e));
    }
    return TheModel;
  }

  method DeleteClass(dm: DomainModel, name: string, remove: Library) returns (status: Returned)
    modifies dm
    ensures Reflects(dm, old(dm.Snapshot()), DeleteTypeSpec(old(dm.Snapshot()), name, ClassKind, remove), status)
  {
    status := DeleteType(dm, name, ClassKind, remove);
  }

  method DeleteAssociationClass(dm: DomainModel, name: string, remove: Library) returns (status: Returned)
    modifies dm
    ensures Reflects(dm, old(dm.Snapshot()), DeleteTypeSpec(old(dm.Snapshot()), name, AssociationClassKind, remove), status)
  {
    status := DeleteType(dm, name, AssociationClassKind, remove);
  }

  method DeleteEnumeration(dm: DomainModel, name: string, remove: Library) returns (status: Returned)
    modifies dm
    ensures Reflects(dm, old(dm.Snapshot()), DeleteTypeSpec(old(dm.Snapshot()), name, EnumerationKind, remove), status)
  {
    status := DeleteType(dm, name, EnumerationKind, remove);
  }

  /**
   * `domain_model.type` as written: on a model object without a `type`
   * attribute, deleting a type that exists fails with the AttributeError's
   * text, and the type stays.
   */
  lemma AsWrittenDeleteKeepsType(m: Model, name: string, kind: TypeKind)
    requires name in TypeNames(m.types)
    ensures var r := DeleteTypeSpec(m, name, kind, Raises(OtherError, NoTypeAttributeText));
      r == Failure(ProcessingErrorText(NoTypeAttributeText)) && r != Failure(NotFoundText(kind, name))
  {
    NotFoundSeventh(kind, name);
    assert ProcessingErrorText(NoTypeAttributeText)[6] == 'p';
  }

  /** Every not-found text of the type deletions starts with `Error removing`. */
  lemma NotFoundSeventh(kind: TypeKind, name: string)
    ensures NotFoundText(kind, name)[6] == 'r'
  {
    match kind
    case ClassKind => assert ClassNotFoundText(name)[6] == 'r';
    case AssociationClassKind => assert AssociationClassNotFoundText(name)[6] == 'r';
    case EnumerationKind => assert EnumerationNotFoundText(name)[6] == 'r';
  }

  /** Removing a type appended last, under a name no other type has, gives back the model before. */
  lemma RemoveAppendedType(m: Model, t: Type, kind: TypeKind)
    requires t.name !in TypeNames(m.types)
    ensures DeleteTypeSpec(m.(types := m.types + [t]), t.name, kind, Accepts) == Success(m)
  {
    var m' := m.(types := m.types + [t]);
    FirstIndexAt(TypeNames(m'.types), t.name, |m.types|);
    RemoveLast(m.types, t);
  }

  /** Deleting a class just added, under a name no type had, gives back the model before. */
  lemma AddThenDeleteClass(m: Model, name: string, attributes: seq<Attribute>, methods: seq<Method>,
                           isAbstract: bool, isReadOnly: bool, addType: Library)
    requires Creation.AddClassSpec(m, name, attributes, methods, isAbstract, isReadOnly, addType).Success?
    requires name !in TypeNames(m.types)
    ensures DeleteTypeSpec(Creation.AddClassSpec(m, name, attributes, methods, isAbstract, isReadOnly, addType).value,
                           name, ClassKind, Accepts) == Success(m)
  {
    RemoveAppendedType(m, Class(name, attributes, methods, isAbstract, isReadOnly), ClassKind);
  }

  /** Deleting an association class just added, under a name no type had, gives back the model before. */
  lemma AddThenDeleteAssociationClass(m: Model, name: string, associationName: string)
    requires Creation.AddAssociationClassSpec(m, name, associationName, Accepts).Success?
    requires name !in TypeNames(m.types)
    ensures DeleteTypeSpec(Creation.AddAssociationClassSpec(m, name, associationName, Accepts).value,
                           name, AssociationClassKind, Accepts) == Success(m)
  {
    var j := FirstIndex(AssociationNames(m.associations), associationName).value;
    RemoveAppendedType(m, AssociationClass(name, [], [], m.associations[j]), AssociationClassKind);
  }

  /** Deleting an enumeration just added gives back the model before. */
  lemma AddThenDeleteEnumeration(m: Model, name: string, literals: seq<string>)
    requires Creation.AddEnumerationSpec(m, name, literals, Accepts).Success?
    ensures DeleteTypeSpec(Creation.AddEnumerationSpec(m, name, literals, Accepts).value,
                           name, EnumerationKind, Accepts) == Success(m)
  {
    RemoveAppendedType(m, Enumeration(name, literals), EnumerationKind);
  }

  /**
   * The class check of `base_add_class` looks at classes only, while
   * deletion takes whatever type has the name: next to an enumeration
   * `Color`, adding a class `Color` succeeds, and deleting class `Color`
   * then removes the enumeration and keeps the new class.
   */
  lemma DeleteClassMayRemoveEnumeration()
    ensures var m := Model("M", [Enumeration("Color", [])], [], [], []);
      var added := Creation.AddClassSpec(m, "Color", [], [], false, false, Accepts);
      added.Success? &&
      DeleteTypeSpec(added.value, "Color", ClassKind, Accepts) ==
        Success(m.(types := [Class("Color", [], [], false, false)]))
  {
    var m := Model("M", [Enumeration("Color", [])], [], [], []);
    assert Classes(m.types) == [];
    var added := Creation.AddClassSpec(m, "Color", [], [], false, false, Accepts);
    assert added.value.types == [Enumeration("Color", []), Class("Color", [], [], false, false)];
    FirstIndexAt(TypeNames(added.value.types), "Color", 0);
    assert RemoveAt(added.value.types, 0) == [Class("Color", [], [], false, false)];
  }

  // ===== base_delete_method_from_class =====

  function MethodNotFoundText(name: string, className: string): (s: string)
    ensures IsErrorText(s)
  {
    "Error removing method '" + (name + "': No method with name '" + name + "' exists in '" + className + "'")
  }

  /**
   * The result of `base_delete_method_from_class`: the owner is looked up and
   * not checked; the first method with the name is removed from that class only.
   */
  function DeleteMethodFromClassSpec(m: Model, name: string, className: string): (r: Result<Model, string>)
    ensures r.Failure? ==> IsErrorText(r.error)
    ensures TypeObject(m, className).None? ==>
      r == Failure(ProcessingErrorText(NoAttributeText(None, "methods")))
    ensures TypeObject(m, className).Some? && !IsClass(TypeObject(m, className).value) ==>
      r == Failure(ProcessingErrorText(NoAttributeText(TypeObject(m, className), "methods")))
    ensures r.Success? <==>
      TypeObject(m, className).Some? && IsClass(TypeObject(m, className).value) &&
      name in MethodNames(TypeObject(m, className).value.methods)
    ensures (TypeObject(m, className).Some? && IsClass(TypeObject(m, className).value) &&
             name !in MethodNames(TypeObject(m, className).value.methods)) ==>
      r == Failure(MethodNotFoundText(name, className))
    ensures r.Success? ==>
      var i := TypeByName(m, className).value;
      var j := FirstIndex(MethodNames(m.types[i].methods), name).value;
      OnlyTypeAtChanged(m, r.value, i) &&
      r.value.types[i] == m.types[i].(methods := RemoveAt(m.types[i].methods, j))
  {
    match TypeByName(m, className)
    case None => Failure(ProcessingErrorText(NoAttributeText(None, "methods")))
    case Some(i) =>
      var theClass := m.types[i];
      if !IsClass(theClass) then Failure(ProcessingErrorText(NoAttributeText(Some(theClass), "methods")))
      else match FirstIndex(MethodNames(theClass.methods), name)
        case None => Failure(MethodNotFoundText(name, className))
        case Some(j) => Success(m.(types := m.types[i := theClass.(methods := RemoveAt(theClass.methods, j))]))
  }

  method DeleteMethodFromClass(dm: DomainModel, name: string, className: string) returns (status: Returned)
    modifies dm
    ensures Reflects(dm, old(dm.Snapshot()), DeleteMethodFromClassSpec(old(dm.Snapshot()), name, className), status)
  {
    var found := TypeByName(dm.Snapshot(), className);
    if found.None? {
      return Message(ProcessingErrorText(NoAttributeText(None, "methods")));
    }
    var theClass := dm.types[found.value];
    if !IsClass(theClass) {
      return Message(ProcessingErrorText(NoAttributeText(Some(theClass), "methods")));
    }
    var theMethod: Option<nat> := None;
    var k := 0;
    while k < |theClass.methods|
      invariant 0 <= k <= |theClass.methods|
      invariant theMethod.None?
      invariant forall j :: 0 <= j < k ==> theClass.methods[j].name != name
    {
      if theClass.methods[k].name == name {
        theMethod := Some(k);
        break;
      }
      k := k + 1;
    }
    if theMethod.None? {
      assert name !in MethodNames(theClass.methods);
      return Message(MethodNotFoundText(name, className));
    }
    FirstIndexAt(MethodNames(theClass.methods), name, theMethod.value);
    dm.types := dm.types[found.value := theClass.(methods := RemoveAt(theClass.methods, theMethod.value))];
    return TheModel;
  }

  /** Deleting a method just added to a class gives back the model before. */
  lemma AddThenDeleteMethod(m: Model, name: string, className: string, visibility: string, isAbstract: bool,
                            parameters: seq<(string, string)>, typeName: string, code: string)
    requires Creation.AddMethodToClassSpec(m, name, className, visibility, isAbstract, parameters, typeName, code, Accepts).Success?
    ensures DeleteMethodFromClassSpec(
      Creation.AddMethodToClassSpec(m, name, className, visibility, isAbstract, parameters, typeName, code, Accepts).value,
      name, className) == Success(m)
  {
    var m' := Creation.AddMethodToClassSpec(m, name, className, visibility, isAbstract, parameters, typeName, code, Accepts).value;
    var i := TypeByName(m, className).value;
    var owner := m.types[i];
    SameTypeNames(m, m', i);
    var newMethod := m'.types[i].methods[|owner.methods|];
    assert m'.types[i].methods == owner.methods + [newMethod];
    FirstIndexAt(MethodNames(m'.types[i].methods), name, |owner.methods|);
    RemoveLast(owner.methods, newMethod);
    assert m'.types[i].(methods := owner.methods) == owner;
    assert m'.types[i := owner] == m.types;
    assert m'.(types := m.types) == m;
  }

  // ===== base_delete_attribute_from_class =====

  function AttributeNotFoundText(name: string, className: string): (s: string)
    ensures IsErrorText(s)
  {
    "Error removing attribute '" + (name + "': No attribute with name '" + name + "' exists in '" + className + "'")
  }

  /**
   * The result of `base_delete_attribute_from_class`: the first attribute with
   * the name is removed from the class looked up by name, and from nothing else.
   */
  function DeleteAttributeFromClassSpec(m: Model, name: string, className: string): (r: Result<Model, string>)
    ensures r.Failure? ==> IsErrorText(r.error)
    ensures TypeObject(m, className).None? ==>
      r == Failure(ProcessingErrorText(NoAttributeText(None, "attributes")))
    ensures TypeObject(m, className).Some? && !IsClass(TypeObject(m, className).value) ==>
      r == Failure(ProcessingErrorText(NoAttributeText(TypeObject(m, className), "attributes")))
    ensures r.Success? <==>
      TypeObject(m, className).Some? && IsClass(TypeObject(m, className).value) &&
      name in AttributeNames(TypeObject(m, className).value.attributes)
    ensures (TypeObject(m, className).Some? && IsClass(TypeObject(m, className).value) &&
             name !in AttributeNames(TypeObject(m, className).value.attributes)) ==>
      r == Failure(AttributeNotFoundText(name, className))
    ensures r.Success? ==>
      var i := TypeByName(m, className).value;
      var j := FirstIndex(AttributeNames(m.types[i].attributes), name).value;
      OnlyTypeAtChanged(m, r.value, i) &&
      r.value.types[i] == m.types[i].(attributes := RemoveAt(m.types[i].attributes, j))
  {
    match TypeByName(m, className)
    case None => Failure(ProcessingErrorText(NoAttributeText(None, "attributes")))
    case Some(i) =>
      var theClass := m.types[i];
      if !IsClass(theClass) then Failure(ProcessingErrorText(NoAttributeText(Some(theClass), "attributes")))
      else match FirstIndex(AttributeNames(theClass.attributes), name)
        case None => Failure(AttributeNotFoundText(name, className))
        case Some(j) => Success(m.(types := m.types[i := theClass.(attributes := RemoveAt(theClass.attributes, j))]))
  }

  method DeleteAttributeFromClass(dm: DomainModel, name: string, className: string) returns (status: Returned)
    modifies dm
    ensures Reflects(dm, old(dm.Snapshot()), DeleteAttributeFromClassSpec(old(dm.Snapshot()), name, className), status)
  {
    var found := TypeByName(dm.Snapshot(), className);
    if found.None? {
      return Message(ProcessingErrorText(NoAttributeText(None, "attributes")));
    }
    var theClass := dm.types[found.value];
    if !IsClass(theClass) {
      return Message(ProcessingErrorText(NoAttributeText(Some(theClass), "attributes")));
    }
    var theAttribute: Option<nat> := None;
    var k := 0;
    while k < |theClass.attributes|
      invariant 0 <= k <= |theClass.attributes|
      invariant theAttribute.None?
      invariant forall j :: 0 <= j < k ==> theClass.attributes[j].name != name
    {
      if theClass.attributes[k].name == name {
        theAttribute := Some(k);
        break;
      }
      k := k + 1;
    }
    if theAttribute.None? {
      assert name !in AttributeNames(theClass.attributes);
      return Message(AttributeNotFoundText(name, className));
    }
    FirstIndexAt(AttributeNames(theClass.attributes), name, theAttribute.value);
    dm.types := dm.types[found.value := theClass.(attributes := RemoveAt(theClass.attributes, theAttribute.value))];
    return TheModel;
  }

  /** Deleting an attribute just added to a class gives back the model before. */
  lemma AddThenDeleteAttribute(m: Model, name: string, className: string, typeName: string, multiplicity: string,
                               visibility: string, isComposite: bool, isNavigable: bool, isId: bool, isReadOnly: bool)
    requires Creation.AddAttributeToClassSpec(m, name, className, typeName, multiplicity, visibility,
                                              isComposite, isNavigable, isId, isReadOnly, Accepts).Success?
    ensures DeleteAttributeFromClassSpec(
      Creation.AddAttributeToClassSpec(m, name, className, typeName, multiplicity, visibility,
                                       isComposite, isNavigable, isId, isReadOnly, Accepts).value,
      name, className) == Success(m)
  {
    var m' := Creation.AddAttributeToClassSpec(m, name, className, typeName, multiplicity, visibility,
                                               isComposite, isNavigable, isId, isReadOnly, Accepts).value;
    var i := TypeByName(m, className).value;
    var owner := m.types[i];
    SameTypeNames(m, m', i);
    var newAttribute := m'.types[i].attributes[|owner.attributes|];
    assert m'.types[i].attributes == owner.attributes + [newAttribute];
    FirstIndexAt(AttributeNames(m'.types[i].attributes), name, |owner.attributes|);
    RemoveLast(owner.attributes, newAttribute);
    assert m'.types[i].(attributes := owner.attributes) == owner;
    assert m'.types[i := owner] == m.types;
    assert m'.(types := m.types) == m;
  }

  // ===== base_delete_binary_association =====

  function AssociationNotFoundText(name: string): (s: string)
    ensures IsErrorText(s)
  {
    "Error removing association '" + (name + "': No association with name '" + name + "' exists in model")
  }

  /**
   * The result of `base_delete_binary_association`: the scan does not stop at
   * a match, so the last association with the name is the one removed.
   */
  function DeleteBinaryAssociationSpec(m: Model, name: string): (r: Result<Model, string>)
    ensures r.Success? <==> name in AssociationNames(m.associations)
    ensures r.Failure? ==> r.error == AssociationNotFoundText(name)
    ensures r.Success? ==>
      var j := LastIndex(AssociationNames(m.associations), name).value;
      r.value.name == m.name && r.value.types == m.types &&
      r.value.generalizations == m.generalizations && r.value.constraints == m.constraints &&
      r.value.associations == RemoveAt(m.associations, j) &&
      (forall k :: j < k < |m.associations| ==> m.associations[k].name != name)
  {
    match LastIndex(AssociationNames(m.associations), name)
    case None => Failure(AssociationNotFoundText(name))
    case Some(j) =>
      assert forall k :: j < k < |m.associations| ==> AssociationNames(m.associations)[k] in AssociationNames(m.associations)[j + 1..];
      Success(m.(associations := RemoveAt(m.associations, j)))
  }

  method DeleteBinaryAssociation(dm: DomainModel, name: string) returns (status: Returned)
    modifies dm
    ensures Reflects(dm, old(dm.Snapshot()), DeleteBinaryAssociationSpec(old(dm.Snapshot()), name), status)
  {
    var names := AssociationNames(dm.associations);
    var theAssociation: Option<nat> := None;
    var k := 0;
    while k < |names|
      invariant 0 <= k <= |names|
      invariant theAssociation == LastIndex(names[..k], name)
      invariant dm.Snapshot() == old(dm.Snapshot())
    {
      LastIndexExtend(names, name, k);
      if names[k] == name {
        theAssociation := Some(k);
      }
      k := k + 1;
    }
    assert names[..k] == names;
    if theAssociation.None? {
      return Message(AssociationNotFoundText(name));
    }
    dm.associations := RemoveAt(dm.associations, theAssociation.value);
    return TheModel;
  }

  /** Deleting an association just added gives back the model before. */
  lemma AddThenDeleteAssociation(m: Model, name: string, fromClass: string, toClass: string,
                                 roleFrom: string, roleTo: string, multiplicityFrom: string,
                                 multiplicityTo: string, isBidirectional: bool, isComposition: bool)
    requires Creation.AddBinaryAssociationSpec(m, name, fromClass, toClass, roleFrom, roleTo, multiplicityFrom,
                                               multiplicityTo, isBidirectional, isComposition, Accepts).Success?
    ensures DeleteBinaryAssociationSpec(
      Creation.AddBinaryAssociationSpec(m, name, fromClass, toClass, roleFrom, roleTo, multiplicityFrom,
                                        multiplicityTo, isBidirectional, isComposition, Accepts).value,
      name) == Success(m)
  {
    var m' := Creation.AddBinaryAssociationSpec(m, name, fromClass, toClass, roleFrom, roleTo, multiplicityFrom,
                                                multiplicityTo, isBidirectional, isComposition, Accepts).value;
    var added := m'.associations[|m.associations|];
    assert m'.associations == m.associations + [added];
    assert AssociationNames(m'.associations)[|m.associations|] == name;
    RemoveLast(m.associations, added);
  }

  // ===== base_delete_enumeration_literal =====

  function LiteralNotFoundText(name: string, enumerationName: string): (s: string)
    ensures IsErrorText(s)
  {
    "Error removing literal '" + (name + "': No literal with name '" + name + "' exists in '" + enumerationName + "'")
  }

  /**
   * The result of `base_delete_enumeration_literal`: the first literal with
   * the name is removed from the type looked up by name; a type without
   * literals fails when they are read.
   */
  function DeleteEnumerationLiteralSpec(m: Model, name: string, enumerationName: string): (r: Result<Model, string>)
    ensures r.Failure? ==> IsErrorText(r.error)
    ensures TypeObject(m, enumerationName).None? ==>
      r == Failure(ProcessingErrorText(NoAttributeText(None, "literals")))
    ensures TypeObject(m, enumerationName).Some? && !TypeObject(m, enumerationName).value.Enumeration? ==>
      r == Failure(ProcessingErrorText(NoAttributeText(TypeObject(m, enumerationName), "literals")))
    ensures r.Success? <==>
      TypeObject(m, enumerationName).Some? && TypeObject(m, enumerationName).value.Enumeration? &&
      name in TypeObject(m, enumerationName).value.literals
    ensures (TypeObject(m, enumerationName).Some? && TypeObject(m, enumerationName).value.Enumeration? &&
             name !in TypeObject(m, enumerationName).value.literals) ==>
      r == Failure(LiteralNotFoundText(name, enumerationName))
    ensures r.Success? ==>
      var i := TypeByName(m, enumerationName).value;
      var j := FirstIndex(m.types[i].literals, name).value;
      OnlyTypeAtChanged(m, r.value, i) &&
      r.value.types[i] == m.types[i].(literals := RemoveAt(m.types[i].literals, j))
  {
    match TypeByName(m, enumerationName)
    case None => Failure(ProcessingErrorText(NoAttributeText(None, "literals")))
    case Some(i) =>
      var theEnumeration := m.types[i];
      if !theEnumeration.Enumeration? then Failure(ProcessingErrorText(NoAttributeText(Some(theEnumeration), "literals")))
      else match FirstIndex(theEnumeration.literals, name)
        case None => Failure(LiteralNotFoundText(name, enumerationName))
        case Some(j) => Success(m.(types := m.types[i := theEnumeration.(literals := RemoveAt(theEnumeration.literals, j))]))
  }

  method DeleteEnumerationLiteral(dm: DomainModel, name: string, enumerationName: string) returns (status: Returned)
    modifies dm
    ensures Reflects(dm, old(dm.Snapshot()), DeleteEnumerationLiteralSpec(old(dm.Snapshot()), name, enumerationName), status)
  {
    var found := TypeByName(dm.Snapshot(), enumerationName);
    if found.None? {
      return Message(ProcessingErrorText(NoAttributeText(None, "literals")));
    }
    var theEnumeration := dm.types[found.value];
    if !theEnumeration.Enumeration? {
      return Message(ProcessingErrorText(NoAttributeText(Some(theEnumeration), "literals")));
    }
    var theLiteral: Option<nat> := None;
    var k := 0;
    while k < |theEnumeration.literals|
      invariant 0 <= k <= |theEnumeration.literals|
      invariant theLiteral.None?
      invariant forall j :: 0 <= j < k ==> theEnumeration.literals[j] != name
    {
      if theEnumeration.literals[k] == name {
        theLiteral := Some(k);
        break;
      }
      k := k + 1;
    }
    if theLiteral.None? {
      return Message(LiteralNotFoundText(name, enumerationName));
    }
    FirstIndexAt(theEnumeration.literals, name, theLiteral.value);
    dm.types := dm.types[found.value := theEnumeration.(literals := RemoveAt(theEnumeration.literals, theLiteral.value))];
    return TheModel;
  }

  /** Deleting a literal just added gives back the model before, when no literal had that name. */
  lemma AddThenDeleteLiteral(m: Model, name: string, enumerationName: string)
    requires Creation.AddEnumerationLiteralSpec(m, name, enumerationName, Accepts).Success?
    requires name !in m.types[TypeByName(m, enumerationName).value].literals
    ensures DeleteEnumerationLiteralSpec(
      Creation.AddEnumerationLiteralSpec(m, name, enumerationName, Accepts).value,
      name, enumerationName) == Success(m)
  {
    var m' := Creation.AddEnumerationLiteralSpec(m, name, enumerationName, Accepts).value;
    var i := TypeByName(m, enumerationName).value;
    var enum := m.types[i];
    SameTypeNames(m, m', i);
    assert m'.types[i] == enum.(literals := enum.literals + [name]);
    assert TypeObject(m', enumerationName) == Some(m'.types[i]);
    FirstIndexAt(m'.types[i].literals, name, |enum.literals|);
    RemoveLast(enum.literals, name);
    assert m'.types[i].(literals := enum.literals) == enum;
    assert m'.types[i := enum] == m.types;
    assert m'.(types := m.types) == m;
  }

  // ===== base_delete_generalization =====

  /** The not-found text, misspelling and stray closing quote included. */
  function GeneralizationNotFoundText(general: string, specific: string): (s: string)
    ensures IsErrorText(s)
  {
    "Error removing genralization '" + (general + "' <|-- '" + specific + "': No generalization between '" +
    general + "' and '" + specific + "' exists in model'")
  }

  /** A type object that has the `generalizations` set the removal goes through. */
  predicate HasGeneralizations(t: Option<Type>)
  {
    t.Some? && IsClass(t.value)
  }

  /**
   * The result of `base_delete_generalization`. The scan does not stop, so
   * the last generalization between the two looked-up types is the one
   * found; it is then removed from the general class, the specific class
   * and the model. The classes' own sets are views of the model's set here,
   * so the three removals are one.
   */
  function DeleteGeneralizationSpec(m: Model, general: string, specific: string): (r: Result<Model, string>)
    ensures r.Failure? ==> IsErrorText(r.error)
    ensures Generalization(RefTo(m, general), RefTo(m, specific)) !in m.generalizations <==>
      r == Failure(GeneralizationNotFoundText(general, specific))
    ensures r.Success? <==>
      Generalization(RefTo(m, general), RefTo(m, specific)) in m.generalizations &&
      HasGeneralizations(TypeObject(m, general)) && HasGeneralizations(TypeObject(m, specific))
    ensures Generalization(RefTo(m, general), RefTo(m, specific)) in m.generalizations &&
            !HasGeneralizations(TypeObject(m, general)) ==>
      r == Failure(ProcessingErrorText(NoAttributeText(TypeObject(m, general), "generalizations")))
    ensures Generalization(RefTo(m, general), RefTo(m, specific)) in m.generalizations &&
            HasGeneralizations(TypeObject(m, general)) && !HasGeneralizations(TypeObject(m, specific)) ==>
      r == Failure(ProcessingErrorText(NoAttributeText(TypeObject(m, specific), "generalizations")))
    ensures r.Success? ==>
      var j := LastIndex(m.generalizations, Generalization(RefTo(m, general), RefTo(m, specific))).value;
      r.value.name == m.name && r.value.types == m.types &&
      r.value.associations == m.associations && r.value.constraints == m.constraints &&
      r.value.generalizations == RemoveAt(m.generalizations, j)
  {
    var generalClass := TypeObject(m, general);
    var specificClass := TypeObject(m, specific);
    match LastIndex(m.generalizations, Generalization(RefTo(m, general), RefTo(m, specific)))
    case None => Failure(GeneralizationNotFoundText(general, specific))
    case Some(j) =>
      if !HasGeneralizations(generalClass) then
        assert ProcessingErrorText(NoAttributeText(generalClass, "generalizations"))[6] !=
               GeneralizationNotFoundText(general, specific)[6];
        Failure(ProcessingErrorText(NoAttributeText(generalClass, "generalizations")))
      else if !HasGeneralizations(specificClass) then
        assert ProcessingErrorText(NoAttributeText(specificClass, "generalizations"))[6] !=
               GeneralizationNotFoundText(general, specific)[6];
        Failure(ProcessingErrorText(NoAttributeText(specificClass, "generalizations")))
      else Success(m.(generalizations := RemoveAt(m.generalizations, j)))
  }

  method DeleteGeneralization(dm: DomainModel, general: string, specific: string) returns (status: Returned)
    modifies dm
    ensures Reflects(dm, old(dm.Snapshot()), DeleteGeneralizationSpec(old(dm.Snapshot()), general, specific), status)
  {
    var generalClass := TypeObject(dm.Snapshot(), general);
    var specificClass := TypeObject(dm.Snapshot(), specific);
    var target := Generalization(RefTo(dm.Snapshot(), general), RefTo(dm.Snapshot(), specific));
    var generalizations := dm.generalizations;
    var theGeneralization: Option<nat> := None;
    var k := 0;
    while k < |generalizations|
      invariant 0 <= k <= |generalizations|
      invariant theGeneralization == LastIndex(generalizations[..k], target)
      invariant dm.Snapshot() == old(dm.Snapshot())
    {
      LastIndexExtend(generalizations, target, k);
      if generalizations[k] == target {
        theGeneralization := Some(k);
      }
      k := k + 1;
    }
    assert generalizations[..k] == generalizations;
    if theGeneralization.None? {
      return Message(GeneralizationNotFoundText(general, specific));
    }
    if !HasGeneralizations(generalClass) {
      return Message(ProcessingErrorText(NoAttributeText(generalClass, "generalizations")));
    }
    if !HasGeneralizations(specificClass) {
      return Message(ProcessingErrorText(NoAttributeText(specificClass, "generalizations")));
    }
    dm.generalizations := RemoveAt(dm.generalizations, theGeneralization.value);
    return TheModel;
  }

  /** Deleting a generalization just added between two classes gives back the model before. */
  lemma AddThenDeleteGeneralization(m: Model, general: string, specific: string)
    requires HasGeneralizations(TypeObject(m, general)) && HasGeneralizations(TypeObject(m, specific))
    requires Generalization(RefTo(m, general), RefTo(m, specific)) !in m.generalizations
    ensures DeleteGeneralizationSpec(Creation.AddGeneralizationSpec(m, general, specific, Accepts).value,
                                     general, specific) == Success(m)
  {
    var g := Generalization(RefTo(m, general), RefTo(m, specific));
    var m' := Creation.AddGeneralizationSpec(m, general, specific, Accepts).value;
    assert m'.types == m.types;
    assert (m.generalizations + [g])[|m.generalizations|] == g;
    RemoveLast(m.generalizations, g);
  }

  // ===== base_delete_ocl_constraint =====

  /** The constraints whose name differs from `name`, in their order. */
  function KeepOthers(cs: seq<Constraint>, name: string): (kept: seq<Constraint>)
    ensures forall c :: c in kept <==> c in cs && c.name != name
    ensures |kept| <= |cs|
  {
    if |cs| == 0 then []
    else (if cs[0].name != name then [cs[0]] else []) + KeepOthers(cs[1..], name)
  }

  /**
   * The result of `base_delete_ocl_constraint`, comparing names by value:
   * every constraint named `name` goes, the rest stay, and there is no
   * not-found case.
   */
  function DeleteOclConstraintSpec(m: Model, name: string): (r: Result<Model, string>)
    ensures r.Success?
    ensures r.value.name == m.name && r.value.types == m.types &&
      r.value.associations == m.associations && r.value.generalizations == m.generalizations
    ensures forall c :: c in r.value.constraints <==> c in m.constraints && c.name != name
  {
    Success(m.(constraints := KeepOthers(m.constraints, name)))
  }

  method DeleteOclConstraint(dm: DomainModel, name: string) returns (status: Returned)
    modifies dm
    ensures Reflects(dm, old(dm.Snapshot()), DeleteOclConstraintSpec(old(dm.Snapshot()), name), status)
  {
    // the kept constraints are collected by a set comprehension
    var updatedConstraints := KeepOthers(dm.constraints, name);
    dm.constraints := updatedConstraints;
    return TheModel;
  }

  /** Filtering out a name twice is filtering it out once. */
  lemma {:induction false} KeepOthersIdempotent(cs: seq<Constraint>, name: string)
    ensures KeepOthers(KeepOthers(cs, name), name) == KeepOthers(cs, name)
  {
    if |cs| > 0 {
      KeepOthersIdempotent(cs[1..], name);
      var rest := KeepOthers(cs[1..], name);
      if cs[0].name != name {
        var kept := [cs[0]] + rest;
        assert KeepOthers(cs, name) == kept;
        assert kept[0] == cs[0] && kept[1..] == rest;
      } else {
        assert KeepOthers(cs, name) == rest;
      }
    }
  }

  /** Deleting constraints by name twice is deleting them once. */
  lemma DeleteOclConstraintIdempotent(m: Model, name: string)
    ensures DeleteOclConstraintSpec(DeleteOclConstraintSpec(m, name).value, name) == DeleteOclConstraintSpec(m, name)
  {
    KeepOthersIdempotent(m.constraints, name);
  }

  /** Filtering out a name no constraint has keeps everything. */
  lemma {:induction false} KeepOthersNone(cs: seq<Constraint>, name: string)
    requires forall c :: c in cs ==> c.name != name
    ensures KeepOthers(cs, name) == cs
  {
    if |cs| > 0 {
      assert forall c :: c in cs[1..] ==> c in cs;
      KeepOthersNone(cs[1..], name);
      assert cs == [cs[0]] + cs[1..];
    }
  }

  /** Filtering a sequence with one element more. */
  lemma {:induction false} KeepOthersSnoc(cs: seq<Constraint>, c: Constraint, name: string)
    ensures KeepOthers(cs + [c], name) == KeepOthers(cs, name) + (if c.name != name then [c] else [])
  {
    if |cs| > 0 {
      assert (cs + [c])[1..] == cs[1..] + [c];
      KeepOthersSnoc(cs[1..], c, name);
    }
  }

  /** Deleting a constraint just added, under a name no constraint had, gives back the model before. */
  lemma AddThenDeleteConstraint(m: Model, name: string, className: string, expression: string)
    requires forall c :: c in m.constraints ==> c.name != name
    ensures DeleteOclConstraintSpec(Creation.AddOclConstraintSpec(m, name, className, expression, Accepts).value,
                                    name) == Success(m)
  {
    var c := Constraint(name, RefTo(m, className), expression, "OCL");
    var m' := Creation.AddOclConstraintSpec(m, name, className, expression, Accepts).value;
    assert m'.constraints == m.constraints + [c];
    KeepOthersSnoc(m.constraints, c, name);
    KeepOthersNone(m.constraints, name);
    assert KeepOthers(m'.constraints, name) == m.constraints;
    assert DeleteOclConstraintSpec(m', name).value == m'.(constraints := m.constraints);
    assert m'.(constraints := m.constraints) == m;
  }

  /**
   * The filter as written, `constraint.name is not name`, compares object
   * identity. `isName[i]` says whether the name object of constraint `i` is
   * the very object passed in, which implies equal text but not conversely.
   */
  function KeepOthersAsWritten(cs: seq<Constraint>, name: string, isName: seq<bool>): (kept: seq<Constraint>)
    requires |isName| == |cs|
    requires forall i :: 0 <= i < |cs| && isName[i] ==> cs[i].name == name
    ensures |kept| <= |cs|
  {
    if |cs| == 0 then []
    else (if !isName[0] then [cs[0]] else []) + KeepOthersAsWritten(cs[1..], name, isName[1..])
  }

  /** What the identity filter keeps includes everything the value filter keeps. */
  lemma {:induction false} AsWrittenKeepsMore(cs: seq<Constraint>, name: string, isName: seq<bool>)
    requires |isName| == |cs|
    requires forall i :: 0 <= i < |cs| && isName[i] ==> cs[i].name == name
    ensures forall c :: c in KeepOthers(cs, name) ==> c in KeepOthersAsWritten(cs, name, isName)
  {
    if |cs| > 0 {
      AsWrittenKeepsMore(cs[1..], name, isName[1..]);
    }
  }

  /**
   * A name that arrives with the request is a different string object from
   * the one read out of the decoded model, so the identity test never holds
   * and a constraint with exactly that name survives its own deletion.
   */
  lemma AsWrittenKeepsNamedConstraint()
    ensures var cs := [Constraint("positiveAge", NoType, "self.age > 0", "OCL")];
      KeepOthersAsWritten(cs, "positiveAge", [false]) == cs &&
      KeepOthers(cs, "positiveAge") == []
  {
    var cs := [Constraint("positiveAge", NoType, "self.age > 0", "OCL")];
    assert cs[1..] == [];
  }
}
