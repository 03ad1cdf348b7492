/**
 * The `base_add_*` functions: each checks its guard, builds the new element
 * and adds it to the model object in place, or returns an error string and
 * leaves the model as it was.
 *
 * For each operation, `XSpec` is the result as a function of the model before
 * the call and `X` is the in-place method proved against it.
 */
module Creation {
  import opened Wrappers
  import opened Multiplicities
  import opened Metamodel

  // ===== base_add_class =====

  /** `Error adding class '<name>':`, the start of every error `base_add_class` names the class in. */
  function AddingClassLead(name: string): (s: string)
    ensures |s| >= 20 && s[..20] == "Error adding class '"
  {
    "Error adding class '" + (name + "':")
  }

  function DuplicateClassText(name: string): (s: string)
    ensures IsErrorText(s)
  {
    var lead := AddingClassLead(name);
    assert (lead + " A class")[..5] == lead[..20][..5];
    lead + (" A class with name '" + name + "' already exists in the model")
  }

  /**
   * The result of `base_add_class`. The class names are checked first;
   * `add_type` may raise a ValueError, after which the class is put into
   * `types` directly, so both paths give the same model.
   */
  function AddClassSpec(m: Model, name: string, attributes: seq<Attribute>, methods: seq<Method>,
                        isAbstract: bool, isReadOnly: bool, addType: Library): (r: Result<Model, string>)
    ensures name in ClassNames(m) <==> r == Failure(DuplicateClassText(name))
    ensures r.Failure? ==> IsErrorText(r.error)
    ensures !(addType.Raises? && addType.kind == OtherError) ==> (r.Success? <==> name !in ClassNames(m))
    ensures name !in ClassNames(m) && addType.Raises? && addType.kind == OtherError ==>
      r == Failure(ProcessingErrorText(addType.message))
    ensures r.Success? ==>
      OnlyTypesChanged(m, r.value) &&
      r.value.types == m.types + [Class(name, attributes, methods, isAbstract, isReadOnly)]
  {
    if name in ClassNames(m) then Failure(DuplicateClassText(name))
    else match addType
      case Raises(OtherError, e) =>
        assert ProcessingErrorText(e)[6] != DuplicateClassText(name)[6];
        Failure(ProcessingErrorText(e))
      case _ => Success(m.(types := m.types + [Class(name, attributes, methods, isAbstract, isReadOnly)]))
  }

  method AddClass(dm: DomainModel, name: string, attributes: seq<Attribute>, methods: seq<Method>,
                  isAbstract: bool, isReadOnly: bool, addType: Library) returns (status: Returned)
    modifies dm
    ensures Reflects(dm, old(dm.Snapshot()),
                     AddClassSpec(old(dm.Snapshot()), name, attributes, methods, isAbstract, isReadOnly, addType), status)
  {
    var newClass := Class(name, attributes, methods, isAbstract, isReadOnly);
    var existingClassNames := ClassNames(dm.Snapshot());
    if name in existingClassNames {
      return Message(DuplicateClassText(name));
    }
    match addType {
      case Accepts =>
        dm.types := dm.types + [newClass];
      case Raises(ValueError, _) =>
        // add_type refused it: the class goes into `types` directly
        dm.types := dm.types + [newClass];
      case Raises(OtherError, e) =>
        return Message(ProcessingErrorText(e));
    }
    return TheModel;
  }

  /** A successful `base_add_class` adds exactly one class, and its name is the only new class name. */
  lemma AddClassAddsOneClass(m: Model, name: string, attributes: seq<Attribute>, methods: seq<Method>,
                             isAbstract: bool, isReadOnly: bool, addType: Library)
    requires AddClassSpec(m, name, attributes, methods, isAbstract, isReadOnly, addType).Success?
    ensures var m' := AddClassSpec(m, name, attributes, methods, isAbstract, isReadOnly, addType).value;
      name !in ClassNames(m) &&
      ClassNames(m') == ClassNames(m) + {name} &&
      |Classes(m'.types)| == |Classes(m.types)| + 1
  {
    AppendClassNames(m, Class(name, attributes, methods, isAbstract, isReadOnly));
  }

  /** Appending a class adds one class and its name. */
  lemma AppendClassNames(m: Model, c: Type)
    requires c.Class?
    ensures var m' := m.(types := m.types + [c]);
      ClassNames(m') == ClassNames(m) + {c.name} && |Classes(m'.types)| == |Classes(m.types)| + 1
  {
    var m' := m.(types := m.types + [c]);
    ClassesAppend(m.types, c);
    assert Classes(m'.types) == Classes(m.types) + [c];
    assert c in Classes(m'.types);
  }

  /** `base_add_class` keeps class names unique. */
  lemma AddClassKeepsNamesUnique(m: Model, name: string, attributes: seq<Attribute>, methods: seq<Method>,
                                 isAbstract: bool, isReadOnly: bool, addType: Library)
    requires UniqueClassNames(m)
    requires AddClassSpec(m, name, attributes, methods, isAbstract, isReadOnly, addType).Success?
    ensures UniqueClassNames(AddClassSpec(m, name, attributes, methods, isAbstract, isReadOnly, addType).value)
  {
    var c := Class(name, attributes, methods, isAbstract, isReadOnly);
    var cs := Classes(m.types);
    ClassesAppend(m.types, c);
    forall i | 0 <= i < |cs|
      ensures cs[i].name != name
    {
      assert cs[i] in cs;
    }
  }

  // ===== base_add_method_to_class =====

  function DuplicateMethodText(name: string, className: string): (s: string)
    ensures IsErrorText(s)
  {
    "Error adding method '" + (name + "': A method with name '" + name + "' already exists in the class '" + className + "'")
  }

  function AddMethodErrorText(name: string, className: string, e: string): (s: string)
    ensures IsErrorText(s)
  {
    "Error adding method '" + (name + "' to class '" + className + "': " + e)
  }

  /** One `Parameter` per entry of `parameters` (name, type name), each typed by `typ`. */
  function ParametersOf(parameters: seq<(string, string)>, typ: TypeRef): (ps: seq<Parameter>)
  {
    seq(|parameters|, i requires 0 <= i < |parameters| => Parameter(parameters[i].0, typ))
  }

  /**
   * The result of `base_add_method_to_class`. The owner is looked up by name
   * and not checked: a missing owner, or one without methods, fails when its
   * `methods` are read.
   */
  function AddMethodToClassSpec(m: Model, name: string, className: string, visibility: string, isAbstract: bool,
                                parameters: seq<(string, string)>, typeName: string, code: string,
                                addMethod: Library): (r: Result<Model, string>)
    ensures r.Failure? ==> IsErrorText(r.error)
    ensures TypeByName(m, className).None? ==>
      r == Failure(ProcessingErrorText(NoAttributeText(None, "methods")))
    ensures TypeByName(m, className).Some? && !IsClass(m.types[TypeByName(m, className).value]) ==>
      r == Failure(ProcessingErrorText(NoAttributeText(Some(m.types[TypeByName(m, className).value]), "methods")))
    ensures (TypeByName(m, className).Some? && IsClass(m.types[TypeByName(m, className).value]) &&
             name in MethodNames(m.types[TypeByName(m, className).value].methods)) ==>
      r == Failure(DuplicateMethodText(name, className))
    ensures r.Success? <==>
      TypeByName(m, className).Some? && IsClass(m.types[TypeByName(m, className).value]) &&
      name !in MethodNames(m.types[TypeByName(m, className).value].methods) && addMethod == Accepts
    ensures r.Success? ==>
      var i := TypeByName(m, className).value;
      var newMethod := Method(name, visibility, isAbstract, ParametersOf(parameters, RefTo(m, typeName)),
                           RefTo(m, typeName), code);
      OnlyTypeAtChanged(m, r.value, i) &&
      r.value.types[i] == m.types[i].(methods := m.types[i].methods + [newMethod])
  {
    match TypeByName(m, className)
    case None => Failure(ProcessingErrorText(NoAttributeText(None, "methods")))
    case Some(i) =>
      var owner := m.types[i];
      if !IsClass(owner) then Failure(ProcessingErrorText(NoAttributeText(Some(owner), "methods")))
      else if name in MethodNames(owner.methods) then Failure(DuplicateMethodText(name, className))
      else
        var methodType := RefTo(m, typeName);
        var newMethod := Method(name, visibility, isAbstract, ParametersOf(parameters, methodType), methodType, code);
        match addMethod
        case Accepts => Success(m.(types := m.types[i := owner.(methods := owner.methods + [newMethod])]))
        case Raises(ValueError, e) => Failure(AddMethodErrorText(name, className, e))
        case Raises(OtherError, e) => Failure(ProcessingErrorText(e))
  }

  method AddMethodToClass(dm: DomainModel, name: string, className: string, visibility: string, isAbstract: bool,
                          parameters: seq<(string, string)>, typeName: string, code: string,
                          addMethod: Library) returns (status: Returned)
    modifies dm
    ensures Reflects(dm, old(dm.Snapshot()),
                     AddMethodToClassSpec(old(dm.Snapshot()), name, className, visibility, isAbstract,
                                          parameters, typeName, code, addMethod), status)
  {
    var found := TypeByName(dm.Snapshot(), className);
    if found.None? {
      return Message(ProcessingErrorText(NoAttributeText(None, "methods")));
    }
    var owner := dm.types[found.value];
    if !IsClass(owner) {
      return Message(ProcessingErrorText(NoAttributeText(Some(owner), "methods")));
    }
    var existingMethodNames := MethodNames(owner.methods);
    var methodType := RefTo(dm.Snapshot(), typeName);
    if name in existingMethodNames {
      return Message(DuplicateMethodText(name, className));
    }
    var parameterObjects: seq<Parameter> := [];
    var k := 0;
    while k < |parameters|
      invariant 0 <= k <= |parameters|
      invariant |parameterObjects| == k
      invariant forall j :: 0 <= j < k ==> parameterObjects[j] == Parameter(parameters[j].0, methodType)
    {
      // each parameter is typed by looking up the method's `type_name`
      var paramType := RefTo(dm.Snapshot(), typeName);
      parameterObjects := parameterObjects + [Parameter(parameters[k].0, paramType)];
      k := k + 1;
    }
    assert parameterObjects == ParametersOf(parameters, methodType);
    var newMethod := Method(name, visibility, isAbstract, parameterObjects, methodType, code);
    match addMethod {
      case Accepts =>
        dm.types := dm.types[found.value := owner.(methods := owner.methods + [newMethod])];
        return TheModel;
      case Raises(ValueError, e) =>
        return Message(AddMethodErrorText(name, className, e));
      case Raises(OtherError, e) =>
        return Message(ProcessingErrorText(e));
    }
  }

  /**
   * The method added by `base_add_method_to_class` has one parameter per
   * entry, named by the entry, and typed by the method's `type_name`: the
   * entry's own type name plays no part.
   */
  lemma NewMethodParameters(m: Model, name: string, className: string, visibility: string, isAbstract: bool,
                            parameters: seq<(string, string)>, typeName: string, code: string)
    requires AddMethodToClassSpec(m, name, className, visibility, isAbstract, parameters, typeName, code, Accepts).Success?
    ensures var m' := AddMethodToClassSpec(m, name, className, visibility, isAbstract, parameters, typeName, code, Accepts).value;
      var i := TypeByName(m, className).value;
      var ms := m'.types[i].methods;
      |ms| == |m.types[i].methods| + 1 &&
      ms[|ms| - 1].name == name &&
      |ms[|ms| - 1].parameters| == |parameters| &&
      forall k :: 0 <= k < |parameters| ==>
        ms[|ms| - 1].parameters[k] == Parameter(parameters[k].0, RefTo(m, typeName))
  {
  }

  // ===== base_add_attribute_to_class =====

  function DuplicateAttributeText(name: string, className: string): (s: string)
    ensures IsErrorText(s)
  {
    "Error adding attribute '" + (name + "': An attribute with name '" + name + "' already exists in the class '" + className + "'")
  }

  function AddAttributeErrorText(name: string, className: string, e: string): (s: string)
    ensures IsErrorText(s)
  {
    "Error adding attribute '" + (name + "' to class '" + className + "': " + e)
  }

  /**
   * The result of `base_add_attribute_to_class`: owner lookup, duplicate
   * check, multiplicity parsing (its ValueError is reported against the
   * attribute), then `add_attribute`.
   */
  function AddAttributeToClassSpec(m: Model, name: string, className: string, typeName: string,
                                   multiplicity: string, visibility: string, isComposite: bool,
                                   isNavigable: bool, isId: bool, isReadOnly: bool,
                                   addAttribute: Library): (r: Result<Model, string>)
    ensures r.Failure? ==> IsErrorText(r.error)
    ensures TypeByName(m, className).None? ==>
      r == Failure(ProcessingErrorText(NoAttributeText(None, "attributes")))
    ensures TypeByName(m, className).Some? && !IsClass(m.types[TypeByName(m, className).value]) ==>
      r == Failure(ProcessingErrorText(NoAttributeText(Some(m.types[TypeByName(m, className).value]), "attributes")))
    ensures (TypeByName(m, className).Some? && IsClass(m.types[TypeByName(m, className).value]) &&
             name in AttributeNames(m.types[TypeByName(m, className).value].attributes)) ==>
      r == Failure(DuplicateAttributeText(name, className))
    ensures (TypeByName(m, className).Some? && IsClass(m.types[TypeByName(m, className).value]) &&
             name !in AttributeNames(m.types[TypeByName(m, className).value].attributes) &&
             FromString(multiplicity).Failure?) ==>
      r == Failure(AddAttributeErrorText(name, className, FromString(multiplicity).error))
    ensures r.Success? <==>
      TypeByName(m, className).Some? && IsClass(m.types[TypeByName(m, className).value]) &&
      name !in AttributeNames(m.types[TypeByName(m, className).value].attributes) &&
      FromString(multiplicity).Success? && addAttribute == Accepts
    ensures r.Success? ==>
      var i := TypeByName(m, className).value;
      var attribute := Attribute(name, RefTo(m, typeName), Bounds(FromString(multiplicity).value), visibility,
                                 isComposite, isNavigable, isId, isReadOnly);
      OnlyTypeAtChanged(m, r.value, i) &&
      r.value.types[i] == m.types[i].(attributes := m.types[i].attributes + [attribute])
  {
    match TypeByName(m, className)
    case None => Failure(ProcessingErrorText(NoAttributeText(None, "attributes")))
    case Some(i) =>
      var owner := m.types[i];
      if !IsClass(owner) then Failure(ProcessingErrorText(NoAttributeText(Some(owner), "attributes")))
      else if name in AttributeNames(owner.attributes) then Failure(DuplicateAttributeText(name, className))
      else match FromString(multiplicity)
        case Failure(e) => Failure(AddAttributeErrorText(name, className, e))
        case Success(bounds) =>
          var attribute := Attribute(name, RefTo(m, typeName), Bounds(bounds), visibility,
                                     isComposite, isNavigable, isId, isReadOnly);
          match addAttribute
          case Accepts => Success(m.(types := m.types[i := owner.(attributes := owner.attributes + [attribute])]))
          case Raises(ValueError, e) => Failure(AddAttributeErrorText(name, className, e))
          case Raises(OtherError, e) => Failure(ProcessingErrorText(e))
  }

  method AddAttributeToClass(dm: DomainModel, name: string, className: string, typeName: string,
                             multiplicity: string, visibility: string, isComposite: bool,
                             isNavigable: bool, isId: bool, isReadOnly: bool,
                             addAttribute: Library) returns (status: Returned)
    modifies dm
    ensures Reflects(dm, old(dm.Snapshot()),
                     AddAttributeToClassSpec(old(dm.Snapshot()), name, className, typeName, multiplicity, visibility,
                                             isComposite, isNavigable, isId, isReadOnly, addAttribute), status)
  {
    var found := TypeByName(dm.Snapshot(), className);
    if found.None? {
      return Message(ProcessingErrorText(NoAttributeText(None, "attributes")));
    }
    var owner := dm.types[found.value];
    if !IsClass(owner) {
      return Message(ProcessingErrorText(NoAttributeText(Some(owner), "attributes")));
    }
    var existingAttributeNames := AttributeNames(owner.attributes);
    var propertyType := RefTo(dm.Snapshot(), typeName);
    if name in existingAttributeNames {
      return Message(DuplicateAttributeText(name, className));
    }
    var parsed := FromString(multiplicity);
    if parsed.Failure? {
      return Message(AddAttributeErrorText(name, className, parsed.error));
    }
    var newProperty := Attribute(name, propertyType, Bounds(parsed.value), visibility,
                                 isComposite, isNavigable, isId, isReadOnly);
    match addAttribute {
      case Accepts =>
        dm.types := dm.types[found.value := owner.(attributes := owner.attributes + [newProperty])];
        return TheModel;
      case Raises(ValueError, e) =>
        return Message(AddAttributeErrorText(name, className, e));
      case Raises(OtherError, e) =>
        return Message(ProcessingErrorText(e));
    }
  }

  // ===== base_add_binary_association =====

  function DuplicateAssociationText(name: string): (s: string)
    ensures IsErrorText(s)
  {
    "Error adding association '" + (name + "': An association with name '" + name + "' already exists in the model")
  }

  function AddAssociationErrorText(name: string, e: string): (s: string)
    ensures IsErrorText(s)
  {
    "Error adding association '" + (name + "' to model: " + e)
  }

  /**
   * The two ends of a new binary association. The end owned by `from_class`
   * is named `role_to`, points at `to_class` and carries the composition
   * flag; the other end is named `role_from`, points at `from_class` and is
   * navigable exactly when the association is bidirectional.
   */
  function AssociationEnds(m: Model, fromClass: string, toClass: string, roleFrom: string, roleTo: string,
                           multiplicityFrom: Multiplicity, multiplicityTo: Multiplicity,
                           isBidirectional: bool, isComposition: bool): (ends: seq<End>)
    ensures |ends| == 2
    ensures ends[0].name == roleTo && ends[0].typ == RefTo(m, toClass) && ends[0].owner == RefTo(m, fromClass)
    ensures ends[0].multiplicity == multiplicityTo && ends[0].isComposite == isComposition && ends[0].isNavigable
    ensures ends[1].name == roleFrom && ends[1].typ == RefTo(m, fromClass) && ends[1].owner == RefTo(m, toClass)
    ensures ends[1].multiplicity == multiplicityFrom && !ends[1].isComposite && ends[1].isNavigable == isBidirectional
  {
    var fromEnd := End(roleTo, RefTo(m, toClass), RefTo(m, fromClass), multiplicityTo, isComposition, true);
    var toEnd := End(roleFrom, RefTo(m, fromClass), RefTo(m, toClass), multiplicityFrom, false, isBidirectional);
    [fromEnd, toEnd]
  }

  /**
   * The result of `base_add_binary_association`: the name is checked, then
   * `multiplicity_to` and `multiplicity_from` are parsed, in that order,
   * before anything is built.
   */
  function AddBinaryAssociationSpec(m: Model, name: string, fromClass: string, toClass: string,
                                    roleFrom: string, roleTo: string, multiplicityFrom: string,
                                    multiplicityTo: string, isBidirectional: bool, isComposition: bool,
                                    addAssociation: Library): (r: Result<Model, string>)
    ensures r.Failure? ==> IsErrorText(r.error)
    ensures name in AssociationNames(m.associations) ==> r == Failure(DuplicateAssociationText(name))
    ensures name !in AssociationNames(m.associations) && FromString(multiplicityTo).Failure? ==>
      r == Failure(AddAssociationErrorText(name, FromString(multiplicityTo).error))
    ensures (name !in AssociationNames(m.associations) && FromString(multiplicityTo).Success? &&
             FromString(multiplicityFrom).Failure?) ==>
      r == Failure(AddAssociationErrorText(name, FromString(multiplicityFrom).error))
    ensures r.Success? <==>
      name !in AssociationNames(m.associations) && FromString(multiplicityTo).Success? &&
      FromString(multiplicityFrom).Success? && addAssociation == Accepts
    ensures r.Success? ==>
      r.value.name == m.name && r.value.types == m.types &&
      r.value.generalizations == m.generalizations && r.value.constraints == m.constraints &&
      r.value.associations == m.associations + [Association(name, AssociationEnds(
        m, fromClass, toClass, roleFrom, roleTo, FromString(multiplicityFrom).value,
        FromString(multiplicityTo).value, isBidirectional, isComposition))]
  {
    if name in AssociationNames(m.associations) then Failure(DuplicateAssociationText(name))
    else match FromString(multiplicityTo)
      case Failure(e) => Failure(AddAssociationErrorText(name, e))
      case Success(multTo) =>
        match FromString(multiplicityFrom)
        case Failure(e) => Failure(AddAssociationErrorText(name, e))
        case Success(multFrom) =>
          var association := Association(name, AssociationEnds(m, fromClass, toClass, roleFrom, roleTo,
                                                               multFrom, multTo, isBidirectional, isComposition));
          match addAssociation
          case Accepts => Success(m.(associations := m.associations + [association]))
          case Raises(ValueError, e) => Failure(AddAssociationErrorText(name, e))
          case Raises(OtherError, e) => Failure(ProcessingErrorText(e))
  }

  method AddBinaryAssociation(dm: DomainModel, name: string, fromClass: string, toClass: string,
                              roleFrom: string, roleTo: string, multiplicityFrom: string,
                              multiplicityTo: string, isBidirectional: bool, isComposition: bool,
                              addAssociation: Library) returns (status: Returned)
    modifies dm
    ensures Reflects(dm, old(dm.Snapshot()),
                     AddBinaryAssociationSpec(old(dm.Snapshot()), name, fromClass, toClass, roleFrom, roleTo,
                                              multiplicityFrom, multiplicityTo, isBidirectional, isComposition,
                                              addAssociation), status)
  {
    var existingAssociationNames := AssociationNames(dm.associations);
    if name in existingAssociationNames {
      return Message(DuplicateAssociationText(name));
    }
    var multTo := FromString(multiplicityTo);
    if multTo.Failure? {
      return Message(AddAssociationErrorText(name, multTo.error));
    }
    var multFrom := FromString(multiplicityFrom);
    if multFrom.Failure? {
      return Message(AddAssociationErrorText(name, multFrom.error));
    }
    var ends := AssociationEnds(dm.Snapshot(), fromClass, toClass, roleFrom, roleTo,
                                multFrom.value, multTo.value, isBidirectional, isComposition);
    match addAssociation {
      case Accepts =>
        dm.associations := dm.associations + [Association(name, ends)];
        return TheModel;
      case Raises(ValueError, e) =>
        return Message(AddAssociationErrorText(name, e));
      case Raises(OtherError, e) =>
        return Message(ProcessingErrorText(e));
    }
  }

  // ===== base_add_association_class =====

  function MissingAssociationText(name: string, associationName: string): (s: string)
    ensures IsErrorText(s)
  {
    "Error adding association class '" + (name + "': Association '" + associationName +
    "' does not exists in the model. Create the '" + associationName + "' association before the association class")
  }

  function AddAssociationClassErrorText(name: string, e: string): (s: string)
    ensures IsErrorText(s)
  {
    "Error adding association class '" + (name + "' to model: " + e)
  }

  /**
   * The result of `base_add_association_class`: the association is the first
   * one with the given name; the new type's own name is not checked here.
   */
  function AddAssociationClassSpec(m: Model, name: string, associationName: string,
                                   addType: Library): (r: Result<Model, string>)
    ensures r.Failure? ==> IsErrorText(r.error)
    ensures associationName !in AssociationNames(m.associations) ==>
      r == Failure(MissingAssociationText(name, associationName))
    ensures r.Success? <==> associationName in AssociationNames(m.associations) && addType == Accepts
    ensures r.Success? ==>
      var j := FirstIndex(AssociationNames(m.associations), associationName).value;
      OnlyTypesChanged(m, r.value) &&
      r.value.types == m.types + [AssociationClass(name, [], [], m.associations[j])]
  {
    match FirstIndex(AssociationNames(m.associations), associationName)
    case None => Failure(MissingAssociationText(name, associationName))
    case Some(j) =>
      match addType
      case Accepts => Success(m.(types := m.types + [AssociationClass(name, [], [], m.associations[j])]))
      case Raises(ValueError, e) => Failure(AddAssociationClassErrorText(name, e))
      case Raises(OtherError, e) => Failure(ProcessingErrorText(e))
  }

  method AddAssociationClass(dm: DomainModel, name: string, associationName: string,
                             addType: Library) returns (status: Returned)
    modifies dm
    ensures Reflects(dm, old(dm.Snapshot()), AddAssociationClassSpec(old(dm.Snapshot()), name, associationName, addType), status)
  {
    var theAssociation: Option<nat> := None;
    var k := 0;
    while k < |dm.associations|
      invariant 0 <= k <= |dm.associations|
      invariant forall j :: 0 <= j < k ==> dm.associations[j].name != associationName
    {
      if associationName == dm.associations[k].name {
        theAssociation := Some(k);
        break;
      }
      k := k + 1;
    }
    if theAssociation.None? {
      assert associationName !in AssociationNames(dm.associations);
      return Message(MissingAssociationText(name, associationName));
    }
    FirstIndexAt(AssociationNames(dm.associations), associationName, theAssociation.value);
    var associationClass := AssociationClass(name, [], [], dm.associations[theAssociation.value]);
    match addType {
      case Accepts =>
        dm.types := dm.types + [associationClass];
        return TheModel;
      case Raises(ValueError, e) =>
        return Message(AddAssociationClassErrorText(name, e));
      case Raises(OtherError, e) =>
        return Message(ProcessingErrorText(e));
    }
  }

  // ===== base_add_enumeration =====

  function DuplicateTypeText(name: string): (s: string)
    ensures IsErrorText(s)
  {
    "Error adding enumeration '" + (name + "': A type with name '" + name + "' already exists in the model")
  }

  function AddEnumerationErrorText(name: string, e: string): (s: string)
    ensures IsErrorText(s)
  {
    "Error adding enumeration '" + (name + "' to model: " + e)
  }

  /** The result of `base_add_enumeration`: the name must not be used by any type at all. */
  function AddEnumerationSpec(m: Model, name: string, literals: seq<string>, addType: Library): (r: Result<Model, string>)
    ensures r.Failure? ==> IsErrorText(r.error)
    ensures name in TypeNames(m.types) ==> r == Failure(DuplicateTypeText(name))
    ensures r.Success? <==> name !in TypeNames(m.types) && addType == Accepts
    ensures r.Success? ==> OnlyTypesChanged(m, r.value) && r.value.types == m.types + [Enumeration(name, literals)]
  {
    if TypeByName(m, name).Some? then Failure(DuplicateTypeText(name))
    else match addType
      case Accepts => Success(m.(types := m.types + [Enumeration(name, literals)]))
      case Raises(ValueError, e) => Failure(AddEnumerationErrorText(name, e))
      case Raises(OtherError, e) => Failure(ProcessingErrorText(e))
  }

  method AddEnumeration(dm: DomainModel, name: string, literals: seq<string>, addType: Library) returns (status: Returned)
    modifies dm
    ensures Reflects(dm, old(dm.Snapshot()), AddEnumerationSpec(old(dm.Snapshot()), name, literals, addType), status)
  {
    if TypeByName(dm.Snapshot(), name).Some? {
      return Message(DuplicateTypeText(name));
    }
    match addType {
      case Accepts =>
        dm.types := dm.types + [Enumeration(name, literals)];
        return TheModel;
      case Raises(ValueError, e) =>
        return Message(AddEnumerationErrorText(name, e));
      case Raises(OtherError, e) =>
        return Message(ProcessingErrorText(e));
    }
  }

  // ===== base_add_enumeration_literal =====

  function AddLiteralErrorText(name: string, enumerationName: string, e: string): (s: string)
    ensures IsErrorText(s)
  {
    "Error adding literal '" + (name + "' to enumeration '" + enumerationName + "': " + e)
  }

  /**
   * The result of `base_add_enumeration_literal`: the enumeration is looked
   * up and not checked; anything but an enumeration fails at `add_literal`.
   */
  function AddEnumerationLiteralSpec(m: Model, name: string, enumerationName: string,
                                     addLiteral: Library): (r: Result<Model, string>)
    ensures r.Failure? ==> IsErrorText(r.error)
    ensures TypeByName(m, enumerationName).None? ==>
      r == Failure(ProcessingErrorText(NoAttributeText(None, "add_literal")))
    ensures TypeByName(m, enumerationName).Some? && !m.types[TypeByName(m, enumerationName).value].Enumeration? ==>
      r == Failure(ProcessingErrorText(NoAttributeText(Some(m.types[TypeByName(m, enumerationName).value]), "add_literal")))
    ensures r.Success? <==>
      TypeByName(m, enumerationName).Some? && m.types[TypeByName(m, enumerationName).value].Enumeration? &&
      addLiteral == Accepts
    ensures r.Success? ==>
      var i := TypeByName(m, enumerationName).value;
      OnlyTypeAtChanged(m, r.value, i) &&
      r.value.types[i] == m.types[i].(literals := m.types[i].literals + [name])
  {
    match TypeByName(m, enumerationName)
    case None => Failure(ProcessingErrorText(NoAttributeText(None, "add_literal")))
    case Some(i) =>
      var enum := m.types[i];
      if !enum.Enumeration? then Failure(ProcessingErrorText(NoAttributeText(Some(enum), "add_literal")))
      else match addLiteral
        case Accepts => Success(m.(types := m.types[i := enum.(literals := enum.literals + [name])]))
        case Raises(ValueError, e) => Failure(AddLiteralErrorText(name, enumerationName, e))
        case Raises(OtherError, e) => Failure(ProcessingErrorText(e))
  }

  method AddEnumerationLiteral(dm: DomainModel, name: string, enumerationName: string,
                               addLiteral: Library) returns (status: Returned)
    modifies dm
    ensures Reflects(dm, old(dm.Snapshot()), AddEnumerationLiteralSpec(old(dm.Snapshot()), name, enumerationName, addLiteral), status)
  {
    var found := TypeByName(dm.Snapshot(), enumerationName);
    if found.None? {
      return Message(ProcessingErrorText(NoAttributeText(None, "add_literal")));
    }
    var enum := dm.types[found.value];
    if !enum.Enumeration? {
      return Message(ProcessingErrorText(NoAttributeText(Some(enum), "add_literal")));
    }
    match addLiteral {
      case Accepts =>
        dm.types := dm.types[found.value := enum.(literals := enum.literals + [name])];
        return TheModel;
      case Raises(ValueError, e) =>
        return Message(AddLiteralErrorText(name, enumerationName, e));
      case Raises(OtherError, e) =>
        return Message(ProcessingErrorText(e));
    }
  }

  // ===== base_add_generalization =====

  /** The error text of `base_add_generalization`, which speaks of an association. */
  function AddGeneralizationErrorText(general: string, specific: string, e: string): (s: string)
    ensures IsErrorText(s)
  {
    "Error adding association '" + (general + "' <|-- '" + specific + "' to model: " + e)
  }

  /** The result of `base_add_generalization`: both classes are looked up and not checked. */
  function AddGeneralizationSpec(m: Model, general: string, specific: string,
                                 addGeneralization: Library): (r: Result<Model, string>)
    ensures r.Failure? ==> IsErrorText(r.error)
    ensures r.Success? <==> addGeneralization == Accepts
    ensures r.Success? ==>
      r.value.name == m.name && r.value.types == m.types && r.value.associations == m.associations &&
      r.value.constraints == m.constraints &&
      r.value.generalizations == m.generalizations + [Generalization(RefTo(m, general), RefTo(m, specific))]
  {
    match addGeneralization
    case Accepts =>
      Success(m.(generalizations := m.generalizations + [Generalization(RefTo(m, general), RefTo(m, specific))]))
    case Raises(ValueError, e) => Failure(AddGeneralizationErrorText(general, specific, e))
    case Raises(OtherError, e) => Failure(ProcessingErrorText(e))
  }

  method AddGeneralization(dm: DomainModel, general: string, specific: string,
                           addGeneralization: Library) returns (status: Returned)
    modifies dm
    ensures Reflects(dm, old(dm.Snapshot()), AddGeneralizationSpec(old(dm.Snapshot()), general, specific, addGeneralization), status)
  {
    var generalClass := RefTo(dm.Snapshot(), general);
    var specificClass := RefTo(dm.Snapshot(), specific);
    match addGeneralization {
      case Accepts =>
        dm.generalizations := dm.generalizations + [Generalization(generalClass, specificClass)];
        return TheModel;
      case Raises(ValueError, e) =>
        return Message(AddGeneralizationErrorText(general, specific, e));
      case Raises(OtherError, e) =>
        return Message(ProcessingErrorText(e));
    }
  }

  // ===== base_add_ocl_constraint =====

  function AddConstraintErrorText(name: string, className: string, e: string): (s: string)
    ensures IsErrorText(s)
  {
    "Error adding constraint '" + (name + "' to class " + className + ": " + e)
  }

  /**
   * The result of `base_add_ocl_constraint`: a new OCL constraint whose
   * context is the class looked up by name (not checked); the model's
   * constraint set is replaced by its union with the new constraint.
   * `setConstraints` is how that assignment to `domain_model.constraints`
   * ends (the `Constraint` constructor itself is taken not to raise).
   */
  function AddOclConstraintSpec(m: Model, name: string, className: string, expression: string,
                                setConstraints: Library): (r: Result<Model, string>)
    ensures r.Failure? ==> IsErrorText(r.error)
    ensures r.Success? <==> setConstraints == Accepts
    ensures r.Success? ==>
      r.value.name == m.name && r.value.types == m.types && r.value.associations == m.associations &&
      r.value.generalizations == m.generalizations &&
      r.value.constraints == m.constraints + [Constraint(name, RefTo(m, className), expression, "OCL")]
  {
    match setConstraints
    case Accepts =>
      Success(m.(constraints := m.constraints + [Constraint(name, RefTo(m, className), expression, "OCL")]))
    case Raises(ValueError, e) => Failure(AddConstraintErrorText(name, className, e))
    case Raises(OtherError, e) => Failure(ProcessingErrorText(e))
  }

  method AddOclConstraint(dm: DomainModel, name: string, className: string, expression: string,
                          setConstraints: Library) returns (status: Returned)
    modifies dm
    ensures Reflects(dm, old(dm.Snapshot()), AddOclConstraintSpec(old(dm.Snapshot()), name, className, expression, setConstraints), status)
  {
    var context := RefTo(dm.Snapshot(), className);
    match setConstraints {
      case Accepts =>
        dm.constraints := dm.constraints + [Constraint(name, context, expression, "OCL")];
        return TheModel;
      case Raises(ValueError, e) =>
        return Message(AddConstraintErrorText(name, className, e));
      case Raises(OtherError, e) =>
        return Message(ProcessingErrorText(e));
    }
  }
}
