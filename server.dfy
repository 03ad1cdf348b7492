/**
 * The tools `server.py` defines itself: `add_class`, `sql_generation`,
 * `get_model_info` and `about`. Each decodes its model first; decoding is
 * not modelled, so the decoded object (or the decoder's error message) is a
 * parameter, and a serialized reply is the model it would encode.
 */
module Server {
  import opened Wrappers
  import opened Strings
  import opened Metamodel
  import Creation
  import Generators
  import Info

  /** The message of the `RuntimeError` that a failed decode raises. */
  function DeserializeErrorText(e: string): string
  {
    "Error deserializing model: " + e
  }

  /** What a model-returning tool replies: the (encoded) model, or a text. */
  datatype Reply = Serialized(model: Model) | Failed(text: string)

  // ===== add_class =====

  /**
   * The reply of `add_class` on what decoding gave. A decoding error is an
   * ordinary exception; the duplicate check and the `add_type` fallback are
   * those of `base_add_class`.
   */
  function AddClassReply(decoded: Result<Model, string>, name: string, attributes: seq<Attribute>,
                         methods: seq<Method>, isAbstract: bool, isReadOnly: bool, addType: Library): (r: Reply)
    ensures decoded.Failure? ==> r == Failed(ProcessingErrorText(DeserializeErrorText(decoded.error)))
    ensures r.Failed? ==> IsErrorText(r.text)
    ensures decoded.Success? && r.Serialized? ==>
      Creation.AddClassSpec(decoded.value, name, attributes, methods, isAbstract, isReadOnly, addType) == Success(r.model)
  {
    match decoded
    case Failure(e) => Failed(ProcessingErrorText(DeserializeErrorText(e)))
    case Success(m) =>
      match Creation.AddClassSpec(m, name, attributes, methods, isAbstract, isReadOnly, addType)
      case Success(m') => Serialized(m')
      case Failure(text) => Failed(text)
  }

  /**
   * `add_class`. The decoded object is changed in place, as in
   * `base_add_class`; an object is decoded only when `decoded` is a success.
   */
  method AddClass(decoded: Result<DomainModel, string>, name: string, attributes: seq<Attribute>,
                  methods: seq<Method>, isAbstract: bool, isReadOnly: bool, addType: Library)
    returns (reply: Reply)
    modifies if decoded.Success? then {decoded.value} else {}
    ensures decoded.Failure? ==>
      reply == AddClassReply(Failure(decoded.error), name, attributes, methods, isAbstract, isReadOnly, addType)
    ensures decoded.Success? ==>
      reply == AddClassReply(Success(old(decoded.value.Snapshot())), name, attributes, methods, isAbstract, isReadOnly, addType) &&
      (reply.Serialized? ==> decoded.value.Snapshot() == reply.model) &&
      (reply.Failed? ==> decoded.value.Snapshot() == old(decoded.value.Snapshot()))
  {
    if decoded.Failure? {
      return Failed(ProcessingErrorText(DeserializeErrorText(decoded.error)));
    }
    var domainModel := decoded.value;
    var status := Creation.AddClass(domainModel, name, attributes, methods, isAbstract, isReadOnly, addType);
    match status {
      case TheModel => reply := Serialized(domainModel.Snapshot());
      case Message(text) => reply := Failed(text);
    }
  }

  /** Adding a class whose name is taken replies with the error that names it, and nothing is serialized. */
  lemma AddClassDuplicate(m: Model, name: string, attributes: seq<Attribute>, methods: seq<Method>,
                          isAbstract: bool, isReadOnly: bool, addType: Library)
    requires name in ClassNames(m)
    ensures var r := AddClassReply(Success(m), name, attributes, methods, isAbstract, isReadOnly, addType);
      var lead := Creation.AddingClassLead(name);
      r.Failed? && |lead| <= |r.text| && r.text[..|lead|] == lead
  {
    StartsWith(Creation.AddingClassLead(name), " A class with name '" + name + "' already exists in the model");
  }

  /** A text `lead + rest` starts with `lead`. */
  lemma StartsWith(lead: string, rest: string)
    ensures |lead| <= |lead + rest| && (lead + rest)[..|lead|] == lead
  {
  }

  /** A successful `add_class` serializes a model whose class names are the old ones and the new one. */
  lemma AddClassNames(m: Model, name: string, attributes: seq<Attribute>, methods: seq<Method>,
                      isAbstract: bool, isReadOnly: bool, addType: Library)
    requires name !in ClassNames(m) && !(addType.Raises? && addType.kind == OtherError)
    ensures var r := AddClassReply(Success(m), name, attributes, methods, isAbstract, isReadOnly, addType);
      r.Serialized? && ClassNames(r.model) == ClassNames(m) + {name}
  {
    Creation.AddClassAddsOneClass(m, name, attributes, methods, isAbstract, isReadOnly, addType);
  }

  // ===== sql_generation =====

  /**
   * The reply of `sql_generation`. `generated` is what `generate()` did on
   * the padded model: returned a text or `None`, or raised with a message.
   * Its output is the reply only when it has a non-whitespace character;
   * otherwise the reply is the diagnostic for the padded classes.
   */
  function SqlReply(decoded: Result<Model, string>, idProperty: Library, generated: Result<Option<string>, string>)
    : (reply: string)
    ensures decoded.Failure? ==> reply == Generators.GenerationErrorText(Generators.Sql, DeserializeErrorText(decoded.error))
    ensures decoded.Success? && generated.Failure? ==> reply == Generators.GenerationErrorText(Generators.Sql, generated.error)
  {
    match decoded
    case Failure(e) => Generators.GenerationErrorText(Generators.Sql, DeserializeErrorText(e))
    case Success(m) =>
      match generated
      case Failure(e) => Generators.GenerationErrorText(Generators.Sql, e)
      case Success(out) =>
        if out.Some? && HasNonSpace(out.value) then out.value
        else Generators.DiagnosticText(Classes(Generators.IdPadded(m, idProperty).types), Generators.SqlArtifact)
  }

  /**
   * `sql_generation`: the id pre-pass runs in place on the decoded object,
   * then the generator's output or the diagnostic is returned.
   */
  method SqlGeneration(decoded: Result<DomainModel, string>, idProperty: Library,
                       generated: Result<Option<string>, string>) returns (reply: string)
    modifies if decoded.Success? then {decoded.value} else {}
    ensures decoded.Failure? ==> reply == SqlReply(Failure(decoded.error), idProperty, generated)
    ensures decoded.Success? ==>
      decoded.value.Snapshot() == Generators.IdPadded(old(decoded.value.Snapshot()), idProperty) &&
      reply == SqlReply(Success(old(decoded.value.Snapshot())), idProperty, generated)
  {
    if decoded.Failure? {
      return Generators.GenerationErrorText(Generators.Sql, DeserializeErrorText(decoded.error));
    }
    var domainModel := decoded.value;
    Generators.AddIdAttributes(domainModel, idProperty);
    match generated {
      case Failure(e) =>
        reply := Generators.GenerationErrorText(Generators.Sql, e);
      case Success(sqlOutput) =>
        if sqlOutput.Some? && HasNonSpace(sqlOutput.value) {
          reply := sqlOutput.value;
        } else {
          reply := Generators.Diagnostic(domainModel.Snapshot(), Generators.SqlArtifact);
        }
    }
  }

  /** Every diagnostic begins with a letter, so it is never blank. */
  lemma DiagnosticNotBlank(classes: seq<Type>, a: Generators.Artifact)
    requires forall c :: c in classes ==> IsClass(c)
    ensures HasNonSpace(Generators.DiagnosticText(classes, a))
  {
    var text := Generators.DiagnosticText(classes, a);
    assert text[0] == 'N';
    assert !IsSpace(text[0]);
  }

  /**
   * When the generator returns a text, the reply is that text exactly when it
   * is not blank; a blank or missing output gives the diagnostic.
   */
  lemma SqlOutputOnlyIfNotBlank(m: Model, idProperty: Library, out: Option<string>)
    ensures var reply := SqlReply(Success(m), idProperty, Success(out));
      var diagnostic := Generators.DiagnosticText(Classes(Generators.IdPadded(m, idProperty).types), Generators.SqlArtifact);
      (out.Some? ==> (reply == out.value <==> HasNonSpace(out.value))) &&
      (!(out.Some? && HasNonSpace(out.value)) ==> reply == diagnostic)
  {
    DiagnosticNotBlank(Classes(Generators.IdPadded(m, idProperty).types), Generators.SqlArtifact);
  }

  /** A model without classes gets the no-classes text rather than an error. */
  lemma SqlWithoutClasses(m: Model, idProperty: Library, out: Option<string>)
    requires Classes(m.types) == []
    requires !(out.Some? && HasNonSpace(out.value))
    ensures SqlReply(Success(m), idProperty, Success(out)) == "No SQL generated. The domain model contains no classes."
  {
    Generators.PrePassKeepsClasses(m, idProperty);
    Generators.NoSqlClassesText();
  }

  /**
   * A class just added without attributes to a model with an `int` type
   * comes out of `sql_generation` with exactly the one `id` attribute,
   * typed `int` and marked as the identifier.
   */
  lemma AddedClassGetsId(m: Model, name: string, isAbstract: bool, isReadOnly: bool, addType: Library)
    requires name !in ClassNames(m) && !(addType.Raises? && addType.kind == OtherError)
    requires "int" in TypeNames(m.types)
    ensures var added := Creation.AddClassSpec(m, name, [], [], isAbstract, isReadOnly, addType);
      added.Success? &&
      var t := Generators.IdPadded(added.value, Accepts).types[|m.types|];
      t.name == name && |t.attributes| == 1 &&
      t.attributes[0].name == "id" && t.attributes[0].typ == Ref("int") && t.attributes[0].isId
  {
    var m1 := Creation.AddClassSpec(m, name, [], [], isAbstract, isReadOnly, addType).value;
    assert TypeNames(m.types) <= TypeNames(m1.types);
    assert "int" in TypeNames(m1.types);
    Generators.PrePassGivesId(m1);
  }

  // ===== get_model_info and about =====

  /** The text `get_model_info` returns: the info lines of the decoded model, or the decoding error. */
  function ModelInfoReply(decoded: Result<Model, string>): (text: string)
    ensures decoded.Failure? ==> text == "Error getting model info: " + DeserializeErrorText(decoded.error)
    ensures decoded.Success? ==> text == Join(Info.InfoLines(decoded.value), "\n")
  {
    match decoded
    case Failure(e) => "Error getting model info: " + DeserializeErrorText(e)
    case Success(m) => Info.ModelInfo(Some(m))
  }

  /** `get_model_info`, with the same line layout as `base_get_model_info`. */
  method GetModelInfo(decoded: Result<Model, string>) returns (text: string)
    ensures text == ModelInfoReply(decoded)
  {
    if decoded.Failure? {
      return "Error getting model info: " + DeserializeErrorText(decoded.error);
    }
    text := Info.GetModelInfo(Some(decoded.value));
  }

  /** `get_model_info` on a decoded model starts with its name, its type count and its class count. */
  lemma ModelInfoStartsWithHeader(m: Model)
    ensures var lines := Info.InfoLines(m);
      |lines| >= 3 && ModelInfoReply(Success(m)) == Join(lines, "\n") &&
      lines[..3] == ["Domain Model: " + m.name, "Total types: " + IntToString(|m.types|),
                     "Classes: " + IntToString(|Classes(m.types)|)]
  {
    Info.InfoHeader(m);
  }
}
