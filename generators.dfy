/**
 * The code around the generators: the pre-pass of `base_sql_generation`
 * that gives every attribute-less class an integer `id`, the
 * None-or-error-string convention of the `base_*_generation` functions,
 * and what the generator tools reply with afterwards (the generated file
 * read back, or a diagnostic naming the classes).
 */
module Generators {
  import opened Wrappers
  import opened Strings
  import opened Metamodel

  // ===== the id pre-pass =====

  /**
   * The property the pre-pass builds, `Property(name="id", type=int_type,
   * multiplicity="1", is_id=True)`, with the library's defaults for the
   * other arguments.
   */
  function IdAttribute(intType: TypeRef): Attribute
  {
    Attribute("id", intType, Text("1"), "public", false, true, true, false)
  }

  /** A class without attributes gets the `id` attribute; every other type stays as it is. */
  function PadType(t: Type, intType: TypeRef): Type
  {
    if IsClass(t) && |t.attributes| == 0 then t.(attributes := [IdAttribute(intType)]) else t
  }

  function PaddedTypes(ts: seq<Type>, intType: TypeRef): (ps: seq<Type>)
    ensures |ps| == |ts|
  {
    seq(|ts|, i requires 0 <= i < |ts| => PadType(ts[i], intType))
  }

  /**
   * The model after the pre-pass. The `int` type is the first type named
   * `int`; `idProperty` is how building the property ends. Without an `int`
   * type, or when building raises (the exception is swallowed), nothing is
   * added.
   */
  function IdPadded(m: Model, idProperty: Library): (m': Model)
    ensures OnlyTypesChanged(m, m') && |m'.types| == |m.types|
  {
    if "int" !in TypeNames(m.types) || idProperty.Raises? then m
    else m.(types := PaddedTypes(m.types, RefTo(m, "int")))
  }

  /** `base_sql_generation`'s pre-pass, in place: for each class without attributes, look for `int` and add the property. */
  method AddIdAttributes(dm: DomainModel, idProperty: Library)
    modifies dm
    ensures dm.Snapshot() == IdPadded(old(dm.Snapshot()), idProperty)
  {
    ghost var before := dm.Snapshot();
    ghost var target := IdPadded(before, idProperty);
    var k := 0;
    while k < |dm.types|
      invariant 0 <= k <= |dm.types| == |before.types|
      invariant OnlyTypesChanged(before, dm.Snapshot())
      invariant forall i :: 0 <= i < k ==> dm.types[i] == target.types[i]
      invariant forall i :: k <= i < |dm.types| ==> dm.types[i] == before.types[i]
      invariant forall i :: 0 <= i < |dm.types| ==> dm.types[i].name == before.types[i].name
    {
      var cls := dm.types[k];
      if IsClass(cls) && |cls.attributes| == 0 {
        var types := dm.types;
        var intType: Option<nat> := None;
        var j := 0;
        while j < |types|
          invariant 0 <= j <= |types|
          invariant intType.None?
          invariant forall i :: 0 <= i < j ==> types[i].name != "int"
        {
          if types[j].name == "int" {
            intType := Some(j);
            break;
          }
          j := j + 1;
        }
        if intType.None? {
          assert "int" !in TypeNames(before.types) by {
            forall i | 0 <= i < |before.types|
              ensures TypeNames(before.types)[i] != "int"
            {
              assert types[i].name == before.types[i].name;
            }
          }
        } else if idProperty == Accepts {
          assert TypeNames(before.types)[intType.value] == "int";
          dm.types := dm.types[k := cls.(attributes := [IdAttribute(Ref(types[intType.value].name))])];
        }
      }
      k := k + 1;
    }
    assert dm.types == target.types;
  }

  /**
   * With an `int` type and a property that builds, every class ends with at
   * least one attribute, and a class that had none has exactly the
   * identifier `id`, typed by the model's `int` type.
   */
  lemma PrePassGivesId(m: Model)
    requires "int" in TypeNames(m.types)
    ensures forall t :: t in Classes(IdPadded(m, Accepts).types) ==> |t.attributes| >= 1
    ensures forall i :: 0 <= i < |m.types| && IsClass(m.types[i]) && |m.types[i].attributes| == 0 ==>
      var a := IdPadded(m, Accepts).types[i].attributes;
      |a| == 1 && a[0].name == "id" && a[0].typ == Ref("int") && a[0].isId
  {
    var ps := IdPadded(m, Accepts).types;
    forall t | t in Classes(ps)
      ensures |t.attributes| >= 1
    {
      var i :| 0 <= i < |ps| && ps[i] == t;
      assert PadType(m.types[i], Ref("int")) == t;
    }
  }

  /**
   * The pre-pass leaves alone every type that is not an attribute-less
   * class, and the whole model when there is no `int` type or building
   * the property raises.
   */
  lemma PrePassKeepsOthers(m: Model, idProperty: Library)
    ensures forall i :: 0 <= i < |m.types| && !(IsClass(m.types[i]) && |m.types[i].attributes| == 0) ==>
      IdPadded(m, idProperty).types[i] == m.types[i]
    ensures "int" !in TypeNames(m.types) || idProperty.Raises? ==> IdPadded(m, idProperty) == m
  {
  }

  /** The pre-pass keeps every name, so the `int` type it looks for is the same afterwards. */
  lemma PrePassKeepsNames(m: Model, idProperty: Library)
    ensures TypeNames(IdPadded(m, idProperty).types) == TypeNames(m.types)
  {
    var ps := IdPadded(m, idProperty).types;
    assert forall i :: 0 <= i < |ps| ==> TypeNames(ps)[i] == TypeNames(m.types)[i];
  }

  /** After one pass, a second pass adds nothing. */
  lemma PrePassIdempotent(m: Model, idProperty: Library)
    ensures IdPadded(IdPadded(m, idProperty), idProperty) == IdPadded(m, idProperty)
  {
    var m1 := IdPadded(m, idProperty);
    PrePassKeepsNames(m, idProperty);
    if "int" in TypeNames(m.types) && idProperty == Accepts {
      assert RefTo(m1, "int") == RefTo(m, "int");
      var ps := PaddedTypes(m1.types, RefTo(m, "int"));
      assert forall i :: 0 <= i < |ps| ==> ps[i] == m1.types[i];
    }
  }

  /** Padding works element by element, so it distributes over concatenation. */
  lemma PaddedAppend(a: seq<Type>, b: seq<Type>, intType: TypeRef)
    ensures PaddedTypes(a + b, intType) == PaddedTypes(a, intType) + PaddedTypes(b, intType)
  {
    var l, r := PaddedTypes(a + b, intType), PaddedTypes(a, intType) + PaddedTypes(b, intType);
    assert forall i :: 0 <= i < |l| ==> l[i] == r[i];
  }

  /** The classes after padding are the classes before it, each padded, in order. */
  lemma {:induction false} ClassesOfPadded(ts: seq<Type>, intType: TypeRef)
    ensures Classes(PaddedTypes(ts, intType)) == PaddedTypes(Classes(ts), intType)
  {
    if |ts| > 0 {
      var init := ts[..|ts| - 1];
      var last := ts[|ts| - 1];
      var padded := PadType(last, intType);
      var tail := if IsClass(last) then [last] else [];
      assert ts == init + [last];
      PadOne(last, intType);
      PaddedAppend(init, [last], intType);
      ClassesAppend(init, last);
      ClassesAppend(PaddedTypes(init, intType), padded);
      ClassesOfPadded(init, intType);
      PaddedAppend(Classes(init), tail, intType);
      assert PaddedTypes(tail, intType) == if IsClass(padded) then [padded] else [];
    }
  }

  /** Padding one type keeps it a class or not, and padding a single-type sequence pads that type. */
  lemma PadOne(t: Type, intType: TypeRef)
    ensures IsClass(PadType(t, intType)) == IsClass(t)
    ensures PaddedTypes([t], intType) == [PadType(t, intType)]
    ensures PaddedTypes([], intType) == []
  {
  }

  /** The pre-pass keeps the classes, their number, their order and their names. */
  lemma PrePassKeepsClasses(m: Model, idProperty: Library)
    ensures |Classes(IdPadded(m, idProperty).types)| == |Classes(m.types)|
    ensures forall i :: 0 <= i < |Classes(m.types)| ==>
      Classes(IdPadded(m, idProperty).types)[i].name == Classes(m.types)[i].name
  {
    if "int" in TypeNames(m.types) && idProperty == Accepts {
      ClassesOfPadded(m.types, RefTo(m, "int"));
    }
  }

  // ===== the base_*_generation result convention =====

  /** The generators whose `base_*_generation` function the tools call. */
  datatype Generator = Sql | Python | Backend | Java | JsonSchema | Pydantic | Rdf | RestApi | SqlAlchemy

  /** The name each generation function puts in its error text. */
  function Label(g: Generator): string
  {
    match g
    case Sql => "SQL"
    case Python => "Python"
    case Backend => "Backend"
    case Java => "Java"
    case JsonSchema => "JSON Schema"
    case Pydantic => "Pydantic"
    case Rdf => "RDF"
    case RestApi => "RESTAPI"
    case SqlAlchemy => "SQLAlchemy"
  }

  function GenerationErrorText(g: Generator, message: string): (s: string)
    ensures IsErrorText(s)
  {
    "Error generating " + (Label(g) + " from domain model: " + message)
  }

  /**
   * What a `base_*_generation` function returns: `None` when the generator
   * ran (its output goes to files), the error text when anything raised.
   */
  function GenerationResult(g: Generator, run: Library): (out: Option<string>)
    ensures out.None? <==> run == Accepts
    ensures out.Some? ==> IsErrorText(out.value)
  {
    match run
    case Accepts => None
    case Raises(_, e) => Some(GenerationErrorText(g, e))
  }

  /** `base_sql_generation`: the pre-pass, in place, then the generator. */
  method BaseSqlGeneration(dm: DomainModel, idProperty: Library, run: Library) returns (out: Option<string>)
    modifies dm
    ensures dm.Snapshot() == IdPadded(old(dm.Snapshot()), idProperty)
    ensures out == GenerationResult(Sql, run)
  {
    AddIdAttributes(dm, idProperty);
    match run {
      case Accepts => out := None;
      case Raises(_, e) => out := Some(GenerationErrorText(Sql, e));
    }
  }

  /** What the tools working on the stored model reply: `"Success" if out is None else out`. */
  function LocalReply(out: Option<string>): (reply: string)
    ensures out.Some? ==> reply == out.value
  {
    if out.None? then "Success" else out.value
  }

  /** A stored-model generation tool replies `"Success"` exactly when its generator ran. */
  lemma LocalReplySuccess(g: Generator, run: Library)
    ensures LocalReply(GenerationResult(g, run)) == "Success" <==> run == Accepts
  {
    if run.Raises? {
      assert GenerationResult(g, run).value[0] == 'E';
    }
  }

  // ===== what the base64 and URL tools reply =====

  /**
   * The text the tools return after reading a generated file back: its lines
   * joined with `"\n"`. `content` is what `f.read()` returns in text mode, so
   * it holds no `\r`.
   */
  function ReadBack(content: string): (r: string)
    requires '\r' !in content
    ensures r == NormalizeBreaks(DropFinalBreak(content))
  {
    SplitLinesJoin(content);
    Join(SplitLines(content), "\n")
  }

  /** A newline at the end of the generated file does not reach the reply. */
  lemma ReadBackDropsFinalNewline(content: string)
    requires '\r' !in content
    ensures ReadBack(content + "\n") == NormalizeBreaks(content)
  {
    assert (content + "\n")[..|content|] == content;
  }

  /** How a diagnostic names what was not generated, and what requirements the classes may miss. */
  datatype Artifact = Artifact(what: string, requirements: string)

  const SqlArtifact := Artifact("SQL", "SQL generation")
  const PythonArtifact := Artifact("Python code", "generation")
  const JsonSchemaArtifact := Artifact("JSON Schema", "generation")
  const RdfArtifact := Artifact("RDF Vocabulary", "generation")
  /** The URL tool for RDF spells it in lower case. */
  const RdfUrlArtifact := Artifact("RDF vocabulary", "generation")

  /** `f"{cls.name} ({attr_count} attributes)"`. */
  function ClassInfo(c: Type): (s: string)
    requires IsClass(c)
    ensures |c.name| <= |s| && s[..|c.name|] == c.name
  {
    c.name + " (" + IntToString(|c.attributes|) + " attributes)"
  }

  function ClassInfos(classes: seq<Type>): (infos: seq<string>)
    requires forall c :: c in classes ==> IsClass(c)
    ensures |infos| == |classes|
    ensures forall i :: 0 <= i < |classes| ==> infos[i] == ClassInfo(classes[i])
  {
    seq(|classes|, i requires 0 <= i < |classes| => ClassInfo(classes[i]))
  }

  /** The words every diagnostic starts with. */
  function Lead(a: Artifact): string
  {
    "No " + a.what + " generated. The domain model contains "
  }

  function NoClassesText(a: Artifact): string
  {
    Lead(a) + "no classes."
  }

  /** What a diagnostic says after its lead when there are classes: their number, then one entry per class. */
  function Summary(count: nat, infos: seq<string>, a: Artifact): string
  {
    IntToString(count) + (" class(es): " + Join(infos, ", ") +
      ". The " + a.what + " generator may require additional configuration or the classes may not meet " +
      a.requirements + " requirements.")
  }

  /** The diagnostic a tool returns when the generated file cannot be read. */
  function DiagnosticText(classes: seq<Type>, a: Artifact): string
    requires forall c :: c in classes ==> IsClass(c)
  {
    if |classes| == 0 then NoClassesText(a)
    else Lead(a) + Summary(|classes|, ClassInfos(classes), a)
  }

  /** The diagnostic for the SQL tools on a model without classes. */
  lemma NoSqlClassesText()
    ensures DiagnosticText([], SqlArtifact) == "No SQL generated. The domain model contains no classes."
  {
    assert Lead(SqlArtifact) == "No SQL generated. The domain model contains ";
  }

  /** The diagnostic is the no-classes text exactly when there are no classes; otherwise it gives their number. */
  lemma DiagnosticNoClasses(classes: seq<Type>, a: Artifact)
    requires forall c :: c in classes ==> IsClass(c)
    ensures DiagnosticText(classes, a) == NoClassesText(a) <==> |classes| == 0
    ensures |classes| > 0 ==>
      DiagnosticText(classes, a)[..|Lead(a)| + |IntToString(|classes|)|] == Lead(a) + IntToString(|classes|)
  {
    if |classes| > 0 {
      var lead := Lead(a);
      var count := IntToString(|classes|);
      var summary := Summary(|classes|, ClassInfos(classes), a);
      assert IsDigits(count);
      assert (lead + summary)[|lead|] == summary[0] == count[0];
      assert (lead + "no classes.")[|lead|] == 'n';
      assert summary[..|count|] == count;
      assert (lead + summary)[..|lead| + |count|] == lead + count;
    }
  }

  /** The `classes_info` loop and the message built from it. */
  method Diagnostic(m: Model, a: Artifact) returns (text: string)
    ensures text == DiagnosticText(Classes(m.types), a)
  {
    var classes := Classes(m.types);
    var classesInfo: seq<string> := [];
    var k := 0;
    while k < |classes|
      invariant 0 <= k <= |classes|
      invariant classesInfo == ClassInfos(classes[..k])
    {
      assert classes[k] in classes;
      var attrCount := |classes[k].attributes|;
      classesInfo := classesInfo + [classes[k].name + " (" + IntToString(attrCount) + " attributes)"];
      k := k + 1;
    }
    assert classes[..k] == classes;
    if |classes| == 0 {
      text := NoClassesText(a);
    } else {
      text := Lead(a) + (IntToString(|classes|) + (" class(es): " + Join(classesInfo, ", ") +
        ". The " + a.what + " generator may require additional configuration or the classes may not meet " +
        a.requirements + " requirements."));
    }
  }

  /**
   * What a base64 or URL generation tool replies: the generation error if
   * there was one, else the generated file read back (`file` is `None` when
   * it cannot be read), else the diagnostic for the model as it now is.
   */
  function ToolReply(out: Option<string>, file: Option<string>, m: Model, a: Artifact): (reply: string)
    requires file.Some? ==> '\r' !in file.value
    ensures out.Some? ==> reply == out.value
    ensures out.None? && file.Some? ==> reply == NormalizeBreaks(DropFinalBreak(file.value))
  {
    if out.Some? then out.value
    else if file.Some? then ReadBack(file.value)
    else DiagnosticText(Classes(m.types), a)
  }

  /** A tool never fails on a model without classes: it names the missing artifact instead. */
  lemma ToolReplyWithoutClasses(file: Option<string>, m: Model, a: Artifact)
    requires file.None? && Classes(m.types) == []
    ensures ToolReply(None, file, m, a) == NoClassesText(a)
  {
  }

  /**
   * `sql_generation_base64` after decoding: the pre-pass runs in place, so
   * the diagnostic counts the attributes of the padded classes.
   */
  method SqlGenerationBase64(dm: DomainModel, idProperty: Library, run: Library, file: Option<string>)
    returns (reply: string)
    requires file.Some? ==> '\r' !in file.value
    modifies dm
    ensures dm.Snapshot() == IdPadded(old(dm.Snapshot()), idProperty)
    ensures reply == ToolReply(GenerationResult(Sql, run), file, dm.Snapshot(), SqlArtifact)
  {
    var out := BaseSqlGeneration(dm, idProperty, run);
    if out.Some? {
      return out.value;
    }
    if file.Some? {
      var lines := SplitLines(file.value);
      return Join(lines, "\n");
    }
    reply := Diagnostic(dm.Snapshot(), SqlArtifact);
  }
}
