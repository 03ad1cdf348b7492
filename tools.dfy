/**
 * The registered tools around each `base_*` function. Every tool comes in
 * three forms: on a base64-encoded model, on a model at a URL, and on the
 * model kept by the server. Each returns the base function's error string
 * untouched; on success it encodes the model, or uploads it, or saves it,
 * and then replies.
 */
module Tools {
  import opened Wrappers
  import opened Metamodel
  import Creation
  import Deletion

  /** Where a tool takes its model from and puts it back. */
  datatype Mode = Base64 | FromUrl(url: string) | Stored

  /** What the tool replies: the encoded model, or a text. */
  datatype Answer = Encoded(model: Model) | Said(text: string)

  /** What the tool persists: nothing, an upload to the model's URL, or the kept model. */
  datatype Effect = NoEffect | Upload(url: string, model: Model) | Save(model: Model)

  datatype Outcome = Outcome(answer: Answer, effect: Effect)

  /** `if isinstance(domain_model, str): return domain_model`, then encode, upload or save. */
  function Respond(mode: Mode, result: Result<Model, string>): (o: Outcome)
    ensures result.Failure? ==> o == Outcome(Said(result.error), NoEffect)
  {
    match result
    case Failure(e) => Outcome(Said(e), NoEffect)
    case Success(m) =>
      match mode
      case Base64 => Outcome(Encoded(m), NoEffect)
      case FromUrl(url) => Outcome(Said("Success"), Upload(url, m))
      case Stored => Outcome(Said("Success"), Save(m))
  }

  /**
   * A tool persists something exactly when the base function succeeded and
   * the tool does not hand the model back; what it persists is that model,
   * at the URL it came from.
   */
  lemma PersistsOnlyOnSuccess(mode: Mode, result: Result<Model, string>)
    ensures var o := Respond(mode, result);
      (o.effect != NoEffect <==> result.Success? && !mode.Base64?) &&
      (o.effect.Upload? ==> mode == FromUrl(o.effect.url) && o.effect.model == result.value) &&
      (o.effect.Save? ==> mode.Stored? && o.effect.model == result.value)
  {
  }

  /**
   * With base functions whose errors all start with `Error`, a URL or stored
   * tool says `Success` exactly when the base function succeeded; a base64
   * tool returns a model exactly then, and it is the changed model.
   */
  lemma SuccessIffBaseSucceeded(mode: Mode, result: Result<Model, string>)
    requires result.Failure? ==> IsErrorText(result.error)
    ensures var o := Respond(mode, result);
      (!mode.Base64? ==> (o.answer == Said("Success") <==> result.Success?)) &&
      (mode.Base64? ==> (o.answer.Encoded? <==> result.Success?)) &&
      (o.answer.Encoded? ==> o.answer.model == result.value)
  {
    if result.Failure? {
      assert result.error[..5] == "Error";
      assert result.error[0] != "Success"[0];
    }
  }

  /** The `add_class` tools, in each of the three forms, on the model already decoded, downloaded or fetched. */
  method AddClassTool(mode: Mode, dm: DomainModel, name: string, attributes: seq<Attribute>, methods: seq<Method>,
                      isAbstract: bool, isReadOnly: bool, addType: Library) returns (o: Outcome)
    modifies dm
    ensures var r := Creation.AddClassSpec(old(dm.Snapshot()), name, attributes, methods, isAbstract, isReadOnly, addType);
      o == Respond(mode, r) && dm.Snapshot() == (if r.Success? then r.value else old(dm.Snapshot()))
  {
    var status := Creation.AddClass(dm, name, attributes, methods, isAbstract, isReadOnly, addType);
    if status.Message? {
      return Outcome(Said(status.text), NoEffect);
    }
    match mode {
      case Base64 => o := Outcome(Encoded(dm.Snapshot()), NoEffect);
      case FromUrl(url) => o := Outcome(Said("Success"), Upload(url, dm.Snapshot()));
      case Stored => o := Outcome(Said("Success"), Save(dm.Snapshot()));
    }
  }

  /** The `delete_class` tools, in each of the three forms; `remove` is how `domain_model.type.remove` ends. */
  method DeleteClassTool(mode: Mode, dm: DomainModel, name: string, remove: Library) returns (o: Outcome)
    modifies dm
    ensures var r := Deletion.DeleteTypeSpec(old(dm.Snapshot()), name, Deletion.ClassKind, remove);
      o == Respond(mode, r) && dm.Snapshot() == (if r.Success? then r.value else old(dm.Snapshot()))
  {
    var status := Deletion.DeleteClass(dm, name, remove);
    if status.Message? {
      return Outcome(Said(status.text), NoEffect);
    }
    match mode {
      case Base64 => o := Outcome(Encoded(dm.Snapshot()), NoEffect);
      case FromUrl(url) => o := Outcome(Said("Success"), Upload(url, dm.Snapshot()));
      case Stored => o := Outcome(Said("Success"), Save(dm.Snapshot()));
    }
  }

  /** Deleting a class that is not there persists nothing and replies with the not-found error in every form. */
  lemma DeleteMissingClassTool(mode: Mode, m: Model, name: string, remove: Library)
    requires name !in TypeNames(m.types)
    ensures Respond(mode, Deletion.DeleteTypeSpec(m, name, Deletion.ClassKind, remove)) ==
      Outcome(Said(Deletion.ClassNotFoundText(name)), NoEffect)
  {
  }
}
