# BESSER MCP server — a verified model of its own logic

The BESSER MCP server exposes B-UML domain-model editing and code
generation as MCP tools. Most of a tool's work is done by the BESSER
library: it decodes the model, calls the library and encodes the result.
This project models the part the server owns itself, and proves
properties of that model:

- the multiplicity parser `multiplicity_from_string` (`utils.dfy`, module
  `Multiplicities`), with the Python string built-ins it relies on
  (`strings.dfy`, module `Strings`);
- the `base_add_*` and `base_delete_*` functions (`creation.dfy`, module
  `Creation`; `delete.dfy`, module `Deletion`). They work in place on a
  `DomainModel` object (`metamodel.dfy`, module `Metamodel`). Each one is
  proved against a specification function `XSpec` on a `Model` value: the
  name-uniqueness guards, first-match and last-match searches, removals,
  the "error string instead of model" convention, and "nothing else
  changes";
- the id pre-pass of `base_sql_generation`, the None-or-error convention of
  the `base_*_generation` functions, the read-back of generated files, and
  the "No … generated" diagnostic (`generators.dfy`, module `Generators`);
- `base_about` and the line layout of `base_get_model_info` (`info.dfy`,
  module `Info`);
- the tools that `server.py` defines itself: `add_class`, `sql_generation`
  and `get_model_info` (`server.dfy`, module `Server`);
- the registered tool wrappers: error strings pass through, and a model is
  encoded, uploaded or saved only on success (`tools.dfy`, module `Tools`).

Python sets are modelled as sequences in their iteration order. An element
added to a set is appended, so "first match" and "last match" refer to that
order. A library call that the code cannot see (`add_type`, `add_method`,
building a `Property`, running a generator) becomes a `Library` parameter:
it either `Accepts` or `Raises` a `ValueError` or another exception, with a
message.

## Model

| member | source | states |
|---|---|---|
| Multiplicities.FromString | src/besser_mcp_server/utils.py:46-54 | the parse succeeds exactly when the text splits on `..` into two parts, the first is an integer and the second is `*` or an integer; fewer or more parts give the "must have min and max values" error; a bad lower bound is rejected even when the upper bound is `*`; on success the bounds are the parsed values and `*` is the unbounded marker; a bad upper bound gives `int()`'s own message with the bound written as its `repr` cut to 200 characters |
| Multiplicities.SplitDotsJoin | src/besser_mcp_server/utils.py:47 | the parts of `split("..")` joined with `..` give back the original text |
| Multiplicities.SplitDotsPair | src/besser_mcp_server/utils.py:47-48 | `a..b` with no dot in `a` or `b` splits into exactly `[a, b]` |
| Multiplicities.SplitDotsSingle | src/besser_mcp_server/utils.py:47-49 | a text with no dot splits into one part, so the parser rejects it |
| Multiplicities.RoundTrip | src/besser_mcp_server/utils.py:46-54 | parsing the decimal text `a..b` or `a..*` of any multiplicity gives that multiplicity back |
| Multiplicities.DefaultIsExactlyOne | src/besser_mcp_server/utils.py:46-54 | the default `"1..1"` of the attribute and association tools parses to (1, 1) |
| Multiplicities.LoneBoundRejected | src/besser_mcp_server/utils.py:47-49 | `"1"` gives the "must have min and max values" error |
| Multiplicities.ThreePiecesRejected | src/besser_mcp_server/utils.py:47-49 | `"1..2..3"` gives the "must have min and max values" error |
| Multiplicities.StarLowerBoundRejected | src/besser_mcp_server/utils.py:50-53 | `"*..3"` is rejected by the lower-bound conversion, although `*` is a valid upper bound |
| Strings.ParseInt | src/besser_mcp_server/utils.py:50-53 | `int(text)` succeeds exactly on decimal digits with an optional sign |
| Strings.IntErrorText | src/besser_mcp_server/utils.py:50-53 | the message of a failed `int(text)` is the fixed lead followed by at most 200 characters of the text's `repr` |
| Strings.Repr | src/besser_mcp_server/utils.py:50-53 | `repr` of a string is at least two characters longer than it and starts and ends with the chosen quote |
| Strings.ReprPlain | src/besser_mcp_server/utils.py:50-53 | a string without control characters, backslashes or `'` is shown between single quotes unchanged |
| Strings.ReprSwitchesQuotes | src/besser_mcp_server/utils.py:50-53 | a string holding `'` but no `"` (and no control characters or backslashes) is shown between double quotes unchanged |
| Strings.ReprRoundTrip | src/besser_mcp_server/utils.py:50-53 | reading the escapes back between the quotes of `repr(s)` gives `s` again, so no two strings share a `repr` |
| Multiplicities.QuotedBoundText | src/besser_mcp_server/utils.py:46-54 | the multiplicity `a'..1` fails with `int()`'s message quoting the bound as `"a'"` |
| Strings.IntToStringRoundTrip | src/besser_mcp_server/utils.py:50-53 | converting the decimal text of any integer gives the integer back |
| Strings.SplitLinesJoin | src/besser_mcp_server/generators.py:274-276 | for text read in text mode (no `"\r"`), joining the lines of `splitlines()` with `"\n"` gives the text without its final line break, with every other break made `"\n"` |
| Metamodel.TypeByName | src/besser_mcp_server/delete.py:24-26 | `get_type_by_name` gives no type exactly when no type has that name, and otherwise a type with that name |
| Metamodel.Classes | src/besser_mcp_server/info.py:23 | `get_classes()` gives exactly the classes and association classes among the types |
| Creation.AddClassSpec | src/besser_mcp_server/creation.py:69-94 | a taken class name gives the "already exists in the model" error and no change; otherwise a non-ValueError from `add_type` gives the processing error with its message, and in every other case the call succeeds, the ValueError fallback giving the same model; on success only the types change and the new class is appended |
| Creation.AddClass | src/besser_mcp_server/creation.py:69-94 | the in-place function leaves the object equal to the specification's model and returns it, or leaves the object unchanged and returns the error text |
| Creation.AddClassAddsOneClass | src/besser_mcp_server/creation.py:78-88 | after a successful add, the class names are the old ones plus `name`, and there is exactly one more class |
| Creation.AddClassKeepsNamesUnique | src/besser_mcp_server/creation.py:69-74 | the duplicate check keeps class names pairwise distinct |
| Creation.AddMethodToClassSpec | src/besser_mcp_server/creation.py:147-185 | a missing or non-class owner gives the processing error of the AttributeError on `methods`, naming `NoneType` or the owner's Python class; a taken method name gives the "already exists in the class" error; success happens exactly when the owner is a class, the name is free and `add_method` accepts; only that class changes, gaining the new method at the end |
| Creation.AddMethodToClass | src/besser_mcp_server/creation.py:147-185 | the in-place function, including the loop that builds the parameters, matches the specification |
| Creation.NewMethodParameters | src/besser_mcp_server/creation.py:157-160 | the new method has one parameter per entry, named by the entry and typed by looking up the method's `type_name`, not the parameter's own type name |
| Creation.AddAttributeToClassSpec | src/besser_mcp_server/creation.py:241-278 | a missing or non-class owner gives the processing error of the AttributeError on `attributes`, naming `NoneType` or the owner's Python class; a taken attribute name or an unparsable multiplicity give their errors; success happens exactly when none applies and `add_attribute` accepts; only that class changes, gaining the attribute with the parsed multiplicity |
| Creation.AddAttributeToClass | src/besser_mcp_server/creation.py:241-278 | the in-place function matches the specification |
| Creation.AssociationEnds | src/besser_mcp_server/creation.py:355-375 | the two ends: the first is named `role_to`, typed `to_class`, owned by `from_class`, with `multiplicity_to` and the composition flag; the second is named `role_from`, typed `from_class`, with `multiplicity_from`, and is navigable exactly when the association is bidirectional |
| Creation.AddBinaryAssociationSpec | src/besser_mcp_server/creation.py:337-387 | a duplicate association name, then the to-multiplicity, then the from-multiplicity are checked before anything is added; success happens exactly when all pass and `add_association` accepts; only the associations change, gaining one with those two ends |
| Creation.AddBinaryAssociation | src/besser_mcp_server/creation.py:340-387 | the in-place function matches the specification |
| Creation.AddAssociationClassSpec | src/besser_mcp_server/creation.py:430-450 | an association name no association has gives the "does not exists in the model" error; success happens exactly when one exists and `add_type` accepts; the new association class wraps the first association with that name |
| Creation.AddAssociationClass | src/besser_mcp_server/creation.py:430-450 | the first-match search loop with its early exit, and the rest, match the specification |
| Creation.AddEnumerationSpec | src/besser_mcp_server/creation.py:491-507 | any type, not only a class, with the name blocks the enumeration; otherwise it is appended when `add_type` accepts |
| Creation.AddEnumeration | src/besser_mcp_server/creation.py:491-507 | the in-place function matches the specification |
| Creation.AddEnumerationLiteralSpec | src/besser_mcp_server/creation.py:548-562 | the literal is appended to the enumeration that the name resolves to, and only that type changes; a missing or non-enumeration owner gives the processing error of the AttributeError on `add_literal`, naming `NoneType` or the owner's Python class |
| Creation.AddEnumerationLiteral | src/besser_mcp_server/creation.py:548-562 | the in-place function matches the specification |
| Creation.AddGeneralizationSpec | src/besser_mcp_server/creation.py:603-616 | the generalization between the two looked-up types is appended when the library accepts, and nothing else changes |
| Creation.AddGeneralization | src/besser_mcp_server/creation.py:603-616 | the in-place function matches the specification |
| Creation.AddOclConstraintSpec | src/besser_mcp_server/creation.py:659-671 | the constraint, in OCL and with the looked-up context, is added to the constraints and nothing else changes, unless the assignment to `domain_model.constraints` (`setConstraints`) raises, which leaves the model as it was |
| Creation.AddOclConstraint | src/besser_mcp_server/creation.py:659-671 | the in-place function matches the specification |
| Deletion.DeleteTypeSpec | src/besser_mcp_server/delete.py:24-39 | a name that resolves to no type gives the "No … with name … exists" error; a removal that raises gives the deletion's `Error removing …` text for a ValueError and the processing error otherwise; success happens exactly when the type exists and the removal goes through, and then exactly the type found leaves `types` and everything else stays |
| Deletion.DeleteClass | src/besser_mcp_server/delete.py:24-39 | the in-place class deletion matches the specification with the class error texts, and leaves the model unchanged on every error |
| Deletion.AsWrittenDeleteKeepsType | src/besser_mcp_server/delete.py:30 | when the model object has no `type` attribute, deleting a type that exists replies with the AttributeError's processing error, not the not-found text, and the type stays |
| Deletion.DeleteAssociationClass | src/besser_mcp_server/delete.py:189-206 | the same, with the association-class error text |
| Deletion.DeleteEnumeration | src/besser_mcp_server/delete.py:226-243 | the same, with the enumeration error text |
| Deletion.AddThenDeleteClass | src/besser_mcp_server/delete.py:24-30 | deleting a class just added under a fresh type name gives back the original model |
| Deletion.AddThenDeleteAssociationClass | src/besser_mcp_server/delete.py:189-197 | deleting an association class just added under a fresh type name gives back the original model |
| Deletion.AddThenDeleteEnumeration | src/besser_mcp_server/delete.py:226-234 | deleting an enumeration just added gives back the original model |
| Deletion.DeleteClassMayRemoveEnumeration | src/besser_mcp_server/delete.py:24-30 | the class deletion removes whatever type has the name, for example an enumeration |
| Deletion.DeleteMethodFromClassSpec | src/besser_mcp_server/delete.py:58-83 | a missing owner gives the processing error of the AttributeError on `NoneType`'s `methods`, a non-class owner the one naming its own Python class; no method with the name gives the "No method with name" error; otherwise only the first such method of that class is removed, and only that class changes |
| Deletion.DeleteMethodFromClass | src/besser_mcp_server/delete.py:58-83 | the first-match search loop with its early exit, and the removal, match the specification |
| Deletion.AddThenDeleteMethod | src/besser_mcp_server/delete.py:62-73 | deleting a method just added gives back the original model |
| Deletion.DeleteAttributeFromClassSpec | src/besser_mcp_server/delete.py:102-127 | the same as for methods, for attributes: a missing or non-class owner gives the processing error of the AttributeError on `attributes` naming `NoneType` or the owner's Python class |
| Deletion.DeleteAttributeFromClass | src/besser_mcp_server/delete.py:102-127 | the search loop and the removal match the specification |
| Deletion.AddThenDeleteAttribute | src/besser_mcp_server/delete.py:106-117 | deleting an attribute just added gives back the original model |
| Deletion.DeleteBinaryAssociationSpec | src/besser_mcp_server/delete.py:148-171 | no association with the name gives the not-found error and no change; otherwise the last association with the name is removed and nothing else changes |
| Deletion.DeleteBinaryAssociation | src/besser_mcp_server/delete.py:148-171 | the search loop, which has no early exit, and the removal match the last-match specification |
| Deletion.AddThenDeleteAssociation | src/besser_mcp_server/delete.py:150-159 | deleting an association just added removes it again, because the new one is the last match |
| Deletion.DeleteEnumerationLiteralSpec | src/besser_mcp_server/delete.py:263-287 | the first literal with the name is removed from the named enumeration; a missing or non-enumeration owner gives the processing error of the AttributeError on `literals` naming `NoneType` or the owner's Python class, a missing literal its not-found error, and then nothing changes |
| Deletion.DeleteEnumerationLiteral | src/besser_mcp_server/delete.py:263-287 | the search loop and the removal match the specification |
| Deletion.AddThenDeleteLiteral | src/besser_mcp_server/delete.py:267-278 | deleting a fresh literal just added gives back the original model |
| Deletion.DeleteGeneralizationSpec | src/besser_mcp_server/delete.py:312-336 | the call fails with the not-found text exactly when no generalization joins the two looked-up types; when one does but an end is missing or not a class, the call fails with the processing error of the AttributeError on that end's `generalizations` (the general end checked first); otherwise the last such generalization is removed from the model, which the class-level sets reflect |
| Deletion.DeleteGeneralization | src/besser_mcp_server/delete.py:312-336 | the search loop and the removals match the specification |
| Deletion.AddThenDeleteGeneralization | src/besser_mcp_server/delete.py:315-326 | deleting a generalization just added gives back the original model |
| Deletion.KeepOthers | src/besser_mcp_server/delete.py:357 | the kept constraints are exactly those whose name differs from `name` |
| Deletion.DeleteOclConstraintSpec | src/besser_mcp_server/delete.py:357-361 | constraint deletion always succeeds, changes only the constraints, and keeps exactly those with another name |
| Deletion.DeleteOclConstraint | src/besser_mcp_server/delete.py:357-361 | the reassignment of `constraints` matches the specification |
| Deletion.KeepOthersIdempotent | src/besser_mcp_server/delete.py:357 | filtering twice keeps the same constraints as filtering once |
| Deletion.DeleteOclConstraintIdempotent | src/besser_mcp_server/delete.py:357-361 | deleting a constraint twice gives the same model as deleting it once |
| Deletion.KeepOthersNone | src/besser_mcp_server/delete.py:357 | when no constraint has the name, nothing is removed |
| Deletion.AddThenDeleteConstraint | src/besser_mcp_server/delete.py:357-358 | deleting a constraint under a fresh name just added gives back the original model |
| Deletion.KeepOthersAsWritten | src/besser_mcp_server/delete.py:357 | the comprehension as written, which compares names by identity, keeps at most the original constraints |
| Deletion.AsWrittenKeepsMore | src/besser_mcp_server/delete.py:357 | the identity comparison keeps everything the intended comparison keeps, and possibly more |
| Deletion.AsWrittenKeepsNamedConstraint | src/besser_mcp_server/delete.py:357 | an equal but not identical name leaves the named constraint in place |
| Generators.IdPadded | src/besser_mcp_server/generators.py:26-54 | the pre-pass changes only the types, and keeps their number |
| Generators.AddIdAttributes | src/besser_mcp_server/generators.py:28-54 | the in-place loop over the classes, with its inner search for `int`, leaves the model equal to the padded model |
| Generators.PrePassGivesId | src/besser_mcp_server/generators.py:28-49 | with an `int` type, every class ends with at least one attribute, and each class that had none has exactly one: `id`, typed `int`, marked as the identifier |
| Generators.PrePassKeepsOthers | src/besser_mcp_server/generators.py:29-54 | types other than attribute-less classes are not touched, and without an `int` type, or when building the property raises, nothing changes |
| Generators.PrePassKeepsNames | src/besser_mcp_server/generators.py:28-49 | the pre-pass keeps every type name |
| Generators.PrePassIdempotent | src/besser_mcp_server/generators.py:28-29 | a second pass adds nothing |
| Generators.ClassesOfPadded | src/besser_mcp_server/generators.py:28-29 | the classes after padding are the classes before it, each padded, in the same order |
| Generators.PrePassKeepsClasses | src/besser_mcp_server/generators.py:28-49 | the pre-pass keeps the number, order and names of the classes |
| Generators.GenerationResult | src/besser_mcp_server/generators.py:56-62 | a generation function returns nothing exactly when the generator ran, and otherwise an `Error generating …` text |
| Generators.BaseSqlGeneration | src/besser_mcp_server/generators.py:26-62 | `base_sql_generation` pads the model in place, then returns the generation result |
| Generators.LocalReplySuccess | src/besser_mcp_server/generators.py:566-568 | a stored-model generation tool replies `Success` exactly when the generator ran |
| Generators.ReadBack | src/besser_mcp_server/generators.py:274-276 | for the file's text as `f.read()` returns it (no `"\r"`), the read-back text is the file without its final line break, with breaks made `"\n"` |
| Generators.ReadBackDropsFinalNewline | src/besser_mcp_server/generators.py:274-276 | a final newline in the generated file does not reach the reply |
| Generators.ClassInfos | src/besser_mcp_server/generators.py:283-286 | one `Name (k attributes)` entry per class, in order |
| Generators.NoSqlClassesText | src/besser_mcp_server/generators.py:288-289 | with no classes, the SQL diagnostic is exactly "No SQL generated. The domain model contains no classes." |
| Generators.DiagnosticNoClasses | src/besser_mcp_server/generators.py:288-291 | the diagnostic is the no-classes text exactly when there are no classes, and otherwise starts with the lead and the class count |
| Generators.Diagnostic | src/besser_mcp_server/generators.py:282-291 | the `classes_info` loop builds the diagnostic text |
| Generators.ToolReply | src/besser_mcp_server/generators.py:270-291 | a base64 generation tool replies with the generation error, else the file read back, else the diagnostic |
| Generators.ToolReplyWithoutClasses | src/besser_mcp_server/generators.py:280-289 | with no file and no classes, a tool replies with the no-classes text instead of failing |
| Generators.SqlGenerationBase64 | src/besser_mcp_server/generators.py:268-291 | `sql_generation_base64` pads the decoded model in place and replies as `ToolReply` says, so the diagnostic counts the padded attributes |
| Info.About | src/besser_mcp_server/info.py:5-10 | the description starts with `BESSER` and ends with the repository URL |
| Info.AttributeLines | src/besser_mcp_server/info.py:33-35 | one `* name: type` line per attribute, in order |
| Info.AppendAttributeLines | src/besser_mcp_server/info.py:33-35 | the inner loop appends exactly the attribute lines |
| Info.AppendClassBlocks | src/besser_mcp_server/info.py:31-35 | the outer loop appends exactly the blocks of the classes, in order |
| Info.GetModelInfo | src/besser_mcp_server/info.py:21-39 | `base_get_model_info` returns the info lines joined with `"\n"`, or the error text when there is no model |
| Info.InfoHeader | src/besser_mcp_server/info.py:25-27 | the first three lines are `Domain Model: {name}`, `Total types: {n}` and `Classes: {c}`, in that order |
| Info.ClassDetailsIffClasses | src/besser_mcp_server/info.py:29-30 | a `Class details:` line appears exactly when there is a class |
| Info.ClassBlocksLength | src/besser_mcp_server/info.py:31-35 | the class blocks have one line per class plus one per attribute |
| Info.InfoLineCount | src/besser_mcp_server/info.py:25-37 | there are 3 lines without classes, and otherwise 4 plus the number of classes plus the number of attributes |
| Info.ClassBlocksPrefix | src/besser_mcp_server/info.py:31-35 | the blocks of the first classes are a prefix of all the blocks |
| Info.ClassBlockLayout | src/besser_mcp_server/info.py:31-35 | the block of each class, its line followed by exactly its k attribute lines, sits right after the blocks of the classes before it |
| Info.NoModelIsError | src/besser_mcp_server/info.py:38-39 | without a model the reply is an `Error getting model info: …` text |
| Server.AddClassReply | src/besser_mcp_server/server.py:106-154 | a decoding failure gives "Error processing domain model: Error deserializing model: …"; every text reply is an error; a model is returned only when `base_add_class` succeeds, and it is that model |
| Server.AddClass | src/besser_mcp_server/server.py:106-154 | `add_class` changes the decoded object as `base_add_class` does and replies as `AddClassReply` says |
| Server.AddClassDuplicate | src/besser_mcp_server/server.py:129-134 | a taken class name gives a text starting `Error adding class '{name}':` |
| Server.AddClassNames | src/besser_mcp_server/server.py:138-148 | a successful `add_class` returns a model whose class names are the old ones plus the new one |
| Server.SqlReply | src/besser_mcp_server/server.py:196-250 | a decoding failure and a raising generator give `Error generating SQL from domain model: …` texts |
| Server.SqlGeneration | src/besser_mcp_server/server.py:196-250 | `sql_generation` pads the decoded object in place and replies as `SqlReply` says |
| Server.DiagnosticNotBlank | src/besser_mcp_server/server.py:237-246 | every diagnostic has a non-whitespace character |
| Server.SqlOutputOnlyIfNotBlank | src/besser_mcp_server/server.py:233-246 | the generator's output is the reply exactly when it is not blank after stripping; a blank or missing output gives the diagnostic |
| Server.SqlWithoutClasses | src/besser_mcp_server/server.py:243-244 | a model without classes gets "No SQL generated. The domain model contains no classes." |
| Server.AddedClassGetsId | src/besser_mcp_server/server.py:199-227 | a class just added without attributes, in a model with an `int` type, gets exactly one attribute, `id`, typed `int` and marked as the identifier |
| Server.ModelInfoReply | src/besser_mcp_server/server.py:262-281 | the reply is the info lines of the decoded model joined with `"\n"`, or `Error getting model info: Error deserializing model: …` |
| Server.GetModelInfo | src/besser_mcp_server/server.py:262-281 | `get_model_info` builds the same lines as `base_get_model_info` |
| Server.ModelInfoStartsWithHeader | src/besser_mcp_server/server.py:265-267 | the reply starts with the name, type-count and class-count lines |
| Tools.Respond | src/besser_mcp_server/creation.py:729-737 | a base function's error string is replied unchanged and nothing is persisted |
| Tools.PersistsOnlyOnSuccess | src/besser_mcp_server/creation.py:1513-1520 | a tool uploads or saves exactly when the base function succeeded and the tool is not a base64 one; it persists that model, at the URL it came from |
| Tools.SuccessIffBaseSucceeded | src/besser_mcp_server/creation.py:1107-1119 | a URL or stored tool replies `Success` exactly when the base function succeeded; a base64 tool returns a model exactly then, and it is the changed model |
| Tools.AddClassTool | src/besser_mcp_server/creation.py:729-737 | the `add_class` tools pass `base_add_class`'s result through `Respond`, and the model object they were given is the changed model on success and unchanged on error |
| Tools.DeleteClassTool | src/besser_mcp_server/delete.py:392-400 | the `delete_class` tools pass `base_delete_class`'s result through `Respond`, and the model object is the model without the class on success and unchanged on error |
| Tools.DeleteMissingClassTool | src/besser_mcp_server/delete.py:927-935 | deleting a missing class replies with the not-found error and persists nothing, in every form |

## Left out

- Pickle and base64 encoding and decoding: the decoded model, or the decoder's error message, is a parameter, and an encoded reply is the model it would encode.
- Downloading, uploading and the process-wide model store are network I/O and global state. The wrappers' effects are returned as values (`Tools.Effect`).
- The generators themselves, and opening, reading and removing their files. A generator's run is a parameter, and so is the file's content (or its absence).
- BESSER constructors (`Class`, `Property`, `Method`, `Parameter`, `Multiplicity`, `Enumeration`, `Constraint`, …) are assumed not to raise. Only the final mutating library call of each function may raise. The library's own validation, such as negative bounds, is not modelled.
- Timestamps, metadata, `is_derived`, behaviours, logging and MCP registration. `new_model` and the CLI start-up code are not part of this model.
- Multiplicities.FromString: the bound in `int()`'s message is written by `Strings.Repr`, which escapes the chosen quote, the backslash, tab, newline, carriage return and the other ASCII control characters; non-ASCII characters Python's `repr` also escapes as non-printable (such as U+0085 or U+00A0) are kept as they are.
- Strings.ParseInt: Python's `int()` also accepts surrounding whitespace, `_` separators and non-ASCII digits; the model accepts only ASCII digits with an optional sign.
- Deletion.DeleteTypeSpec: how `domain_model.type.remove` ends is a parameter (`remove`). Its success case removes from `types`; whether the library's `DomainModel` has a `type` attribute at all is outside the model, and `Deletion.AsWrittenDeleteKeepsType` states the outcome when it has none (see Findings). The `AddThenDelete…` lemmas for the three type deletions take the removal to go through.
- Deletion.DeleteGeneralizationSpec: a generalization's ends are matched by the names of the types `get_type_by_name` returns, where delete.py:317 compares the stored type objects with `==`. Type objects are assumed equal exactly when their names are. A type deleted and then re-added under the same name, or two types sharing a name (which `base_add_class` allows next to a non-class type), match here but not in the source.
- Deletion.DeleteGeneralization: matches generalization ends by type name, as `Deletion.DeleteGeneralizationSpec` does, for the same reason.
- Creation.AddGeneralizationSpec: the new generalization refers to its ends by type name (`Metamodel.TypeRef`), not by the type objects creation.py:603-606 stores; the same holds for an attribute's, method's or parameter's type, a constraint's context (creation.py:664) and the pre-pass's `int` type (generators.py:39).
- Deletion.DeleteGeneralizationSpec: the class-level `generalizations` sets are treated as views of the model's set. The three removals at delete.py:324-326 are one removal, and a ValueError or KeyError from them is not modelled.
- Creation.AddAssociationClassSpec: the association-class name itself is not checked against existing types, as in the source. The error for a missing association is stated as an implication; which error text wins when several apply is not stated.
- Property and Method arguments that the source leaves at the library's defaults (visibility, navigability, read-only) take those defaults as fixed values.
- Python set semantics: sets are sequences in iteration order, so a set that would merge equal elements may hold duplicates in the model. The searches are stated against that order.
- The test suite passes model objects rather than base64 strings. `Server.AddClass` and `Server.SqlGeneration` take the decoded object, so the in-place padding that the tests observe is stated on it.

## Findings

| source | as written | input that shows it | evidently intended | confidence | as-written member | corrected member |
|---|---|---|---|---|---|---|
| src/besser_mcp_server/delete.py:30 | removes the found type with `domain_model.type.remove(...)`, also at lines 197 and 234, while every other access uses `types`; reading `type` on a `DomainModel` without that attribute raises AttributeError | a model with a class `Person`, and `delete_class` of `Person`: the reply is `Error processing domain model: 'DomainModel' object has no attribute 'type'` and `Person` stays | remove the found type from `domain_model.types` | not executed; depends on the library's `DomainModel` having no `type` attribute, which is outside this model | Deletion.AsWrittenDeleteKeepsType | Deletion.DeleteTypeSpec |
| src/besser_mcp_server/delete.py:357 | keeps a constraint when `constraint.name is not name`, an identity test | a constraint named `positiveAge` whose name is an equal but distinct string object from the `name` argument, such as one read from a decoded model | keep a constraint exactly when `constraint.name != name` | not executed | Deletion.AsWrittenKeepsNamedConstraint | Deletion.DeleteOclConstraintSpec |
