/**
 * `base_about` and `base_get_model_info`: a fixed description of the
 * platform, and a line-by-line summary of a model's classes and attributes.
 */
module Info {
  import opened Wrappers
  import opened Strings
  import opened Metamodel

  const Url := "https://github.com/BESSER-PEARL/BESSER"

  const AboutRest := " is a Python-based low-modeling low-code platform for smart and AI-enhanced software development. " +
    "It provides modeling capabilities and code generation tools to help developers build software faster.\n\n" +
    "Learn more about BESSER at: "

  /** The description `base_about` (and the server's `about` tool) returns: it names the platform first and its repository last. */
  function About(): (s: string)
    ensures |s| > |Url| && s[..6] == "BESSER" && s[|s| - |Url|..] == Url
  {
    Framed("BESSER", AboutRest, Url);
    "BESSER" + (AboutRest + Url)
  }

  /** A text built as `first + (middle + last)` starts with `first` and ends with `last`. */
  lemma Framed(first: string, middle: string, last: string)
    ensures var s := first + (middle + last);
      |s| == |first| + |middle| + |last| && s[..|first|] == first && s[|s| - |last|..] == last
  {
    var s := first + (middle + last);
    assert s[..|first|] == first;
    assert s[|s| - |last|..] == (middle + last)[|middle|..];
  }

  // ===== the lines of base_get_model_info =====

  /** `attr.type.name` when the type has a name, else `str(attr.type)`, which is `"None"` for a missing type. */
  function TypeText(t: TypeRef): string
  {
    match t
    case Ref(name) => name
    case NoType => "None"
  }

  function AttributeLine(a: Attribute): string
  {
    "    * " + a.name + ": " + TypeText(a.typ)
  }

  function AttributeLines(attributes: seq<Attribute>): (lines: seq<string>)
    ensures |lines| == |attributes|
    ensures forall i :: 0 <= i < |attributes| ==> lines[i] == AttributeLine(attributes[i])
  {
    seq(|attributes|, i requires 0 <= i < |attributes| => AttributeLine(attributes[i]))
  }

  /** `cls.attributes`; only classes reach the layout, and other types are given none. */
  function AttributesOf(t: Type): seq<Attribute>
  {
    if IsClass(t) then t.attributes else []
  }

  function ClassLine(c: Type): string
  {
    "  - " + c.name + " (" + IntToString(|AttributesOf(c)|) + " attributes)"
  }

  /** A class line followed by one line per attribute. */
  function ClassBlock(c: Type): seq<string>
  {
    [ClassLine(c)] + AttributeLines(AttributesOf(c))
  }

  predicate AllClasses(cs: seq<Type>)
  {
    forall i :: 0 <= i < |cs| ==> IsClass(cs[i])
  }

  /** The blocks of the classes, in order. */
  function ClassBlocks(cs: seq<Type>): seq<string>
  {
    if |cs| == 0 then []
    else ClassBlocks(cs[..|cs| - 1]) + ClassBlock(cs[|cs| - 1])
  }

  /** The blocks of one more class. */
  lemma ClassBlocksSnoc(cs: seq<Type>, k: nat)
    requires k < |cs|
    ensures ClassBlocks(cs[..k + 1]) == ClassBlocks(cs[..k]) + ClassBlock(cs[k])
  {
    assert cs[..k + 1][..k] == cs[..k];
  }

  /** Appending the block of class `k` to the lines of the classes before it. */
  lemma AppendBlock(info: seq<string>, cs: seq<Type>, k: nat, before: seq<string>, after: seq<string>)
    requires k < |cs|
    requires before == info + ClassBlocks(cs[..k])
    requires after == before + [ClassLine(cs[k])] + AttributeLines(AttributesOf(cs[k]))
    ensures after == info + ClassBlocks(cs[..k + 1])
  {
    ClassBlocksSnoc(cs, k);
    Regroup(info, ClassBlocks(cs[..k]), ClassLine(cs[k]), AttributeLines(AttributesOf(cs[k])));
  }

  lemma Associative<T>(a: seq<T>, b: seq<T>, c: seq<T>)
    ensures a + b + c == a + (b + c)
  {
  }

  lemma Regroup<T>(a: seq<T>, b: seq<T>, x: T, c: seq<T>)
    ensures a + b + [x] + c == a + (b + ([x] + c))
  {
  }

  /** The number of attributes over all the classes. */
  function TotalAttributes(cs: seq<Type>): nat
  {
    if |cs| == 0 then 0
    else TotalAttributes(cs[..|cs| - 1]) + |AttributesOf(cs[|cs| - 1])|
  }

  function Header(m: Model): seq<string>
  {
    ["Domain Model: " + m.name, "Total types: " + IntToString(|m.types|), "Classes: " + IntToString(|Classes(m.types)|)]
  }

  /** The `info` list: the header, then, when there are classes, `Class details:` and one block per class. */
  function InfoLines(m: Model): seq<string>
  {
    var cs := Classes(m.types);
    Header(m) + (if |cs| > 0 then ["Class details:"] + ClassBlocks(cs) else [])
  }

  /** The error `base_get_model_info` reports when it is given no model at all. */
  const NoModelText := "Error getting model info: " + NoAttributeText(None, "get_classes")

  /** What `base_get_model_info` returns; `None` stands for a missing model. */
  function ModelInfo(m: Option<Model>): string
  {
    match m
    case None => NoModelText
    case Some(m) => Join(InfoLines(m), "\n")
  }

  /** The inner loop of `base_get_model_info`: one `* name: type` line per attribute. */
  method AppendAttributeLines(info: seq<string>, attributes: seq<Attribute>) returns (lines: seq<string>)
    ensures lines == info + AttributeLines(attributes)
  {
    lines := info;
    var j := 0;
    while j < |attributes|
      invariant 0 <= j <= |attributes|
      invariant lines == info + AttributeLines(attributes[..j])
    {
      var attr := attributes[j];
      var attrType := match attr.typ case Ref(name) => name case NoType => "None";
      assert AttributeLines(attributes[..j + 1]) == AttributeLines(attributes[..j]) + [AttributeLine(attr)];
      lines := lines + ["    * " + attr.name + ": " + attrType];
      j := j + 1;
    }
    assert attributes[..j] == attributes;
  }

  /** The outer loop of `base_get_model_info`: for each class, its line and then its attributes' lines. */
  method AppendClassBlocks(info: seq<string>, classes: seq<Type>) returns (lines: seq<string>)
    requires AllClasses(classes)
    ensures lines == info + ClassBlocks(classes)
  {
    lines := info;
    var k := 0;
    while k < |classes|
      invariant 0 <= k <= |classes|
      invariant lines == info + ClassBlocks(classes[..k])
    {
      var cls := classes[k];
      ghost var before := lines;
      lines := AppendAttributeLines(lines + [ClassLine(cls)], cls.attributes);
      AppendBlock(info, classes, k, before, lines);
      k := k + 1;
    }
    assert classes[..k] == classes;
  }

  /** `base_get_model_info`, building `info` line by line and joining the lines with newlines. */
  method GetModelInfo(m: Option<Model>) returns (text: string)
    ensures text == ModelInfo(m)
  {
    if m.None? {
      return NoModelText;
    }
    var model := m.value;
    var classes := Classes(model.types);
    var info := ["Domain Model: " + model.name];
    info := info + ["Total types: " + IntToString(|model.types|)];
    info := info + ["Classes: " + IntToString(|classes|)];
    assert info == Header(model);
    if |classes| > 0 {
      Associative(info, ["Class details:"], ClassBlocks(classes));
      info := AppendClassBlocks(info + ["Class details:"], classes);
    }
    assert info == InfoLines(model);
    return Join(info, "\n");
  }

  // ===== properties of the layout =====

  /** The first three lines name the model, count its types and count its classes, in that order. */
  lemma InfoHeader(m: Model)
    ensures |InfoLines(m)| >= 3
    ensures InfoLines(m)[0] == "Domain Model: " + m.name
    ensures InfoLines(m)[1] == "Total types: " + IntToString(|m.types|)
    ensures InfoLines(m)[2] == "Classes: " + IntToString(|Classes(m.types)|)
  {
  }

  /** A `Class details:` line appears exactly when the model has a class. */
  lemma ClassDetailsIffClasses(m: Model)
    ensures "Class details:" in InfoLines(m) <==> |Classes(m.types)| > 0
  {
    var lines := InfoLines(m);
    if |Classes(m.types)| == 0 {
      assert lines == Header(m);
      assert lines[0][0] == 'D' && lines[1][0] == 'T' && lines[2][5] == 'e';
    } else {
      assert lines[3] == "Class details:";
    }
  }

  /** The blocks take one line per class plus one per attribute. */
  lemma {:induction false} ClassBlocksLength(cs: seq<Type>)
    ensures |ClassBlocks(cs)| == |cs| + TotalAttributes(cs)
  {
    if |cs| > 0 {
      ClassBlocksLength(cs[..|cs| - 1]);
    }
  }

  /** Three lines without classes, else four plus one per class plus one per attribute. */
  lemma InfoLineCount(m: Model)
    ensures var cs := Classes(m.types);
      |InfoLines(m)| == if |cs| == 0 then 3 else 4 + |cs| + TotalAttributes(cs)
  {
    ClassBlocksLength(Classes(m.types));
  }

  /** The blocks of a prefix of the classes are a prefix of all the blocks. */
  lemma {:induction false} ClassBlocksPrefix(cs: seq<Type>, n: nat)
    requires n <= |cs|
    ensures |ClassBlocks(cs[..n])| <= |ClassBlocks(cs)|
    ensures ClassBlocks(cs)[..|ClassBlocks(cs[..n])|] == ClassBlocks(cs[..n])
  {
    if n < |cs| {
      assert cs[..|cs| - 1][..n] == cs[..n];
      ClassBlocksPrefix(cs[..|cs| - 1], n);
    } else {
      assert cs[..n] == cs;
    }
  }

  /**
   * The block of class `i` (its line, then its attributes' lines) sits in
   * the blocks right after the blocks of the classes before it.
   */
  lemma {:induction false} ClassBlockLayout(cs: seq<Type>, i: nat)
    requires i < |cs|
    ensures var at := |ClassBlocks(cs[..i])|;
      var block := ClassBlock(cs[i]);
      at + |block| <= |ClassBlocks(cs)| && ClassBlocks(cs)[at..at + |block|] == block
  {
    ClassBlocksPrefix(cs, i + 1);
    ClassBlocksSnoc(cs, i);
    var at := |ClassBlocks(cs[..i])|;
    var block := ClassBlock(cs[i]);
    assert ClassBlocks(cs)[at..at + |block|] == ClassBlocks(cs)[..at + |block|][at..];
  }

  /** Without a model the text is the error naming the missing `get_classes`. */
  lemma NoModelIsError()
    ensures IsErrorText(ModelInfo(None))
  {
  }
}
