/**
 * `multiplicity_from_string`: reads a multiplicity written `min..max`, where
 * `max` may be the unbounded marker `*`.
 */
module Multiplicities {
  import opened Wrappers
  import opened Strings

  /** The upper bound of a multiplicity: a number, or `*` kept as the unbounded marker. */
  datatype Bound = Bounded(n: int) | Many

  datatype Multiplicity = Multiplicity(min: int, max: Bound)

  /** `s.split("..")`: the pieces between non-overlapping occurrences of `..`, found left to right. */
  function SplitDots(s: string): (parts: seq<string>)
    ensures |parts| >= 1
  {
    if |s| < 2 then [s]
    else if s[0] == '.' && s[1] == '.' then [""] + SplitDots(s[2..])
    else
      var rest := SplitDots(s[1..]);
      [[s[0]] + rest[0]] + rest[1..]
  }

  /** Splitting loses nothing: joining the pieces with `..` gives the string back. */
  lemma {:induction false} SplitDotsJoin(s: string)
    ensures Join(SplitDots(s), "..") == s
  {
    if |s| < 2 {
    } else if s[0] == '.' && s[1] == '.' {
      var rest := SplitDots(s[2..]);
      SplitDotsJoin(s[2..]);
      assert ([""] + rest)[1..] == rest;
      assert s == ".." + s[2..];
    } else {
      SplitDotsJoin(s[1..]);
      JoinExtendFirst([s[0]], SplitDots(s[1..]), "..");
      assert s == [s[0]] + s[1..];
    }
  }

  predicate NoDot(s: string)
  {
    forall i :: 0 <= i < |s| ==> s[i] != '.'
  }

  /** Two dot-free pieces around a single `..` split back into exactly those two pieces. */
  lemma {:induction false} SplitDotsPair(a: string, b: string)
    requires NoDot(a) && NoDot(b)
    ensures SplitDots(a + ".." + b) == [a, b]
  {
    var s := a + ".." + b;
    if |a| == 0 {
      assert s == ".." + b && s[2..] == b;
      SplitDotsSingle(b);
    } else {
      assert s[1..] == a[1..] + ".." + b;
      SplitDotsPair(a[1..], b);
      assert [s[0]] + a[1..] == a;
    }
  }

  /** A dot-free string is a single piece. */
  lemma {:induction false} SplitDotsSingle(s: string)
    requires NoDot(s)
    ensures SplitDots(s) == [s]
  {
    if |s| >= 2 {
      SplitDotsSingle(s[1..]);
      assert [s[0]] + s[1..] == s;
    }
  }

  function BoundsErrorText(s: string): string
  {
    "Multiplicity string '" + s + "' must have min and max values"
  }

  /**
   * `multiplicity_from_string(s)`. A `Failure` carries the text of the
   * ValueError it raises: wrong number of `..`-pieces, or a bound that `int`
   * cannot read.
   */
  function FromString(s: string): (r: Result<Multiplicity, string>)
    ensures |SplitDots(s)| != 2 <==> r == Failure(BoundsErrorText(s))
    ensures r.Success? <==>
      |SplitDots(s)| == 2 && ParseInt(SplitDots(s)[0]).Some? &&
      (SplitDots(s)[1] == "*" || ParseInt(SplitDots(s)[1]).Some?)
    ensures |SplitDots(s)| == 2 && ParseInt(SplitDots(s)[0]).None? ==>
      r == Failure(IntErrorText(SplitDots(s)[0]))
    ensures |SplitDots(s)| == 2 && ParseInt(SplitDots(s)[0]).Some? && SplitDots(s)[1] != "*" &&
            ParseInt(SplitDots(s)[1]).None? ==>
      r == Failure(IntErrorText(SplitDots(s)[1]))
    ensures r.Success? ==>
      Some(r.value.min) == ParseInt(SplitDots(s)[0]) &&
      (r.value.max == Many <==> SplitDots(s)[1] == "*") &&
      (r.value.max.Bounded? ==> Some(r.value.max.n) == ParseInt(SplitDots(s)[1]))
  {
    var bounds := SplitDots(s);
    assert BoundsErrorText(s)[0] == 'M';
    assert forall x :: IntErrorText(x)[0] == 'i';
    if |bounds| != 2 then Failure(BoundsErrorText(s))
    else match ParseInt(bounds[0])
      case None => Failure(IntErrorText(bounds[0]))
      case Some(min) =>
        if bounds[1] == "*" then Success(Multiplicity(min, Many))
        else match ParseInt(bounds[1])
          case None => Failure(IntErrorText(bounds[1]))
          case Some(max) => Success(Multiplicity(min, Bounded(max)))
  }

  /** The text `min..max` (or `min..*`) that denotes a multiplicity. */
  function Format(m: Multiplicity): string
  {
    IntToString(m.min) + ".." + (match m.max case Many => "*" case Bounded(n) => IntToString(n))
  }

  lemma IntToStringNoDot(i: int)
    ensures NoDot(IntToString(i)) && IntToString(i) != "*"
  {
    var d := NatToString(if i < 0 then -i else i);
    assert IsDigits(d);
    if i < 0 {
      assert IntToString(i)[0] == '-';
      assert forall k :: 1 <= k < |IntToString(i)| ==> IntToString(i)[k] == d[k - 1];
    } else {
      assert IntToString(i)[0] == d[0];
    }
  }

  /** Round trip: the text `a..b` reads back as (a, b), and `a..*` as (a, *). */
  lemma RoundTrip(m: Multiplicity)
    ensures FromString(Format(m)) == Success(m)
  {
    IntToStringNoDot(m.min);
    IntToStringRoundTrip(m.min);
    var upper := match m.max case Many => "*" case Bounded(n) => IntToString(n);
    match m.max {
      case Many =>
      case Bounded(n) => IntToStringNoDot(n); IntToStringRoundTrip(n);
    }
    SplitDotsPair(IntToString(m.min), upper);
  }

  /** The default `"1..1"` of the attribute and association tools reads as exactly one. */
  lemma DefaultIsExactlyOne()
    ensures FromString("1..1") == Success(Multiplicity(1, Bounded(1)))
  {
    assert Format(Multiplicity(1, Bounded(1))) == "1..1";
    RoundTrip(Multiplicity(1, Bounded(1)));
  }

  /** A lone bound has no max: it lacks min and max. */
  lemma LoneBoundRejected()
    ensures FromString("1") == Failure(BoundsErrorText("1"))
  {
    SplitDotsSingle("1");
  }

  /** Three pieces are too many: the string lacks min and max. */
  lemma ThreePiecesRejected()
    ensures FromString("1..2..3") == Failure(BoundsErrorText("1..2..3"))
  {
    SplitDotsPair("2", "3");
    assert "1..2..3"[1..] == "..2..3" && "..2..3"[2..] == "2..3";
    assert SplitDots("..2..3") == [""] + ["2", "3"];
  }

  /** A `*` lower bound is handed to `int` and rejected, although `*` is a valid upper bound. */
  lemma StarLowerBoundRejected()
    ensures FromString("*..3") == Failure(IntErrorText("*"))
  {
    SplitDotsPair("*", "3");
  }

  /** A bound holding `'` is quoted by `repr` with `"`, so the error shows `"a'"`. */
  lemma QuotedBoundText()
    ensures FromString("a'..1") == Failure(IntErrorLead + "\"a'\"")
  {
    SplitDotsPair("a'", "1");
    assert "a'" + ".." + "1" == "a'..1";
    assert SplitDots("a'..1") == ["a'", "1"];
    assert !IsDigits("a'") && ParseInt("a'").None?;
    assert "a'"[1] == '\'' && Plain("a'", '"');
    ReprSwitchesQuotes("a'");
    assert Repr("a'") == "\"a'\"";
    assert IntErrorText("a'") == IntErrorLead + "\"a'\"";
  }
}
