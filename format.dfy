/**
 * The part of `java.util.Formatter` the dumper relies on: a format string made
 * of literal text and explicitly indexed specifiers `%<index>$d` and
 * `%<index>$s`. The indices are 1-based and need not increase; an index with
 * no argument, or `%d` applied to a string, makes `String.format` throw, which
 * the model reports as None.
 */
module Formatter {
  import opened Wrappers
  import opened Numerals
  import opened Strings

  /** The conversion letter of a specifier. */
  datatype Conversion = D | S

  /** One piece of a parsed format string: literal text, or `%<index>$<conversion>`. */
  datatype Spec = Literal(text: string) | Arg(index: nat, conversion: Conversion)

  /** An argument passed to `String.format`. */
  datatype Value = LongValue(n: Int64) | StringValue(s: string)

  function Render(spec: Spec, args: seq<Value>): Option<string> {
    match spec
    case Literal(t) => Some(t)
    case Arg(i, c) =>
      if i < 1 || |args| < i then None
      else match (c, args[i - 1])
        case (D, LongValue(n)) => Some(Decimal(n))
        case (D, StringValue(_)) => None
        case (S, LongValue(n)) => Some(Decimal(n))
        case (S, StringValue(s)) => Some(s)
  }

  /** `String.format(Locale.US, specs, args...)`: None exactly when some specifier fails. */
  function Format(specs: seq<Spec>, args: seq<Value>): Option<string> {
    if specs == [] then Some("")
    else match (Render(specs[0], args), Format(specs[1..], args))
      case (Some(h), Some(t)) => Some(h + t)
      case _ => None
  }

  /** The whole call fails exactly when one of its specifiers fails. */
  lemma {:induction false} FormatSucceeds(specs: seq<Spec>, args: seq<Value>)
    ensures Format(specs, args).Some? <==> forall i :: 0 <= i < |specs| ==> Render(specs[i], args).Some?
  {
    if specs != [] {
      FormatSucceeds(specs[1..], args);
      assert forall i :: 1 <= i < |specs| ==> specs[i] == specs[1..][i - 1];
    }
  }

  lemma FormatCons(spec: Spec, rest: seq<Spec>, args: seq<Value>)
    requires Render(spec, args).Some? && Format(rest, args).Some?
    ensures Format([spec] + rest, args) == Some(Render(spec, args).value + Format(rest, args).value)
  {
    assert ([spec] + rest)[1..] == rest;
  }

  /** Every index names an argument that is a `long`. */
  predicate PicksLongs(refs: seq<nat>, args: seq<Value>) {
    forall k :: 0 <= k < |refs| ==> 1 <= refs[k] <= |args| && args[refs[k] - 1].LongValue?
  }

  /** The `long` arguments the indices name, in the order of the indices. */
  function Picked(refs: seq<nat>, args: seq<Value>): (r: seq<int>)
    requires PicksLongs(refs, args)
    ensures |r| == |refs|
  {
    seq(|refs|, k requires 0 <= k < |refs| => args[refs[k] - 1].n)
  }

  /** `"%i1$d %i2$d ... %ik$d"` for the indices refs = [i1, ..., ik]. */
  function SpaceSeparated(refs: seq<nat>): seq<Spec> {
    if |refs| == 0 then []
    else if |refs| == 1 then [Arg(refs[0], D)]
    else [Arg(refs[0], D), Literal(" ")] + SpaceSeparated(refs[1..])
  }

  lemma RenderLong(i: nat, c: Conversion, args: seq<Value>)
    requires 1 <= i <= |args| && args[i - 1].LongValue?
    ensures Render(Arg(i, c), args) == Some(Decimal(args[i - 1].n))
  {
  }

  lemma FormatOneArg(refs: seq<nat>, args: seq<Value>)
    requires |refs| == 1 && PicksLongs(refs, args)
    ensures Format(SpaceSeparated(refs), args) == Some(Decimal(args[refs[0] - 1].n))
  {
    RenderLong(refs[0], D, args);
    assert Format([], args) == Some("");
    assert SpaceSeparated(refs) == [Arg(refs[0], D)] + [];
    FormatCons(Arg(refs[0], D), [], args);
    assert Decimal(args[refs[0] - 1].n) + "" == Decimal(args[refs[0] - 1].n);
  }

  lemma FormatFieldThenRest(i: nat, tail: seq<Spec>, args: seq<Value>, rest: string)
    requires 1 <= i <= |args| && args[i - 1].LongValue?
    requires Format(tail, args) == Some(rest)
    ensures Format([Arg(i, D), Literal(" ")] + tail, args) == Some(Decimal(args[i - 1].n) + " " + rest)
  {
    var d := Decimal(args[i - 1].n);
    RenderLong(i, D, args);
    var spaced := [Literal(" ")] + tail;
    FormatCons(Literal(" "), tail, args);
    FormatCons(Arg(i, D), spaced, args);
    assert [Arg(i, D), Literal(" ")] + tail == [Arg(i, D)] + spaced;
    assert d + (" " + rest) == d + " " + rest;
  }

  lemma PickedTail(refs: seq<nat>, args: seq<Value>)
    requires |refs| > 0 && PicksLongs(refs, args)
    ensures PicksLongs(refs[1..], args)
    ensures Picked(refs, args) == [args[refs[0] - 1].n] + Picked(refs[1..], args)
  {
  }

  lemma JoinDecimals(ns: seq<int>)
    requires |ns| > 1
    ensures Join(Decimals(ns), ' ') == Decimal(ns[0]) + " " + Join(Decimals(ns[1..]), ' ')
  {
    assert Decimals(ns)[1..] == Decimals(ns[1..]);
  }

  /** Such a format string prints the named arguments, each as `%d`, separated by single spaces. */
  lemma {:induction false} FormatSpaceSeparated(refs: seq<nat>, args: seq<Value>)
    requires PicksLongs(refs, args)
    ensures Format(SpaceSeparated(refs), args) == Some(Join(Decimals(Picked(refs, args)), ' '))
  {
    var ns := Picked(refs, args);
    if |refs| == 0 {
      assert Decimals(ns) == [];
    } else if |refs| == 1 {
      FormatOneArg(refs, args);
      assert Join(Decimals(ns), ' ') == Decimal(ns[0]);
    } else {
      PickedTail(refs, args);
      FormatSpaceSeparated(refs[1..], args);
      JoinDecimals(ns);
      FormatFieldThenRest(refs[0], SpaceSeparated(refs[1..]), args, Join(Decimals(ns[1..]), ' '));
    }
  }
}
