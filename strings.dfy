/**
 * Joining fields with a separator, terminating lines, and splitting text at a
 * separator: the layout of a record and of a metrics file, and its reader.
 */
module Strings {

  /** The parts with one `sep` between neighbours. */
  function Join(parts: seq<string>, sep: char): string {
    if |parts| == 0 then ""
    else if |parts| == 1 then parts[0]
    else parts[0] + [sep] + Join(parts[1..], sep)
  }

  /** Every line followed by `sep`: the content of a file written line by line. */
  function Terminated(lines: seq<string>, sep: char): string {
    if lines == [] then "" else lines[0] + [sep] + Terminated(lines[1..], sep)
  }

  /** The maximal runs of `s` between occurrences of `sep` (always at least one run). */
  function Split(s: string, sep: char): (r: seq<string>)
    ensures |r| > 0
  {
    if s == [] then [""]
    else
      var rest := Split(s[1..], sep);
      if s[0] == sep then [""] + rest else [[s[0]] + rest[0]] + rest[1..]
  }

  predicate NoneContains(parts: seq<string>, sep: char) {
    forall i :: 0 <= i < |parts| ==> sep !in parts[i]
  }

  lemma {:induction false} SplitWithout(f: string, sep: char)
    requires sep !in f
    ensures Split(f, sep) == [f]
  {
    if f != [] {
      SplitWithout(f[1..], sep);
      assert [f[0]] + f[1..] == f;
    }
  }

  /** A field free of `sep` followed by `sep` splits off as exactly that field. */
  lemma {:induction false} SplitField(f: string, rest: string, sep: char)
    requires sep !in f
    ensures Split(f + [sep] + rest, sep) == [f] + Split(rest, sep)
  {
    var s := f + [sep] + rest;
    if f == [] {
      assert s[1..] == rest;
    } else {
      assert s[1..] == f[1..] + [sep] + rest;
      SplitField(f[1..], rest, sep);
      assert [f[0]] + f[1..] == f;
    }
  }

  /** Splitting undoes joining when no part contains the separator. */
  lemma {:induction false} SplitJoin(parts: seq<string>, sep: char)
    requires |parts| > 0 && NoneContains(parts, sep)
    ensures Split(Join(parts, sep), sep) == parts
  {
    if |parts| == 1 {
      SplitWithout(parts[0], sep);
    } else {
      SplitField(parts[0], Join(parts[1..], sep), sep);
      SplitJoin(parts[1..], sep);
      assert [parts[0]] + parts[1..] == parts;
    }
  }

  /** Splitting terminated lines gives the lines back, followed by the empty run after the last `sep`. */
  lemma {:induction false} SplitTerminated(lines: seq<string>, sep: char)
    requires NoneContains(lines, sep)
    ensures Split(Terminated(lines, sep), sep) == lines + [""]
  {
    if lines != [] {
      SplitField(lines[0], Terminated(lines[1..], sep), sep);
      SplitTerminated(lines[1..], sep);
      assert [lines[0]] + (lines[1..] + [""]) == lines + [""];
    }
  }

  /** Joining two non-empty runs of parts puts one separator between their joins. */
  lemma {:induction false} JoinAppend(a: seq<string>, b: seq<string>, sep: char)
    requires a != [] && b != []
    ensures Join(a + b, sep) == Join(a, sep) + [sep] + Join(b, sep)
  {
    if |a| == 1 {
      assert (a + b)[1..] == b;
    } else {
      assert (a + b)[1..] == a[1..] + b;
      JoinAppend(a[1..], b, sep);
      assert Join(a + b, sep) == a[0] + [sep] + (Join(a[1..], sep) + [sep] + Join(b, sep));
    }
  }

  lemma TerminatedCons(line: string, rest: seq<string>, sep: char)
    ensures Terminated([line] + rest, sep) == line + [sep] + Terminated(rest, sep)
  {
    assert ([line] + rest)[1..] == rest;
  }

  /** A line that contains `sep` once reads, once terminated, as two lines. */
  lemma TerminatedSplitFirst(a: string, b: string, rest: seq<string>, sep: char)
    ensures Terminated([a + [sep] + b] + rest, sep) == Terminated([a, b] + rest, sep)
  {
    TerminatedCons(a + [sep] + b, rest, sep);
    assert ([a, b] + rest)[1..] == [b] + rest;
    TerminatedCons(b, rest, sep);
    assert Terminated([a, b] + rest, sep) == a + [sep] + (b + [sep] + Terminated(rest, sep));
  }
}
