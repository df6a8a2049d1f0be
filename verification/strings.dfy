/**
 * String operations that both halves of the system use: joining a list of
 * strings with a separator (Python `sep.join(xs)`, JavaScript `xs.join(sep)`),
 * splitting at every occurrence of one character (JavaScript `s.split(c)`),
 * and containment of one text in another.
 */
module Strings {

  /** `sep.join(parts)`: the parts in order with `sep` between neighbours. */
  function Join(parts: seq<string>, sep: string): string
  {
    if parts == [] then ""
    else if |parts| == 1 then parts[0]
    else parts[0] + sep + Join(parts[1..], sep)
  }

  /** Sum of the lengths of the parts. */
  function TotalLength(parts: seq<string>): nat
  {
    if parts == [] then 0 else |parts[0]| + TotalLength(parts[1..])
  }

  /** Joining n >= 1 parts inserts exactly n - 1 separators and nothing else. */
  lemma {:induction false} JoinLength(parts: seq<string>, sep: string)
    requires parts != []
    ensures |Join(parts, sep)| == TotalLength(parts) + (|parts| - 1) * |sep|
  {
    if |parts| > 1 {
      JoinLength(parts[1..], sep);
      assert (|parts| - 1) * |sep| == (|parts[1..]| - 1) * |sep| + |sep|;
    } else {
      assert parts[1..] == [];
    }
  }

  /** No parts join to the empty text, one part to itself. */
  lemma JoinFew(x: string, sep: string)
    ensures Join([], sep) == ""
    ensures Join([x], sep) == x
  {
  }

  /** Joining a concatenation is joining the halves with one more separator. */
  lemma {:induction false} JoinAppend(xs: seq<string>, ys: seq<string>, sep: string)
    requires xs != [] && ys != []
    ensures Join(xs + ys, sep) == Join(xs, sep) + sep + Join(ys, sep)
  {
    if |xs| == 1 {
      assert (xs + ys)[1..] == ys;
    } else {
      assert (xs + ys)[1..] == xs[1..] + ys;
      JoinAppend(xs[1..], ys, sep);
    }
  }

  /** JavaScript `s.split(sep)` for a one-character separator: the maximal
      runs between occurrences of `sep`; the empty string gives `[""]`. */
  function Split(s: string, sep: char): (parts: seq<string>)
    ensures |parts| >= 1
    decreases |s|
  {
    if s == [] then [""]
    else
      var rest := Split(s[1..], sep);
      if s[0] == sep then [""] + rest else [[s[0]] + rest[0]] + rest[1..]
  }

  /** Number of occurrences of `c` in `s`. */
  function Occurrences(s: string, c: char): nat
  {
    if s == [] then 0 else (if s[0] == c then 1 else 0) + Occurrences(s[1..], c)
  }

  /** Splitting yields one more part than there are separators. */
  lemma {:induction false} SplitCount(s: string, sep: char)
    ensures |Split(s, sep)| == Occurrences(s, sep) + 1
  {
    if s != [] {
      SplitCount(s[1..], sep);
    }
  }

  /** No part of a split contains the separator. */
  lemma {:induction false} SplitPartsAvoidSep(s: string, sep: char)
    ensures forall i :: 0 <= i < |Split(s, sep)| ==> sep !in Split(s, sep)[i]
  {
    if s != [] {
      SplitPartsAvoidSep(s[1..], sep);
    }
  }

  /** Joining the parts of a split with the separator gives back the text. */
  lemma {:induction false} JoinSplit(s: string, sep: char)
    ensures Join(Split(s, sep), [sep]) == s
  {
    if s != [] {
      var rest := Split(s[1..], sep);
      JoinSplit(s[1..], sep);
      if s[0] == sep {
        assert ([""] + rest)[1..] == rest;
      } else if |rest| > 1 {
        var parts := [[s[0]] + rest[0]] + rest[1..];
        assert parts[1..] == rest[1..];
        assert Join(rest, [sep]) == rest[0] + [sep] + Join(rest[1..], [sep]);
      }
    }
  }

  /** A text without the separator splits into itself alone. */
  lemma {:induction false} SplitWithoutSep(a: string, sep: char)
    requires sep !in a
    ensures Split(a, sep) == [a]
  {
    if a != [] {
      SplitWithoutSep(a[1..], sep);
      assert [a[0]] + a[1..] == a;
    }
  }

  /** Splitting at the first separator: the text before it is the first part. */
  lemma {:induction false} SplitAtFirst(a: string, sep: char, b: string)
    requires sep !in a
    ensures Split(a + [sep] + b, sep) == [a] + Split(b, sep)
  {
    var s := a + [sep] + b;
    if a == [] {
      assert s[0] == sep && s[1..] == b;
    } else {
      assert s[0] == a[0] && s[1..] == a[1..] + [sep] + b;
      SplitAtFirst(a[1..], sep, b);
      assert [a[0]] + a[1..] == a;
    }
  }

  /** Splitting undoes joining when no part contains the separator. */
  lemma {:induction false} SplitJoin(parts: seq<string>, sep: char)
    requires |parts| >= 1
    requires forall i :: 0 <= i < |parts| ==> sep !in parts[i]
    ensures Split(Join(parts, [sep]), sep) == parts
  {
    if |parts| == 1 {
      SplitWithoutSep(parts[0], sep);
    } else {
      SplitAtFirst(parts[0], sep, Join(parts[1..], [sep]));
      SplitJoin(parts[1..], sep);
    }
  }

  /** Index of the first `c` in `s`, or `|s|` when there is none. */
  function IndexOf(s: string, c: char): (k: nat)
    ensures k <= |s|
    ensures k < |s| ==> s[k] == c
    ensures c !in s[..k]
  {
    if s == [] then 0
    else if s[0] == c then 0
    else
      var k := 1 + IndexOf(s[1..], c);
      assert s[..k] == [s[0]] + s[1..][..k - 1];
      k
  }

  /** The first part of a split is the text before the first separator, and
      the remaining parts, joined back with the separator, are the text after it. */
  lemma SplitHeadTail(s: string, sep: char)
    ensures Split(s, sep)[0] == s[..IndexOf(s, sep)]
    ensures Join(Split(s, sep)[1..], [sep]) ==
              if IndexOf(s, sep) < |s| then s[IndexOf(s, sep) + 1..] else ""
  {
    var k := IndexOf(s, sep);
    if k == |s| {
      assert s[..k] == s;
      SplitWithoutSep(s, sep);
    } else {
      assert s == s[..k] + [sep] + s[k + 1..];
      SplitAtFirst(s[..k], sep, s[k + 1..]);
      JoinSplit(s[k + 1..], sep);
    }
  }

  /** Concatenation regroups freely. */
  lemma Regroup(a: string, b: string, c: string)
    ensures a + (b + c) == (a + b) + c
  {
  }

  /** `part` occurs somewhere in `s`. */
  ghost predicate IsInfix(part: string, s: string)
  {
    exists i {:trigger s[i..]} :: 0 <= i <= |s| && part <= s[i..]
  }

  /** A text occurs in any text built around it. */
  lemma InfixWithin(x: string, part: string, y: string)
    ensures IsInfix(part, x + part + y)
  {
    var s := x + part + y;
    assert part <= s[|x|..];
  }

  /** Containment survives adding text on either side. */
  lemma InfixGrow(part: string, s: string, x: string, y: string)
    requires IsInfix(part, s)
    ensures IsInfix(part, x + s + y)
  {
    var i :| 0 <= i <= |s| && part <= s[i..];
    var t := x + s + y;
    assert t[|x| + i..] == s[i..] + y;
  }

  /** Containment survives adding text in front. */
  lemma InfixPrepend(part: string, s: string, x: string)
    requires IsInfix(part, s)
    ensures IsInfix(part, x + s)
  {
    InfixGrow(part, s, x, []);
    assert x + s + [] == x + s;
  }

  /** Containment survives adding text behind. */
  lemma InfixAppend(part: string, s: string, y: string)
    requires IsInfix(part, s)
    ensures IsInfix(part, s + y)
  {
    InfixGrow(part, s, [], y);
    assert [] + s + y == s + y;
  }

  /** The lines of a text, each followed by a newline. */
  function Lines(ls: seq<string>): string
  {
    if ls == [] then "" else ls[0] + "\n" + Lines(ls[1..])
  }

  /** One more line adds that line and a newline at the end. */
  lemma {:induction false} LinesAppend(ls: seq<string>, x: string)
    ensures Lines(ls + [x]) == Lines(ls) + (x + "\n")
  {
    if ls == [] {
      assert [] + [x] == [x];
      assert [x][1..] == [];
    } else {
      assert (ls + [x])[1..] == ls[1..] + [x];
      LinesAppend(ls[1..], x);
    }
  }

  /** The lines of two lists, one after the other. */
  lemma {:induction false} LinesConcat(xs: seq<string>, ys: seq<string>)
    ensures Lines(xs + ys) == Lines(xs) + Lines(ys)
  {
    if xs == [] {
      assert xs + ys == ys;
    } else {
      assert (xs + ys)[1..] == xs[1..] + ys;
      LinesConcat(xs[1..], ys);
      Regroup(xs[0] + "\n", Lines(xs[1..]), Lines(ys));
    }
  }

  /** A text is empty or ends with a newline: whatever follows starts a line. */
  predicate EndsLine(s: string)
  {
    s == [] || s[|s| - 1] == '\n'
  }

  /** A text made of lines ends a line. */
  lemma LinesEndLine(ls: seq<string>)
    ensures EndsLine(Lines(ls))
  {
    if ls != [] {
      var s := Lines(ls);
      assert s == (ls[0] + "\n") + Lines(ls[1..]);
      LinesEndLine(ls[1..]);
    }
  }

  /** Text that ends a line, followed by more such text, ends a line. */
  lemma EndsLineConcat(a: string, b: string)
    requires EndsLine(a) && EndsLine(b)
    ensures EndsLine(a + b)
  {
    if b != [] {
      assert (a + b)[|a + b| - 1] == b[|b| - 1];
    }
  }

  /** Every line occurs in the text made of the lines. */
  lemma {:induction false} LineInLines(ls: seq<string>, k: nat)
    requires k < |ls|
    ensures IsInfix(ls[k], Lines(ls))
  {
    if k == 0 {
      InfixWithin([], ls[0], "\n" + Lines(ls[1..]));
      assert [] + ls[0] + ("\n" + Lines(ls[1..])) == Lines(ls);
    } else {
      LineInLines(ls[1..], k - 1);
      InfixGrow(ls[k], Lines(ls[1..]), ls[0] + "\n", []);
      assert ls[0] + "\n" + Lines(ls[1..]) + [] == Lines(ls);
    }
  }
}
