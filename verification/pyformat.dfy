/**
 * Python's `str.format(**kwargs)` restricted to what the prompt templates use:
 * literal text, the escapes `{{` and `}}`, and named replacement fields
 * `{name}` looked up among the keyword arguments.
 *
 * A template is kept as a list of segments (literal text and named slots);
 * `Source` writes a segment list as the format string a Python programmer
 * would type, and `FormatSource` proves that formatting that string is
 * rendering the segments in one pass.
 */
module PyFormat {
  import opened Wrappers
  import opened Strings

  /** Why `str.format` raised. */
  datatype FormatError =
    | SingleCloseBrace          // ValueError: Single '}' encountered in format string
    | UnclosedField             // ValueError: expected '}' before end of string
    | NestedField               // a '{' inside a replacement field (not modelled further)
    | MissingKey(name: string)  // KeyError: name

  /** Keyword arguments of one `format` call. */
  type Args = map<string, string>

  /** `p` in front of a formatted result; an error stays the same error. */
  function Prepend(p: string, r: Result<string, FormatError>): Result<string, FormatError>
  {
    match r
    case Ok(s) => Ok(p + s)
    case Err(e) => Err(e)
  }

  /** Prepending twice is prepending the concatenation. */
  lemma PrependTwice(a: string, b: string, r: Result<string, FormatError>)
    ensures Prepend(a, Prepend(b, r)) == Prepend(a + b, r)
    ensures Prepend([], r) == r
  {
    if r.Ok? {
      assert a + (b + r.value) == (a + b) + r.value;
      assert [] + r.value == r.value;
    }
  }

  /**
   * `s.format(**args)`: scans left to right, as CPython's MarkupIterator does,
   * so the first problem met (a lone `}`, an unclosed field, a missing key)
   * is the one raised.
   */
  function Format(s: string, args: Args): Result<string, FormatError>
    decreases |s|
  {
    if s == [] then Ok("")
    else if s[0] == '{' then
      if |s| > 1 && s[1] == '{' then Prepend("{", Format(s[2..], args))
      else
        var k := IndexOf(s[1..], '}');
        var name := s[1..1 + k];
        if k == |s| - 1 then Err(UnclosedField)
        else if '{' in name then Err(NestedField)
        else if name !in args then Err(MissingKey(name))
        else Prepend(args[name], Format(s[k + 2..], args))
    else if s[0] == '}' then
      if |s| > 1 && s[1] == '}' then Prepend("}", Format(s[2..], args))
      else Err(SingleCloseBrace)
    else Prepend([s[0]], Format(s[1..], args))
  }

  /** A piece of a template: text copied as it is, or a named slot. */
  datatype Segment = Lit(text: string) | Slot(name: string)

  /** Slot names may not contain braces (Python could not write them). */
  ghost predicate WellFormed(segs: seq<Segment>)
  {
    forall i :: 0 <= i < |segs| && segs[i].Slot? ==>
      '{' !in segs[i].name && '}' !in segs[i].name
  }

  /** The slot names of a template, in order of appearance. */
  function Slots(segs: seq<Segment>): seq<string>
  {
    if segs == [] then []
    else (if segs[0].Slot? then [segs[0].name] else []) + Slots(segs[1..])
  }

  /** Substitutes every slot in one pass; the first slot without an argument
      is a KeyError. */
  function Render(segs: seq<Segment>, args: Args): Result<string, FormatError>
  {
    if segs == [] then Ok("")
    else
      match segs[0]
      case Lit(t) => Prepend(t, Render(segs[1..], args))
      case Slot(n) =>
        if n in args then Prepend(args[n], Render(segs[1..], args)) else Err(MissingKey(n))
  }

  /** Rendering succeeds exactly when every slot has an argument. */
  lemma {:induction false} RenderOkIff(segs: seq<Segment>, args: Args)
    ensures Render(segs, args).Ok? <==> forall n :: n in Slots(segs) ==> n in args
  {
    if segs != [] {
      RenderOkIff(segs[1..], args);
      assert Slots(segs) == (if segs[0].Slot? then [segs[0].name] else []) + Slots(segs[1..]);
    }
  }

  /** A literal followed by a slot: the slot's argument lands right after the text. */
  lemma RenderPair(t: string, n: string, rest: seq<Segment>, args: Args)
    ensures Slots([Lit(t), Slot(n)] + rest) == [n] + Slots(rest)
    ensures n in args ==>
              Render([Lit(t), Slot(n)] + rest, args) == Prepend(t + args[n], Render(rest, args))
    ensures n !in args ==> Render([Lit(t), Slot(n)] + rest, args) == Err(MissingKey(n))
    ensures WellFormed([Lit(t), Slot(n)] + rest) <==>
              '{' !in n && '}' !in n && WellFormed(rest)
  {
    var segs := [Lit(t), Slot(n)] + rest;
    assert segs[0] == Lit(t);
    assert segs[1..] == [Slot(n)] + rest;
    assert segs[1..][0] == Slot(n);
    assert segs[1..][1..] == rest;
    assert Slots(segs[1..]) == [n] + Slots(rest);
    if n in args {
      PrependTwice(t, args[n], Render(rest, args));
    }
    if '{' !in n && '}' !in n && WellFormed(rest) {
      forall i | 0 <= i < |segs| && segs[i].Slot?
        ensures '{' !in segs[i].name && '}' !in segs[i].name
      {
        if i >= 2 {
          assert segs[i] == rest[i - 2];
        }
      }
    }
    if WellFormed(segs) {
      assert segs[1] == Slot(n);
      forall i | 0 <= i < |rest| && rest[i].Slot?
        ensures '{' !in rest[i].name && '}' !in rest[i].name
      {
        assert rest[i] == segs[i + 2];
      }
    }
  }

  /** A template made of one literal renders as that literal and has no slot. */
  lemma RenderLit(t: string, args: Args)
    ensures Slots([Lit(t)]) == []
    ensures Render([Lit(t)], args) == Ok(t)
    ensures WellFormed([Lit(t)])
  {
    assert [Lit(t)][1..] == [];
    assert t + "" == t;
  }

  /** Literal text as it is written inside a format string: braces doubled. */
  function Escape(t: string): string
  {
    if t == [] then ""
    else (if t[0] == '{' then "{{" else if t[0] == '}' then "}}" else [t[0]]) + Escape(t[1..])
  }

  /** The format string that denotes a template. */
  function Source(segs: seq<Segment>): string
  {
    if segs == [] then ""
    else
      (match segs[0]
       case Lit(t) => Escape(t)
       case Slot(n) => "{" + n + "}")
      + Source(segs[1..])
  }

  /** One step of `Format` over a doubled brace or an ordinary character. */
  lemma FormatStep(c: char, tail: string, args: Args)
    ensures c == '{' ==> Format("{{" + tail, args) == Prepend("{", Format(tail, args))
    ensures c == '}' ==> Format("}}" + tail, args) == Prepend("}", Format(tail, args))
    ensures c != '{' && c != '}' ==> Format([c] + tail, args) == Prepend([c], Format(tail, args))
  {
    if c == '{' {
      var s := "{{" + tail;
      assert s[0] == '{' && s[1] == '{' && s[2..] == tail;
    } else if c == '}' {
      var s := "}}" + tail;
      assert s[0] == '}' && s[1] == '}' && s[2..] == tail;
    } else {
      var s := [c] + tail;
      assert s[0] == c && s[1..] == tail;
    }
  }

  /** Formatting escaped text yields the text itself, with no substitution. */
  lemma {:induction false} FormatEscaped(t: string, rest: string, args: Args)
    ensures Format(Escape(t) + rest, args) == Prepend(t, Format(rest, args))
  {
    if t == [] {
      assert Escape(t) + rest == rest;
      PrependTwice([], [], Format(rest, args));
    } else {
      var tail := Escape(t[1..]) + rest;
      var head := if t[0] == '{' then "{{" else if t[0] == '}' then "}}" else [t[0]];
      assert Escape(t) + rest == head + tail by {
        assert Escape(t) == head + Escape(t[1..]);
      }
      assert Format(head + tail, args) == Prepend([t[0]], Format(tail, args)) by {
        FormatStep(t[0], tail, args);
      }
      FormatEscaped(t[1..], rest, args);
      PrependTwice([t[0]], t[1..], Format(rest, args));
      assert [t[0]] + t[1..] == t;
    }
  }

  /** A field `{name}` formats as the argument for `name`, or raises KeyError. */
  lemma FormatField(name: string, rest: string, args: Args)
    requires '{' !in name && '}' !in name
    ensures Format("{" + name + "}" + rest, args) ==
              if name in args then Prepend(args[name], Format(rest, args))
              else Err(MissingKey(name))
  {
    var s := "{" + name + "}" + rest;
    assert s[1..] == name + "}" + rest;
    IndexAfter(name, '}', rest);
    var k := IndexOf(s[1..], '}');
    assert k == |name|;
    assert s[1..1 + k] == name;
    assert s[k + 2..] == rest;
    if name == [] {
      assert s[1] == '}';
    } else {
      assert s[1] == name[0];
    }
  }

  /** The first `c` in `a + [c] + b` is the one after `a` when `a` has none. */
  lemma {:induction false} IndexAfter(a: string, c: char, b: string)
    requires c !in a
    ensures IndexOf(a + [c] + b, c) == |a|
  {
    var s := a + [c] + b;
    if a != [] {
      assert s[0] == a[0] && s[1..] == a[1..] + [c] + b;
      IndexAfter(a[1..], c, b);
    }
  }

  /**
   * The format string of a template formats exactly as the template renders:
   * the escapes stand for single braces, each field is one slot, and an
   * argument's text is inserted as it is, never scanned again.
   */
  lemma {:induction false} FormatSource(segs: seq<Segment>, args: Args)
    requires WellFormed(segs)
    ensures Format(Source(segs), args) == Render(segs, args)
  {
    if segs != [] {
      var tail := Source(segs[1..]);
      assert WellFormed(segs[1..]) by {
        forall i | 0 <= i < |segs[1..]| && segs[1..][i].Slot?
          ensures '{' !in segs[1..][i].name && '}' !in segs[1..][i].name
        {
          assert segs[1..][i] == segs[i + 1];
        }
      }
      FormatSource(segs[1..], args);
      match segs[0]
      case Lit(t) =>
        FormatEscaped(t, tail, args);
      case Slot(n) =>
        FormatField(n, tail, args);
    }
  }
}
