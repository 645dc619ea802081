/**
 * Python's `str.format` restricted to keyword replacement fields, which is
 * all the endpoint templates use. The template is read left to right and
 * the first problem met is the one reported, as CPython does.
 */
module StrFormat {
  import opened Wrappers
  import opened Text

  datatype FormatError =
    | MissingKey(name: string)      // KeyError: no keyword argument of that name
    | PositionalField               // IndexError: "{}" or "{0}" with no positional arguments
    | SingleClose                   // ValueError: a '}' that is not doubled and closes nothing
    | UnclosedField                 // ValueError: a '{' with no '}' after it
    | UnsupportedField(name: string) // attribute, index, conversion or format spec; not modelled

  predicate BraceFree(s: string) {
    '{' !in s && '}' !in s
  }

  predicate IsDigitChar(c: char) { '0' <= c <= '9' }

  predicate AllDigits(s: string) {
    forall i :: 0 <= i < |s| ==> IsDigitChar(s[i])
  }

  /** A field name that `str.format` looks up in its keyword arguments as it stands. */
  predicate KeywordName(name: string) {
    |name| > 0 && !AllDigits(name) && BraceFree(name)
    && ':' !in name && '!' !in name && '.' !in name && '[' !in name
  }

  /** Index of the first `c` in `s`, or `|s|` when there is none. */
  function FirstIndex(s: string, c: char): (i: nat)
    ensures i <= |s|
    ensures i < |s| ==> s[i] == c
    ensures c !in s[..i]
  {
    if |s| == 0 || s[0] == c then 0
    else
      var j := FirstIndex(s[1..], c);
      assert s[..1 + j] == [s[0]] + s[1..][..j];
      1 + j
  }

  function Prepend(p: string, r: Result<string, FormatError>): Result<string, FormatError> {
    if r.Success? then Success(p + r.value) else r
  }

  lemma PrependTwice(a: string, b: string, r: Result<string, FormatError>)
    ensures Prepend(a, Prepend(b, r)) == Prepend(a + b, r)
  {
    if r.Success? {
      assert a + (b + r.value) == a + b + r.value;
    }
  }

  lemma PrependNothing(r: Result<string, FormatError>)
    ensures Prepend("", r) == r
  {
    if r.Success? {
      assert "" + r.value == r.value;
    }
  }

  /** `t.format(**kw)` */
  function Format(t: string, kw: map<string, string>): Result<string, FormatError>
    decreases |t|, 1
  {
    if |t| == 0 then Success("")
    else if t[0] == '{' then
      if |t| > 1 && t[1] == '{' then Prepend("{", Format(t[2..], kw))
      else FormatField(t[1..], kw)
    else if t[0] == '}' then
      if |t| > 1 && t[1] == '}' then Prepend("}", Format(t[2..], kw))
      else Failure(SingleClose)
    else Prepend([t[0]], Format(t[1..], kw))
  }

  /** The text after an opening brace: a field name, its closing brace, then more template. */
  function FormatField(u: string, kw: map<string, string>): Result<string, FormatError>
    decreases |u|, 0
  {
    var k := FirstIndex(u, '}');
    if k == |u| then Failure(UnclosedField)
    else
      var name := u[..k];
      if name == "" || AllDigits(name) then Failure(PositionalField)
      else if !KeywordName(name) then Failure(UnsupportedField(name))
      else if name !in kw then Failure(MissingKey(name))
      else Prepend(kw[name], Format(u[k + 1..], kw))
  }

  /** A template without braces formats to itself, whatever the arguments. */
  lemma {:induction false} FormatBraceFree(t: string, kw: map<string, string>)
    requires BraceFree(t)
    ensures Format(t, kw) == Success(t)
    decreases |t|
  {
    if |t| > 0 {
      assert BraceFree(t[1..]);
      FormatBraceFree(t[1..], kw);
      assert [t[0]] + t[1..] == t;
    }
  }

  /** Brace-free text in front of a template is copied through unchanged. */
  lemma {:induction false} FormatPlainPrefix(a: string, t: string, kw: map<string, string>)
    requires BraceFree(a)
    ensures Format(a + t, kw) == Prepend(a, Format(t, kw))
    decreases |a|
  {
    if |a| > 0 {
      assert (a + t)[1..] == a[1..] + t;
      assert BraceFree(a[1..]);
      FormatPlainPrefix(a[1..], t, kw);
      assert [a[0]] + (a[1..] + t) == a + t;
      assert [a[0]] + a[1..] == a;
      PrependTwice([a[0]], a[1..], Format(t, kw));
    } else {
      assert a + t == t;
      PrependNothing(Format(t, kw));
    }
  }

  /** A keyword field at the front is replaced by its value, or is the error reported. */
  lemma FormatFieldFront(name: string, rest: string, kw: map<string, string>)
    requires KeywordName(name)
    ensures name in kw ==> Format("{" + name + "}" + rest, kw) == Prepend(kw[name], Format(rest, kw))
    ensures name !in kw ==> Format("{" + name + "}" + rest, kw) == Failure(MissingKey(name))
  {
    var t := "{" + name + "}" + rest;
    var u := name + "}" + rest;
    assert t[0] == '{' && t[1..] == u;
    assert t[1] == name[0];
    assert u[|name|] == '}';
    var k := FirstIndex(u, '}');
    assert u[..|name|] == name;
    assert k == |name|;
    assert u[..k] == name && u[k + 1..] == rest;
  }

  /** A template written as pieces: literal text and keyword fields. */
  datatype Piece = Lit(text: string) | Field(name: string)

  /** The literal text with its braces doubled, as a template author writes it. */
  function Escape(s: string): (r: string)
    ensures |r| >= |s|
  {
    if |s| == 0 then ""
    else if s[0] == '{' || s[0] == '}' then [s[0], s[0]] + Escape(s[1..])
    else [s[0]] + Escape(s[1..])
  }

  /** The template text of a sequence of pieces. */
  function Print(ps: seq<Piece>): string {
    if |ps| == 0 then ""
    else match ps[0]
      case Lit(s) => Escape(s) + Print(ps[1..])
      case Field(n) => "{" + n + "}" + Print(ps[1..])
  }

  /**
   * The reference meaning of a template: literal text as is, each field by
   * its keyword value, and the first field without one is the error.
   */
  function Render(ps: seq<Piece>, kw: map<string, string>): (r: Result<string, FormatError>)
    ensures r.Failure? ==> r.error.MissingKey?
  {
    if |ps| == 0 then Success("")
    else match ps[0]
      case Lit(s) => Prepend(s, Render(ps[1..], kw))
      case Field(n) => if n in kw then Prepend(kw[n], Render(ps[1..], kw)) else Failure(MissingKey(n))
  }

  predicate KeywordFields(ps: seq<Piece>) {
    forall i :: 0 <= i < |ps| && ps[i].Field? ==> KeywordName(ps[i].name)
  }

  /** Escaped literal text formats back to the text itself. */
  lemma {:induction false} FormatEscaped(s: string, t: string, kw: map<string, string>)
    ensures Format(Escape(s) + t, kw) == Prepend(s, Format(t, kw))
    decreases |s|
  {
    if |s| > 0 {
      FormatEscaped(s[1..], t, kw);
      var e := Escape(s[1..]) + t;
      if s[0] == '{' || s[0] == '}' {
        assert Escape(s) + t == [s[0], s[0]] + e;
        assert ([s[0], s[0]] + e)[2..] == e;
      } else {
        assert Escape(s) + t == [s[0]] + e;
        assert ([s[0]] + e)[1..] == e;
      }
      assert [s[0]] + s[1..] == s;
      PrependTwice([s[0]], s[1..], Format(t, kw));
    } else {
      assert Escape(s) + t == t;
      PrependNothing(Format(t, kw));
    }
  }

  /** Formatting the printed template computes exactly the reference meaning. */
  lemma {:induction false} FormatPrint(ps: seq<Piece>, kw: map<string, string>)
    requires KeywordFields(ps)
    ensures Format(Print(ps), kw) == Render(ps, kw)
    decreases |ps|
  {
    if |ps| > 0 {
      assert KeywordFields(ps[1..]) by {
        forall i | 0 <= i < |ps[1..]| && ps[1..][i].Field?
          ensures KeywordName(ps[1..][i].name)
        {
          assert ps[1..][i] == ps[i + 1];
        }
      }
      FormatPrint(ps[1..], kw);
      match ps[0]
      case Lit(s) =>
        FormatEscaped(s, Print(ps[1..]), kw);
      case Field(n) =>
        FormatFieldFront(n, Print(ps[1..]), kw);
    }
  }

  /** A template that uses no `{{` or `}}` escape. */
  predicate NoEscapes(t: string) {
    forall i :: 0 <= i < |t| - 1 ==> !(t[i] == '{' && t[i + 1] == '{') && !(t[i] == '}' && t[i + 1] == '}')
  }

  predicate ValuesBraceFree(kw: map<string, string>) {
    forall k :: k in kw ==> BraceFree(kw[k])
  }

  /**
   * A successful format of a template without escapes, with brace-free
   * values, leaves no brace behind: nothing is left to substitute.
   */
  lemma {:induction false} FormatLeavesNoBraces(t: string, kw: map<string, string>)
    requires NoEscapes(t) && ValuesBraceFree(kw)
    requires Format(t, kw).Success?
    ensures BraceFree(Format(t, kw).value)
    decreases |t|
  {
    if |t| > 0 {
      if t[0] == '{' {
        assert !(|t| > 1 && t[1] == '{');
        var u := t[1..];
        var k := FirstIndex(u, '}');
        var rest := u[k + 1..];
        assert NoEscapes(rest) by {
          forall i | 0 <= i < |rest| - 1
            ensures !(rest[i] == '{' && rest[i + 1] == '{') && !(rest[i] == '}' && rest[i + 1] == '}')
          {
            assert rest[i] == t[i + k + 2] && rest[i + 1] == t[i + k + 3];
          }
        }
        FormatLeavesNoBraces(rest, kw);
      } else {
        assert t[0] != '}';
        assert NoEscapes(t[1..]) by {
          forall i | 0 <= i < |t[1..]| - 1
            ensures !(t[1..][i] == '{' && t[1..][i + 1] == '{') && !(t[1..][i] == '}' && t[1..][i + 1] == '}')
          {
            assert t[1..][i] == t[i + 1] && t[1..][i + 1] == t[i + 2];
          }
        }
        FormatLeavesNoBraces(t[1..], kw);
      }
    }
  }

  /** Keyword arguments the template does not name make no difference. */
  lemma {:induction false} FormatIgnoresExtraArguments(t: string, kw: map<string, string>, more: map<string, string>)
    requires Format(t, kw).Success?
    requires forall k :: k in kw ==> k in more && more[k] == kw[k]
    ensures Format(t, more) == Format(t, kw)
    decreases |t|
  {
    if |t| > 0 {
      if t[0] == '{' {
        if |t| > 1 && t[1] == '{' {
          FormatIgnoresExtraArguments(t[2..], kw, more);
        } else {
          var u := t[1..];
          var k := FirstIndex(u, '}');
          FormatIgnoresExtraArguments(u[k + 1..], kw, more);
        }
      } else if t[0] == '}' {
        FormatIgnoresExtraArguments(t[2..], kw, more);
      } else {
        FormatIgnoresExtraArguments(t[1..], kw, more);
      }
    }
  }

  /** Text without braces is its own escape. */
  lemma {:induction false} EscapeBraceFree(s: string)
    requires BraceFree(s)
    ensures Escape(s) == s
    decreases |s|
  {
    if |s| > 0 {
      assert BraceFree(s[1..]);
      EscapeBraceFree(s[1..]);
      assert [s[0]] + s[1..] == s;
    }
  }

  predicate LiteralsBraceFree(ps: seq<Piece>) {
    forall i :: 0 <= i < |ps| && ps[i].Lit? ==> BraceFree(ps[i].text)
  }

  /** With brace-free literal text and values, the rendered text has no brace left. */
  lemma {:induction false} RenderBraceFree(ps: seq<Piece>, kw: map<string, string>)
    requires LiteralsBraceFree(ps) && ValuesBraceFree(kw)
    requires Render(ps, kw).Success?
    ensures BraceFree(Render(ps, kw).value)
    decreases |ps|
  {
    if |ps| > 0 {
      assert LiteralsBraceFree(ps[1..]) by {
        forall i | 0 <= i < |ps[1..]| && ps[1..][i].Lit?
          ensures BraceFree(ps[1..][i].text)
        {
          assert ps[1..][i] == ps[i + 1];
        }
      }
      RenderBraceFree(ps[1..], kw);
    }
  }
}
