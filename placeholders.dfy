/** Placeholder substitution (`Executor.RE_REPLACER` and the loops that use it).

    A template is scanned once, left to right, for `{expr}` matches of the
    pattern `\{([^}]+)\}`. Each match in turn is evaluated and every literal
    occurrence of its text in the string built so far is replaced by the
    value (`str.replace`). Evaluation is a lookup in a closed environment. */
module Placeholders {
  import opened Util

  /** What an identifier evaluates to: Python `None` or a string form. */
  datatype Value = NoneValue | Str(s: string)

  type Env = map<string, Value>

  /** `Evaluate`: command and output-name templates, where a missing name or
      a `None` value is an error. `Replace`: the error-message templates of
      a failed command, where only a missing name is an error and `None`
      prints as "None". */
  datatype Mode = Evaluate | Replace

  function Braced(body: string): string {
    "{" + body + "}"
  }

  /** What the group of a match can be: non-empty, no closing brace. */
  predicate MatchBody(b: string) {
    b != [] && '}' !in b
  }

  /** The groups of `RE_REPLACER.finditer(s)`, in order. A `{` opens a match
      when the first `}` after it is not the next character. */
  function FindMatches(s: string): (ms: seq<string>)
    ensures forall i :: 0 <= i < |ms| ==> MatchBody(ms[i])
    decreases |s|
  {
    if s == [] then []
    else if s[0] == '{' then
      var k := IndexOf(s, '}');
      if k < 0 then []
      else if k == 1 then FindMatches(s[1..])
      else [s[1..k]] + FindMatches(s[k + 1..])
    else FindMatches(s[1..])
  }

  /** `s.replace(pat, rep)`: leftmost, non-overlapping occurrences. */
  function ReplaceAll(s: string, pat: string, rep: string): string
    requires pat != []
    decreases |s|
  {
    if |s| < |pat| then s
    else if s[..|pat|] == pat then rep + ReplaceAll(s[|pat|..], pat, rep)
    else [s[0]] + ReplaceAll(s[1..], pat, rep)
  }

  /** `eval(expr)` for one match, restricted to a name lookup. */
  function Lookup(env: Env, body: string, mode: Mode): (r: Result<string>)
    ensures r.Err? <==> body !in env || (mode == Evaluate && env[body] == NoneValue)
    ensures r.Ok? && body in env && env[body].Str? ==> r.value == env[body].s
  {
    if body !in env then
      Err(if mode == Evaluate then CannotEvaluate(body) else CannotReplaceParameter(Braced(body)))
    else
      match env[body]
      case NoneValue => if mode == Evaluate then Err(EvaluatesToNone(body)) else Ok("None")
      case Str(v) => Ok(v)
  }

  /** The substitution loop, from the match at the head of `ms` on. */
  function Apply(s: string, ms: seq<string>, env: Env, mode: Mode): Result<string>
    requires forall i :: 0 <= i < |ms| ==> MatchBody(ms[i])
    decreases |ms|
  {
    if ms == [] then Ok(s)
    else
      match Lookup(env, ms[0], mode)
      case Err(e) => Err(e)
      case Ok(v) => Apply(ReplaceAll(s, Braced(ms[0]), v), ms[1..], env, mode)
  }

  /** The result of substituting every placeholder of `template`. */
  function Substitution(template: string, env: Env, mode: Mode): Result<string> {
    Apply(template, FindMatches(template), env, mode)
  }

  /** The loop of `_get_commands` (and of `_get_output_filename` and
      `_handle_command`): iterate over the matches of the original template,
      reassigning the working string. */
  method Substitute(template: string, env: Env, mode: Mode) returns (r: Result<string>)
    ensures r == Substitution(template, env, mode)
  {
    var ms := FindMatches(template);
    var s := template;
    var i := 0;
    while i < |ms|
      invariant 0 <= i <= |ms|
      invariant Apply(s, ms[i..], env, mode) == Substitution(template, env, mode)
    {
      var v := Lookup(env, ms[i], mode);
      if v.Err? {
        return Err(v.error);
      }
      s := ReplaceAll(s, Braced(ms[i]), v.value);
      assert ms[i..][1..] == ms[i + 1..];
      i := i + 1;
    }
    return Ok(s);
  }

  // ---------------------------------------------------------------------
  // A template with no opening brace has no match and comes back unchanged.

  lemma {:induction false} NoBraceNoMatch(s: string)
    requires '{' !in s
    ensures FindMatches(s) == []
    decreases |s|
  {
    if s != [] {
      assert '{' !in s[1..];
      NoBraceNoMatch(s[1..]);
    }
  }

  lemma NoBraceUnchanged(s: string, env: Env, mode: Mode)
    requires '{' !in s
    ensures Substitution(s, env, mode) == Ok(s)
  {
    NoBraceNoMatch(s);
  }

  // ---------------------------------------------------------------------
  // Failure: the loop fails exactly when some match cannot be looked up,
  // and then with the error of the first such match.

  lemma {:induction false} ApplyFails(s: string, ms: seq<string>, env: Env, mode: Mode)
    requires forall i :: 0 <= i < |ms| ==> MatchBody(ms[i])
    ensures Apply(s, ms, env, mode).Err? <==> exists i :: 0 <= i < |ms| && Lookup(env, ms[i], mode).Err?
    ensures Apply(s, ms, env, mode).Err? ==>
      exists i :: 0 <= i < |ms| && Lookup(env, ms[i], mode) == Err(Apply(s, ms, env, mode).error)
                && forall j :: 0 <= j < i ==> Lookup(env, ms[j], mode).Ok?
    decreases |ms|
  {
    if ms != [] {
      var l := Lookup(env, ms[0], mode);
      if l.Ok? {
        var tail := ms[1..];
        var t := ReplaceAll(s, Braced(ms[0]), l.value);
        ApplyFails(t, tail, env, mode);
        assert forall i :: 0 <= i < |tail| ==> tail[i] == ms[i + 1];
        if Apply(s, ms, env, mode).Err? {
          var i :| 0 <= i < |tail| && Lookup(env, tail[i], mode) == Err(Apply(t, tail, env, mode).error)
                   && forall j :: 0 <= j < i ==> Lookup(env, tail[j], mode).Ok?;
          assert Lookup(env, ms[i + 1], mode) == Err(Apply(s, ms, env, mode).error);
          forall j | 0 <= j < i + 1 ensures Lookup(env, ms[j], mode).Ok? {
            if j > 0 { assert ms[j] == tail[j - 1]; }
          }
        }
        if exists i :: 0 <= i < |ms| && Lookup(env, ms[i], mode).Err? {
          var i :| 0 <= i < |ms| && Lookup(env, ms[i], mode).Err?;
          if i > 0 { assert tail[i - 1] == ms[i]; }
        }
      }
    }
  }

  lemma SubstitutionFails(template: string, env: Env, mode: Mode)
    ensures var ms := FindMatches(template);
      Substitution(template, env, mode).Err? <==> exists i :: 0 <= i < |ms| && Lookup(env, ms[i], mode).Err?
    ensures var ms := FindMatches(template);
      Substitution(template, env, mode).Err? ==>
        exists i :: 0 <= i < |ms| && Lookup(env, ms[i], mode) == Err(Substitution(template, env, mode).error)
                  && forall j :: 0 <= j < i ==> Lookup(env, ms[j], mode).Ok?
  {
    assert Substitution(template, env, mode) == Apply(template, FindMatches(template), env, mode);
    ApplyFails(template, FindMatches(template), env, mode);
  }

  // ---------------------------------------------------------------------
  // Well-formed templates: literal text without `{` and placeholders whose
  // names hold no brace. For them, substitution puts each placeholder's
  // value in its place and leaves the literal text alone.

  datatype Piece = Lit(text: string) | Hole(name: string)

  function PieceText(p: Piece): string {
    match p
    case Lit(t) => t
    case Hole(n) => Braced(n)
  }

  function Flatten(ps: seq<Piece>): string {
    if ps == [] then "" else PieceText(ps[0]) + Flatten(ps[1..])
  }

  predicate ProperName(n: string) {
    n != [] && '{' !in n && '}' !in n
  }

  predicate WellFormed(ps: seq<Piece>) {
    forall i :: 0 <= i < |ps| ==>
      match ps[i]
      case Lit(t) => '{' !in t
      case Hole(n) => ProperName(n)
  }

  function Holes(ps: seq<Piece>): seq<string> {
    if ps == [] then []
    else (if ps[0].Hole? then [ps[0].name] else []) + Holes(ps[1..])
  }

  /** Every placeholder of `ps` has a value without `{`. */
  predicate Bound(ps: seq<Piece>, env: Env, mode: Mode) {
    forall i :: 0 <= i < |ps| && ps[i].Hole? ==>
      Lookup(env, ps[i].name, mode).Ok? && '{' !in Lookup(env, ps[i].name, mode).value
  }

  /** The intended reading of a template: each placeholder replaced by its value. */
  function Render(ps: seq<Piece>, env: Env, mode: Mode): string
    requires Bound(ps, env, mode)
  {
    if ps == [] then ""
    else
      (match ps[0]
       case Lit(t) => t
       case Hole(n) => Lookup(env, n, mode).value)
      + Render(ps[1..], env, mode)
  }

  function Fill(ps: seq<Piece>, m: string, v: string): seq<Piece> {
    if ps == [] then []
    else [if ps[0] == Hole(m) then Lit(v) else ps[0]] + Fill(ps[1..], m, v)
  }

  lemma {:induction false} MatchesSkipLiteral(t: string, rest: string)
    requires '{' !in t
    ensures FindMatches(t + rest) == FindMatches(rest)
    decreases |t|
  {
    if t != [] {
      assert (t + rest)[0] == t[0] && t[0] in t;
      assert (t + rest)[1..] == t[1..] + rest;
      assert '{' !in t[1..];
      MatchesSkipLiteral(t[1..], rest);
    } else {
      assert t + rest == rest;
    }
  }

  lemma MatchesOfHole(n: string, rest: string)
    requires ProperName(n)
    ensures FindMatches(Braced(n) + rest) == [n] + FindMatches(rest)
  {
    var s := Braced(n) + rest;
    assert s[0] == '{' && s[|n| + 1] == '}';
    assert forall j :: 0 <= j < |n| + 1 ==> s[j] != '}' by {
      forall j | 0 <= j < |n| + 1 ensures s[j] != '}' {
        if j > 0 { assert s[j] == n[j - 1]; }
      }
    }
    var k := IndexOf(s, '}');
    assert k == |n| + 1;
    assert s[1..k] == n;
    assert s[k + 1..] == rest;
    assert FindMatches(s) == [s[1..k]] + FindMatches(s[k + 1..]);
  }

  lemma {:induction false} MatchesOfFlatten(ps: seq<Piece>)
    requires WellFormed(ps)
    ensures FindMatches(Flatten(ps)) == Holes(ps)
  {
    if ps != [] {
      assert WellFormed(ps[1..]) by {
        forall i | 0 <= i < |ps[1..]| ensures ps[1..][i] == ps[i + 1] { }
      }
      MatchesOfFlatten(ps[1..]);
      match ps[0]
      case Lit(t) => MatchesSkipLiteral(t, Flatten(ps[1..]));
      case Hole(n) => MatchesOfHole(n, Flatten(ps[1..]));
    }
  }

  lemma {:induction false} ReplaceSkipsLiteral(t: string, rest: string, pat: string, rep: string)
    requires pat != [] && pat[0] == '{' && '{' !in t
    ensures ReplaceAll(t + rest, pat, rep) == t + ReplaceAll(rest, pat, rep)
    decreases |t|
  {
    if t != [] {
      var s := t + rest;
      assert t[0] in t;
      assert s[0] == t[0] != '{';
      assert s[1..] == t[1..] + rest;
      assert '{' !in t[1..];
      ReplaceSkipsLiteral(t[1..], rest, pat, rep);
      if |s| < |pat| {
        assert |rest| < |pat|;
        assert ReplaceAll(rest, pat, rep) == rest;
      } else {
        assert s[..|pat|][0] != pat[0];
        assert ReplaceAll(s, pat, rep) == [s[0]] + ReplaceAll(s[1..], pat, rep);
        assert [t[0]] + t[1..] == t;
      }
    } else {
      assert t + rest == rest;
    }
  }

  /** A braced name is not a prefix of a different braced name. */
  lemma BracedMismatch(g: string, rest: string, m: string)
    requires ProperName(g) && ProperName(m) && g != m
    ensures var s := Braced(g) + rest;
      |s| < |Braced(m)| || s[..|Braced(m)|] != Braced(m)
  {
    var s := Braced(g) + rest;
    var pat := Braced(m);
    if |s| >= |pat| {
      if |g| < |m| {
        assert s[|g| + 1] == '}';
        assert pat[|g| + 1] == m[|g|];
        assert m[|g|] in m;
        assert s[..|pat|][|g| + 1] != pat[|g| + 1];
      } else if |g| > |m| {
        assert pat[|m| + 1] == '}';
        assert s[|m| + 1] == g[|m|];
        assert g[|m|] in g;
        assert s[..|pat|][|m| + 1] != pat[|m| + 1];
      } else {
        var k :| 0 <= k < |g| && g[k] != m[k];
        assert s[k + 1] == g[k] && pat[k + 1] == m[k];
        assert s[..|pat|][k + 1] != pat[k + 1];
      }
    }
  }

  lemma ReplaceAtHole(g: string, rest: string, m: string, v: string)
    requires ProperName(g) && ProperName(m)
    ensures ReplaceAll(Braced(g) + rest, Braced(m), v)
         == (if g == m then v else Braced(g)) + ReplaceAll(rest, Braced(m), v)
  {
    var s := Braced(g) + rest;
    var pat := Braced(m);
    if g == m {
      assert s[..|pat|] == pat && s[|pat|..] == rest;
    } else {
      BracedMismatch(g, rest, m);
      assert ReplaceAll(s, pat, v) == [s[0]] + ReplaceAll(s[1..], pat, v);
      assert s[1..] == g + "}" + rest;
      assert '{' !in g + "}";
      ReplaceSkipsLiteral(g + "}", rest, pat, v);
      assert [s[0]] + (g + "}") == Braced(g);
    }
  }

  lemma {:induction false} ReplaceInFlatten(ps: seq<Piece>, m: string, v: string)
    requires WellFormed(ps) && ProperName(m) && '{' !in v
    ensures ReplaceAll(Flatten(ps), Braced(m), v) == Flatten(Fill(ps, m, v))
  {
    if ps != [] {
      assert WellFormed(ps[1..]) by {
        forall i | 0 <= i < |ps[1..]| ensures ps[1..][i] == ps[i + 1] { }
      }
      ReplaceInFlatten(ps[1..], m, v);
      match ps[0]
      case Lit(t) => ReplaceSkipsLiteral(t, Flatten(ps[1..]), Braced(m), v);
      case Hole(g) => ReplaceAtHole(g, Flatten(ps[1..]), m, v);
    }
  }

  lemma {:induction false} FillKeepsShape(ps: seq<Piece>, m: string, v: string)
    requires WellFormed(ps) && '{' !in v
    ensures |Fill(ps, m, v)| == |ps|
    ensures WellFormed(Fill(ps, m, v))
    ensures forall i :: 0 <= i < |ps| ==> Fill(ps, m, v)[i] == if ps[i] == Hole(m) then Lit(v) else ps[i]
  {
    if ps != [] {
      assert WellFormed(ps[1..]) by {
        forall i | 0 <= i < |ps[1..]| ensures ps[1..][i] == ps[i + 1] { }
      }
      FillKeepsShape(ps[1..], m, v);
    }
  }

  lemma {:induction false} RenderFill(ps: seq<Piece>, m: string, env: Env, mode: Mode)
    requires Bound(ps, env, mode) && Lookup(env, m, mode).Ok? && '{' !in Lookup(env, m, mode).value
    ensures Bound(Fill(ps, m, Lookup(env, m, mode).value), env, mode)
    ensures Render(Fill(ps, m, Lookup(env, m, mode).value), env, mode) == Render(ps, env, mode)
  {
    var v := Lookup(env, m, mode).value;
    if ps != [] {
      assert Bound(ps[1..], env, mode) by {
        forall i | 0 <= i < |ps[1..]| ensures ps[1..][i] == ps[i + 1] { }
      }
      RenderFill(ps[1..], m, env, mode);
      var f := Fill(ps, m, v);
      assert f[1..] == Fill(ps[1..], m, v);
      assert Bound(f, env, mode) by {
        forall i | 0 <= i < |f| && f[i].Hole? ensures Lookup(env, f[i].name, mode).Ok? && '{' !in Lookup(env, f[i].name, mode).value {
          if i > 0 { assert f[i] == f[1..][i - 1]; }
        }
      }
    }
  }

  lemma {:induction false} RenderWithoutHoles(ps: seq<Piece>, env: Env, mode: Mode)
    requires forall i :: 0 <= i < |ps| ==> ps[i].Lit?
    ensures Bound(ps, env, mode) && Render(ps, env, mode) == Flatten(ps)
  {
    if ps != [] {
      RenderWithoutHoles(ps[1..], env, mode);
    }
  }

  lemma {:induction false} ApplyWellFormed(ps: seq<Piece>, ms: seq<string>, env: Env, mode: Mode)
    requires WellFormed(ps) && Bound(ps, env, mode)
    requires forall i :: 0 <= i < |ms| ==> ProperName(ms[i])
    requires forall i :: 0 <= i < |ms| ==> Lookup(env, ms[i], mode).Ok? && '{' !in Lookup(env, ms[i], mode).value
    requires forall i :: 0 <= i < |ps| && ps[i].Hole? ==> ps[i].name in ms
    ensures forall i :: 0 <= i < |ms| ==> MatchBody(ms[i])
    ensures Apply(Flatten(ps), ms, env, mode) == Ok(Render(ps, env, mode))
    decreases |ms|
  {
    if ms == [] {
      RenderWithoutHoles(ps, env, mode);
    } else {
      var m := ms[0];
      var v := Lookup(env, m, mode).value;
      ReplaceInFlatten(ps, m, v);
      FillKeepsShape(ps, m, v);
      RenderFill(ps, m, env, mode);
      var f := Fill(ps, m, v);
      forall i | 0 <= i < |f| && f[i].Hole? ensures f[i].name in ms[1..] {
        assert ps[i].Hole? && ps[i].name != m && ps[i].name in ms;
      }
      ApplyWellFormed(f, ms[1..], env, mode);
    }
  }

  lemma {:induction false} HolesAreNames(ps: seq<Piece>)
    requires WellFormed(ps)
    ensures forall i :: 0 <= i < |Holes(ps)| ==> ProperName(Holes(ps)[i])
    ensures forall i :: 0 <= i < |ps| && ps[i].Hole? ==> ps[i].name in Holes(ps)
    ensures forall n :: n in Holes(ps) ==> exists i :: 0 <= i < |ps| && ps[i] == Hole(n)
  {
    if ps != [] {
      assert WellFormed(ps[1..]) by {
        forall i | 0 <= i < |ps[1..]| ensures ps[1..][i] == ps[i + 1] { }
      }
      HolesAreNames(ps[1..]);
      forall i | 0 < i < |ps| && ps[i].Hole? ensures ps[i].name in Holes(ps) {
        assert ps[1..][i - 1] == ps[i];
      }
      forall n | n in Holes(ps) ensures exists i :: 0 <= i < |ps| && ps[i] == Hole(n) {
        if !(ps[0].Hole? && n == ps[0].name) {
          assert n in Holes(ps[1..]);
          var j :| 0 <= j < |ps[1..]| && ps[1..][j] == Hole(n);
          assert ps[j + 1] == Hole(n);
        }
      }
    }
  }

  /** Substituting a well-formed template whose placeholders all have values
      without `{` yields exactly the rendered template. */
  lemma SubstitutionRenders(ps: seq<Piece>, env: Env, mode: Mode)
    requires WellFormed(ps) && Bound(ps, env, mode)
    ensures Substitution(Flatten(ps), env, mode) == Ok(Render(ps, env, mode))
  {
    MatchesOfFlatten(ps);
    HolesAreNames(ps);
    var hs := Holes(ps);
    forall i | 0 <= i < |hs| ensures Lookup(env, hs[i], mode).Ok? && '{' !in Lookup(env, hs[i], mode).value {
      assert hs[i] in hs;
      var j :| 0 <= j < |ps| && ps[j] == Hole(hs[i]);
    }
    ApplyWellFormed(ps, hs, env, mode);
  }
}
