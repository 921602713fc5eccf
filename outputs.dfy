/** Output names of a step (`_get_output_filename`) and their bookkeeping
    (`_handle_output_filename`): the names are made absolute and appended,
    organism by organism, to the step's output map, `.bam` names also to
    the step's bam map. */
module Outputs {
  import opened Util
  import opened Files
  import opened Placeholders

  /** What `_get_output_filename` returns: `None`, one `str` or a list. */
  datatype OutputName = NoOutput | OneName(name: string) | NameList(names: seq<string>)

  /** The names an output value stands for. */
  function Names(o: OutputName): seq<string> {
    match o
    case NoOutput => []
    case OneName(n) => [n]
    case NameList(ns) => ns
  }

  /** `if output_filename:` */
  predicate Truthy(o: OutputName) {
    match o
    case NoOutput => false
    case OneName(n) => n != ""
    case NameList(ns) => ns != []
  }

  /** A list of exactly one name is returned as that name. */
  function AsOutput(ns: seq<string>): (o: OutputName)
    ensures Names(o) == ns
    ensures o.OneName? <==> |ns| == 1
    ensures !o.NoOutput?
  {
    if |ns| == 1 then OneName(ns[0]) else NameList(ns)
  }

  /** An element of `output_format`: a template, or a callable that makes a
      name from the step's parameters. */
  datatype FormatItem = Template(text: string) | Computed(make: Env -> string)

  /** `output_function`: the names made from one name, or `None` where the
      callable raises. */
  type OutputFunction = string -> Option<seq<string>>

  /** `output_format` (a single template is a list of one), `output_path`
      and `output_function`. */
  datatype OutputSpec = OutputSpec(
    format: Option<seq<FormatItem>>,
    path: Option<string>,
    outputFunction: Option<OutputFunction>)

  function Formats(items: seq<FormatItem>, env: Env): (fs: seq<string>)
    ensures |fs| == |items|
  {
    seq(|items|, i requires 0 <= i < |items| =>
      match items[i]
      case Template(t) => t
      case Computed(make) => make(env))
  }

  function WithPath(fs: seq<string>, path: Option<string>): (r: seq<string>)
    ensures |r| == |fs|
  {
    match path
    case None => fs
    case Some(p) => seq(|fs|, i requires 0 <= i < |fs| => Join(p, fs[i]))
  }

  /** Substitute every template in turn; the first failure aborts. */
  function SubstituteAll(fs: seq<string>, env: Env): Result<seq<string>> {
    if fs == [] then Ok([])
    else match Substitution(fs[0], env, Evaluate)
      case Err(e) => Err(e)
      case Ok(s) =>
        match SubstituteAll(fs[1..], env)
        case Err(e) => Err(e)
        case Ok(rest) => Ok([s] + rest)
  }

  /** `[name for names in map(f, ns) for name in names]` */
  function FlatMap(ns: seq<string>, f: OutputFunction): Result<seq<string>> {
    if ns == [] then Ok([])
    else match f(ns[0])
      case None => Err(OutputFunctionFailed(ns[0]))
      case Some(first) =>
        match FlatMap(ns[1..], f)
        case Err(e) => Err(e)
        case Ok(rest) => Ok(first + rest)
  }

  /** `_get_output_filename`. `inputs` are the names of the unit's files. */
  function OutputFilename(spec: OutputSpec, env: Env, inputs: seq<string>): Result<OutputName> {
    match spec.format
    case Some(items) =>
      (match SubstituteAll(WithPath(Formats(items, env), spec.path), env)
       case Err(e) => Err(e)
       case Ok(names) =>
         match spec.outputFunction
         case None => Ok(AsOutput(names))
         case Some(f) =>
           match FlatMap(names, f)
           case Err(e) => Err(e)
           case Ok(out) => Ok(AsOutput(out)))
    case None =>
      match spec.outputFunction
      case None => Ok(NoOutput)
      case Some(f) =>
        match FlatMap(inputs, f)
        case Err(e) => Err(e)
        case Ok(out) => Ok(AsOutput(out))
  }

  /** The flat map of `_get_output_filename`, as its loop. */
  method ApplyOutputFunction(ns: seq<string>, f: OutputFunction) returns (r: Result<seq<string>>)
    ensures r == FlatMap(ns, f)
  {
    var out: seq<string> := [];
    var i := 0;
    while i < |ns|
      invariant 0 <= i <= |ns|
      invariant FlatMap(ns[..i], f) == Ok(out)
    {
      var made := f(ns[i]);
      FlatMapAppend(ns[..i], ns[i..], f);
      assert ns[..i] + ns[i..] == ns;
      if made.None? {
        return Err(OutputFunctionFailed(ns[i]));
      }
      FlatMapAppend(ns[..i], [ns[i]], f);
      assert ns[..i] + [ns[i]] == ns[..i + 1];
      assert [ns[i]][1..] == [];
      assert made.value + [] == made.value;
      assert FlatMap([ns[i]], f) == Ok(made.value);
      out := out + made.value;
      i := i + 1;
    }
    assert ns[..i] == ns;
    return Ok(out);
  }

  /** Substituting the templates up to `i` and then template `i`: a
      template that fails fails the whole list. */
  lemma SubstituteAllAt(fs: seq<string>, i: int, env: Env)
    requires 0 <= i < |fs|
    requires SubstituteAll(fs[..i], env).Ok?
    ensures Substitution(fs[i], env, Evaluate).Err? ==>
      SubstituteAll(fs, env) == Err(Substitution(fs[i], env, Evaluate).error)
    ensures Substitution(fs[i], env, Evaluate).Ok? ==>
      SubstituteAll(fs[..i + 1], env)
      == Ok(SubstituteAll(fs[..i], env).value + [Substitution(fs[i], env, Evaluate).value])
  {
    SubstituteAllAppend(fs[..i], fs[i..], env);
    assert fs[..i] + fs[i..] == fs;
    SubstituteAllAppend(fs[..i], [fs[i]], env);
    assert [fs[i]][1..] == [];
    assert fs[..i] + [fs[i]] == fs[..i + 1];
    var s := Substitution(fs[i], env, Evaluate);
    if s.Ok? {
      assert SubstituteAll([fs[i]], env) == Ok([s.value] + []);
      assert [s.value] + [] == [s.value];
    }
  }

  /** `_get_output_filename` with its loops: evaluate the formats, join the
      output path, substitute each name, then apply the output function. */
  method GetOutputFilename(spec: OutputSpec, env: Env, inputs: seq<string>) returns (r: Result<OutputName>)
    ensures r == OutputFilename(spec, env, inputs)
  {
    if spec.format.None? {
      if spec.outputFunction.None? {
        return Ok(NoOutput);
      }
      var out := ApplyOutputFunction(inputs, spec.outputFunction.value);
      if out.Err? {
        return Err(out.error);
      }
      return Ok(AsOutput(out.value));
    }
    var formats := WithPath(Formats(spec.format.value, env), spec.path);
    var names: seq<string> := [];
    var i := 0;
    while i < |formats|
      invariant 0 <= i <= |formats|
      invariant SubstituteAll(formats[..i], env) == Ok(names)
    {
      var s := Substitute(formats[i], env, Evaluate);
      SubstituteAllAt(formats, i, env);
      if s.Err? {
        return Err(s.error);
      }
      names := names + [s.value];
      i := i + 1;
    }
    assert formats[..i] == formats;
    if spec.outputFunction.None? {
      return Ok(AsOutput(names));
    }
    var out := ApplyOutputFunction(names, spec.outputFunction.value);
    if out.Err? {
      return Err(out.error);
    }
    return Ok(AsOutput(out.value));
  }

  // ---------------------------------------------------------------------
  // Properties of the output names.

  /** Substituting a list of templates succeeds exactly when every template
      substitutes, and then yields the substituted templates in order. */
  lemma {:induction false} SubstituteAllSpec(fs: seq<string>, env: Env)
    ensures SubstituteAll(fs, env).Ok? <==> forall i :: 0 <= i < |fs| ==> Substitution(fs[i], env, Evaluate).Ok?
    ensures SubstituteAll(fs, env).Ok? ==>
      |SubstituteAll(fs, env).value| == |fs|
      && forall i :: 0 <= i < |fs| ==> SubstituteAll(fs, env).value[i] == Substitution(fs[i], env, Evaluate).value
  {
    if fs != [] {
      SubstituteAllSpec(fs[1..], env);
      assert forall i :: 0 < i < |fs| ==> fs[1..][i - 1] == fs[i];
    }
  }

  /** Substitution of a list distributes over concatenation of the list. */
  lemma {:induction false} SubstituteAllAppend(a: seq<string>, b: seq<string>, env: Env)
    ensures SubstituteAll(a + b, env) ==
      match SubstituteAll(a, env)
      case Err(e) => Err(e)
      case Ok(x) =>
        match SubstituteAll(b, env)
        case Err(e) => Err(e)
        case Ok(y) => Ok(x + y)
  {
    if a == [] {
      assert a + b == b;
      if SubstituteAll(b, env).Ok? {
        assert [] + SubstituteAll(b, env).value == SubstituteAll(b, env).value;
      }
    } else {
      assert (a + b)[1..] == a[1..] + b;
      SubstituteAllAppend(a[1..], b, env);
      if Substitution(a[0], env, Evaluate).Ok? && SubstituteAll(a[1..], env).Ok? && SubstituteAll(b, env).Ok? {
        var h := [Substitution(a[0], env, Evaluate).value];
        assert h + (SubstituteAll(a[1..], env).value + SubstituteAll(b, env).value)
            == (h + SubstituteAll(a[1..], env).value) + SubstituteAll(b, env).value;
      }
    }
  }

  /** The output function distributes over concatenation of its inputs. */
  lemma {:induction false} FlatMapAppend(a: seq<string>, b: seq<string>, f: OutputFunction)
    ensures FlatMap(a + b, f) ==
      match FlatMap(a, f)
      case Err(e) => Err(e)
      case Ok(x) =>
        match FlatMap(b, f)
        case Err(e) => Err(e)
        case Ok(y) => Ok(x + y)
  {
    if a == [] {
      assert a + b == b;
      if FlatMap(b, f).Ok? {
        assert [] + FlatMap(b, f).value == FlatMap(b, f).value;
      }
    } else {
      assert (a + b)[1..] == a[1..] + b;
      FlatMapAppend(a[1..], b, f);
      if f(a[0]).Some? && FlatMap(a[1..], f).Ok? && FlatMap(b, f).Ok? {
        assert f(a[0]).value + (FlatMap(a[1..], f).value + FlatMap(b, f).value)
            == (f(a[0]).value + FlatMap(a[1..], f).value) + FlatMap(b, f).value;
      }
    }
  }

  /** The output function fails exactly when it fails on some name, and the
      error names the first such name. */
  lemma {:induction false} FlatMapFails(ns: seq<string>, f: OutputFunction)
    ensures FlatMap(ns, f).Err? <==> exists i :: 0 <= i < |ns| && f(ns[i]).None?
    ensures FlatMap(ns, f).Err? ==>
      exists i :: 0 <= i < |ns| && f(ns[i]).None? && FlatMap(ns, f).error == OutputFunctionFailed(ns[i])
                && forall j :: 0 <= j < i ==> f(ns[j]).Some?
  {
    if ns != [] {
      FlatMapFails(ns[1..], f);
      assert forall i :: 0 < i < |ns| ==> ns[1..][i - 1] == ns[i];
      if f(ns[0]).Some? && FlatMap(ns, f).Err? {
        var i :| 0 <= i < |ns[1..]| && f(ns[1..][i]).None? && FlatMap(ns[1..], f).error == OutputFunctionFailed(ns[1..][i])
                 && forall j :: 0 <= j < i ==> f(ns[1..][j]).Some?;
        assert ns[i + 1] == ns[1..][i];
        assert forall j :: 0 < j < i + 1 ==> ns[j] == ns[1..][j - 1];
      }
    }
  }

  /** The output function applied to one name at a time yields, for a
      function making one name from each, a list as long as its input. */
  lemma {:induction false} FlatMapOneEach(ns: seq<string>, f: OutputFunction)
    requires forall i :: 0 <= i < |ns| ==> f(ns[i]).Some? && |f(ns[i]).value| == 1
    ensures FlatMap(ns, f).Ok?
    ensures |FlatMap(ns, f).value| == |ns|
    ensures forall i :: 0 <= i < |ns| ==> FlatMap(ns, f).value[i] == f(ns[i]).value[0]
  {
    if ns != [] {
      assert forall i :: 0 < i < |ns| ==> ns[1..][i - 1] == ns[i];
      FlatMapOneEach(ns[1..], f);
    }
  }

  /** Without format and function there is no output name; without a
      format, the function is applied to the unit's input names. */
  lemma OutputWithoutFormat(spec: OutputSpec, env: Env, inputs: seq<string>)
    requires spec.format.None?
    ensures spec.outputFunction.None? ==> OutputFilename(spec, env, inputs) == Ok(NoOutput)
    ensures spec.outputFunction.Some? && FlatMap(inputs, spec.outputFunction.value).Ok? ==>
      OutputFilename(spec, env, inputs).Ok?
      && Names(OutputFilename(spec, env, inputs).value) == FlatMap(inputs, spec.outputFunction.value).value
    ensures OutputFilename(spec, env, inputs).Err? <==>
      spec.outputFunction.Some? && exists i :: 0 <= i < |inputs| && spec.outputFunction.value(inputs[i]).None?
  {
    if spec.outputFunction.Some? {
      FlatMapFails(inputs, spec.outputFunction.value);
    }
  }

  /** With a format and no function, one name per format element comes
      back, each the substituted element, joined onto the output path when
      there is one; one element gives a single `str`. */
  lemma OutputFromFormats(spec: OutputSpec, env: Env, inputs: seq<string>)
    requires spec.format.Some? && spec.outputFunction.None?
    ensures var fs := WithPath(Formats(spec.format.value, env), spec.path);
      OutputFilename(spec, env, inputs).Ok? <==> forall i :: 0 <= i < |fs| ==> Substitution(fs[i], env, Evaluate).Ok?
    ensures var fs := WithPath(Formats(spec.format.value, env), spec.path);
      OutputFilename(spec, env, inputs).Ok? ==>
        var o := OutputFilename(spec, env, inputs).value;
        && |Names(o)| == |spec.format.value|
        && (o.OneName? <==> |spec.format.value| == 1)
        && forall i :: 0 <= i < |fs| ==> Names(o)[i] == Substitution(fs[i], env, Evaluate).value
  {
    SubstituteAllSpec(WithPath(Formats(spec.format.value, env), spec.path), env);
  }

  /** Literal templates (no `{`) under an output path without `{` become
      exactly the path joined with each template. */
  lemma PathJoinedOntoFormats(ts: seq<string>, p: string, env: Env, inputs: seq<string>)
    requires '{' !in p
    requires forall i :: 0 <= i < |ts| ==> '{' !in ts[i]
    ensures var spec := OutputSpec(Some(seq(|ts|, i requires 0 <= i < |ts| => Template(ts[i]))), Some(p), None);
      OutputFilename(spec, env, inputs) == Ok(AsOutput(seq(|ts|, i requires 0 <= i < |ts| => Join(p, ts[i]))))
  {
    var items := seq(|ts|, i requires 0 <= i < |ts| => Template(ts[i]));
    var spec := OutputSpec(Some(items), Some(p), None);
    var fs := WithPath(Formats(items, env), Some(p));
    var joined := seq(|ts|, i requires 0 <= i < |ts| => Join(p, ts[i]));
    assert fs == joined;
    forall i | 0 <= i < |fs| ensures Substitution(fs[i], env, Evaluate) == Ok(joined[i]) {
      JoinKeepsNoBrace(p, ts[i]);
      NoBraceUnchanged(fs[i], env, Evaluate);
    }
    SubstituteAllSpec(fs, env);
    assert SubstituteAll(fs, env).value == joined;
  }

  lemma JoinKeepsNoBrace(a: string, b: string)
    requires '{' !in a && '{' !in b
    ensures '{' !in Join(a, b)
  {
  }

  // ---------------------------------------------------------------------
  // Absolute names.

  /** A name whose directory part is empty or `.` is put under the current
      directory; other names are kept. */
  function Absolutize(cwd: string, name: string): string {
    var d := Dirname(name);
    if d == "" || d == "." then Join(cwd, name) else name
  }

  function Absolutized(cwd: string, names: seq<string>): (r: seq<string>)
    ensures |r| == |names|
  {
    seq(|names|, i requires 0 <= i < |names| => Absolutize(cwd, names[i]))
  }

  lemma {:induction false} StripKeepsPrefix(s: string, k: nat)
    requires k < |s| && s[k] != '/'
    ensures exists m :: k < m <= |s| && StripTrailingSlashes(s) == s[..m]
    decreases |s|
  {
    if s[|s| - 1] == '/' {
      assert k < |s| - 1;
      StripKeepsPrefix(s[..|s| - 1], k);
      var m :| k < m <= |s| - 1 && StripTrailingSlashes(s[..|s| - 1]) == s[..|s| - 1][..m];
      assert s[..|s| - 1][..m] == s[..m];
    } else {
      assert s == s[..|s|];
    }
  }

  /** The directory part of an absolute name is neither empty nor `.`. */
  lemma DirnameOfAbsolute(s: string)
    requires StartsWith(s, "/")
    ensures Dirname(s) != "" && Dirname(s)[0] == '/'
  {
    assert s[0] == '/';
    var r := LastIndexOf(s, '/');
    assert r >= 0;
    var head := s[..r + 1];
    assert head[0] == '/';
    if head != [] && exists k :: 0 <= k < |head| && head[k] != '/' {
      var k :| 0 <= k < |head| && head[k] != '/';
      StripKeepsPrefix(head, k);
    }
  }

  /** Under an absolute current directory, absolutizing twice is
      absolutizing once. */
  lemma AbsolutizeIdempotent(cwd: string, name: string)
    requires StartsWith(cwd, "/")
    ensures Absolutize(cwd, Absolutize(cwd, name)) == Absolutize(cwd, name)
  {
    var d := Dirname(name);
    if d == "" || d == "." {
      if StartsWith(name, "/") {
        DirnameOfAbsolute(name);
        assert false;
      }
      var j := Join(cwd, name);
      assert j[..1] == cwd[..1];
      DirnameOfAbsolute(j);
    }
  }

  // ---------------------------------------------------------------------
  // The output maps: dicts from organism to names, in insertion order.

  type NameMap = seq<(string, seq<string>)>

  predicate DistinctKeys(m: NameMap) {
    forall i, j :: 0 <= i < j < |m| ==> m[i].0 != m[j].0
  }

  function KeysOf(m: NameMap): (ks: seq<string>)
    ensures |ks| == |m| && forall i :: 0 <= i < |m| ==> ks[i] == m[i].0
  {
    seq(|m|, i requires 0 <= i < |m| => m[i].0)
  }

  /** `m.get(k, [])` */
  function Get(m: NameMap, k: string): seq<string> {
    if m == [] then [] else if m[0].0 == k then m[0].1 else Get(m[1..], k)
  }

  /** `m.setdefault(k, []).append(name)` */
  function Append(m: NameMap, k: string, name: string): NameMap {
    if m == [] then [(k, [name])]
    else if m[0].0 == k then [(k, m[0].1 + [name])] + m[1..]
    else [m[0]] + Append(m[1..], k, name)
  }

  /** Appending adds `name` at the end of `k`'s list and changes no other
      list. */
  lemma {:induction false} AppendGet(m: NameMap, k: string, name: string, k': string)
    ensures Get(Append(m, k, name), k') == Get(m, k') + (if k' == k then [name] else [])
  {
    if m != [] && m[0].0 != k && m[0].0 != k' {
      AppendGet(m[1..], k, name, k');
    }
  }

  /** A new key goes at the end; existing keys keep their place. */
  lemma {:induction false} AppendKeys(m: NameMap, k: string, name: string)
    ensures KeysOf(Append(m, k, name)) == KeysOf(m) + (if k in KeysOf(m) then [] else [k])
  {
    if m != [] {
      if m[0].0 == k {
        assert KeysOf(Append(m, k, name)) == KeysOf(m);
      } else {
        AppendKeys(m[1..], k, name);
        assert KeysOf(m) == [m[0].0] + KeysOf(m[1..]);
        assert KeysOf(Append(m, k, name)) == [m[0].0] + KeysOf(Append(m[1..], k, name));
      }
    }
  }

  /** Appending keeps the keys distinct. */
  lemma AppendDistinct(m: NameMap, k: string, name: string)
    requires DistinctKeys(m)
    ensures DistinctKeys(Append(m, k, name))
  {
    AppendKeys(m, k, name);
    var r := Append(m, k, name);
    var ks := KeysOf(r);
    forall i, j | 0 <= i < j < |r| ensures r[i].0 != r[j].0 {
      assert r[i].0 == ks[i] && r[j].0 == ks[j];
      if j >= |m| {
        assert ks[i] == KeysOf(m)[i];
      } else {
        assert ks[i] == m[i].0 && ks[j] == m[j].0;
      }
    }
  }

  // ---------------------------------------------------------------------
  // Recording the names of one command.

  predicate IsBam(name: string) {
    Extension(name) == ".bam"
  }

  /** The names of `names` that `keep` accepts, in order. */
  function KeepIf(keep: string -> bool, names: seq<string>): (r: seq<string>)
    ensures forall n :: n in r ==> n in names && keep(n)
  {
    if names == [] then []
    else (if keep(names[0]) then [names[0]] else []) + KeepIf(keep, names[1..])
  }

  function BamsOf(names: seq<string>): (r: seq<string>)
    ensures forall n :: n in r ==> n in names && IsBam(n)
  {
    KeepIf(IsBam, names)
  }

  /** The organism a name is recorded under: with `split_by_organism`, the
      organism of its barcode when it has a non-empty one. */
  function OutputOrganism(name: string, organism: string, splitByOrganism: bool, parse: Parser): string {
    if !splitByOrganism then organism
    else match parse(name)
      case Some(b) => if b.organism.Some? && b.organism.value != "" then b.organism.value else organism
      case None => organism
  }

  /** Record `names` in order into the output map and, the `.bam` ones,
      into the bam map. */
  function RecordNames(outs: NameMap, bams: NameMap, names: seq<string>, organism: string,
                       splitByOrganism: bool, parse: Parser): (NameMap, NameMap)
    decreases |names|
  {
    if names == [] then (outs, bams)
    else
      var o := OutputOrganism(names[0], organism, splitByOrganism, parse);
      RecordNames(Append(outs, o, names[0]),
                  if IsBam(names[0]) then Append(bams, o, names[0]) else bams,
                  names[1..], organism, splitByOrganism, parse)
  }

  /** `_handle_output_filename` for command `index` of `count`. */
  function HandledOutput(outs: NameMap, bams: NameMap, index: int, count: int, organism: string,
                         o: OutputName, cwd: string, saveOnlyLast: bool, splitByOrganism: bool,
                         parse: Parser): (NameMap, NameMap)
  {
    if !saveOnlyLast || index == count - 1
    then RecordNames(outs, bams, Absolutized(cwd, Names(o)), organism, splitByOrganism, parse)
    else (outs, bams)
  }

  /** The names of `names` recorded under `k`. */
  function RecordedUnder(names: seq<string>, k: string, organism: string, splitByOrganism: bool, parse: Parser): seq<string> {
    if names == [] then []
    else (if OutputOrganism(names[0], organism, splitByOrganism, parse) == k then [names[0]] else [])
         + RecordedUnder(names[1..], k, organism, splitByOrganism, parse)
  }

  /** The bam map holds, under each organism, exactly the `.bam` names of
      the output map, and no organism without one. */
  ghost predicate Consistent(outs: NameMap, bams: NameMap) {
    && DistinctKeys(outs) && DistinctKeys(bams)
    && (forall k :: Get(bams, k) == BamsOf(Get(outs, k)))
    && (forall i :: 0 <= i < |bams| ==> bams[i].1 != [])
  }

  lemma {:induction false} KeepIfAppend(keep: string -> bool, a: seq<string>, b: seq<string>)
    ensures KeepIf(keep, a + b) == KeepIf(keep, a) + KeepIf(keep, b)
  {
    if a == [] {
      assert a + b == b;
    } else {
      assert (a + b)[0] == a[0];
      assert (a + b)[1..] == a[1..] + b;
      KeepIfAppend(keep, a[1..], b);
    }
  }

  lemma BamsOfAppend(a: seq<string>, b: seq<string>)
    ensures BamsOf(a + b) == BamsOf(a) + BamsOf(b)
  {
    KeepIfAppend(IsBam, a, b);
  }

  lemma BamsOfOne(name: string)
    ensures BamsOf([]) == []
    ensures BamsOf([name]) == if IsBam(name) then [name] else []
  {
    assert [name][1..] == [];
    assert KeepIf(IsBam, [name]) == (if IsBam(name) then [name] else []) + KeepIf(IsBam, []);
  }

  lemma {:induction false} AppendValuesNonEmpty(m: NameMap, k: string, name: string)
    requires forall i :: 0 <= i < |m| ==> m[i].1 != []
    ensures forall i :: 0 <= i < |Append(m, k, name)| ==> Append(m, k, name)[i].1 != []
  {
    if m != [] && m[0].0 != k {
      AppendValuesNonEmpty(m[1..], k, name);
      var r := Append(m, k, name);
      forall i | 0 <= i < |r| ensures r[i].1 != [] {
        if i > 0 { assert r[i] == Append(m[1..], k, name)[i - 1]; }
      }
    }
  }

  lemma RecordOneConsistent(outs: NameMap, bams: NameMap, o: string, name: string)
    requires Consistent(outs, bams)
    ensures Consistent(Append(outs, o, name), if IsBam(name) then Append(bams, o, name) else bams)
  {
    AppendDistinct(outs, o, name);
    var outs' := Append(outs, o, name);
    if IsBam(name) {
      AppendDistinct(bams, o, name);
      AppendValuesNonEmpty(bams, o, name);
    }
    var bams' := if IsBam(name) then Append(bams, o, name) else bams;
    forall k ensures Get(bams', k) == BamsOf(Get(outs', k)) {
      AppendGet(outs, o, name, k);
      AppendGet(bams, o, name, k);
      BamsOfAppend(Get(outs, k), if k == o then [name] else []);
      BamsOfOne(name);
    }
  }

  /** Recording keeps the bam map consistent with the output map. */
  lemma {:induction false} RecordNamesConsistent(outs: NameMap, bams: NameMap, names: seq<string>, organism: string,
                                                 splitByOrganism: bool, parse: Parser)
    requires Consistent(outs, bams)
    ensures var r := RecordNames(outs, bams, names, organism, splitByOrganism, parse);
      Consistent(r.0, r.1)
    decreases |names|
  {
    if names != [] {
      var o := OutputOrganism(names[0], organism, splitByOrganism, parse);
      RecordOneConsistent(outs, bams, o, names[0]);
      RecordNamesConsistent(Append(outs, o, names[0]),
                            if IsBam(names[0]) then Append(bams, o, names[0]) else bams,
                            names[1..], organism, splitByOrganism, parse);
    }
  }

  /** Recording adds to each organism's list exactly the names recorded
      under it, in order. */
  lemma {:induction false} RecordNamesGet(outs: NameMap, bams: NameMap, names: seq<string>, organism: string,
                                          splitByOrganism: bool, parse: Parser, k: string)
    ensures Get(RecordNames(outs, bams, names, organism, splitByOrganism, parse).0, k)
         == Get(outs, k) + RecordedUnder(names, k, organism, splitByOrganism, parse)
    decreases |names|
  {
    if names != [] {
      var o := OutputOrganism(names[0], organism, splitByOrganism, parse);
      var outs' := Append(outs, o, names[0]);
      var bams' := if IsBam(names[0]) then Append(bams, o, names[0]) else bams;
      var tail := RecordedUnder(names[1..], k, organism, splitByOrganism, parse);
      var head: seq<string> := if o == k then [names[0]] else [];
      calc {
        Get(RecordNames(outs, bams, names, organism, splitByOrganism, parse).0, k);
        Get(RecordNames(outs', bams', names[1..], organism, splitByOrganism, parse).0, k);
        { RecordNamesGet(outs', bams', names[1..], organism, splitByOrganism, parse, k); }
        Get(outs', k) + tail;
        { AppendGet(outs, o, names[0], k); }
        (Get(outs, k) + head) + tail;
        Get(outs, k) + (head + tail);
        Get(outs, k) + RecordedUnder(names, k, organism, splitByOrganism, parse);
      }
    }
  }

  lemma {:induction false} RecordedUnderAll(names: seq<string>, organism: string, parse: Parser)
    ensures RecordedUnder(names, organism, organism, false, parse) == names
    ensures forall k :: k != organism ==> RecordedUnder(names, k, organism, false, parse) == []
  {
    if names != [] {
      RecordedUnderAll(names[1..], organism, parse);
      assert [names[0]] + names[1..] == names;
    }
  }

  /** `_handle_output_filename`: names are recorded only when not saving the
      last command's names only, or for the last command; then, without
      `split_by_organism`, the absolutized names are appended in order under
      the unit's organism and nowhere else, and the bam map stays the
      `.bam` part of the output map. */
  lemma HandledOutputSpec(outs: NameMap, bams: NameMap, index: int, count: int, organism: string,
                          o: OutputName, cwd: string, saveOnlyLast: bool, splitByOrganism: bool, parse: Parser)
    requires Consistent(outs, bams)
    ensures var r := HandledOutput(outs, bams, index, count, organism, o, cwd, saveOnlyLast, splitByOrganism, parse);
      && Consistent(r.0, r.1)
      && (saveOnlyLast && index != count - 1 ==> r == (outs, bams))
      && (!saveOnlyLast || index == count - 1 ==>
            forall k :: Get(r.0, k) == Get(outs, k) + RecordedUnder(Absolutized(cwd, Names(o)), k, organism, splitByOrganism, parse))
      && (!splitByOrganism && (!saveOnlyLast || index == count - 1) ==>
            && Get(r.0, organism) == Get(outs, organism) + Absolutized(cwd, Names(o))
            && forall k :: k != organism ==> Get(r.0, k) == Get(outs, k))
  {
    var names := Absolutized(cwd, Names(o));
    RecordNamesConsistent(outs, bams, names, organism, splitByOrganism, parse);
    forall k {
      RecordNamesGet(outs, bams, names, organism, splitByOrganism, parse, k);
    }
    RecordedUnderAll(names, organism, parse);
  }

  /** The loop that makes the names of `_handle_output_filename` absolute. */
  method AbsoluteNames(cwd: string, given: seq<string>) returns (names: seq<string>)
    ensures names == Absolutized(cwd, given)
  {
    names := [];
    var i := 0;
    while i < |given|
      invariant 0 <= i <= |given|
      invariant names == Absolutized(cwd, given[..i])
    {
      var d := Dirname(given[i]);
      if d == "" || d == "." {
        names := names + [Join(cwd, given[i])];
      } else {
        names := names + [given[i]];
      }
      i := i + 1;
    }
    assert given[..i] == given;
  }

  /** The step's output and bam maps, filled in place. */
  class StepOutputs {
    var filenames: NameMap
    var bamfiles: NameMap

    constructor ()
      ensures filenames == [] && bamfiles == []
    {
      filenames := [];
      bamfiles := [];
    }

    /** `output_filenames.setdefault(organism, []).append(filename)`, and the
        same on the bam map for a `.bam` name. */
    method Add(organism: string, name: string)
      modifies this
      ensures filenames == Append(old(filenames), organism, name)
      ensures bamfiles == if IsBam(name) then Append(old(bamfiles), organism, name) else old(bamfiles)
    {
      filenames := Append(filenames, organism, name);
      if Extension(name) == ".bam" {
        bamfiles := Append(bamfiles, organism, name);
      }
    }

    /** Record `names` one after the other. */
    method RecordAll(names: seq<string>, organism: string, splitByOrganism: bool, parse: Parser)
      modifies this
      ensures (filenames, bamfiles) == RecordNames(old(filenames), old(bamfiles), names, organism, splitByOrganism, parse)
    {
      var k := 0;
      while k < |names|
        invariant 0 <= k <= |names|
        invariant RecordNames(filenames, bamfiles, names[k..], organism, splitByOrganism, parse)
               == RecordNames(old(filenames), old(bamfiles), names, organism, splitByOrganism, parse)
      {
        assert names[k..][1..] == names[k + 1..];
        Add(OutputOrganism(names[k], organism, splitByOrganism, parse), names[k]);
        k := k + 1;
      }
    }

    /** `_handle_output_filename` */
    method Handle(index: int, count: int, organism: string, o: OutputName, cwd: string,
                  saveOnlyLast: bool, splitByOrganism: bool, parse: Parser)
      modifies this
      ensures (filenames, bamfiles)
           == HandledOutput(old(filenames), old(bamfiles), index, count, organism, o, cwd,
                            saveOnlyLast, splitByOrganism, parse)
    {
      var names := AbsoluteNames(cwd, Names(o));
      if !saveOnlyLast || index == count - 1 {
        RecordAll(names, organism, splitByOrganism, parse);
      }
    }
  }
}
