/** The commands of a step (`_get_commands`) and how one is run
    (`_handle_command`): templates are substituted, a shell line yields an
    exit status, a callable always status 0, and a non-zero status raises
    with the step's failure messages. */
module Commands {
  import opened Util
  import opened Placeholders

  /** An element of a command list: a template or a callable. */
  datatype CommandItem = Line(template: string) | Function(name: string)

  /** The step's `command`: a template, a list, or a callable. */
  datatype Command = Shell(template: string) | Sequence(items: seq<CommandItem>) | Callback(name: string)

  /** A command ready to run: a substituted line or a callable. */
  datatype Runnable = Run(line: string) | Invoke(name: string)

  /** `assert self.data.command`: an empty template or list is falsy. */
  predicate Given(c: Command) {
    match c
    case Shell(t) => t != ""
    case Sequence(items) => items != []
    case Callback(_) => true
  }

  function Prepared(item: CommandItem, env: Env): Result<Runnable> {
    match item
    case Function(n) => Ok(Invoke(n))
    case Line(t) =>
      match Substitution(t, env, Evaluate)
      case Err(e) => Err(e)
      case Ok(s) => Ok(Run(s))
  }

  function PreparedAll(items: seq<CommandItem>, env: Env): Result<seq<Runnable>> {
    if items == [] then Ok([])
    else match Prepared(items[0], env)
      case Err(e) => Err(e)
      case Ok(r) =>
        match PreparedAll(items[1..], env)
        case Err(e) => Err(e)
        case Ok(rest) => Ok([r] + rest)
  }

  /** `_get_commands` */
  function CommandList(c: Command, env: Env): Result<seq<Runnable>> {
    if !Given(c) then Err(AssertionFailed("self.data.command"))
    else match c
      case Shell(t) =>
        (match Substitution(t, env, Evaluate)
         case Err(e) => Err(e)
         case Ok(s) => Ok([Run(s)]))
      case Sequence(items) => PreparedAll(items, env)
      case Callback(n) => Ok([Invoke(n)])
  }

  lemma {:induction false} PreparedAllAppend(a: seq<CommandItem>, b: seq<CommandItem>, env: Env)
    ensures PreparedAll(a + b, env) ==
      match PreparedAll(a, env)
      case Err(e) => Err(e)
      case Ok(x) =>
        match PreparedAll(b, env)
        case Err(e) => Err(e)
        case Ok(y) => Ok(x + y)
  {
    if a == [] {
      assert a + b == b;
      if PreparedAll(b, env).Ok? {
        assert [] + PreparedAll(b, env).value == PreparedAll(b, env).value;
      }
    } else {
      assert (a + b)[1..] == a[1..] + b;
      PreparedAllAppend(a[1..], b, env);
      if Prepared(a[0], env).Ok? && PreparedAll(a[1..], env).Ok? && PreparedAll(b, env).Ok? {
        var h := [Prepared(a[0], env).value];
        assert h + (PreparedAll(a[1..], env).value + PreparedAll(b, env).value)
            == (h + PreparedAll(a[1..], env).value) + PreparedAll(b, env).value;
      }
    }
  }

  /** `_get_commands` with its loops: each string of a list, or the single
      template, is substituted; callables are passed through. */
  method GetCommands(c: Command, env: Env) returns (r: Result<seq<Runnable>>)
    ensures r == CommandList(c, env)
  {
    if !Given(c) {
      return Err(AssertionFailed("self.data.command"));
    }
    match c
    case Callback(n) =>
      return Ok([Invoke(n)]);
    case Shell(t) =>
      var s := Substitute(t, env, Evaluate);
      if s.Err? {
        return Err(s.error);
      }
      return Ok([Run(s.value)]);
    case Sequence(items) =>
      var commands: seq<Runnable> := [];
      var i := 0;
      while i < |items|
        invariant 0 <= i <= |items|
        invariant PreparedAll(items[..i], env) == Ok(commands)
      {
        PreparedAllAppend(items[..i], items[i..], env);
        assert items[..i] + items[i..] == items;
        var next: Runnable;
        match items[i] {
          case Function(n) =>
            next := Invoke(n);
          case Line(t) =>
            var s := Substitute(t, env, Evaluate);
            if s.Err? {
              return Err(s.error);
            }
            next := Run(s.value);
        }
        PreparedAllAppend(items[..i], [items[i]], env);
        assert [items[i]][1..] == [];
        assert PreparedAll([items[i]], env) == Ok([next] + []);
        assert [next] + [] == [next];
        assert items[..i] + [items[i]] == items[..i + 1];
        commands := commands + [next];
        i := i + 1;
      }
      assert items[..i] == items;
      return Ok(commands);
  }

  /** A list command gives one runnable per element, in order: each line
      its substituted template, each callable itself. It fails exactly
      when some line does not substitute. */
  lemma {:induction false} PreparedAllSpec(items: seq<CommandItem>, env: Env)
    ensures PreparedAll(items, env).Ok? <==>
      forall i :: 0 <= i < |items| && items[i].Line? ==> Substitution(items[i].template, env, Evaluate).Ok?
    ensures PreparedAll(items, env).Ok? ==>
      var rs := PreparedAll(items, env).value;
      && |rs| == |items|
      && forall i :: 0 <= i < |items| ==>
           rs[i] == match items[i]
                    case Line(t) => Run(Substitution(t, env, Evaluate).value)
                    case Function(n) => Invoke(n)
  {
    if items != [] {
      PreparedAllSpec(items[1..], env);
      assert forall i :: 0 < i < |items| ==> items[1..][i - 1] == items[i];
    }
  }

  /** The command list: a callable alone, a template substituted into one
      line, a list element by element; an empty template or list is refused. */
  lemma CommandListSpec(c: Command, env: Env)
    ensures !Given(c) ==> CommandList(c, env).Err? && CommandList(c, env).error.AssertionFailed?
    ensures c.Callback? ==> CommandList(c, env) == Ok([Invoke(c.name)])
    ensures c.Shell? && Given(c) ==>
      (CommandList(c, env).Ok? <==> Substitution(c.template, env, Evaluate).Ok?)
      && (CommandList(c, env).Ok? ==> CommandList(c, env).value == [Run(Substitution(c.template, env, Evaluate).value)])
    ensures c.Sequence? && Given(c) && CommandList(c, env).Ok? ==> |CommandList(c, env).value| == |c.items|
    ensures Given(c) && CommandList(c, env).Ok? ==> CommandList(c, env).value != []
  {
    if c.Sequence? {
      PreparedAllSpec(c.items, env);
    }
  }

  // ---------------------------------------------------------------------
  // Running one command.

  /** The exit status: a shell line's from `run_and_log`, 0 when faking or
      for a callable. */
  function Status(r: Runnable, runFake: bool, exitStatus: string -> int): int {
    match r
    case Run(line) => if runFake then 0 else exitStatus(line)
    case Invoke(_) => 0
  }

  /** `os.path.basename(self.data.command.split(" ")[0])` */
  function ArgZero(template: string): string {
    Basename(FirstToken(template))
  }

  function DefaultError(arg0: string, status: int): string {
    arg0 + " exited with status " + IntToString(status)
  }

  function DefaultException(arg0: string): string {
    arg0 + " error"
  }

  /** What the failure templates can name besides the step's parameters. */
  function FailureEnv(env: Env, arg0: string, status: int): Env {
    env["status" := Str(IntToString(status))]["arg_zero" := Str(arg0)]
  }

  /** The exception a non-zero status raises. */
  function Failure(c: Command, status: int, env: Env, errorString: Option<string>,
                   exceptionString: Option<string>): Error
  {
    if !c.Shell? then AssertionFailed("isinstance(self.data.command, str)")
    else
      var arg0 := ArgZero(c.template);
      var logged := if errorString.Some? then errorString.value else DefaultError(arg0, status);
      var raised := if exceptionString.Some? then exceptionString.value else DefaultException(arg0);
      var fenv := FailureEnv(env, arg0, status);
      match Substitution(logged, fenv, Replace)
      case Err(e) => e
      case Ok(l) =>
        match Substitution(raised, fenv, Replace)
        case Err(e) => e
        case Ok(m) => CommandFailed(l, m)
  }

  /** `_handle_command` */
  function HandleCommand(r: Runnable, c: Command, env: Env, runFake: bool, exitStatus: string -> int,
                         errorString: Option<string>, exceptionString: Option<string>): Result<()>
  {
    var status := Status(r, runFake, exitStatus);
    if status == 0 then Ok(())
    else Err(Failure(c, status, env, errorString, exceptionString))
  }

  /** `_handle_command`, running the two substitution loops on failure. */
  method RunCommand(r: Runnable, c: Command, env: Env, runFake: bool, exitStatus: string -> int,
                    errorString: Option<string>, exceptionString: Option<string>) returns (res: Result<()>)
    ensures res == HandleCommand(r, c, env, runFake, exitStatus, errorString, exceptionString)
  {
    var status := 0;
    if r.Run? && !runFake {
      status := exitStatus(r.line);
    }
    if status == 0 {
      return Ok(());
    }
    if !c.Shell? {
      return Err(AssertionFailed("isinstance(self.data.command, str)"));
    }
    var arg0 := ArgZero(c.template);
    var logged := if errorString.Some? then errorString.value else DefaultError(arg0, status);
    var raised := if exceptionString.Some? then exceptionString.value else DefaultException(arg0);
    var fenv := FailureEnv(env, arg0, status);
    var l := Substitute(logged, fenv, Replace);
    if l.Err? {
      return Err(l.error);
    }
    var m := Substitute(raised, fenv, Replace);
    if m.Err? {
      return Err(m.error);
    }
    return Err(CommandFailed(l.value, m.value));
  }

  // ---------------------------------------------------------------------
  // Properties of running a command.

  lemma {:induction false} NatDigits(n: nat)
    ensures forall c :: c in NatToString(n) ==> '0' <= c <= '9'
  {
    if n >= 10 {
      NatDigits(n / 10);
    }
  }

  lemma IntDigits(n: int)
    ensures '{' !in IntToString(n)
  {
    NatDigits(if n < 0 then -n else n);
  }

  /** A command fails exactly on a non-zero status; faking and callables
      never fail. */
  lemma HandleCommandFails(r: Runnable, c: Command, env: Env, runFake: bool, exitStatus: string -> int,
                           errorString: Option<string>, exceptionString: Option<string>)
    ensures HandleCommand(r, c, env, runFake, exitStatus, errorString, exceptionString).Err?
        <==> r.Run? && !runFake && exitStatus(r.line) != 0
    ensures HandleCommand(r, c, env, runFake, exitStatus, errorString, exceptionString).Err? && !c.Shell? ==>
      HandleCommand(r, c, env, runFake, exitStatus, errorString, exceptionString).error.AssertionFailed?
  {
  }

  /** The first token of a template has no blank, so neither has its
      basename. */
  lemma {:induction false} ArgZeroIsOneWord(template: string)
    ensures ' ' !in ArgZero(template) && '/' !in ArgZero(template)
  {
    var t := FirstToken(template);
    var k := IndexOf(template, ' ');
    assert ' ' !in t by {
      if k < 0 {
        assert forall j :: 0 <= j < |template| ==> template[j] != ' ';
      } else {
        assert forall j :: 0 <= j < k ==> template[j] != ' ';
        assert forall j :: 0 <= j < |t| ==> t[j] == template[j];
      }
    }
    var b := ArgZero(template);
    var r := LastIndexOf(t, '/');
    assert b == t[r + 1..];
    assert forall j :: 0 <= j < |b| ==> b[j] == t[r + 1 + j];
  }

  /** Without custom strings, a failing single command logs
      "<arg0> exited with status <n>" and raises "<arg0> error", where
      `arg0` is the basename of the template's first word. */
  lemma DefaultFailureMessages(t: string, status: int, env: Env)
    requires status != 0
    requires '{' !in ArgZero(t)
    ensures Failure(Shell(t), status, env, None, None)
         == CommandFailed(ArgZero(t) + " exited with status " + IntToString(status), ArgZero(t) + " error")
  {
    var arg0 := ArgZero(t);
    var fenv := FailureEnv(env, arg0, status);
    IntDigits(status);
    NoBraceUnchanged(DefaultError(arg0, status), fenv, Replace);
    NoBraceUnchanged(DefaultException(arg0), fenv, Replace);
  }

  /** A template with one placeholder, bound to a value without `{`. */
  lemma OnePlaceholder(before: string, name: string, after: string, env: Env, mode: Mode)
    requires '{' !in before && '{' !in after && ProperName(name)
    requires Lookup(env, name, mode).Ok? && '{' !in Lookup(env, name, mode).value
    ensures Substitution(before + Braced(name) + after, env, mode) == Ok(before + Lookup(env, name, mode).value + after)
  {
    var ps := [Lit(before), Hole(name), Lit(after)];
    assert Flatten(ps) == before + Braced(name) + after by {
      assert Flatten(ps[2..]) == after + Flatten([]);
      assert Flatten(ps[1..]) == Braced(name) + Flatten(ps[2..]);
    }
    assert WellFormed(ps);
    assert Bound(ps, env, mode);
    SubstitutionRenders(ps, env, mode);
    var v := Lookup(env, name, mode).value;
    assert Render(ps, env, mode) == before + (v + (after + "")) by {
      assert Render(ps[2..], env, mode) == after + Render([], env, mode);
      assert Render(ps[1..], env, mode) == v + Render(ps[2..], env, mode);
    }
    assert before + (v + (after + "")) == before + v + after;
  }

  /** With custom strings, `{status}` in them reads the exit status: a
      failure string with that one placeholder logs it in its place. */
  lemma StatusInFailureString(t: string, before: string, after: string, status: int, env: Env, raised: string)
    requires status != 0
    requires '{' !in before && '{' !in after && '{' !in raised
    ensures Failure(Shell(t), status, env, Some(before + "{status}" + after), Some(raised))
         == CommandFailed(before + IntToString(status) + after, raised)
  {
    var fenv := FailureEnv(env, ArgZero(t), status);
    IntDigits(status);
    assert fenv["status"] == Str(IntToString(status));
    assert Braced("status") == "{status}";
    OnePlaceholder(before, "status", after, fenv, Replace);
    NoBraceUnchanged(raised, fenv, Replace);
  }
}
