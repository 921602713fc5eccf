/** One executor step (`Executor.__call__` and the helpers it calls) over
    the state it changes: the `Analysis` fields the step reads and commits,
    and the set of paths on disk the step may unlink. */
module Execution {
  import opened Util
  import opened Files
  import opened Placeholders
  import opened Grouping
  import Normals
  import opened Outputs
  import opened Commands

  // ---------------------------------------------------------------------
  // What the previous step left, and what the configuration answers.

  /** A value of a dict in `last_operation_filenames`. */
  datatype Entry = EntryName(name: string) | EntryList(names: seq<string>) | EntryOther

  /** `analysis.last_operation_filenames`: `None`, a name, a list of names,
      a dict from organism to names (in insertion order), or an object of
      any other type. */
  datatype LastFiles =
    | NoFiles
    | LastName(name: string)
    | LastList(names: seq<string>)
    | LastDict(entries: seq<(string, Entry)>)
    | LastOther

  /** The output dict a step leaves as `last_operation_filenames`. */
  function FromOutputs(m: NameMap): (r: LastFiles)
    ensures r.LastDict? && |r.entries| == |m|
    ensures forall i :: 0 <= i < |m| ==> r.entries[i] == (m[i].0, EntryList(m[i].1))
  {
    LastDict(seq(|m|, i requires 0 <= i < |m| => (m[i].0, EntryList(m[i].1))))
  }

  /** The `indels_<organism>` attributes of a `KitData`. */
  datatype Kit = Kit(attributes: map<string, string>)

  /** Everything the step asks of the world outside the executor: the
      barcode parser, `utils.get_sample_filenames`, the working directory,
      the configuration lookups and the exit status of each command line. */
  datatype World = World(
    parse: Parser,
    sampleFilenames: (LastFiles, bool) -> RawInputs,
    cwd: string,
    humanAnnotation: string,
    genome: string -> Option<(string, string)>,
    dbsnp: string -> Option<string>,
    cosmic: string -> Option<string>,
    kitOf: Barcode -> Option<Kit>,
    exitStatus: string -> int)

  /** `_ExecutorData`: the arguments of one call. */
  datatype Step = Step(
    command: Command,
    output: OutputSpec,
    inputFilenames: Option<seq<string>>,
    inputFunction: Option<InputFunction>,
    inputSplitReads: bool,
    errorString: Option<string>,
    exceptionString: Option<string>,
    overrideLastFiles: bool,
    writeBamFiles: bool,
    unlinkInputs: bool,
    saveOnlyLast: bool,
    useNormals: bool,
    splitByOrganism: bool,
    onlyHuman: bool,
    splitInputFiles: bool,
    allowRawFilenames: bool)

  // ---------------------------------------------------------------------
  // `_get_input_filenames`

  /** The raw names: the step's own list, or what the last step left. */
  function RawInputsOf(step: Step, world: World, last: LastFiles): Result<RawInputs> {
    if step.inputFilenames.Some? then Ok(world.sampleFilenames(LastList(step.inputFilenames.value), step.splitByOrganism))
    else if last.NoFiles? then Err(MissingInput)
    else Ok(world.sampleFilenames(last, step.splitByOrganism))
  }

  /** Pair controls with samples organism by organism; the first organism
      that fails aborts. */
  function PairedGroups(g: Grouped): (r: Result<Grouped>)
    ensures r.Ok? ==> Organisms(r.value) == Organisms(g)
  {
    if g == [] then Ok([])
    else
      match Normals.Paired(g[0].units, false)
      case Err(e) => Err(e)
      case Ok(us) =>
        match PairedGroups(g[1..])
        case Err(e) => Err(e)
        case Ok(rest) =>
          OrganismsCons(OrganismUnits(g[0].organism, us), rest);
          OrganismsTail(g);
          Ok([OrganismUnits(g[0].organism, us)] + rest)
  }

  /** The input units and, with an input function, the transformed units. */
  function InputFilenames(step: Step, world: World, last: LastFiles, useNormals: bool): Result<(Grouped, Grouped)> {
    match RawInputsOf(step, world, last)
    case Err(e) => Err(e)
    case Ok(raw) =>
      var g := Group(raw, step.splitInputFiles, world.parse);
      match (if useNormals && step.useNormals then PairedGroups(g) else Ok(g))
      case Err(e) => Err(e)
      case Ok(p) =>
        match step.inputFunction
        case Some(f) => ModInputs(p, step.inputSplitReads, f, world.parse)
        case None =>
          match Collapsed(p, step.inputSplitReads)
          case Err(e) => Err(e)
          case Ok(c) => Ok((c, []))
  }

  // ---------------------------------------------------------------------
  // The execution units of `__call__`.

  /** One call of `_handle_analysis`: the organism it belongs to, the unit
      and the transformed unit, if any. */
  datatype Job = Job(organism: string, first: Unit, second: Option<Unit>)

  /** `mod_input_filenames[organism]` */
  function UnitsFor(mods: Grouped, organism: string): seq<Unit> {
    if mods == [] then [] else if mods[0].organism == organism then mods[0].units else UnitsFor(mods[1..], organism)
  }

  /** The pairs of one organism: units with their transformed units when
      there are as many of both, else each transformed unit with itself;
      without an input function each unit alone. */
  function JobsOf(organism: string, units: seq<Unit>, mods: Option<seq<Unit>>): seq<Job> {
    match mods
    case None => seq(|units|, i requires 0 <= i < |units| => Job(organism, units[i], None))
    case Some(m) =>
      if |m| == |units| then seq(|units|, i requires 0 <= i < |units| => Job(organism, units[i], Some(m[i])))
      else seq(|m|, i requires 0 <= i < |m| => Job(organism, m[i], Some(m[i])))
  }

  function Jobs(inputs: Grouped, mods: Grouped, hasFunction: bool): seq<Job> {
    if inputs == [] then []
    else JobsOf(inputs[0].organism, inputs[0].units,
                if hasFunction then Some(UnitsFor(mods, inputs[0].organism)) else None)
         + Jobs(inputs[1..], mods, hasFunction)
  }

  /** The units of all organisms, one organism after the other. */
  function AllUnits(g: Grouped): seq<Unit> {
    if g == [] then [] else g[0].units + AllUnits(g[1..])
  }

  function Firsts(jobs: seq<Job>): (us: seq<Unit>)
    ensures |us| == |jobs| && forall i :: 0 <= i < |jobs| ==> us[i] == jobs[i].first
  {
    seq(|jobs|, i requires 0 <= i < |jobs| => jobs[i].first)
  }

  /** Without an input function every unit is handled once, in the order of
      the organisms and of their units, with nothing transformed beside it. */
  lemma {:induction false} JobsCoverUnits(inputs: Grouped, mods: Grouped)
    ensures Firsts(Jobs(inputs, mods, false)) == AllUnits(inputs)
    ensures forall j :: j in Jobs(inputs, mods, false) ==> j.second.None?
  {
    if inputs != [] {
      JobsCoverUnits(inputs[1..], mods);
      var head := JobsOf(inputs[0].organism, inputs[0].units, None);
      var rest := Jobs(inputs[1..], mods, false);
      assert Firsts(head + rest) == Firsts(head) + Firsts(rest);
      assert Firsts(head) == inputs[0].units;
    }
  }

  /** With an input function and as many transformed units as units, each
      unit is handled together with the transformed unit at its position. */
  lemma JobsPairTransformed(organism: string, units: seq<Unit>, m: seq<Unit>)
    requires |m| == |units|
    ensures forall i :: 0 <= i < |units| ==> JobsOf(organism, units, Some(m))[i] == Job(organism, units[i], Some(m[i]))
    ensures |JobsOf(organism, units, Some(m))| == |units|
  {
  }

  // ---------------------------------------------------------------------
  // The parameters a unit's templates can name.

  /** The name of item `k` of a list parameter: `name[k]`. */
  function Indexed(name: string, k: nat): string {
    name + "[" + NatToString(k) + "]"
  }

  /** Bind `name[k]` to item `k`, for `k` from `from` on. */
  function BindItems(env: Env, name: string, items: seq<string>, from: nat): Env
    decreases |items| - from
  {
    if from >= |items| then env
    else BindItems(env[Indexed(name, from) := Str(items[from])], name, items, from + 1)
  }

  /** `str()` of a `SingleAnalysis`: the names without quotes. */
  function UnitText(u: Unit): string {
    "[" + JoinWith(", ", Filenames(u)) + "]"
  }

  /** `str()` of a list of names. */
  function QuotedText(names: seq<string>): string {
    "[" + JoinWith(", ", seq(|names|, i requires 0 <= i < |names| => "'" + names[i] + "'")) + "]"
  }

  /** A unit parameter: `None`, or its text and its files by index. */
  function BindUnit(env: Env, name: string, u: Option<Unit>): Env {
    match u
    case None => env[name := NoneValue]
    case Some(v) => BindItems(env[name := Str(UnitText(v))], name, Filenames(v), 0)
  }

  /** The `output_filename` parameter. */
  function BindOutput(env: Env, o: OutputName): Env {
    match o
    case NoOutput => env["output_filename" := NoneValue]
    case OneName(n) => env["output_filename" := Str(n)]
    case NameList(ns) => BindItems(env["output_filename" := Str(QuotedText(ns))], "output_filename", ns, 0)
  }

  lemma {:induction false} BindItemsKeeps(env: Env, name: string, items: seq<string>, from: nat, key: string)
    requires forall k: nat :: from <= k < |items| ==> key != Indexed(name, k)
    ensures key in BindItems(env, name, items, from) <==> key in env
    ensures key in env ==> BindItems(env, name, items, from)[key] == env[key]
    decreases |items| - from
  {
    if from < |items| {
      BindItemsKeeps(env[Indexed(name, from) := Str(items[from])], name, items, from + 1, key);
    }
  }

  /** Every item of a list parameter can be named by its index, and binding
      the items touches no other name. */
  lemma {:induction false} BindItemsSpec(env: Env, name: string, items: seq<string>, from: nat)
    ensures forall k: nat :: from <= k < |items| ==>
      Indexed(name, k) in BindItems(env, name, items, from)
      && BindItems(env, name, items, from)[Indexed(name, k)] == Str(items[k])
    ensures forall key :: (forall k: nat :: from <= k < |items| ==> key != Indexed(name, k)) ==>
      (key in BindItems(env, name, items, from) <==> key in env)
    decreases |items| - from
  {
    if from < |items| {
      var env' := env[Indexed(name, from) := Str(items[from])];
      BindItemsSpec(env', name, items, from + 1);
      forall k: nat | from <= k < |items|
        ensures Indexed(name, k) in BindItems(env, name, items, from)
        ensures BindItems(env, name, items, from)[Indexed(name, k)] == Str(items[k])
      {
        if k == from {
          forall k': nat | from + 1 <= k' < |items| ensures Indexed(name, from) != Indexed(name, k') {
            if Indexed(name, from) == Indexed(name, k') {
              IndexedInjective(name, from, k');
            }
          }
          BindItemsKeeps(env', name, items, from + 1, Indexed(name, from));
        }
      }
      forall key | forall k: nat :: from <= k < |items| ==> key != Indexed(name, k)
        ensures key in BindItems(env, name, items, from) <==> key in env
      {
        BindItemsKeeps(env, name, items, from, key);
      }
    }
  }

  lemma IndexedInjective(name: string, a: nat, b: nat)
    requires Indexed(name, a) == Indexed(name, b)
    ensures a == b
  {
    var sa := NatToString(a);
    var sb := NatToString(b);
    assert "[" + sa + "]" == Indexed(name, a)[|name|..];
    assert "[" + sb + "]" == Indexed(name, b)[|name|..];
    assert sa == ("[" + sa + "]")[1..|sa| + 1];
    assert sb == ("[" + sb + "]")[1..|sb| + 1];
    assert |sa| == |sb|;
    NatToStringInjective(a, b);
  }

  /** A list of output names is bound as a whole and item by item, a single
      name as itself, no output as `None`. */
  lemma BindOutputSpec(env: Env, o: OutputName)
    ensures "output_filename" in BindOutput(env, o)
    ensures o.NoOutput? ==> BindOutput(env, o)["output_filename"] == NoneValue
    ensures o.OneName? ==> BindOutput(env, o)["output_filename"] == Str(o.name)
    ensures o.NameList? ==> forall k: nat :: k < |o.names| ==>
      Indexed("output_filename", k) in BindOutput(env, o)
      && BindOutput(env, o)[Indexed("output_filename", k)] == Str(o.names[k])
  {
    if o.NameList? {
      BindItemsSpec(env["output_filename" := Str(QuotedText(o.names))], "output_filename", o.names, 0);
      forall k: nat ensures k < |o.names| ==> "output_filename" != Indexed("output_filename", k) {
        assert |Indexed("output_filename", k)| > |"output_filename"|;
      }
      BindItemsKeeps(env["output_filename" := Str(QuotedText(o.names))], "output_filename", o.names, 0, "output_filename");
    }
  }

  /** `not organism` */
  predicate Falsy(organism: Option<string>) {
    organism.None? || organism.value == ""
  }

  /** The organism a unit's templates see: its own, or the human annotation. */
  function OrganismName(world: World, organism: Option<string>): string {
    if Falsy(organism) then world.humanAnnotation else organism.value
  }

  /** `_get_kit_additional_params` */
  function KitParams(world: World, organism: Option<string>, kit: Option<Kit>): Result<Env> {
    var org := OrganismName(world, organism);
    if kit.Some? && StartsWith(org, "hg") then
      var attribute := "indels_" + org;
      if attribute in kit.value.attributes then Ok(map["indels" := Str(kit.value.attributes[attribute])])
      else Err(MissingKitAttribute(attribute))
    else Ok(map[])
  }

  /** `_get_additional_params` */
  function AdditionalParams(world: World, organism: Option<string>): Env {
    var org := OrganismName(world, organism);
    var e0 := map["organism_str" := Str(if Falsy(organism) then "" else "." + org)];
    var e1 := match world.genome(org)
              case Some(gi) => e0["genome_ref" := Str(gi.0)]["genome_index" := Str(gi.1)]
              case None => e0;
    var e2 := match world.dbsnp(org) case Some(d) => e1["dbsnp" := Str(d)] case None => e1;
    match world.cosmic(org) case Some(c) => e2["cosmic" := Str(c)] case None => e2
  }

  /** The kit parameters: `indels` is bound exactly when there is a kit and
      the organism is human, and then only if the kit has the organism's
      attribute; without it the step fails. */
  lemma KitParamsSpec(world: World, organism: Option<string>, kit: Option<Kit>)
    ensures var org := OrganismName(world, organism);
      && (KitParams(world, organism, kit).Err? <==>
            kit.Some? && StartsWith(org, "hg") && "indels_" + org !in kit.value.attributes)
      && (KitParams(world, organism, kit).Ok? ==>
            && KitParams(world, organism, kit).value.Keys <= {"indels"}
            && ("indels" in KitParams(world, organism, kit).value <==> kit.Some? && StartsWith(org, "hg"))
            && ("indels" in KitParams(world, organism, kit).value ==>
                  KitParams(world, organism, kit).value["indels"] == Str(kit.value.attributes["indels_" + org])))
  {
  }

  /** The organism parameters: `organism_str` is empty for a unit without an
      organism and `.<organism>` otherwise; each configuration entry is bound
      exactly when the configuration has it for the organism the unit is
      taken to be. */
  lemma AdditionalParamsSpec(world: World, organism: Option<string>)
    ensures var p := AdditionalParams(world, organism);
      var org := OrganismName(world, organism);
      && "organism_str" in p
      && (p["organism_str"] == Str("") <==> Falsy(organism))
      && (!Falsy(organism) ==> p["organism_str"] == Str("." + organism.value))
      && ("genome_ref" in p <==> world.genome(org).Some?)
      && ("genome_index" in p <==> world.genome(org).Some?)
      && (world.genome(org).Some? ==>
            p["genome_ref"] == Str(world.genome(org).value.0) && p["genome_index"] == Str(world.genome(org).value.1))
      && ("dbsnp" in p <==> world.dbsnp(org).Some?)
      && (world.dbsnp(org).Some? ==> p["dbsnp"] == Str(world.dbsnp(org).value))
      && ("cosmic" in p <==> world.cosmic(org).Some?)
      && (world.cosmic(org).Some? ==> p["cosmic"] == Str(world.cosmic(org).value))
      && p.Keys <= {"organism_str", "genome_ref", "genome_index", "dbsnp", "cosmic"}
  {
    if !Falsy(organism) {
      assert |"." + organism.value| > 0;
    }
  }

  /** `analysis_input.sample or analysis_input.control` */
  function UnitFileData(u: Unit): (r: Option<FileData>)
    ensures r.Some? ==> r.value in u && r.value.barcode.Some?
    ensures r.None? <==> forall i :: 0 <= i < |u| ==> TypeOf(u[i]) == Unspecified
  {
    if SampleOf(u).Some? then SampleOf(u) else ControlOf(u)
  }

  function UnitOrganism(fd: Option<FileData>): Option<string> {
    if fd.Some? && fd.value.barcode.Some? then fd.value.barcode.value.organism else None
  }

  function UnitKit(world: World, fd: Option<FileData>): Option<Kit> {
    if fd.Some? && fd.value.barcode.Some? then world.kitOf(fd.value.barcode.value) else None
  }

  /** The parameters `_handle_analysis` collects for its templates. */
  function UnitEnv(input: Unit, original: Option<Unit>, second: Option<Unit>, fd: Option<FileData>, organism: string): Env {
    var e0 := BindUnit(map[], "analysis_input", Some(input));
    var e1 := BindUnit(e0, "input_filenames", Some(input));
    var e2 := BindUnit(e1, "real_analysis_input", original);
    var e3 := BindUnit(e2, "mod_analysis_input", second);
    var e4 := e3["file_data" := if fd.Some? then Str(fd.value.filename) else NoneValue]["organism" := Str(organism)];
    if |input| == 1 then e4["input_filename" := Str(input[0].filename)] else e4
  }

  /** `input_filename` can be named exactly when the unit holds one file. */
  lemma UnitEnvSingleFile(input: Unit, original: Option<Unit>, second: Option<Unit>, fd: Option<FileData>, organism: string)
    ensures var env := UnitEnv(input, original, second, fd, organism);
      && ("input_filename" in env <==> |input| == 1)
      && (|input| == 1 ==> env["input_filename"] == Str(input[0].filename))
      && env["organism"] == Str(organism)
  {
    var e0 := BindUnit(map[], "analysis_input", Some(input));
    var e1 := BindUnit(e0, "input_filenames", Some(input));
    var e2 := BindUnit(e1, "real_analysis_input", original);
    var e3 := BindUnit(e2, "mod_analysis_input", second);
    NotIndexedIn(map[]["analysis_input" := Str(UnitText(input))], "analysis_input", Filenames(input));
    NotIndexedIn(e0["input_filenames" := Str(UnitText(input))], "input_filenames", Filenames(input));
    if original.Some? {
      NotIndexedIn(e1["real_analysis_input" := Str(UnitText(original.value))], "real_analysis_input", Filenames(original.value));
    }
    if second.Some? {
      NotIndexedIn(e2["mod_analysis_input" := Str(UnitText(second.value))], "mod_analysis_input", Filenames(second.value));
    }
  }

  /** `input_filename` is never the name of a unit's item. */
  lemma NotIndexedIn(env: Env, name: string, items: seq<string>)
    ensures "input_filename" in BindItems(env, name, items, 0) <==> "input_filename" in env
  {
    forall k: nat | k < |items| ensures "input_filename" != Indexed(name, k) {
      var s := Indexed(name, k);
      assert s[|s| - 1] == ']';
      assert "input_filename"[|"input_filename"| - 1] == 'e';
    }
    BindItemsKeeps(env, name, items, 0, "input_filename");
  }

  /** The only_human gate: units of a non-human organism run nothing. */
  predicate Admitted(step: Step, organism: Option<string>) {
    !step.onlyHuman || Falsy(organism) || StartsWith(organism.value, "hg")
  }

  // ---------------------------------------------------------------------
  // `_unlink_filename`

  /** `filename[:-4] + ".bai"` */
  function BaiOf(name: string): string {
    (if |name| >= 4 then name[..|name| - 4] else "") + ".bai"
  }

  predicate BamToLower(name: string) {
    LowerAscii(Extension(name)) == ".bam"
  }

  /** The paths left, and the error that stopped the deletion if any. */
  datatype Removal = Removal(paths: set<string>, error: Option<Error>)

  /** Delete each name in turn, and a `.bam`'s index beside it when it
      exists; a name that does not exist stops with `FileNotFoundError`. */
  function Unlinked(paths: set<string>, names: seq<string>): Removal {
    if names == [] then Removal(paths, None)
    else if names[0] !in paths then Removal(paths, Some(FileNotFound(names[0])))
    else
      var p := paths - {names[0]};
      Unlinked(if BamToLower(names[0]) && BaiOf(names[0]) in p then p - {BaiOf(names[0])} else p, names[1..])
  }

  /** Whether the step deletes its inputs, and which: the untransformed
      unit when there is an input function. */
  function UnlinkStep(step: Step, canUnlink: bool, runFake: bool, input: Unit, original: Option<Unit>, paths: set<string>): Removal {
    if step.unlinkInputs && canUnlink && !runFake then
      if step.inputFunction.Some? && (original.None? || original.value == []) then Removal(paths, Some(AssertionFailed("real_input_filename")))
      else Unlinked(paths, Filenames(if step.inputFunction.Some? then original.value else input))
    else Removal(paths, None)
  }

  /** A path is a companion of the names when it is the index of one of
      their `.bam` files. */
  predicate Companion(p: string, names: seq<string>) {
    exists i :: 0 <= i < |names| && BamToLower(names[i]) && p == BaiOf(names[i])
  }

  /** Deleting removes nothing but the names and their indexes. A full run
      leaves none of the names and no index of a `.bam` name; a run that
      stops names a file that is not there at that point, one of the names. */
  lemma {:induction false} UnlinkedSpec(paths: set<string>, names: seq<string>)
    ensures var r := Unlinked(paths, names);
      && r.paths <= paths
      && (forall p :: p in paths && p !in r.paths ==> p in names || Companion(p, names))
      && (r.error.None? ==> forall n :: n in names ==> n !in r.paths)
      && (r.error.None? ==> forall n :: n in names && BamToLower(n) ==> BaiOf(n) !in r.paths)
      && (r.error.Some? ==> r.error.value.FileNotFound? && r.error.value.path in names
                            && r.error.value.path !in r.paths)
  {
    if names != [] && names[0] in paths {
      var p := paths - {names[0]};
      var p' := if BamToLower(names[0]) && BaiOf(names[0]) in p then p - {BaiOf(names[0])} else p;
      UnlinkedSpec(p', names[1..]);
      var r := Unlinked(paths, names);
      assert r == Unlinked(p', names[1..]);
      if r.error.None? {
        forall n | n in names && BamToLower(n) ensures BaiOf(n) !in r.paths {
          if n != names[0] {
            assert n in names[1..];
          }
        }
      }
      forall q | q in paths && q !in r.paths ensures q in names || Companion(q, names) {
        if q != names[0] && q in p' {
          assert q in names[1..] || Companion(q, names[1..]);
          if Companion(q, names[1..]) {
            var i :| 0 <= i < |names[1..]| && BamToLower(names[1..][i]) && q == BaiOf(names[1..][i]);
            assert names[i + 1] == names[1..][i];
          }
        } else if q != names[0] {
          assert BamToLower(names[0]) && q == BaiOf(names[0]);
        }
      }
    }
  }

  /** Deleting all existing, distinct names none of which is another's
      index always completes. */
  lemma {:induction false} UnlinkedCompletes(paths: set<string>, names: seq<string>)
    requires forall i :: 0 <= i < |names| ==> names[i] in paths
    requires forall i, j :: 0 <= i < j < |names| ==> names[i] != names[j]
    requires forall i, j :: 0 <= i < |names| && 0 <= j < |names| ==> names[j] != BaiOf(names[i])
    ensures Unlinked(paths, names).error.None?
  {
    if names != [] {
      var p := paths - {names[0]};
      var p' := if BamToLower(names[0]) && BaiOf(names[0]) in p then p - {BaiOf(names[0])} else p;
      forall i | 0 <= i < |names[1..]| ensures names[1..][i] in p' {
        assert names[1..][i] == names[i + 1];
      }
      UnlinkedCompletes(p', names[1..]);
    }
  }

  /** Nothing is deleted unless unlinking is asked for, allowed by the
      analysis and not faked; with an input function it is the untransformed
      files that go. */
  lemma UnlinkStepSpec(step: Step, canUnlink: bool, runFake: bool, input: Unit, original: Option<Unit>, paths: set<string>)
    ensures !(step.unlinkInputs && canUnlink && !runFake) ==>
      UnlinkStep(step, canUnlink, runFake, input, original, paths) == Removal(paths, None)
    ensures step.unlinkInputs && canUnlink && !runFake && step.inputFunction.None? ==>
      UnlinkStep(step, canUnlink, runFake, input, original, paths) == Unlinked(paths, Filenames(input))
    ensures step.unlinkInputs && canUnlink && !runFake && step.inputFunction.Some? && original.Some? && original.value != [] ==>
      UnlinkStep(step, canUnlink, runFake, input, original, paths) == Unlinked(paths, Filenames(original.value))
  {
  }

  // ---------------------------------------------------------------------
  // `_handle_analysis`

  /** Run the commands from index `k` on, recording the output names after
      each one that succeeds when there are output names. */
  function RunCommands(step: Step, world: World, runFake: bool, cmds: seq<Runnable>, k: nat, env: Env,
                       o: OutputName, organism: string, outs: NameMap, bams: NameMap): Result<(NameMap, NameMap)>
    decreases |cmds| - k
  {
    if k >= |cmds| then Ok((outs, bams))
    else
      match HandleCommand(cmds[k], step.command, env, runFake, world.exitStatus, step.errorString, step.exceptionString)
      case Err(e) => Err(e)
      case Ok(_) =>
        var next := if Truthy(o)
                    then HandledOutput(outs, bams, k, |cmds|, organism, o, world.cwd, step.saveOnlyLast,
                                       step.splitByOrganism, world.parse)
                    else (outs, bams);
        RunCommands(step, world, runFake, cmds, k + 1, env, o, organism, next.0, next.1)
  }

  /** How a unit, or the whole loop over the units, ends: with the output
      maps and the paths left, or with an error and the paths left. */
  datatype Outcome =
    | Done(outs: NameMap, bams: NameMap, paths: set<string>)
    | Failed(paths: set<string>, error: Error)

  function Finish(outs: NameMap, bams: NameMap, r: Removal): Outcome {
    if r.error.Some? then Failed(r.paths, r.error.value) else Done(outs, bams, r.paths)
  }

  /** The work of an admitted unit: name its outputs, prepare its commands
      and run them; the output maps after the last command. */
  function UnitCommands(step: Step, world: World, runFake: bool, env: Env, input: Unit, organism: string,
                        outs: NameMap, bams: NameMap): Result<(NameMap, NameMap)>
  {
    match OutputFilename(step.output, env, Filenames(input))
    case Err(e) => Err(e)
    case Ok(o) =>
      var cenv := BindOutput(env, o);
      match CommandList(step.command, cenv)
      case Err(e) => Err(e)
      case Ok(cmds) => RunCommands(step, world, runFake, cmds, 0, cenv, o, organism, outs, bams)
  }

  /** A unit once its files are chosen: the kit parameters, the only_human
      gate, the commands, and the deletion of the inputs. */
  function UnitOutcome(step: Step, world: World, runFake: bool, canUnlink: bool, input: Unit, original: Option<Unit>,
                       second: Option<Unit>, outs: NameMap, bams: NameMap, paths: set<string>): Outcome
  {
    var fd := UnitFileData(input);
    var organism := UnitOrganism(fd);
    match KitParams(world, organism, UnitKit(world, fd))
    case Err(e) => Failed(paths, e)
    case Ok(kitEnv) => KitOutcome(step, world, runFake, canUnlink, input, original, second, kitEnv, outs, bams, paths)
  }

  /** A unit whose kit parameters are `kitEnv`: the only_human gate, the
      commands, and the deletion of the inputs. */
  function KitOutcome(step: Step, world: World, runFake: bool, canUnlink: bool, input: Unit, original: Option<Unit>,
                      second: Option<Unit>, kitEnv: Env, outs: NameMap, bams: NameMap, paths: set<string>): Outcome
  {
    var fd := UnitFileData(input);
    var organism := UnitOrganism(fd);
    if !Admitted(step, organism) then Finish(outs, bams, UnlinkStep(step, canUnlink, runFake, input, original, paths))
    else
      var org := OrganismName(world, organism);
      var env := UnitEnv(input, original, second, fd, org) + kitEnv + AdditionalParams(world, organism);
      match UnitCommands(step, world, runFake, env, input, org, outs, bams)
      case Err(e) => Failed(paths, e)
      case Ok(r) => Finish(r.0, r.1, UnlinkStep(step, canUnlink, runFake, input, original, paths))
  }

  /** One execution unit: with an input function it works on the
      transformed unit, which must not be empty; it must have a sample or a
      control unless raw names are allowed. */
  function Analyzed(step: Step, world: World, runFake: bool, canUnlink: bool, job: Job,
                    outs: NameMap, bams: NameMap, paths: set<string>): Outcome
  {
    var hasFunction := step.inputFunction.Some?;
    if hasFunction && (job.second.None? || job.second.value == []) then Failed(paths, AssertionFailed("mod_analysis_input"))
    else
      var input := if hasFunction then job.second.value else job.first;
      if !step.allowRawFilenames && UnitFileData(input).None? then Failed(paths, AssertionFailed("file_data"))
      else UnitOutcome(step, world, runFake, canUnlink, input, if hasFunction then Some(job.first) else None,
                       job.second, outs, bams, paths)
  }

  /** The units from `k` on; the first failure aborts the step. */
  function RunJobs(step: Step, world: World, runFake: bool, canUnlink: bool, jobs: seq<Job>, k: nat,
                   outs: NameMap, bams: NameMap, paths: set<string>): Outcome
    decreases |jobs| - k
  {
    if k >= |jobs| then Done(outs, bams, paths)
    else
      match Analyzed(step, world, runFake, canUnlink, jobs[k], outs, bams, paths)
      case Failed(p, e) => Failed(p, e)
      case Done(o, b, p) => RunJobs(step, world, runFake, canUnlink, jobs, k + 1, o, b, p)
  }

  /** One unit of the loop: a failure ends it, success moves to the next. */
  lemma RunJobsStep(step: Step, world: World, runFake: bool, canUnlink: bool, jobs: seq<Job>, k: nat,
                    outs: NameMap, bams: NameMap, paths: set<string>)
    requires k < |jobs|
    ensures var r := Analyzed(step, world, runFake, canUnlink, jobs[k], outs, bams, paths);
      RunJobs(step, world, runFake, canUnlink, jobs, k, outs, bams, paths)
        == if r.Failed? then r else RunJobs(step, world, runFake, canUnlink, jobs, k + 1, r.outs, r.bams, r.paths)
  {
  }

  // ---------------------------------------------------------------------
  // `__call__`

  /** The `Analysis` fields a step reads and commits. */
  datatype AnalysisState = AnalysisState(last: LastFiles, canUnlink: bool, bamfiles: NameMap)

  /** The end of `__call__`. */
  function Commit(step: Step, a: AnalysisState, outs: NameMap, bams: NameMap): AnalysisState {
    var a1 := if step.overrideLastFiles then a.(last := FromOutputs(outs), canUnlink := true) else a;
    if step.writeBamFiles && bams != [] then a1.(bamfiles := bams) else a1
  }

  datatype StepResult = StepResult(analysis: AnalysisState, paths: set<string>, error: Option<Error>)

  /** A whole step: gather the units, handle each, then commit. A failure
      leaves the analysis as it was, but not the files already deleted. */
  function Execution(step: Step, world: World, runFake: bool, useNormals: bool, a: AnalysisState,
                     paths: set<string>): StepResult
  {
    match InputFilenames(step, world, a.last, useNormals)
    case Err(e) => StepResult(a, paths, Some(e))
    case Ok(io) =>
      var jobs := Jobs(io.0, io.1, step.inputFunction.Some?);
      match RunJobs(step, world, runFake, a.canUnlink, jobs, 0, [], [], paths)
      case Failed(p, e) => StepResult(a, p, Some(e))
      case Done(outs, bams, p) => StepResult(Commit(step, a, outs, bams), p, None)
  }

  /** Once the units are gathered, the step is the loop over them and the commit. */
  lemma ExecutionRuns(step: Step, world: World, runFake: bool, useNormals: bool, a: AnalysisState,
                      paths: set<string>, io: (Grouped, Grouped))
    requires InputFilenames(step, world, a.last, useNormals) == Ok(io)
    ensures var r := RunJobs(step, world, runFake, a.canUnlink, Jobs(io.0, io.1, step.inputFunction.Some?), 0, [], [], paths);
      Execution(step, world, runFake, useNormals, a, paths)
        == if r.Failed? then StepResult(a, r.paths, Some(r.error))
           else StepResult(Commit(step, a, r.outs, r.bams), r.paths, None)
  {
  }

  // ---------------------------------------------------------------------
  // `override_last_operation_filename`

  /** The messages of `override_last_operation_filename`. */
  const NoOutputFile := "last operation did not leave an output file"
  const ListNotSingle := "last operation created a list with a number of output files different than one"
  const DictNotSingle := "last operation created a dict using more than one organism"
  const DictListNotSingle :=
    "last operation created a dict of lists with one list, but the list contains a number of filenames different than one"
  const InvalidDict := "last operation created an invalid dict"
  const InvalidObject := "last operation created an invalid object"

  predicate FalsyLast(last: LastFiles) {
    || last.NoFiles?
    || (last.LastName? && last.name == "")
    || (last.LastList? && last.names == [])
    || (last.LastDict? && last.entries == [])
  }

  function Overridden(last: LastFiles, name: string): Result<LastFiles> {
    if FalsyLast(last) then Err(LastOperation(NoOutputFile))
    else
      match last
      case LastName(_) => Ok(LastName(name))
      case LastList(ns) =>
        if |ns| != 1 then Err(LastOperation(ListNotSingle))
        else Ok(LastList([name]))
      case LastDict(es) =>
        if |es| != 1 then Err(LastOperation(DictNotSingle))
        else
          (match es[0].1
           case EntryName(_) => Ok(LastDict([(es[0].0, EntryName(name))]))
           case EntryList(ns) =>
             if |ns| != 1
             then Err(LastOperation(DictListNotSingle))
             else Ok(LastDict([(es[0].0, EntryList([name]))]))
           case EntryOther => Err(LastOperation(InvalidDict)))
      case _ => Err(LastOperation(InvalidObject))
  }

  /** The single name a value of `last_operation_filenames` holds, if it
      holds exactly one in a form the override knows. */
  function SoleName(last: LastFiles): Option<string> {
    match last
    case LastName(n) => if n != "" then Some(n) else None
    case LastList(ns) => if |ns| == 1 then Some(ns[0]) else None
    case LastDict(es) =>
      if |es| != 1 then None
      else if es[0].1.EntryName? then Some(es[0].1.name)
      else if es[0].1.EntryList? && |es[0].1.names| == 1 then Some(es[0].1.names[0])
      else None
    case _ => None
  }

  function EntryNames(e: Entry): seq<string> {
    match e
    case EntryName(n) => [n]
    case EntryList(ns) => ns
    case EntryOther => []
  }

  /** The names a dict of last files holds under `k`. */
  function EntriesGet(es: seq<(string, Entry)>, k: string): seq<string> {
    if es == [] then [] else if es[0].0 == k then EntryNames(es[0].1) else EntriesGet(es[1..], k)
  }

  /** The names `last_operation_filenames` holds under organism `k`. */
  function LastGet(last: LastFiles, k: string): seq<string> {
    if last.LastDict? then EntriesGet(last.entries, k) else []
  }

  /** Every name the value holds, in order. */
  function LastNames(last: LastFiles): seq<string> {
    match last
    case LastName(n) => [n]
    case LastList(ns) => ns
    case LastDict(es) => EntriesNames(es)
    case _ => []
  }

  function EntriesNames(es: seq<(string, Entry)>): seq<string> {
    if es == [] then [] else EntryNames(es[0].1) + EntriesNames(es[1..])
  }

  /** The override succeeds exactly on a value holding one name; it then
      holds the new name in the same form, under the same organism, and a
      failure is one of the override's own errors. */
  lemma OverrideSpec(last: LastFiles, name: string)
    ensures Overridden(last, name).Ok? <==> SoleName(last).Some?
    ensures Overridden(last, name).Err? ==> Overridden(last, name).error.LastOperation?
    ensures Overridden(last, name).Ok? ==>
      var r := Overridden(last, name).value;
      && LastNames(r) == [name]
      && (r.LastName? <==> last.LastName?)
      && (r.LastList? <==> last.LastList?)
      && (r.LastDict? <==> last.LastDict?)
      && (r.LastDict? ==> |r.entries| == 1 && r.entries[0].0 == last.entries[0].0
                          && r.entries[0].1.EntryName? == last.entries[0].1.EntryName?)
  {
    if last.LastDict? && |last.entries| == 1 {
      var r := Overridden(last, name);
      if r.Ok? {
        assert r.value.entries[1..] == [];
        assert LastNames(r.value) == EntryNames(r.value.entries[0].1) + EntriesNames([]);
      }
    }
  }

  // ---------------------------------------------------------------------
  // Properties of a step.

  /** When every command succeeds, each one records the unit's output names
      (when there are any) unless only the last one's are kept. */
  lemma {:induction false} SaveOnlyLastRecordsOnce(step: Step, world: World, runFake: bool, cmds: seq<Runnable>, k: nat,
                                                   env: Env, o: OutputName, organism: string, outs: NameMap, bams: NameMap)
    requires step.saveOnlyLast && Truthy(o) && k < |cmds|
    requires forall j :: k <= j < |cmds| ==>
      HandleCommand(cmds[j], step.command, env, runFake, world.exitStatus, step.errorString, step.exceptionString).Ok?
    ensures RunCommands(step, world, runFake, cmds, k, env, o, organism, outs, bams)
         == Ok(RecordNames(outs, bams, Absolutized(world.cwd, Names(o)), organism, step.splitByOrganism, world.parse))
    decreases |cmds| - k
  {
    if k < |cmds| - 1 {
      SaveOnlyLastRecordsOnce(step, world, runFake, cmds, k + 1, env, o, organism, outs, bams);
    } else {
      var r := RecordNames(outs, bams, Absolutized(world.cwd, Names(o)), organism, step.splitByOrganism, world.parse);
      assert RunCommands(step, world, runFake, cmds, k + 1, env, o, organism, r.0, r.1) == Ok(r);
    }
  }

  /** A faked run never fails a command. */
  lemma {:induction false} FakeRunSucceeds(step: Step, world: World, cmds: seq<Runnable>, k: nat, env: Env,
                                           o: OutputName, organism: string, outs: NameMap, bams: NameMap)
    ensures RunCommands(step, world, true, cmds, k, env, o, organism, outs, bams).Ok?
    decreases |cmds| - k
  {
    if k < |cmds| {
      var next := if Truthy(o)
                  then HandledOutput(outs, bams, k, |cmds|, organism, o, world.cwd, step.saveOnlyLast,
                                     step.splitByOrganism, world.parse)
                  else (outs, bams);
      FakeRunSucceeds(step, world, cmds, k + 1, env, o, organism, next.0, next.1);
    }
  }

  lemma {:induction false} RunCommandsConsistent(step: Step, world: World, runFake: bool, cmds: seq<Runnable>, k: nat,
                                                 env: Env, o: OutputName, organism: string, outs: NameMap, bams: NameMap)
    requires Consistent(outs, bams)
    ensures var r := RunCommands(step, world, runFake, cmds, k, env, o, organism, outs, bams);
      r.Ok? ==> Consistent(r.value.0, r.value.1)
    decreases |cmds| - k
  {
    if k < |cmds| {
      var next := if Truthy(o)
                  then HandledOutput(outs, bams, k, |cmds|, organism, o, world.cwd, step.saveOnlyLast,
                                     step.splitByOrganism, world.parse)
                  else (outs, bams);
      if Truthy(o) {
        HandledOutputSpec(outs, bams, k, |cmds|, organism, o, world.cwd, step.saveOnlyLast, step.splitByOrganism, world.parse);
      }
      RunCommandsConsistent(step, world, runFake, cmds, k + 1, env, o, organism, next.0, next.1);
    }
  }

  lemma UnitCommandsConsistent(step: Step, world: World, runFake: bool, env: Env, input: Unit, organism: string,
                               outs: NameMap, bams: NameMap)
    requires Consistent(outs, bams)
    ensures var r := UnitCommands(step, world, runFake, env, input, organism, outs, bams);
      r.Ok? ==> Consistent(r.value.0, r.value.1)
  {
    var o := OutputFilename(step.output, env, Filenames(input));
    if o.Ok? {
      var cenv := BindOutput(env, o.value);
      var cmds := CommandList(step.command, cenv);
      if cmds.Ok? {
        RunCommandsConsistent(step, world, runFake, cmds.value, 0, cenv, o.value, organism, outs, bams);
      }
    }
  }

  lemma UnitOutcomeConsistent(step: Step, world: World, runFake: bool, canUnlink: bool, input: Unit,
                              original: Option<Unit>, second: Option<Unit>, outs: NameMap, bams: NameMap,
                              paths: set<string>)
    requires Consistent(outs, bams)
    ensures var r := UnitOutcome(step, world, runFake, canUnlink, input, original, second, outs, bams, paths);
      r.Done? ==> Consistent(r.outs, r.bams)
  {
    var fd := UnitFileData(input);
    var organism := UnitOrganism(fd);
    var kit := KitParams(world, organism, UnitKit(world, fd));
    if kit.Ok? && Admitted(step, organism) {
      var org := OrganismName(world, organism);
      var env := UnitEnv(input, original, second, fd, org) + kit.value + AdditionalParams(world, organism);
      UnitCommandsConsistent(step, world, runFake, env, input, org, outs, bams);
    }
  }

  /** A unit keeps the bam map the `.bam` part of the output map. */
  lemma AnalyzedConsistent(step: Step, world: World, runFake: bool, canUnlink: bool, job: Job,
                           outs: NameMap, bams: NameMap, paths: set<string>)
    requires Consistent(outs, bams)
    ensures var r := Analyzed(step, world, runFake, canUnlink, job, outs, bams, paths);
      r.Done? ==> Consistent(r.outs, r.bams)
  {
    var hasFunction := step.inputFunction.Some?;
    if !(hasFunction && (job.second.None? || job.second.value == [])) {
      var input := if hasFunction then job.second.value else job.first;
      UnitOutcomeConsistent(step, world, runFake, canUnlink, input, if hasFunction then Some(job.first) else None,
                            job.second, outs, bams, paths);
    }
  }

  lemma {:induction false} RunJobsConsistent(step: Step, world: World, runFake: bool, canUnlink: bool, jobs: seq<Job>,
                                             k: nat, outs: NameMap, bams: NameMap, paths: set<string>)
    requires Consistent(outs, bams)
    ensures var r := RunJobs(step, world, runFake, canUnlink, jobs, k, outs, bams, paths);
      r.Done? ==> Consistent(r.outs, r.bams)
    decreases |jobs| - k
  {
    if k < |jobs| {
      var a := Analyzed(step, world, runFake, canUnlink, jobs[k], outs, bams, paths);
      AnalyzedConsistent(step, world, runFake, canUnlink, jobs[k], outs, bams, paths);
      if a.Done? {
        RunJobsConsistent(step, world, runFake, canUnlink, jobs, k + 1, a.outs, a.bams, a.paths);
      }
    }
  }

  lemma {:induction false} FromOutputsGet(m: NameMap, k: string)
    ensures LastGet(FromOutputs(m), k) == Get(m, k)
  {
    if m != [] {
      assert FromOutputs(m).entries[1..] == FromOutputs(m[1..]).entries;
      FromOutputsGet(m[1..], k);
    }
  }

  /** The outcome of the loop over the units of a step, or the error of
      gathering them. */
  function Ran(step: Step, world: World, runFake: bool, useNormals: bool, a: AnalysisState,
               paths: set<string>): Result<Outcome>
  {
    match InputFilenames(step, world, a.last, useNormals)
    case Err(e) => Err(e)
    case Ok(io) => Ok(RunJobs(step, world, runFake, a.canUnlink, Jobs(io.0, io.1, step.inputFunction.Some?), 0, [], [], paths))
  }

  /** What a step commits. A failed step changes nothing in the analysis.
      A step that completes replaces `last_operation_filenames` by its
      output dict and allows unlinking when it overrides, and otherwise
      leaves both; it replaces the bam files only when asked to and when it
      produced some, and then, if it also overrode, the new bam files are
      exactly the `.bam` names of the new last files, organism by
      organism. */
  lemma ExecutionCommits(step: Step, world: World, runFake: bool, useNormals: bool, a: AnalysisState, paths: set<string>)
    ensures var r := Execution(step, world, runFake, useNormals, a, paths);
      && (r.error.Some? ==> r.analysis == a)
      && (r.error.None? && step.overrideLastFiles ==> r.analysis.last.LastDict? && r.analysis.canUnlink)
      && (!step.overrideLastFiles ==> r.analysis.last == a.last && r.analysis.canUnlink == a.canUnlink)
      && (!step.writeBamFiles ==> r.analysis.bamfiles == a.bamfiles)
      && (r.error.None? && step.overrideLastFiles && r.analysis.bamfiles != a.bamfiles ==>
            forall k :: Get(r.analysis.bamfiles, k) == BamsOf(LastGet(r.analysis.last, k)))
  {
    var r := Execution(step, world, runFake, useNormals, a, paths);
    match InputFilenames(step, world, a.last, useNormals)
    case Err(_) =>
    case Ok(io) =>
      var jobs := Jobs(io.0, io.1, step.inputFunction.Some?);
      assert Consistent([], []);
      RunJobsConsistent(step, world, runFake, a.canUnlink, jobs, 0, [], [], paths);
      var o := RunJobs(step, world, runFake, a.canUnlink, jobs, 0, [], [], paths);
      if o.Done? && step.overrideLastFiles && r.analysis.bamfiles != a.bamfiles {
        forall k ensures Get(r.analysis.bamfiles, k) == BamsOf(LastGet(r.analysis.last, k)) {
          FromOutputsGet(o.outs, k);
        }
      }
  }

  /** A completed step commits what its loop over the units produced: the
      last files hold, organism by organism, the step's output lists, and the
      bam files become the step's bam map, the `.bam` part of its outputs. */
  lemma CommitOfRun(step: Step, world: World, runFake: bool, useNormals: bool, a: AnalysisState, paths: set<string>)
    ensures var r := Execution(step, world, runFake, useNormals, a, paths);
      var ran := Ran(step, world, runFake, useNormals, a, paths);
      && (r.error.None? <==> ran.Ok? && ran.value.Done?)
      && (ran.Ok? && ran.value.Done? ==>
            var o := ran.value;
            && (forall k :: Get(o.bams, k) == BamsOf(Get(o.outs, k)))
            && (step.overrideLastFiles ==> forall k :: LastGet(r.analysis.last, k) == Get(o.outs, k))
            && (step.writeBamFiles && o.bams != [] ==> r.analysis.bamfiles == o.bams)
            && (!(step.writeBamFiles && o.bams != []) ==> r.analysis.bamfiles == a.bamfiles))
  {
    var r := Execution(step, world, runFake, useNormals, a, paths);
    match InputFilenames(step, world, a.last, useNormals)
    case Err(_) =>
    case Ok(io) =>
      var jobs := Jobs(io.0, io.1, step.inputFunction.Some?);
      assert Consistent([], []);
      RunJobsConsistent(step, world, runFake, a.canUnlink, jobs, 0, [], [], paths);
      var o := RunJobs(step, world, runFake, a.canUnlink, jobs, 0, [], [], paths);
      if o.Done? && step.overrideLastFiles {
        forall k ensures LastGet(r.analysis.last, k) == Get(o.outs, k) {
          FromOutputsGet(o.outs, k);
        }
      }
  }

  /** The unit's organism is set and is not human: the only_human gate
      refuses it. */
  predicate NonHumanUnit(u: Unit) {
    var org := UnitOrganism(UnitFileData(u));
    org.Some? && org.value != "" && !StartsWith(org.value, "hg")
  }

  /** The units that are not human under `only_human` run no command and
      record no output, but their inputs are still deleted as asked. With an
      input function, a missing or empty transformed unit fails the
      assertion; otherwise the organism is read from the transformed unit
      while the files deleted are those of the original unit. */
  lemma OnlyHumanSkips(step: Step, world: World, runFake: bool, canUnlink: bool, job: Job,
                       outs: NameMap, bams: NameMap, paths: set<string>)
    requires step.onlyHuman
    ensures var r := Analyzed(step, world, runFake, canUnlink, job, outs, bams, paths);
      step.inputFunction.Some? && (job.second.None? || job.second.value == []) ==>
        r == Failed(paths, AssertionFailed("mod_analysis_input"))
    ensures var r := Analyzed(step, world, runFake, canUnlink, job, outs, bams, paths);
      var transformed := step.inputFunction.Some?;
      !(transformed && (job.second.None? || job.second.value == [])) &&
      NonHumanUnit(if transformed then job.second.value else job.first) ==>
        var u :=
          if !(step.unlinkInputs && canUnlink && !runFake) then Removal(paths, None)
          else if transformed && job.first == [] then Removal(paths, Some(AssertionFailed("real_input_filename")))
          else Unlinked(paths, Filenames(job.first));
        && r.paths == u.paths
        && (r.Done? <==> u.error.None?)
        && (r.Done? ==> r.outs == outs && r.bams == bams)
        && (r.Failed? ==> r.error == u.error.value)
  {
    var transformed := step.inputFunction.Some?;
    if !(transformed && (job.second.None? || job.second.value == [])) {
      var input := if transformed then job.second.value else job.first;
      if NonHumanUnit(input) {
        var fd := UnitFileData(input);
        var org := UnitOrganism(fd);
        assert !StartsWith(OrganismName(world, org), "hg");
        assert KitParams(world, org, UnitKit(world, fd)) == Ok(map[]);
      }
    }
  }

  /** The input files: without a list of its own and without files from the
      last step the step fails; with an input function the transformed units
      come in the same organisms, in the same order, as the units. */
  lemma InputFilenamesSpec(step: Step, world: World, last: LastFiles, useNormals: bool)
    ensures step.inputFilenames.None? && last.NoFiles? ==> InputFilenames(step, world, last, useNormals) == Err(MissingInput)
    ensures var r := InputFilenames(step, world, last, useNormals);
      r.Ok? && step.inputFunction.Some? ==> Organisms(r.value.1) == Organisms(r.value.0)
    ensures var r := InputFilenames(step, world, last, useNormals);
      r.Ok? && step.inputFunction.None? ==> r.value.1 == []
    ensures var r := InputFilenames(step, world, last, useNormals);
      r.Ok? && !step.inputSplitReads ==> forall i :: 0 <= i < |r.value.0| ==> |r.value.0[i].units| == 1
  {
    var r := InputFilenames(step, world, last, useNormals);
    match RawInputsOf(step, world, last)
    case Err(_) =>
    case Ok(raw) =>
      var g := Group(raw, step.splitInputFiles, world.parse);
      var p := if useNormals && step.useNormals then PairedGroups(g) else Ok(g);
      if p.Ok? && p.value != [] {
        CollapseKeepsFiles(p.value, step.inputSplitReads);
        if step.inputFunction.Some? {
          ModInputsKeepOrganisms(p.value, step.inputSplitReads, step.inputFunction.value, world.parse);
        }
      }
  }

  // ---------------------------------------------------------------------
  // The objects.

  function Prepend(out: Grouped, r: Result<Grouped>): Result<Grouped> {
    match r
    case Err(e) => Err(e)
    case Ok(rest) => Ok(out + rest)
  }

  lemma PairedGroupsStep(g: Grouped, i: nat)
    requires i < |g|
    ensures PairedGroups(g[i..]) == match Normals.Paired(g[i].units, false)
      case Err(e) => Err(e)
      case Ok(us) => Prepend([OrganismUnits(g[i].organism, us)], PairedGroups(g[i + 1..]))
  {
    assert g[i..][0] == g[i] && g[i..][1..] == g[i + 1..];
  }

  lemma PrependTwice(a: Grouped, b: Grouped, r: Result<Grouped>)
    ensures Prepend(a, Prepend(b, r)) == Prepend(a + b, r)
  {
    if r.Ok? {
      assert a + (b + r.value) == (a + b) + r.value;
    }
  }

  /** The pairing loop of `_get_input_filenames`, organism by organism. */
  method PairOrganisms(g: Grouped) returns (r: Result<Grouped>)
    ensures r == PairedGroups(g)
  {
    var out: Grouped := [];
    var i := 0;
    assert g[i..] == g;
    if PairedGroups(g).Ok? {
      assert out + PairedGroups(g).value == PairedGroups(g).value;
    }
    while i < |g|
      invariant 0 <= i <= |g|
      invariant PairedGroups(g) == Prepend(out, PairedGroups(g[i..]))
    {
      PairedGroupsStep(g, i);
      var us := Normals.FixNormals(g[i].units);
      if us.Err? {
        return Err(us.error);
      }
      PrependTwice(out, [OrganismUnits(g[i].organism, us.value)], PairedGroups(g[i + 1..]));
      out := out + [OrganismUnits(g[i].organism, us.value)];
      i := i + 1;
    }
    assert g[i..] == [];
    assert out + [] == out;
    return Ok(out);
  }

  /** The `Analysis` fields a step uses. */
  class Analysis {
    var lastOperationFilenames: LastFiles
    var canUnlink: bool
    var bamfiles: NameMap
    /** `run_fake` */
    const runFake: bool
    /** `parameters["use_normals"]` */
    const useNormals: bool

    constructor (last: LastFiles, canUnlink: bool, bamfiles: NameMap, runFake: bool, useNormals: bool)
      ensures State() == AnalysisState(last, canUnlink, bamfiles)
      ensures this.runFake == runFake && this.useNormals == useNormals
    {
      lastOperationFilenames := last;
      this.canUnlink := canUnlink;
      this.bamfiles := bamfiles;
      this.runFake := runFake;
      this.useNormals := useNormals;
    }

    function State(): AnalysisState
      reads this
    {
      AnalysisState(lastOperationFilenames, canUnlink, bamfiles)
    }
  }

  /** The paths that exist on disk. */
  class Disk {
    var paths: set<string>

    constructor (paths: set<string>)
      ensures this.paths == paths
    {
      this.paths := paths;
    }

    /** `os.path.exists` */
    predicate Exists(p: string)
      reads this
    {
      p in paths
    }

    /** `os.unlink` */
    method Unlink(p: string) returns (err: Option<Error>)
      modifies this
      ensures p in old(paths) ==> paths == old(paths) - {p} && err.None?
      ensures p !in old(paths) ==> paths == old(paths) && err == Some(FileNotFound(p))
    {
      if p !in paths {
        return Some(FileNotFound(p));
      }
      paths := paths - {p};
      return None;
    }

    /** The deletion loop of `_unlink_filename`. */
    method UnlinkAll(names: seq<string>) returns (err: Option<Error>)
      modifies this
      ensures Removal(paths, err) == Unlinked(old(paths), names)
    {
      var i := 0;
      while i < |names|
        invariant 0 <= i <= |names|
        invariant Unlinked(paths, names[i..]) == Unlinked(old(paths), names)
      {
        assert names[i..][0] == names[i] && names[i..][1..] == names[i + 1..];
        var e := Unlink(names[i]);
        if e.Some? {
          return e;
        }
        if LowerAscii(Extension(names[i])) == ".bam" {
          var bai := BaiOf(names[i]);
          if Exists(bai) {
            e := Unlink(bai);
          }
        }
        i := i + 1;
      }
      assert names[i..] == [];
      return None;
    }
  }

  /** `Executor` */
  class Executor {
    const analysis: Analysis
    var data: Option<Step>

    constructor (analysis: Analysis)
      ensures this.analysis == analysis && data.None?
    {
      this.analysis := analysis;
      data := None;
    }

    /** `_get_input_filenames` */
    method GetInputFilenames(world: World) returns (r: Result<(Grouped, Grouped)>)
      requires data.Some?
      ensures r == InputFilenames(data.value, world, analysis.lastOperationFilenames, analysis.useNormals)
    {
      var step := data.value;
      var raw: RawInputs;
      if step.inputFilenames.None? {
        if analysis.lastOperationFilenames.NoFiles? {
          return Err(MissingInput);
        }
        raw := world.sampleFilenames(analysis.lastOperationFilenames, step.splitByOrganism);
      } else {
        raw := world.sampleFilenames(LastList(step.inputFilenames.value), step.splitByOrganism);
      }
      var g := Group(raw, step.splitInputFiles, world.parse);
      if analysis.useNormals && step.useNormals {
        var p := PairOrganisms(g);
        if p.Err? {
          return Err(p.error);
        }
        g := p.value;
      }
      match step.inputFunction {
        case Some(f) =>
          r := ModInputs(g, step.inputSplitReads, f, world.parse);
        case None =>
          var c := FixInputFilenames(g, step.inputSplitReads);
          if c.Err? {
            return Err(c.error);
          }
          r := Ok((c.value, []));
      }
    }

    /** `_unlink_filename` */
    method UnlinkFilename(input: Unit, original: Option<Unit>, disk: Disk) returns (err: Option<Error>)
      requires data.Some?
      modifies disk
      ensures Removal(disk.paths, err)
           == UnlinkStep(data.value, analysis.canUnlink, analysis.runFake, input, original, old(disk.paths))
    {
      var step := data.value;
      if !(step.unlinkInputs && analysis.canUnlink && !analysis.runFake) {
        return None;
      }
      var unit := input;
      if step.inputFunction.Some? {
        if original.None? || original.value == [] {
          return Some(AssertionFailed("real_input_filename"));
        }
        unit := original.value;
      }
      err := disk.UnlinkAll(Filenames(unit));
    }

    /** The commands of an admitted unit, recording outputs as they succeed. */
    method RunUnit(world: World, env: Env, input: Unit, organism: string, outputs: StepOutputs)
      returns (err: Option<Error>)
      requires data.Some?
      modifies outputs
      ensures var r := UnitCommands(data.value, world, analysis.runFake, env, input, organism,
                                    old(outputs.filenames), old(outputs.bamfiles));
        && (err.Some? <==> r.Err?)
        && (r.Err? ==> err.value == r.error)
        && (r.Ok? ==> (outputs.filenames, outputs.bamfiles) == r.value)
    {
      var step := data.value;
      var o := GetOutputFilename(step.output, env, Filenames(input));
      if o.Err? {
        return Some(o.error);
      }
      var cenv := BindOutput(env, o.value);
      var cmds := GetCommands(step.command, cenv);
      if cmds.Err? {
        return Some(cmds.error);
      }
      var k := 0;
      while k < |cmds.value|
        invariant 0 <= k <= |cmds.value|
        invariant RunCommands(step, world, analysis.runFake, cmds.value, k, cenv, o.value, organism,
                              outputs.filenames, outputs.bamfiles)
               == RunCommands(step, world, analysis.runFake, cmds.value, 0, cenv, o.value, organism,
                              old(outputs.filenames), old(outputs.bamfiles))
      {
        var res := RunCommand(cmds.value[k], step.command, cenv, analysis.runFake, world.exitStatus,
                              step.errorString, step.exceptionString);
        if res.Err? {
          return Some(res.error);
        }
        if Truthy(o.value) {
          outputs.Handle(k, |cmds.value|, organism, o.value, world.cwd, step.saveOnlyLast, step.splitByOrganism, world.parse);
        }
        k := k + 1;
      }
      return None;
    }

    /** `_handle_analysis` once the unit's files are chosen. */
    method HandleUnit(world: World, input: Unit, original: Option<Unit>, second: Option<Unit>,
                      outputs: StepOutputs, disk: Disk) returns (err: Option<Error>)
      requires data.Some?
      modifies outputs, disk
      ensures var r := UnitOutcome(data.value, world, analysis.runFake, analysis.canUnlink, input, original, second,
                                   old(outputs.filenames), old(outputs.bamfiles), old(disk.paths));
        && disk.paths == r.paths
        && (err.Some? <==> r.Failed?)
        && (r.Failed? ==> err.value == r.error)
        && (r.Done? ==> outputs.filenames == r.outs && outputs.bamfiles == r.bams)
    {
      var fd := UnitFileData(input);
      var organism := UnitOrganism(fd);
      var kit := KitParams(world, organism, UnitKit(world, fd));
      if kit.Err? {
        return Some(kit.error);
      }
      err := HandleKit(world, input, original, second, kit.value, outputs, disk);
    }

    /** `_handle_analysis` once the unit's kit parameters are known. */
    method HandleKit(world: World, input: Unit, original: Option<Unit>, second: Option<Unit>, kitEnv: Env,
                     outputs: StepOutputs, disk: Disk) returns (err: Option<Error>)
      requires data.Some?
      modifies outputs, disk
      ensures var r := KitOutcome(data.value, world, analysis.runFake, analysis.canUnlink, input, original, second,
                                  kitEnv, old(outputs.filenames), old(outputs.bamfiles), old(disk.paths));
        && disk.paths == r.paths
        && (err.Some? <==> r.Failed?)
        && (r.Failed? ==> err.value == r.error)
        && (r.Done? ==> outputs.filenames == r.outs && outputs.bamfiles == r.bams)
    {
      var step := data.value;
      var fd := UnitFileData(input);
      var organism := UnitOrganism(fd);
      if Admitted(step, organism) {
        var org := OrganismName(world, organism);
        var env := UnitEnv(input, original, second, fd, org) + kitEnv + AdditionalParams(world, organism);
        err := RunUnit(world, env, input, org, outputs);
        if err.Some? {
          return err;
        }
      }
      err := UnlinkFilename(input, original, disk);
    }

    /** `_handle_analysis` */
    method HandleAnalysis(world: World, job: Job, outputs: StepOutputs, disk: Disk) returns (err: Option<Error>)
      requires data.Some?
      modifies outputs, disk
      ensures var r := Analyzed(data.value, world, analysis.runFake, analysis.canUnlink, job,
                                old(outputs.filenames), old(outputs.bamfiles), old(disk.paths));
        && disk.paths == r.paths
        && (err.Some? <==> r.Failed?)
        && (r.Failed? ==> err.value == r.error)
        && (r.Done? ==> outputs.filenames == r.outs && outputs.bamfiles == r.bams)
    {
      var step := data.value;
      var hasFunction := step.inputFunction.Some?;
      if hasFunction && (job.second.None? || job.second.value == []) {
        return Some(AssertionFailed("mod_analysis_input"));
      }
      var input := if hasFunction then job.second.value else job.first;
      if !step.allowRawFilenames && UnitFileData(input).None? {
        return Some(AssertionFailed("file_data"));
      }
      err := HandleUnit(world, input, if hasFunction then Some(job.first) else None, job.second, outputs, disk);
    }

    /** The loop of `__call__` over the units. */
    method HandleJobs(world: World, jobs: seq<Job>, outputs: StepOutputs, disk: Disk) returns (err: Option<Error>)
      requires data.Some?
      modifies outputs, disk
      ensures var r := RunJobs(data.value, world, analysis.runFake, analysis.canUnlink, jobs, 0,
                               old(outputs.filenames), old(outputs.bamfiles), old(disk.paths));
        && disk.paths == r.paths
        && (err.Some? <==> r.Failed?)
        && (r.Failed? ==> err.value == r.error)
        && (r.Done? ==> outputs.filenames == r.outs && outputs.bamfiles == r.bams)
    {
      var step, runFake, canUnlink := data.value, analysis.runFake, analysis.canUnlink;
      ghost var total := RunJobs(step, world, runFake, canUnlink, jobs, 0,
                                 outputs.filenames, outputs.bamfiles, disk.paths);
      var i := 0;
      while i < |jobs|
        invariant 0 <= i <= |jobs|
        invariant RunJobs(step, world, runFake, canUnlink, jobs, i, outputs.filenames, outputs.bamfiles, disk.paths) == total
      {
        ghost var outs, bams, paths := outputs.filenames, outputs.bamfiles, disk.paths;
        err := HandleAnalysis(world, jobs[i], outputs, disk);
        RunJobsStep(step, world, runFake, canUnlink, jobs, i, outs, bams, paths);
        if err.Some? {
          return err;
        }
        i := i + 1;
      }
      return None;
    }

    /** `__call__` */
    method Call(step: Step, world: World, disk: Disk) returns (err: Option<Error>)
      modifies this, analysis, disk
      ensures data == Some(step)
      ensures StepResult(analysis.State(), disk.paths, err)
           == Execution(step, world, analysis.runFake, analysis.useNormals, old(analysis.State()), old(disk.paths))
    {
      ghost var a0, p0 := analysis.State(), disk.paths;
      data := Some(step);
      var inputs := GetInputFilenames(world);
      if inputs.Err? {
        return Some(inputs.error);
      }
      var jobs := Jobs(inputs.value.0, inputs.value.1, step.inputFunction.Some?);
      var outputs := new StepOutputs();
      err := HandleJobs(world, jobs, outputs, disk);
      ExecutionRuns(step, world, analysis.runFake, analysis.useNormals, a0, p0, inputs.value);
      if err.Some? {
        return err;
      }
      CommitOutputs(step, outputs);
    }

    /** The end of `__call__`: the outputs become the last operation's
        files, and the bam files the analysis's. */
    method CommitOutputs(step: Step, outputs: StepOutputs)
      modifies analysis
      ensures analysis.State() == Commit(step, old(analysis.State()), outputs.filenames, outputs.bamfiles)
    {
      if step.overrideLastFiles {
        analysis.lastOperationFilenames := FromOutputs(outputs.filenames);
        analysis.canUnlink := true;
      }
      if step.writeBamFiles && outputs.bamfiles != [] {
        analysis.bamfiles := outputs.bamfiles;
      }
    }

    /** `override_last_operation_filename` */
    method OverrideLastOperationFilename(name: string) returns (err: Option<Error>)
      modifies analysis
      ensures var r := Overridden(old(analysis.lastOperationFilenames), name);
        && (r.Ok? ==> err.None? && analysis.lastOperationFilenames == r.value)
        && (r.Err? ==> err == Some(r.error) && analysis.lastOperationFilenames == old(analysis.lastOperationFilenames))
      ensures analysis.canUnlink == old(analysis.canUnlink) && analysis.bamfiles == old(analysis.bamfiles)
    {
      var last := analysis.lastOperationFilenames;
      if FalsyLast(last) {
        return Some(LastOperation(NoOutputFile));
      }
      match last {
        case LastName(_) =>
          analysis.lastOperationFilenames := LastName(name);
        case LastList(ns) =>
          if |ns| != 1 {
            return Some(LastOperation(ListNotSingle));
          }
          analysis.lastOperationFilenames := LastList([name]);
        case LastDict(es) =>
          if |es| != 1 {
            return Some(LastOperation(DictNotSingle));
          }
          var organism := es[0].0;
          match es[0].1 {
            case EntryName(_) =>
              analysis.lastOperationFilenames := LastDict([(organism, EntryName(name))]);
            case EntryList(ns) =>
              if |ns| != 1 {
                return Some(LastOperation(DictListNotSingle));
              }
              analysis.lastOperationFilenames := LastDict([(organism, EntryList([name]))]);
            case EntryOther =>
              return Some(LastOperation(InvalidDict));
          }
        case _ =>
          return Some(LastOperation(InvalidObject));
      }
      return None;
    }
  }
}
