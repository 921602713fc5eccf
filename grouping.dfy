/** How the executor turns file names into execution units
    (`_get_input_filenames` grouping, `_fix_input_filenames`,
    `_create_mod_input_filenames`). */
module Grouping {
  import opened Util
  import opened Files

  /** What `utils.get_sample_filenames` returns: a dict from organism to file
      names (keys distinct, in insertion order) or a plain list. */
  datatype RawInputs =
    | PerOrganism(groups: seq<(string, seq<string>)>)
    | FlatList(names: seq<string>)

  predicate DistinctKeys(groups: seq<(string, seq<string>)>) {
    forall i, j :: 0 <= i < j < |groups| ==> groups[i].0 != groups[j].0
  }

  predicate ValidRaw(raw: RawInputs) {
    raw.PerOrganism? ==> DistinctKeys(raw.groups)
  }

  /** One organism's entry of an `AnalysesPerOrganism` dict. */
  datatype OrganismUnits = OrganismUnits(organism: string, units: seq<Unit>)

  /** An `AnalysesPerOrganism` dict, in insertion order. */
  type Grouped = seq<OrganismUnits>

  function Organisms(g: Grouped): (os: seq<string>)
    ensures |os| == |g| && forall i :: 0 <= i < |g| ==> os[i] == g[i].organism
  {
    seq(|g|, i requires 0 <= i < |g| => g[i].organism)
  }

  lemma OrganismsCons(x: OrganismUnits, rest: Grouped)
    ensures Organisms([x] + rest) == [x.organism] + Organisms(rest)
  {
  }

  lemma OrganismsTail(g: Grouped)
    requires g != []
    ensures Organisms(g) == [g[0].organism] + Organisms(g[1..])
  {
  }

  /** Every file of every unit, organism after organism. */
  function AllFiles(g: Grouped): Unit {
    if g == [] then [] else Concat(g[0].units) + AllFiles(g[1..])
  }

  function AllNames(raw: RawInputs): seq<string> {
    match raw
    case FlatList(names) => names
    case PerOrganism(groups) => RawNames(groups)
  }

  function RawNames(groups: seq<(string, seq<string>)>): seq<string> {
    if groups == [] then [] else groups[0].1 + RawNames(groups[1..])
  }

  // ---------------------------------------------------------------------
  // Grouping into units.

  /** The units of one organism: one single-file unit per name when
      `split_input_files`, otherwise one unit with all names. File `k` of
      the organism gets identity `next + k`. */
  function UnitsOf(names: seq<string>, next: nat, split: bool, parse: Parser): seq<Unit> {
    var files := seq(|names|, i requires 0 <= i < |names| => Classify(next + i, names[i], parse));
    if split then seq(|files|, i requires 0 <= i < |files| => [files[i]]) else [files]
  }

  function GroupFrom(groups: seq<(string, seq<string>)>, next: nat, split: bool, parse: Parser): (g: Grouped)
    ensures |g| == |groups|
  {
    if groups == [] then []
    else [OrganismUnits(groups[0].0, UnitsOf(groups[0].1, next, split, parse))]
         + GroupFrom(groups[1..], next + |groups[0].1|, split, parse)
  }

  /** The grouping loop of `_get_input_filenames`. */
  function Group(raw: RawInputs, split: bool, parse: Parser): Grouped {
    match raw
    case PerOrganism(groups) => GroupFrom(groups, 0, split, parse)
    case FlatList(names) => [OrganismUnits("", UnitsOf(names, 0, split, parse))]
  }

  lemma UnitsOfShape(names: seq<string>, next: nat, split: bool, parse: Parser)
    ensures var us := UnitsOf(names, next, split, parse);
      && Filenames(Concat(us)) == names
      && (split ==> |us| == |names| && forall i :: 0 <= i < |us| ==> |us[i]| == 1)
      && (!split ==> |us| == 1)
  {
    var us := UnitsOf(names, next, split, parse);
    var files := seq(|names|, i requires 0 <= i < |names| => Classify(next + i, names[i], parse));
    if split {
      SingletonsConcat(files);
    } else {
      assert Concat(us) == files + Concat([]);
    }
  }

  lemma {:induction false} SingletonsConcat(files: seq<FileData>)
    ensures Concat(seq(|files|, i requires 0 <= i < |files| => [files[i]])) == files
  {
    var us := seq(|files|, i requires 0 <= i < |files| => [files[i]]);
    if files != [] {
      assert us[1..] == seq(|files[1..]|, i requires 0 <= i < |files[1..]| => [files[1..][i]]);
      SingletonsConcat(files[1..]);
      assert files == [files[0]] + files[1..];
    }
  }

  lemma {:induction false} GroupFromShape(groups: seq<(string, seq<string>)>, next: nat, split: bool, parse: Parser)
    ensures var g := GroupFrom(groups, next, split, parse);
      && Filenames(AllFiles(g)) == RawNames(groups)
      && (forall i :: 0 <= i < |g| ==> g[i].organism == groups[i].0)
      && (forall i :: 0 <= i < |g| ==> (split ==> forall j :: 0 <= j < |g[i].units| ==> |g[i].units[j]| == 1))
      && (forall i :: 0 <= i < |g| ==> (!split ==> |g[i].units| == 1))
  {
    if groups != [] {
      var g := GroupFrom(groups, next, split, parse);
      GroupFromShape(groups[1..], next + |groups[0].1|, split, parse);
      UnitsOfShape(groups[0].1, next, split, parse);
      assert g[1..] == GroupFrom(groups[1..], next + |groups[0].1|, split, parse);
      FilenamesAppend(Concat(g[0].units), AllFiles(g[1..]));
      forall i | 0 < i < |g| ensures g[i] == g[1..][i - 1] { }
    }
  }

  lemma FilenamesAppend(a: Unit, b: Unit)
    ensures Filenames(a + b) == Filenames(a) + Filenames(b)
  {
  }

  /** Grouping keeps every name, in order, under the organism the dict gave
      it (or under "" for a plain list); with `split_input_files` every unit
      holds one file, otherwise every organism has exactly one unit. */
  lemma GroupShape(raw: RawInputs, split: bool, parse: Parser)
    ensures var g := Group(raw, split, parse);
      && Filenames(AllFiles(g)) == AllNames(raw)
      && (raw.FlatList? ==> Organisms(g) == [""])
      && (raw.PerOrganism? ==> |g| == |raw.groups| && forall i :: 0 <= i < |g| ==> g[i].organism == raw.groups[i].0)
      && (split ==> forall i, j :: 0 <= i < |g| && 0 <= j < |g[i].units| ==> |g[i].units[j]| == 1)
      && (!split ==> forall i :: 0 <= i < |g| ==> |g[i].units| == 1)
  {
    match raw
    case PerOrganism(groups) => GroupFromShape(groups, 0, split, parse);
    case FlatList(names) =>
      UnitsOfShape(names, 0, split, parse);
      var g := Group(raw, split, parse);
      assert AllFiles(g) == Concat(g[0].units) + AllFiles([]);
  }

  // ---------------------------------------------------------------------
  // `_fix_input_filenames`: collapse each organism's units into one.

  function Collapsed(g: Grouped, splitReads: bool): Result<Grouped> {
    if g == [] then Err(EmptyInputList)
    else if splitReads then Ok(g)
    else Ok(seq(|g|, i requires 0 <= i < |g| => OrganismUnits(g[i].organism, [Concat(g[i].units)])))
  }

  /** The in-place rewrite of `_fix_input_filenames`. */
  method FixInputFilenames(g: Grouped, splitReads: bool) returns (r: Result<Grouped>)
    ensures r == Collapsed(g, splitReads)
  {
    if g == [] {
      return Err(EmptyInputList);
    }
    var out := g;
    if !splitReads {
      var i := 0;
      while i < |out|
        invariant 0 <= i <= |out| == |g|
        invariant forall j :: 0 <= j < i ==> out[j] == OrganismUnits(g[j].organism, [Concat(g[j].units)])
        invariant forall j :: i <= j < |g| ==> out[j] == g[j]
      {
        out := out[i := OrganismUnits(out[i].organism, [Concat(out[i].units)])];
        i := i + 1;
      }
      assert out == seq(|g|, i requires 0 <= i < |g| => OrganismUnits(g[i].organism, [Concat(g[i].units)]));
    }
    return Ok(out);
  }

  /** Collapsing keeps the organisms in order and every file in order; without
      `input_split_reads` each organism is left with exactly one unit. */
  lemma {:induction false} CollapseKeepsFiles(g: Grouped, splitReads: bool)
    requires g != []
    ensures Collapsed(g, splitReads).Ok?
    ensures var c := Collapsed(g, splitReads).value;
      && Organisms(c) == Organisms(g)
      && AllFiles(c) == AllFiles(g)
      && (!splitReads ==> forall i :: 0 <= i < |c| ==> |c[i].units| == 1 && c[i].units[0] == Concat(g[i].units))
  {
    if !splitReads {
      var c := Collapsed(g, splitReads).value;
      CollapsedFiles(g);
    }
  }

  lemma {:induction false} CollapsedFiles(g: Grouped)
    ensures AllFiles(seq(|g|, i requires 0 <= i < |g| => OrganismUnits(g[i].organism, [Concat(g[i].units)]))) == AllFiles(g)
  {
    var c := seq(|g|, i requires 0 <= i < |g| => OrganismUnits(g[i].organism, [Concat(g[i].units)]));
    if g != [] {
      assert c[1..] == seq(|g[1..]|, i requires 0 <= i < |g[1..]| => OrganismUnits(g[1..][i].organism, [Concat(g[1..][i].units)]));
      CollapsedFiles(g[1..]);
      assert Concat(c[0].units) == Concat(g[0].units) + Concat([]);
    }
  }

  // ---------------------------------------------------------------------
  // `_create_mod_input_filenames`: the caller's input transform.

  /** The argument of `input_function`: a single name or a list. */
  datatype InputArg = OneFile(name: string) | FileList(names: seq<string>)

  /** `input_function`; the empty string stands for a falsy result. */
  type InputFunction = InputArg -> string

  /** The read index a name is grouped under: 0 when absent or unparseable. */
  function ReadKey(name: string, parse: Parser): int {
    match parse(name)
    case None => 0
    case Some(b) => b.readIndex
  }

  function Select(names: seq<string>, key: int, parse: Parser): (r: seq<string>)
    ensures |r| <= |names|
  {
    if names == [] then []
    else (if ReadKey(names[0], parse) == key then [names[0]] else []) + Select(names[1..], key, parse)
  }

  /** `splitted_data.setdefault(key, []).append(filename)` for one name. */
  function AddToGroup(groups: seq<(int, seq<string>)>, key: int, name: string): (r: seq<(int, seq<string>)>)
    ensures |r| == |groups| || |r| == |groups| + 1
  {
    if groups == [] then [(key, [name])]
    else if groups[0].0 == key then [(key, groups[0].1 + [name])] + groups[1..]
    else [groups[0]] + AddToGroup(groups[1..], key, name)
  }

  /** The `splitted_data` dict, in insertion order. */
  function SplitByReadIndex(names: seq<string>, parse: Parser): seq<(int, seq<string>)> {
    if names == [] then []
    else AddToGroup(SplitByReadIndex(names[..|names| - 1], parse), ReadKey(names[|names| - 1], parse), names[|names| - 1])
  }

  function Keys(groups: seq<(int, seq<string>)>): seq<int> {
    seq(|groups|, i requires 0 <= i < |groups| => groups[i].0)
  }

  lemma {:induction false} SelectAppend(names: seq<string>, name: string, key: int, parse: Parser)
    ensures Select(names + [name], key, parse)
         == Select(names, key, parse) + (if ReadKey(name, parse) == key then [name] else [])
  {
    if names != [] {
      assert (names + [name])[1..] == names[1..] + [name];
      SelectAppend(names[1..], name, key, parse);
    } else {
      assert Select([name], key, parse) == (if ReadKey(name, parse) == key then [name] else []) + Select([], key, parse);
    }
  }

  /** Each read index heads at most one group. */
  predicate DistinctReadKeys(groups: seq<(int, seq<string>)>) {
    forall i, j :: 0 <= i < j < |groups| ==> groups[i].0 != groups[j].0
  }

  lemma {:induction false} AddToGroupKeys(groups: seq<(int, seq<string>)>, key: int, name: string)
    ensures var r := AddToGroup(groups, key, name);
      forall i :: 0 <= i < |groups| ==> r[i].0 == groups[i].0
  {
    var r := AddToGroup(groups, key, name);
    if groups != [] && groups[0].0 != key {
      AddToGroupKeys(groups[1..], key, name);
      var r1 := AddToGroup(groups[1..], key, name);
      assert r == [groups[0]] + r1;
      forall i | 0 < i < |groups| ensures r[i].0 == groups[i].0 {
        assert r[i] == r1[i - 1] && groups[i] == groups[1..][i - 1];
      }
    } else if groups != [] {
      forall i | 0 < i < |groups| ensures r[i] == groups[i] { }
    }
  }

  /** After adding, some group has the key. */
  lemma {:induction false} AddToGroupHasKey(groups: seq<(int, seq<string>)>, key: int, name: string)
    ensures exists i :: 0 <= i < |AddToGroup(groups, key, name)| && AddToGroup(groups, key, name)[i].0 == key
  {
    var r := AddToGroup(groups, key, name);
    if groups != [] && groups[0].0 != key {
      AddToGroupHasKey(groups[1..], key, name);
      var r1 := AddToGroup(groups[1..], key, name);
      assert r == [groups[0]] + r1;
      var k :| 0 <= k < |r1| && r1[k].0 == key;
      assert r[k + 1] == r1[k];
    } else {
      assert r[0].0 == key;
    }
  }

  lemma {:induction false} AddToGroupValues(groups: seq<(int, seq<string>)>, key: int, name: string)
    requires DistinctReadKeys(groups)
    ensures var r := AddToGroup(groups, key, name);
      forall i :: 0 <= i < |r| ==> r[i].1 == (if i < |groups| then groups[i].1 else []) + (if r[i].0 == key then [name] else [])
  {
    var r := AddToGroup(groups, key, name);
    if groups != [] && groups[0].0 != key {
      var tail := groups[1..];
      forall i, j | 0 <= i < j < |tail| ensures tail[i].0 != tail[j].0 {
        assert tail[i] == groups[i + 1] && tail[j] == groups[j + 1];
      }
      AddToGroupValues(tail, key, name);
      var r1 := AddToGroup(tail, key, name);
      assert r == [groups[0]] + r1;
      forall i | 0 < i < |r|
        ensures r[i].1 == (if i < |groups| then groups[i].1 else []) + (if r[i].0 == key then [name] else [])
      {
        assert r[i] == r1[i - 1];
        if i < |groups| { assert groups[i] == tail[i - 1]; }
      }
    } else if groups != [] {
      forall i | 0 < i < |r| ensures r[i] == groups[i] && groups[i].0 != key { }
    }
  }

  /** When adding grows the groups, the new last group holds just `name`
      and its key was not there before. */
  lemma {:induction false} AddToGroupGrows(groups: seq<(int, seq<string>)>, key: int, name: string)
    requires |AddToGroup(groups, key, name)| == |groups| + 1
    ensures AddToGroup(groups, key, name)[|groups|] == (key, [name])
    ensures forall i :: 0 <= i < |groups| ==> groups[i].0 != key
  {
    if groups != [] {
      AddToGroupGrows(groups[1..], key, name);
      assert AddToGroup(groups, key, name) == [groups[0]] + AddToGroup(groups[1..], key, name);
      forall i | 0 < i < |groups| ensures groups[i].0 != key {
        assert groups[i] == groups[1..][i - 1];
      }
    }
  }

  lemma AddToGroupDistinct(groups: seq<(int, seq<string>)>, key: int, name: string)
    requires DistinctReadKeys(groups)
    ensures DistinctReadKeys(AddToGroup(groups, key, name))
  {
    AddToGroupKeys(groups, key, name);
    var r := AddToGroup(groups, key, name);
    if |r| == |groups| + 1 {
      AddToGroupGrows(groups, key, name);
    }
    forall i, j | 0 <= i < j < |r| ensures r[i].0 != r[j].0 {
      if j == |groups| {
        assert r[i].0 == groups[i].0;
      } else {
        assert r[i].0 == groups[i].0 && r[j].0 == groups[j].0;
      }
    }
  }

  lemma AddToGroupSpec(groups: seq<(int, seq<string>)>, key: int, name: string)
    requires DistinctReadKeys(groups)
    ensures var r := AddToGroup(groups, key, name);
      && (forall i, j :: 0 <= i < j < |r| ==> r[i].0 != r[j].0)
      && (forall i :: 0 <= i < |r| ==> r[i].1 == (if i < |groups| then groups[i].1 else []) + (if r[i].0 == key then [name] else []))
      && (forall i :: 0 <= i < |groups| ==> r[i].0 == groups[i].0)
      && (exists i :: 0 <= i < |r| && r[i].0 == key)
      && (|r| == |groups| + 1 ==> r[|groups|].0 == key && forall i :: 0 <= i < |groups| ==> groups[i].0 != key)
  {
    AddToGroupDistinct(groups, key, name);
    AddToGroupKeys(groups, key, name);
    AddToGroupHasKey(groups, key, name);
    AddToGroupValues(groups, key, name);
    if |AddToGroup(groups, key, name)| == |groups| + 1 {
      AddToGroupGrows(groups, key, name);
    }
  }

  lemma {:induction false} SplitDistinct(names: seq<string>, parse: Parser)
    ensures DistinctReadKeys(SplitByReadIndex(names, parse))
  {
    if names != [] {
      var init := names[..|names| - 1];
      var last := names[|names| - 1];
      SplitDistinct(init, parse);
      var g0 := SplitByReadIndex(init, parse);
      AddToGroupDistinct(g0, ReadKey(last, parse), last);
      assert SplitByReadIndex(names, parse) == AddToGroup(g0, ReadKey(last, parse), last);
    }
  }

  lemma {:induction false} SplitCovers(names: seq<string>, parse: Parser)
    ensures var gs := SplitByReadIndex(names, parse);
      forall n :: n in names ==> ReadKey(n, parse) in Keys(gs)
  {
    if names != [] {
      var init := names[..|names| - 1];
      var last := names[|names| - 1];
      assert names == init + [last];
      SplitCovers(init, parse);
      var g0 := SplitByReadIndex(init, parse);
      var key := ReadKey(last, parse);
      AddToGroupKeys(g0, key, last);
      AddToGroupHasKey(g0, key, last);
      var gs := SplitByReadIndex(names, parse);
      assert gs == AddToGroup(g0, key, last);
      forall n | n in names ensures ReadKey(n, parse) in Keys(gs) {
        if n in init {
          var k :| 0 <= k < |g0| && Keys(g0)[k] == ReadKey(n, parse);
          assert Keys(gs)[k] == gs[k].0 == g0[k].0;
        } else {
          var k :| 0 <= k < |gs| && gs[k].0 == key;
          assert Keys(gs)[k] == ReadKey(n, parse);
        }
      }
    }
  }

  /** A group that existed before `last` was added. */
  lemma OldGroupAfterAdd(init: seq<string>, last: string, parse: Parser, g0: seq<(int, seq<string>)>, i: int)
    requires DistinctReadKeys(g0)
    requires 0 <= i < |g0| && g0[i].1 == Select(init, g0[i].0, parse) && g0[i].1 != []
    ensures var gs := AddToGroup(g0, ReadKey(last, parse), last);
      gs[i].1 == Select(init + [last], gs[i].0, parse) && gs[i].1 != []
  {
    var key := ReadKey(last, parse);
    AddToGroupKeys(g0, key, last);
    AddToGroupValues(g0, key, last);
    SelectAppend(init, last, g0[i].0, parse);
  }

  /** The group `last` opened. */
  lemma NewGroupAfterAdd(init: seq<string>, last: string, parse: Parser, g0: seq<(int, seq<string>)>, i: int)
    requires forall n :: n in init ==> ReadKey(n, parse) in Keys(g0)
    requires |g0| <= i < |AddToGroup(g0, ReadKey(last, parse), last)|
    ensures var gs := AddToGroup(g0, ReadKey(last, parse), last);
      gs[i].1 == Select(init + [last], gs[i].0, parse) && gs[i].1 != []
  {
    var key := ReadKey(last, parse);
    AddToGroupGrows(g0, key, last);
    SelectAbsent(init, key, parse, g0);
    SelectAppend(init, last, key, parse);
  }

  lemma {:induction false} SplitValues(names: seq<string>, parse: Parser)
    ensures var gs := SplitByReadIndex(names, parse);
      forall i :: 0 <= i < |gs| ==> gs[i].1 == Select(names, gs[i].0, parse) && gs[i].1 != []
  {
    if names != [] {
      var init := names[..|names| - 1];
      var last := names[|names| - 1];
      SplitValues(init, parse);
      SplitDistinct(init, parse);
      SplitCovers(init, parse);
      var g0 := SplitByReadIndex(init, parse);
      var gs := SplitByReadIndex(names, parse);
      assert gs == AddToGroup(g0, ReadKey(last, parse), last);
      assert names == init + [last];
      forall i | 0 <= i < |gs| ensures gs[i].1 == Select(names, gs[i].0, parse) && gs[i].1 != [] {
        if i < |g0| {
          OldGroupAfterAdd(init, last, parse, g0, i);
        } else {
          NewGroupAfterAdd(init, last, parse, g0, i);
        }
      }
    }
  }

  /** The read index of every name, in input order. */
  function ReadKeys(names: seq<string>, parse: Parser): (ks: seq<int>)
    ensures |ks| == |names| && forall p :: 0 <= p < |names| ==> ks[p] == ReadKey(names[p], parse)
  {
    seq(|names|, p requires 0 <= p < |names| => ReadKey(names[p], parse))
  }

  /** Where `k` first occurs in `ks`; `|ks|` when it does not. */
  function FirstIndex(ks: seq<int>, k: int): (p: nat)
    ensures p <= |ks|
    ensures p < |ks| <==> k in ks
    ensures p < |ks| ==> ks[p] == k
    ensures forall q :: 0 <= q < p ==> ks[q] != k
  {
    if ks == [] then 0
    else if ks[0] == k then 0
    else
      var p := FirstIndex(ks[1..], k);
      assert forall q :: 0 < q < |ks| ==> ks[q] == ks[1..][q - 1];
      assert k in ks <==> k in ks[1..] by {
        assert ks == [ks[0]] + ks[1..];
      }
      1 + p
  }

  /** The groups come in the order in which their read indexes first occur
      among the names. */
  predicate FirstSeenOrder(gs: seq<(int, seq<string>)>, ks: seq<int>) {
    && (forall i :: 0 <= i < |gs| ==> gs[i].0 in ks)
    && (forall i, j :: 0 <= i < j < |gs| ==> FirstIndex(ks, gs[i].0) < FirstIndex(ks, gs[j].0))
  }

  lemma FirstIndexKept(ks: seq<int>, y: int, k: int)
    requires k in ks
    ensures FirstIndex(ks + [y], k) == FirstIndex(ks, k)
  {
    var p := FirstIndex(ks, k);
    var p' := FirstIndex(ks + [y], k);
    assert (ks + [y])[p] == k;
    assert forall q :: 0 <= q < |ks| ==> (ks + [y])[q] == ks[q];
  }

  lemma FirstIndexNew(ks: seq<int>, y: int)
    requires y !in ks
    ensures FirstIndex(ks + [y], y) == |ks|
  {
    assert (ks + [y])[|ks|] == y;
    assert forall q :: 0 <= q < |ks| ==> (ks + [y])[q] == ks[q];
  }

  /** Adding a name keeps the groups in first-occurrence order of the keys
      seen so far, when every key seen so far already has a group. */
  lemma AddToGroupOrder(g0: seq<(int, seq<string>)>, ks0: seq<int>, key: int, name: string)
    requires FirstSeenOrder(g0, ks0)
    requires forall k :: k in ks0 ==> k in Keys(g0)
    ensures FirstSeenOrder(AddToGroup(g0, key, name), ks0 + [key])
  {
    var gs := AddToGroup(g0, key, name);
    var ks := ks0 + [key];
    var grown := |gs| == |g0| + 1;
    AddToGroupKeys(g0, key, name);
    if grown {
      AddToGroupGrows(g0, key, name);
      assert key !in Keys(g0);
      FirstIndexNew(ks0, key);
    }
    forall i | 0 <= i < |g0| ensures gs[i].0 in ks && FirstIndex(ks, gs[i].0) == FirstIndex(ks0, g0[i].0) < |ks0| {
      FirstIndexKept(ks0, key, g0[i].0);
    }
    forall i | 0 <= i < |gs| ensures gs[i].0 in ks {
      if i == |g0| {
        assert gs[i].0 == ks[|ks0|];
      }
    }
    forall i, j | 0 <= i < j < |gs| ensures FirstIndex(ks, gs[i].0) < FirstIndex(ks, gs[j].0) {
      if j == |g0| {
        assert FirstIndex(ks, gs[j].0) == |ks0|;
      }
    }
  }

  lemma ReadKeysCovered(names: seq<string>, parse: Parser, gs: seq<(int, seq<string>)>)
    requires forall n :: n in names ==> ReadKey(n, parse) in Keys(gs)
    ensures forall k :: k in ReadKeys(names, parse) ==> k in Keys(gs)
  {
    forall k | k in ReadKeys(names, parse) ensures k in Keys(gs) {
      var p :| 0 <= p < |names| && ReadKeys(names, parse)[p] == k;
      assert names[p] in names;
    }
  }

  lemma {:induction false} SplitOrder(names: seq<string>, parse: Parser)
    ensures FirstSeenOrder(SplitByReadIndex(names, parse), ReadKeys(names, parse))
  {
    if names != [] {
      var init := names[..|names| - 1];
      var last := names[|names| - 1];
      SplitOrder(init, parse);
      SplitCovers(init, parse);
      var g0 := SplitByReadIndex(init, parse);
      ReadKeysCovered(init, parse, g0);
      AddToGroupOrder(g0, ReadKeys(init, parse), ReadKey(last, parse), last);
      assert SplitByReadIndex(names, parse) == AddToGroup(g0, ReadKey(last, parse), last);
      assert ReadKeys(names, parse) == ReadKeys(init, parse) + [ReadKey(last, parse)];
    }
  }

  /** `splitted_data` holds each read index once, with exactly the names
      carrying it, in their input order; every name lands in some group, and
      the groups come in the order their read indexes first occur. */
  lemma SplitByReadIndexSpec(names: seq<string>, parse: Parser)
    ensures var gs := SplitByReadIndex(names, parse);
      && (forall i, j :: 0 <= i < j < |gs| ==> gs[i].0 != gs[j].0)
      && (forall i :: 0 <= i < |gs| ==> gs[i].1 == Select(names, gs[i].0, parse) && gs[i].1 != [])
      && (forall n :: n in names ==> ReadKey(n, parse) in Keys(gs))
      && (forall i, j :: 0 <= i < j < |gs| ==>
            FirstIndex(ReadKeys(names, parse), gs[i].0) < FirstIndex(ReadKeys(names, parse), gs[j].0))
  {
    SplitDistinct(names, parse);
    SplitCovers(names, parse);
    SplitOrder(names, parse);
    SplitValues(names, parse);
  }

  lemma SelectAbsent(names: seq<string>, key: int, parse: Parser, gs: seq<(int, seq<string>)>)
    requires forall n :: n in names ==> ReadKey(n, parse) in Keys(gs)
    requires forall i :: 0 <= i < |gs| ==> gs[i].0 != key
    ensures Select(names, key, parse) == []
  {
    if names != [] {
      assert names[0] in names;
      var k :| 0 <= k < |gs| && Keys(gs)[k] == ReadKey(names[0], parse);
      SelectAbsent(names[1..], key, parse, gs);
    }
  }

  /** One read group handed to `input_function`: a single name as `str`, several as a list. */
  function GroupArg(names: seq<string>): InputArg {
    if |names| == 1 then OneFile(names[0]) else FileList(names)
  }

  /** The new single-file units for the read groups; a falsy result adds none.
      The new files' identity is not consulted after this point. */
  function TransformGroups(groups: seq<(int, seq<string>)>, f: InputFunction, parse: Parser): seq<Unit> {
    if groups == [] then []
    else
      var res := f(GroupArg(groups[0].1));
      (if res != "" then [[Classify(0, res, parse)]] else []) + TransformGroups(groups[1..], f, parse)
  }

  function ModUnitsOf(u: Unit, splitReads: bool, f: InputFunction, parse: Parser): seq<Unit> {
    if splitReads then TransformGroups(SplitByReadIndex(Filenames(u), parse), f, parse)
    else [[Classify(0, f(FileList(Filenames(u))), parse)]]
  }

  function ModUnits(us: seq<Unit>, splitReads: bool, f: InputFunction, parse: Parser): seq<Unit> {
    if us == [] then [] else ModUnitsOf(us[0], splitReads, f, parse) + ModUnits(us[1..], splitReads, f, parse)
  }

  /** `_create_mod_input_filenames`: fix the input in place, transform each
      unit, check and fix the result. Returns the fixed input and the
      transformed units. */
  function ModInputs(g: Grouped, splitReads: bool, f: InputFunction, parse: Parser): Result<(Grouped, Grouped)> {
    match Collapsed(g, splitReads)
    case Err(e) => Err(e)
    case Ok(fixed) =>
      var mod := seq(|fixed|, i requires 0 <= i < |fixed| =>
                     OrganismUnits(fixed[i].organism, ModUnits(fixed[i].units, splitReads, f, parse)));
      if mod == [] then Err(EmptyInputList)
      else match Collapsed(mod, splitReads)
           case Err(e) => Err(e)
           case Ok(m) => Ok((fixed, m))
  }

  lemma {:induction false} TransformGroupsSingle(groups: seq<(int, seq<string>)>, f: InputFunction, parse: Parser)
    ensures forall k :: 0 <= k < |TransformGroups(groups, f, parse)| ==>
      var u := TransformGroups(groups, f, parse)[k];
      |u| == 1 && u[0].filename != "" && exists i :: 0 <= i < |groups| && u[0].filename == f(GroupArg(groups[i].1))
    ensures |TransformGroups(groups, f, parse)| <= |groups|
  {
    if groups != [] {
      TransformGroupsSingle(groups[1..], f, parse);
      var rest: seq<Unit> := TransformGroups(groups[1..], f, parse);
      var all: seq<Unit> := TransformGroups(groups, f, parse);
      var res := f(GroupArg(groups[0].1));
      forall k | 0 <= k < |all| ensures |all[k]| == 1 && all[k][0].filename != ""
          && exists i :: 0 <= i < |groups| && all[k][0].filename == f(GroupArg(groups[i].1)) {
        if res != "" && k == 0 {
          assert all[k][0].filename == f(GroupArg(groups[0].1));
        } else {
          var k' := if res != "" then k - 1 else k;
          assert all[k] == rest[k'];
          var i :| 0 <= i < |groups[1..]| && rest[k'][0].filename == f(GroupArg(groups[1..][i].1));
          assert groups[1..][i] == groups[i + 1];
        }
      }
    }
  }

  /** What `input_function` returns for each read group, in group order. */
  function Results(groups: seq<(int, seq<string>)>, f: InputFunction): (rs: seq<string>)
    ensures |rs| == |groups|
    ensures forall i :: 0 <= i < |groups| ==> rs[i] == f(GroupArg(groups[i].1))
  {
    if groups == [] then []
    else
      var rest := Results(groups[1..], f);
      assert forall i :: 0 < i < |groups| ==> groups[i] == groups[1..][i - 1];
      [f(GroupArg(groups[0].1))] + rest
  }

  /** The truthy strings of `rs`, in order. */
  function TruthyResults(rs: seq<string>): seq<string> {
    if rs == [] then [] else (if rs[0] != "" then [rs[0]] else []) + TruthyResults(rs[1..])
  }

  lemma TruthyResultsHead(r: string, rs: seq<string>)
    ensures TruthyResults([r] + rs) == (if r != "" then [r] else []) + TruthyResults(rs)
  {
    assert ([r] + rs)[0] == r && ([r] + rs)[1..] == rs;
  }

  /** A truthy string is kept, and a list without empty strings is kept
      whole. */
  lemma {:induction false} TruthyKeeps(rs: seq<string>)
    ensures forall i :: 0 <= i < |rs| && rs[i] != "" ==> rs[i] in TruthyResults(rs)
    ensures (forall i :: 0 <= i < |rs| ==> rs[i] != "") ==> TruthyResults(rs) == rs
    ensures forall k :: 0 <= k < |TruthyResults(rs)| ==> TruthyResults(rs)[k] != "" && TruthyResults(rs)[k] in rs
  {
    if rs != [] {
      TruthyKeeps(rs[1..]);
      var t := TruthyResults(rs);
      var head: seq<string> := if rs[0] != "" then [rs[0]] else [];
      assert t == head + TruthyResults(rs[1..]);
      forall i | 0 <= i < |rs| && rs[i] != "" ensures rs[i] in t {
        if i > 0 {
          assert rs[i] == rs[1..][i - 1];
        }
      }
      forall k | 0 <= k < |t| ensures t[k] != "" && t[k] in rs {
        if k >= |head| {
          assert t[k] == TruthyResults(rs[1..])[k - |head|];
        }
      }
    }
  }

  /** The transformed units are exactly one single-file unit per truthy
      result, in read-group order. */
  lemma {:induction false} TransformGroupsExact(groups: seq<(int, seq<string>)>, f: InputFunction, parse: Parser)
    ensures var ms := TransformGroups(groups, f, parse);
      var t := TruthyResults(Results(groups, f));
      && |ms| == |t|
      && forall k :: 0 <= k < |ms| ==> ms[k] == [Classify(0, t[k], parse)]
  {
    if groups != [] {
      TransformGroupsExact(groups[1..], f, parse);
      var res := f(GroupArg(groups[0].1));
      var rest := TransformGroups(groups[1..], f, parse);
      var tr := TruthyResults(Results(groups[1..], f));
      TruthyResultsHead(res, Results(groups[1..], f));
      var ms := TransformGroups(groups, f, parse);
      var t := TruthyResults(Results(groups, f));
      if res != "" {
        forall k | 0 < k < |ms| ensures ms[k] == [Classify(0, t[k], parse)] {
          assert ms[k] == rest[k - 1] && t[k] == tr[k - 1];
        }
      }
    }
  }

  /** Every read group whose result is truthy yields a unit named by that
      result; when every result is truthy, unit i is group i's. */
  lemma TransformGroupsComplete(groups: seq<(int, seq<string>)>, f: InputFunction, parse: Parser)
    ensures forall i :: 0 <= i < |groups| && f(GroupArg(groups[i].1)) != "" ==>
      [Classify(0, f(GroupArg(groups[i].1)), parse)] in TransformGroups(groups, f, parse)
    ensures (forall i :: 0 <= i < |groups| ==> f(GroupArg(groups[i].1)) != "") ==>
      && |TransformGroups(groups, f, parse)| == |groups|
      && forall i :: 0 <= i < |groups| ==>
           TransformGroups(groups, f, parse)[i] == [Classify(0, f(GroupArg(groups[i].1)), parse)]
  {
    var rs := Results(groups, f);
    var t := TruthyResults(rs);
    var ms := TransformGroups(groups, f, parse);
    TransformGroupsExact(groups, f, parse);
    TruthyKeeps(rs);
    forall i | 0 <= i < |groups| && f(GroupArg(groups[i].1)) != ""
      ensures [Classify(0, f(GroupArg(groups[i].1)), parse)] in ms
    {
      assert rs[i] == f(GroupArg(groups[i].1));
      var k :| 0 <= k < |t| && t[k] == rs[i];
      assert ms[k] == [Classify(0, rs[i], parse)];
    }
    if forall i :: 0 <= i < |groups| ==> f(GroupArg(groups[i].1)) != "" {
      assert forall i :: 0 <= i < |rs| ==> rs[i] != "" by {
        forall i | 0 <= i < |rs| ensures rs[i] != "" {
          assert rs[i] == f(GroupArg(groups[i].1));
        }
      }
    }
  }

  /** Without `input_split_reads`, every unit yields exactly one transformed
      unit, named by `input_function` on all its names, whatever the result
      is, and in the order of the units. */
  lemma {:induction false} ModUnitsWhole(us: seq<Unit>, f: InputFunction, parse: Parser)
    ensures |ModUnits(us, false, f, parse)| == |us|
    ensures forall k :: 0 <= k < |us| ==>
      ModUnits(us, false, f, parse)[k] == [Classify(0, f(FileList(Filenames(us[k]))), parse)]
  {
    if us != [] {
      ModUnitsWhole(us[1..], f, parse);
      var ms := ModUnits(us, false, f, parse);
      var rest := ModUnits(us[1..], false, f, parse);
      assert ms == [[Classify(0, f(FileList(Filenames(us[0]))), parse)]] + rest;
      forall k | 0 < k < |us| ensures ms[k] == [Classify(0, f(FileList(Filenames(us[k]))), parse)] {
        assert ms[k] == rest[k - 1] && us[k] == us[1..][k - 1];
      }
    }
  }

  /** With `input_split_reads`, the transformed units of a unit are one
      single-file unit per read group whose result is truthy, in read-group
      order, each named by that result; there are never more of them than
      read groups. */
  lemma ModUnitsOfSplit(u: Unit, f: InputFunction, parse: Parser)
    ensures var gs := SplitByReadIndex(Filenames(u), parse);
      var ms := ModUnitsOf(u, true, f, parse);
      && |ms| <= |gs|
      && (forall k :: 0 <= k < |ms| ==>
           |ms[k]| == 1 && ms[k][0].filename != ""
           && exists i :: 0 <= i < |gs| && ms[k][0].filename == f(GroupArg(gs[i].1)))
      && |ms| == |TruthyResults(Results(gs, f))|
      && (forall k :: 0 <= k < |ms| ==> ms[k] == [Classify(0, TruthyResults(Results(gs, f))[k], parse)])
      && (forall i :: 0 <= i < |gs| && f(GroupArg(gs[i].1)) != "" ==> [Classify(0, f(GroupArg(gs[i].1)), parse)] in ms)
  {
    var gs := SplitByReadIndex(Filenames(u), parse);
    TransformGroupsSingle(gs, f, parse);
    TransformGroupsExact(gs, f, parse);
    TransformGroupsComplete(gs, f, parse);
  }

  /** The "empty input list" check on the transformed dict never fires: the
      transformed dict has the same organisms, in the same order, as the
      fixed input, and that one is not empty. */
  lemma ModInputsKeepOrganisms(g: Grouped, splitReads: bool, f: InputFunction, parse: Parser)
    requires g != []
    ensures ModInputs(g, splitReads, f, parse).Ok?
    ensures var r := ModInputs(g, splitReads, f, parse).value;
      && r.0 == Collapsed(g, splitReads).value
      && Organisms(r.1) == Organisms(r.0) == Organisms(g)
  {
    CollapseKeepsFiles(g, splitReads);
    var fixed := Collapsed(g, splitReads).value;
    var mod := seq(|fixed|, i requires 0 <= i < |fixed| =>
                   OrganismUnits(fixed[i].organism, ModUnits(fixed[i].units, splitReads, f, parse)));
    assert |mod| == |fixed| == |g|;
    CollapseKeepsFiles(mod, splitReads);
    assert Organisms(mod) == Organisms(fixed);
  }
}
