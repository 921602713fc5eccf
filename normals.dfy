/** Pairing samples with their normal controls
    (`Executor._get_fixed_normals_analyses`). */
module Normals {
  import opened Util
  import opened Files

  /** An entry of the `controls` list: the position of the unit holding the
      file, and the file. */
  type Control = (nat, FileData)

  /** `file_data.barcode.equals_without_tissue(other.barcode)` and
      `other.barcode.tissue.is_normal()`, for a sample barcode `s`. */
  predicate IsControlOf(s: Barcode, f: FileData) {
    f.barcode.Some? && f.barcode.value.identity == s.identity && f.barcode.value.tissue == Normal
  }

  /** The name of the first file, in unit order, whose name did not parse:
      reading its `barcode` raises. */
  function FirstUnparsed(fs: Unit): (r: Option<string>)
    ensures r.None? <==> forall k :: 0 <= k < |fs| ==> fs[k].barcode.Some?
    ensures r.Some? ==> exists k :: 0 <= k < |fs| && fs[k].barcode.None? && fs[k].filename == r.value
  {
    if fs == [] then None
    else if fs[0].barcode.None? then Some(fs[0].filename)
    else
      var r := FirstUnparsed(fs[1..]);
      assert forall k :: 0 < k < |fs| ==> fs[k] == fs[1..][k - 1];
      r
  }

  function ControlsIn(u: Unit, j: nat, s: Barcode): (cs: seq<Control>)
    ensures forall k :: 0 <= k < |cs| ==> cs[k].0 == j && cs[k].1 in u && IsControlOf(s, cs[k].1)
  {
    if u == [] then []
    else (if IsControlOf(s, u[0]) then [(j, u[0])] else []) + ControlsIn(u[1..], j, s)
  }

  /** The `controls` comprehension over the units from position `j` on. */
  function ControlsFrom(us: seq<Unit>, j: nat, s: Barcode): (cs: seq<Control>)
    decreases |us| - j
    ensures forall k :: 0 <= k < |cs| ==>
      j <= cs[k].0 < |us| && cs[k].1 in us[cs[k].0] && IsControlOf(s, cs[k].1)
  {
    if j >= |us| then [] else ControlsIn(us[j], j, s) + ControlsFrom(us, j + 1, s)
  }

  function ControlFiles(cs: seq<Control>): (fs: Unit)
    ensures |fs| == |cs| && forall k :: 0 <= k < |cs| ==> fs[k] == cs[k].1
  {
    seq(|cs|, k requires 0 <= k < |cs| => cs[k].1)
  }

  /** `control[1].barcode.sequencing == file_data.barcode.sequencing` */
  predicate SameRun(c: Control, s: Barcode) {
    c.1.barcode.Some? && c.1.barcode.value.sequencing == s.sequencing
  }

  /** The `sequencing_specific` comprehension. */
  function SameSequencing(cs: seq<Control>, s: Barcode): (r: seq<Control>)
    ensures |r| <= |cs|
    ensures forall k :: 0 <= k < |r| ==> r[k] in cs
  {
    if cs == [] then []
    else
      var rest := SameSequencing(cs[1..], s);
      var keep := SameRun(cs[0], s);
      assert forall k :: 0 <= k < |rest| ==> rest[k] in cs;
      (if keep then [cs[0]] else []) + rest
  }

  /** The controls a sample takes: the only one found; otherwise those with
      the sample's sequencing when there are any, else all those found. */
  function Chosen(cs: seq<Control>, s: Barcode): (r: seq<Control>)
    ensures forall k :: 0 <= k < |r| ==> r[k] in cs
  {
    if |cs| == 1 then cs
    else
      var specific := SameSequencing(cs, s);
      if specific != [] then specific else cs
  }

  /** `list.remove`: drop the first occurrence, if any. */
  function RemoveFirst(u: Unit, f: FileData): (r: Unit)
    ensures f in u ==> |r| == |u| - 1
    ensures f !in u ==> r == u
  {
    if u == [] then []
    else if u[0] == f then
      assert u == [u[0]] + u[1..];
      u[1..]
    else
      var r := [u[0]] + RemoveFirst(u[1..], f);
      assert u == [u[0]] + u[1..];
      r
  }

  /** `for control in controls: control[0].remove(control[1])`. A removal
      aimed at unit `detached` goes to a list object that is no longer in
      `analyses` and so changes nothing; -1 means no unit is detached. */
  function RemoveControls(us: seq<Unit>, cs: seq<Control>, detached: int): (r: seq<Unit>)
    requires forall k :: 0 <= k < |cs| ==> cs[k].0 < |us|
    ensures |r| == |us|
    decreases |cs|
  {
    if cs == [] then us
    else
      var j := cs[0].0;
      var next := if j == detached then us else us[j := RemoveFirst(us[j], cs[0].1)];
      RemoveControls(next, cs[1..], detached)
  }

  /** One iteration of the loop, at unit `i`. `asWritten` selects the source
      as written, where in the several-controls branch the removals from the
      sample's own unit go to the replaced list object; otherwise they go to
      the new unit. */
  function PairStep(us: seq<Unit>, i: nat, asWritten: bool): (r: Result<seq<Unit>>)
    requires i < |us|
    ensures r.Ok? ==> |r.value| == |us|
  {
    var u := us[i];
    if u == [] || TypeOf(u[0]) != Sample then Ok(us)
    else match FirstUnparsed(Concat(us))
      case Some(name) => Err(MissingBarcode(name))
      case None =>
        var s := u[0].barcode.value;
        var cs := ControlsFrom(us, 0, s);
        if |cs| == 1 then
          var grown := us[i := u + [cs[0].1]];
          Ok(grown[cs[0].0 := RemoveFirst(grown[cs[0].0], cs[0].1)])
        else
          var specific := SameSequencing(cs, s);
          var chosen := if specific != [] then specific else cs;
          Ok(RemoveControls(us[i := u + ControlFiles(chosen)], chosen, if asWritten then i else -1))
  }

  function PairFrom(us: seq<Unit>, i: nat, asWritten: bool): (r: Result<seq<Unit>>)
    decreases |us| - i
    ensures r.Ok? ==> |r.value| == |us|
  {
    if i >= |us| then Ok(us)
    else match PairStep(us, i, asWritten)
      case Err(e) => Err(e)
      case Ok(next) => PairFrom(next, i + 1, asWritten)
  }

  /** `[analysis for analysis in analyses if analysis]` */
  function NonEmpty(us: seq<Unit>): (r: seq<Unit>)
    ensures forall k :: 0 <= k < |r| ==> r[k] != []
    ensures Concat(r) == Concat(us)
  {
    if us == [] then []
    else
      var rest := NonEmpty(us[1..]);
      if us[0] == [] then rest else [us[0]] + rest
  }

  function Paired(us: seq<Unit>, asWritten: bool): Result<seq<Unit>> {
    match PairFrom(us, 0, asWritten)
    case Err(e) => Err(e)
    case Ok(vs) => Ok(NonEmpty(vs))
  }

  /** The pairing loop with the removals going to the unit that is in the
      list. */
  method FixNormals(analyses: seq<Unit>) returns (r: Result<seq<Unit>>)
    ensures r == Paired(analyses, false)
  {
    var us := analyses;
    var i := 0;
    while i < |us|
      invariant 0 <= i <= |us| == |analyses|
      invariant PairFrom(us, i, false) == PairFrom(analyses, 0, false)
    {
      var step := FixNormalsAt(us, i);
      if step.Err? {
        return Err(step.error);
      }
      us := step.value;
      i := i + 1;
    }
    return Ok(NonEmpty(us));
  }

  /** The body of the loop for the unit at `i`. */
  method FixNormalsAt(analyses: seq<Unit>, i: nat) returns (r: Result<seq<Unit>>)
    requires i < |analyses|
    ensures r == PairStep(analyses, i, false)
  {
    var analysis := analyses[i];
    if analysis == [] || TypeOf(analysis[0]) != Sample {
      return Ok(analyses);
    }
    var missing := FirstUnparsed(Concat(analyses));
    if missing.Some? {
      return Err(MissingBarcode(missing.value));
    }
    var s := analysis[0].barcode.value;
    var controls := ControlsFrom(analyses, 0, s);
    var us := analyses;
    if |controls| == 1 {
      us := us[i := analysis + [controls[0].1]];
      us := us[controls[0].0 := RemoveFirst(us[controls[0].0], controls[0].1)];
    } else {
      var specific := SameSequencing(controls, s);
      if specific != [] {
        controls := specific;
      }
      us := us[i := analysis + ControlFiles(controls)];
      us := RemoveEach(us, controls);
    }
    return Ok(us);
  }

  /** `for control in controls: control[0].remove(control[1])` */
  method RemoveEach(analyses: seq<Unit>, controls: seq<Control>) returns (us: seq<Unit>)
    requires forall k :: 0 <= k < |controls| ==> controls[k].0 < |analyses|
    ensures us == RemoveControls(analyses, controls, -1)
  {
    us := analyses;
    var k := 0;
    while k < |controls|
      invariant 0 <= k <= |controls|
      invariant |us| == |analyses|
      invariant RemoveControls(us, controls[k..], -1) == RemoveControls(analyses, controls, -1)
    {
      var j := controls[k].0;
      assert controls[k..][1..] == controls[k + 1..];
      us := us[j := RemoveFirst(us[j], controls[k].1)];
      k := k + 1;
    }
  }

  // ---------------------------------------------------------------------
  // What one iteration does, for every list of units.

  /** The files of the controls taken out of unit `j`, in order. */
  function FilesAt(cs: seq<Control>, j: nat): Unit {
    if cs == [] then [] else (if cs[0].0 == j then [cs[0].1] else []) + FilesAt(cs[1..], j)
  }

  /** `u.remove(f)` for each `f` of `fs`, one after another. */
  function RemoveAll(u: Unit, fs: Unit): Unit
    decreases |fs|
  {
    if fs == [] then u else RemoveAll(RemoveFirst(u, fs[0]), fs[1..])
  }

  lemma {:induction false} ControlsInFinds(u: Unit, j: nat, s: Barcode, f: FileData)
    requires f in u && IsControlOf(s, f)
    ensures (j, f) in ControlsIn(u, j, s)
  {
    assert u == [u[0]] + u[1..];
    if u[0] != f {
      ControlsInFinds(u[1..], j, s, f);
    }
  }

  lemma {:induction false} ControlsFromFinds(us: seq<Unit>, j0: nat, s: Barcode, j: nat, f: FileData)
    requires j0 <= j < |us| && f in us[j] && IsControlOf(s, f)
    ensures (j, f) in ControlsFrom(us, j0, s)
    decreases j - j0
  {
    if j == j0 {
      ControlsInFinds(us[j], j, s, f);
    } else {
      ControlsFromFinds(us, j0 + 1, s, j, f);
    }
  }

  /** The `controls` comprehension finds, with its unit, exactly every
      normal file of any unit that has the sample's identity. */
  lemma ControlsFound(us: seq<Unit>, s: Barcode)
    ensures forall j: nat, f :: j < |us| ==>
      ((j, f) in ControlsFrom(us, 0, s) <==> f in us[j] && IsControlOf(s, f))
    ensures forall c :: c in ControlsFrom(us, 0, s) ==> c.0 < |us|
  {
    forall j: nat, f | j < |us| && f in us[j] && IsControlOf(s, f) ensures (j, f) in ControlsFrom(us, 0, s) {
      ControlsFromFinds(us, 0, s, j, f);
    }
  }

  lemma {:induction false} SameSequencingHas(cs: seq<Control>, s: Barcode, c: Control)
    ensures c in SameSequencing(cs, s) <==> c in cs && SameRun(c, s)
  {
    if cs != [] {
      SameSequencingHas(cs[1..], s, c);
      assert c in cs <==> c == cs[0] || c in cs[1..] by {
        assert cs == [cs[0]] + cs[1..];
      }
    }
  }

  /** The controls taken: the only one found; with several, exactly those of
      the sample's sequencing when there is one, and all of them otherwise. */
  lemma ChosenSpec(cs: seq<Control>, s: Barcode)
    ensures |cs| == 1 ==> Chosen(cs, s) == cs
    ensures |cs| != 1 && (exists c :: c in cs && SameRun(c, s)) ==>
      forall c :: c in Chosen(cs, s) <==> c in cs && SameRun(c, s)
    ensures |cs| != 1 && (forall c :: c in cs ==> !SameRun(c, s)) ==> Chosen(cs, s) == cs
  {
    var specific := SameSequencing(cs, s);
    forall c ensures c in specific <==> c in cs && SameRun(c, s) {
      SameSequencingHas(cs, s, c);
    }
    if specific != [] {
      assert specific[0] in specific;
    }
  }

  lemma {:induction false} RemoveControlsAt(vs: seq<Unit>, cs: seq<Control>, j: nat)
    requires forall k :: 0 <= k < |cs| ==> cs[k].0 < |vs|
    requires j < |vs|
    ensures RemoveControls(vs, cs, -1)[j] == RemoveAll(vs[j], FilesAt(cs, j))
    decreases |cs|
  {
    if cs != [] {
      var j0 := cs[0].0;
      var h := cs[0].1;
      var next := vs[j0 := RemoveFirst(vs[j0], h)];
      forall k | 0 <= k < |cs[1..]| ensures cs[1..][k].0 < |next| {
        assert cs[1..][k] == cs[k + 1];
      }
      assert RemoveControls(vs, cs, -1) == RemoveControls(next, cs[1..], -1);
      RemoveControlsAt(next, cs[1..], j);
      if j0 == j {
        var fs := [h] + FilesAt(cs[1..], j);
        assert fs[0] == h && fs[1..] == FilesAt(cs[1..], j);
      } else {
        assert next[j] == vs[j];
        assert FilesAt(cs, j) == [] + FilesAt(cs[1..], j) == FilesAt(cs[1..], j);
      }
    }
  }

  /** Both branches of the loop body append the chosen controls to the
      sample's unit and then remove each of them from its own unit. */
  lemma PairStepRemoves(us: seq<Unit>, i: nat)
    requires i < |us| && us[i] != [] && TypeOf(us[i][0]) == Sample
    requires FirstUnparsed(Concat(us)) == None
    ensures var s := us[i][0].barcode.value;
      var chosen := Chosen(ControlsFrom(us, 0, s), s);
      && (forall k :: 0 <= k < |chosen| ==> chosen[k].0 < |us|)
      && PairStep(us, i, false) == Ok(RemoveControls(us[i := us[i] + ControlFiles(chosen)], chosen, -1))
  {
    var s := us[i][0].barcode.value;
    var cs := ControlsFrom(us, 0, s);
    if |cs| == 1 {
      var grown := us[i := us[i] + ControlFiles(cs)];
      assert ControlFiles(cs) == [cs[0].1];
      assert cs[1..] == [];
      assert RemoveControls(grown, cs, -1) == RemoveControls(grown[cs[0].0 := RemoveFirst(grown[cs[0].0], cs[0].1)], [], -1);
    }
  }

  /** One iteration at a sample's unit, when every name parses: the sample's
      unit gets the chosen controls appended, and each chosen control is then
      removed once from the unit it was found in (the sample's own unit
      included). When none of them was in the sample's unit, that unit is
      just the old one followed by the chosen controls. */
  lemma PairStepSpec(us: seq<Unit>, i: nat)
    requires i < |us| && us[i] != [] && TypeOf(us[i][0]) == Sample
    requires FirstUnparsed(Concat(us)) == None
    ensures var s := us[i][0].barcode.value;
      var chosen := Chosen(ControlsFrom(us, 0, s), s);
      && PairStep(us, i, false).Ok?
      && |PairStep(us, i, false).value| == |us|
      && (forall j :: 0 <= j < |us| && j != i ==>
            PairStep(us, i, false).value[j] == RemoveAll(us[j], FilesAt(chosen, j)))
      && PairStep(us, i, false).value[i] == RemoveAll(us[i] + ControlFiles(chosen), FilesAt(chosen, i))
      && (FilesAt(chosen, i) == [] ==> PairStep(us, i, false).value[i] == us[i] + ControlFiles(chosen))
  {
    var s := us[i][0].barcode.value;
    var chosen := Chosen(ControlsFrom(us, 0, s), s);
    var grown := us[i := us[i] + ControlFiles(chosen)];
    PairStepRemoves(us, i);
    forall j | 0 <= j < |us| ensures RemoveControls(grown, chosen, -1)[j] == RemoveAll(grown[j], FilesAt(chosen, j)) {
      RemoveControlsAt(grown, chosen, j);
    }
  }

  lemma {:induction false} FilesAtNone(cs: seq<Control>, j: nat)
    requires FilesAt(cs, j) == []
    ensures forall k :: 0 <= k < |cs| ==> cs[k].0 != j
  {
    if cs != [] {
      FilesAtNone(cs[1..], j);
      assert forall k :: 0 < k < |cs| ==> cs[k] == cs[1..][k - 1];
    }
  }

  lemma {:induction false} RemoveControlsUndetached(vs: seq<Unit>, cs: seq<Control>, d: nat)
    requires forall k :: 0 <= k < |cs| ==> cs[k].0 < |vs| && cs[k].0 != d
    ensures RemoveControls(vs, cs, d) == RemoveControls(vs, cs, -1)
    decreases |cs|
  {
    if cs != [] {
      var next := vs[cs[0].0 := RemoveFirst(vs[cs[0].0], cs[0].1)];
      forall k | 0 <= k < |cs[1..]| ensures cs[1..][k].0 < |next| && cs[1..][k].0 != d {
        assert cs[1..][k] == cs[k + 1];
      }
      RemoveControlsUndetached(next, cs[1..], d);
    }
  }

  /** The loop as written and the corrected loop agree on an iteration
      unless one of the chosen controls lies in the sample's own unit. */
  lemma AsWrittenAgrees(us: seq<Unit>, i: nat)
    requires i < |us| && us[i] != [] && TypeOf(us[i][0]) == Sample
    requires FirstUnparsed(Concat(us)) == None
    requires var s := us[i][0].barcode.value; FilesAt(Chosen(ControlsFrom(us, 0, s), s), i) == []
    ensures PairStep(us, i, true) == PairStep(us, i, false)
  {
    var s := us[i][0].barcode.value;
    var cs := ControlsFrom(us, 0, s);
    var chosen := Chosen(cs, s);
    FilesAtNone(chosen, i);
    forall k | 0 <= k < |chosen| ensures chosen[k].0 < |us| {
      assert chosen[k] in cs;
    }
    if |cs| != 1 {
      RemoveControlsUndetached(us[i := us[i] + ControlFiles(chosen)], chosen, i);
    }
  }

  // ---------------------------------------------------------------------
  // Every file survives the corrected pairing exactly once.

  /** How often `f` occurs in `u`. */
  function Occ(u: Unit, f: FileData): nat {
    if u == [] then 0 else (if u[0] == f then 1 else 0) + Occ(u[1..], f)
  }

  /** How often `f` occurs in all the units together. */
  function Total(us: seq<Unit>, f: FileData): nat {
    if us == [] then 0 else Occ(us[0], f) + Total(us[1..], f)
  }

  /** How often the controls list takes `f` out of unit `j`. */
  function Taken(cs: seq<Control>, j: nat, f: FileData): nat {
    if cs == [] then 0
    else (if cs[0].0 == j && cs[0].1 == f then 1 else 0) + Taken(cs[1..], j, f)
  }

  lemma {:induction false} OccAppend(a: Unit, b: Unit, f: FileData)
    ensures Occ(a + b, f) == Occ(a, f) + Occ(b, f)
  {
    if a != [] {
      assert (a + b)[1..] == a[1..] + b;
      OccAppend(a[1..], b, f);
    } else {
      assert a + b == b;
    }
  }

  lemma {:induction false} OccPositive(u: Unit, f: FileData)
    ensures Occ(u, f) > 0 <==> f in u
  {
    if u != [] {
      OccPositive(u[1..], f);
      assert f in u <==> u[0] == f || f in u[1..];
    }
  }

  lemma {:induction false} TotalConcat(us: seq<Unit>, f: FileData)
    ensures Total(us, f) == Occ(Concat(us), f)
  {
    if us != [] {
      TotalConcat(us[1..], f);
      OccAppend(us[0], Concat(us[1..]), f);
    }
  }

  lemma {:induction false} RemoveFirstOcc(u: Unit, f: FileData, g: FileData)
    ensures Occ(RemoveFirst(u, f), g) + (if g == f && f in u then 1 else 0) == Occ(u, g)
  {
    if u != [] && u[0] != f {
      RemoveFirstOcc(u[1..], f, g);
      assert f in u <==> f in u[1..];
      assert RemoveFirst(u, f)[1..] == RemoveFirst(u[1..], f);
    }
  }

  lemma {:induction false} UpdateTotal(vs: seq<Unit>, j: nat, x: Unit, f: FileData)
    requires j < |vs|
    ensures Total(vs[j := x], f) + Occ(vs[j], f) == Total(vs, f) + Occ(x, f)
  {
    var ws := vs[j := x];
    if j == 0 {
      assert ws[1..] == vs[1..];
    } else {
      assert ws[1..] == vs[1..][j - 1 := x];
      UpdateTotal(vs[1..], j - 1, x, f);
    }
  }

  lemma {:induction false} TakenAppend(a: seq<Control>, b: seq<Control>, j: nat, f: FileData)
    ensures Taken(a + b, j, f) == Taken(a, j, f) + Taken(b, j, f)
  {
    if a != [] {
      assert (a + b)[1..] == a[1..] + b;
      TakenAppend(a[1..], b, j, f);
    } else {
      assert a + b == b;
    }
  }

  lemma {:induction false} TakenIn(u: Unit, j': nat, s: Barcode, j: nat, f: FileData)
    ensures Taken(ControlsIn(u, j', s), j, f) <= (if j == j' then Occ(u, f) else 0)
  {
    if u != [] {
      var head: seq<Control> := if IsControlOf(s, u[0]) then [(j', u[0])] else [];
      TakenIn(u[1..], j', s, j, f);
      TakenAppend(head, ControlsIn(u[1..], j', s), j, f);
      if head != [] {
        assert head[1..] == [];
      }
    }
  }

  lemma {:induction false} TakenFrom(us: seq<Unit>, j0: nat, s: Barcode, j: nat, f: FileData)
    requires j < |us|
    ensures Taken(ControlsFrom(us, j0, s), j, f) <= (if j >= j0 then Occ(us[j], f) else 0)
    decreases |us| - j0
  {
    if j0 < |us| {
      TakenIn(us[j0], j0, s, j, f);
      TakenFrom(us, j0 + 1, s, j, f);
      TakenAppend(ControlsIn(us[j0], j0, s), ControlsFrom(us, j0 + 1, s), j, f);
    }
  }

  lemma {:induction false} TakenSameSequencing(cs: seq<Control>, s: Barcode, j: nat, f: FileData)
    ensures Taken(SameSequencing(cs, s), j, f) <= Taken(cs, j, f)
  {
    if cs != [] {
      TakenSameSequencing(cs[1..], s, j, f);
      var keep := cs[0].1.barcode.Some? && cs[0].1.barcode.value.sequencing == s.sequencing;
      var head: seq<Control> := if keep then [cs[0]] else [];
      TakenAppend(head, SameSequencing(cs[1..], s), j, f);
      if keep {
        assert head[1..] == [];
      }
    }
  }

  lemma {:induction false} RemoveControlsTotal(vs: seq<Unit>, cs: seq<Control>, f: FileData)
    requires forall k :: 0 <= k < |cs| ==> cs[k].0 < |vs|
    requires forall j, g :: 0 <= j < |vs| ==> Taken(cs, j, g) <= Occ(vs[j], g)
    ensures Total(RemoveControls(vs, cs, -1), f) + Occ(ControlFiles(cs), f) == Total(vs, f)
    decreases |cs|
  {
    if cs != [] {
      var j0 := cs[0].0;
      var h := cs[0].1;
      var x := RemoveFirst(vs[j0], h);
      var next := vs[j0 := x];
      assert h in vs[j0] by {
        OccPositive(vs[j0], h);
      }
      forall j, g | 0 <= j < |next| ensures Taken(cs[1..], j, g) <= Occ(next[j], g) {
        if j == j0 {
          RemoveFirstOcc(vs[j0], h, g);
        }
      }
      forall k | 0 <= k < |cs[1..]| ensures cs[1..][k].0 < |next| {
        assert cs[1..][k] == cs[k + 1];
      }
      RemoveControlsTotal(next, cs[1..], f);
      RemoveFirstOcc(vs[j0], h, f);
      UpdateTotal(vs, j0, x, f);
      assert ControlFiles(cs)[1..] == ControlFiles(cs[1..]);
    }
  }

  lemma StepKeepsFiles(us: seq<Unit>, i: nat, f: FileData)
    requires i < |us|
    requires PairStep(us, i, false).Ok?
    ensures Total(PairStep(us, i, false).value, f) == Total(us, f)
  {
    var u := us[i];
    if u != [] && TypeOf(u[0]) == Sample {
      var s := u[0].barcode.value;
      var cs := ControlsFrom(us, 0, s);
      if |cs| == 1 {
        var j := cs[0].0;
        var h := cs[0].1;
        var grown := us[i := u + [h]];
        UpdateTotal(us, i, u + [h], f);
        OccAppend(u, [h], f);
        assert h in grown[j] by {
          if j == i {
            assert grown[j][|u|] == h;
          } else {
            assert grown[j] == us[j];
          }
        }
        RemoveFirstOcc(grown[j], h, f);
        UpdateTotal(grown, j, RemoveFirst(grown[j], h), f);
      } else {
        var specific := SameSequencing(cs, s);
        var chosen := if specific != [] then specific else cs;
        var grown := us[i := u + ControlFiles(chosen)];
        UpdateTotal(us, i, u + ControlFiles(chosen), f);
        OccAppend(u, ControlFiles(chosen), f);
        forall k | 0 <= k < |chosen| ensures chosen[k].0 < |grown| {
          assert chosen[k] in cs;
        }
        forall j, g | 0 <= j < |grown| ensures Taken(chosen, j, g) <= Occ(grown[j], g) {
          TakenFrom(us, 0, s, j, g);
          TakenSameSequencing(cs, s, j, g);
          if j == i {
            OccAppend(u, ControlFiles(chosen), g);
          }
        }
        RemoveControlsTotal(grown, chosen, f);
      }
    }
  }

  lemma {:induction false} PairFromKeepsFiles(us: seq<Unit>, i: nat, f: FileData)
    requires PairFrom(us, i, false).Ok?
    ensures Total(PairFrom(us, i, false).value, f) == Total(us, f)
    decreases |us| - i
  {
    if i < |us| {
      StepKeepsFiles(us, i, f);
      PairFromKeepsFiles(PairStep(us, i, false).value, i + 1, f);
    }
  }

  /** Pairing moves files between units and never adds, loses or duplicates
      one: every file occurs in the result as often as in the input. No unit
      of the result is empty. */
  lemma PairedKeepsFiles(us: seq<Unit>)
    requires Paired(us, false).Ok?
    ensures forall f :: Occ(Concat(Paired(us, false).value), f) == Occ(Concat(us), f)
    ensures forall k :: 0 <= k < |Paired(us, false).value| ==> Paired(us, false).value[k] != []
  {
    var vs := PairFrom(us, 0, false).value;
    forall f ensures Occ(Concat(Paired(us, false).value), f) == Occ(Concat(us), f) {
      PairFromKeepsFiles(us, 0, f);
      TotalConcat(us, f);
      TotalConcat(vs, f);
    }
  }

  lemma SameFiles(a: seq<Unit>, b: seq<Unit>, f: FileData)
    requires Total(a, f) == Total(b, f)
    ensures f in Concat(a) <==> f in Concat(b)
  {
    TotalConcat(a, f);
    TotalConcat(b, f);
    OccPositive(Concat(a), f);
    OccPositive(Concat(b), f);
  }

  lemma {:induction false} PairFromOk(us: seq<Unit>, i: nat)
    requires forall f :: f in Concat(us) ==> f.barcode.Some?
    ensures PairFrom(us, i, false).Ok?
    decreases |us| - i
  {
    if i < |us| {
      var step := PairStep(us, i, false);
      assert step.Ok?;
      forall f | f in Concat(step.value) ensures f.barcode.Some? {
        StepKeepsFiles(us, i, f);
        SameFiles(us, step.value, f);
      }
      PairFromOk(step.value, i + 1);
    }
  }

  lemma {:induction false} PairFromErr(us: seq<Unit>, i: nat)
    requires PairFrom(us, i, false).Err?
    ensures PairFrom(us, i, false).error.MissingBarcode?
    ensures exists f :: f in Concat(us) && f.barcode.None? && f.filename == PairFrom(us, i, false).error.filename
    decreases |us| - i
  {
    if i < |us| {
      var step := PairStep(us, i, false);
      if step.Err? {
        var k :| 0 <= k < |Concat(us)| && Concat(us)[k].barcode.None? && Concat(us)[k].filename == step.error.filename;
        assert Concat(us)[k] in Concat(us);
      } else {
        PairFromErr(step.value, i + 1);
        var f :| f in Concat(step.value) && f.barcode.None? && f.filename == PairFrom(us, i, false).error.filename;
        StepKeepsFiles(us, i, f);
        SameFiles(us, step.value, f);
      }
    }
  }

  /** When every name parses as a barcode pairing succeeds, and a failure
      names a file whose name did not parse. */
  lemma PairedErrors(us: seq<Unit>)
    ensures (forall f :: f in Concat(us) ==> f.barcode.Some?) ==> Paired(us, false).Ok?
    ensures Paired(us, false).Err? ==>
      Paired(us, false).error.MissingBarcode? &&
      exists f :: f in Concat(us) && f.barcode.None? && f.filename == Paired(us, false).error.filename
  {
    if forall f :: f in Concat(us) ==> f.barcode.Some? {
      PairFromOk(us, 0);
    }
    if PairFrom(us, 0, false).Err? {
      PairFromErr(us, 0);
    }
  }

  // ---------------------------------------------------------------------
  // Scenarios.

  lemma ControlsInCons(f: FileData, rest: Unit, j: nat, s: Barcode)
    ensures ControlsIn([f] + rest, j, s)
         == (if IsControlOf(s, f) then [(j, f)] else []) + ControlsIn(rest, j, s)
  {
    assert ([f] + rest)[1..] == rest;
  }

  lemma NonEmptyCons(u: Unit, rest: seq<Unit>)
    ensures NonEmpty([u] + rest) == (if u == [] then [] else [u]) + NonEmpty(rest)
  {
    assert ([u] + rest)[1..] == rest;
  }

  /** `t` is a sample whose barcode `n` is a normal control of. */
  predicate SampleAndControl(t: FileData, n: FileData) {
    TypeOf(t) == Sample && IsControlOf(t.barcode.value, n)
  }

  lemma Unfold(us: seq<Unit>, i: nat, asWritten: bool, next: seq<Unit>)
    requires i < |us| && PairStep(us, i, asWritten) == Ok(next)
    ensures PairFrom(us, i, asWritten) == PairFrom(next, i + 1, asWritten)
  {
  }

  lemma Skip(us: seq<Unit>, i: nat, asWritten: bool)
    requires i < |us| && (us[i] == [] || TypeOf(us[i][0]) != Sample)
    ensures PairFrom(us, i, asWritten) == PairFrom(us, i + 1, asWritten)
  {
  }

  lemma Done(us: seq<Unit>, asWritten: bool)
    ensures PairFrom(us, |us|, asWritten) == Ok(us)
  {
  }

  lemma PairedOf(us: seq<Unit>, asWritten: bool, vs: seq<Unit>)
    requires PairFrom(us, 0, asWritten) == Ok(vs)
    ensures Paired(us, asWritten) == Ok(NonEmpty(vs))
  {
  }

  lemma DropEmptyLast(a: Unit)
    requires a != []
    ensures NonEmpty([a, []]) == [a]
  {
    NonEmptyCons([], []);
    NonEmptyCons(a, [[]]);
    assert [a] + [[]] == [a, []];
    var none: seq<Unit> := [];
    assert [[]] + none == [[]];
  }

  lemma DropEmptyMiddle(a: Unit, b: Unit)
    requires a != [] && b != []
    ensures NonEmpty([a, [], b]) == [a, b]
  {
    NonEmptyCons(b, []);
    NonEmptyCons([], [b]);
    NonEmptyCons(a, [[], b]);
    assert [a] + [[], b] == [a, [], b];
    assert [[]] + [b] == [[], b];
    var none: seq<Unit> := [];
    assert [b] + none == [b];
  }

  lemma SingleStep(t: FileData, n: FileData)
    requires SampleAndControl(t, n)
    ensures PairStep([[t], [n]], 0, false) == Ok([[t, n], []])
  {
    var us: seq<Unit> := [[t], [n]];
    var s := t.barcode.value;
    assert ControlsIn([t], 0, s) == [] by { ControlsInCons(t, [], 0, s); }
    assert ControlsIn([n], 1, s) == [(1, n)] by { ControlsInCons(n, [], 1, s); }
    assert ControlsFrom(us, 2, s) == [];
    assert ControlsFrom(us, 1, s) == ControlsIn([n], 1, s) + [];
    assert ControlsFrom(us, 0, s) == ControlsIn([t], 0, s) + ControlsFrom(us, 1, s);
    assert Concat(us) == [t, n] by {
      assert Concat(us) == [t] + Concat(us[1..]);
      assert Concat(us[1..]) == [n] + Concat([]);
    }
    assert FirstUnparsed([t, n]) == None;
    assert RemoveFirst([n], n) == [];
    assert ControlsFrom(us, 0, s) == [(1, n)];
    assert [t] + [n] == [t, n];
    var grown := us[0 := [t] + [n]];
    assert grown == [[t, n], [n]];
    assert grown[1 := RemoveFirst(grown[1], n)] == [[t, n], []];
    assert PairStep(us, 0, false) == Ok(grown[1 := RemoveFirst(grown[1], n)]);
  }

  /** A sample and its only normal, in two units, end up together in one. */
  lemma SingleControlJoinsSample(t: FileData, n: FileData)
    requires SampleAndControl(t, n)
    ensures Paired([[t], [n]], false) == Ok([[t, n]])
  {
    var after: seq<Unit> := [[t, n], []];
    SingleStep(t, n);
    Unfold([[t], [n]], 0, false, after);
    Skip(after, 1, false);
    Done(after, false);
    PairedOf([[t], [n]], false, after);
    DropEmptyLast([t, n]);
  }

  lemma ThreeUnitControls(t: FileData, n: FileData, m: FileData)
    requires SampleAndControl(t, n) && SampleAndControl(t, m)
    ensures ControlsFrom([[t], [n], [m]], 0, t.barcode.value) == [(1, n), (2, m)]
    ensures FirstUnparsed(Concat([[t], [n], [m]])) == None
  {
    var us: seq<Unit> := [[t], [n], [m]];
    var s := t.barcode.value;
    assert ControlsIn([t], 0, s) == [] by { ControlsInCons(t, [], 0, s); }
    assert ControlsIn([n], 1, s) == [(1, n)] by { ControlsInCons(n, [], 1, s); }
    assert ControlsIn([m], 2, s) == [(2, m)] by { ControlsInCons(m, [], 2, s); }
    assert ControlsFrom(us, 3, s) == [];
    assert ControlsFrom(us, 2, s) == ControlsIn([m], 2, s) + [];
    assert ControlsFrom(us, 1, s) == ControlsIn([n], 1, s) + ControlsFrom(us, 2, s);
    assert ControlsFrom(us, 0, s) == ControlsIn([t], 0, s) + ControlsFrom(us, 1, s);
    assert Concat(us) == [t, n, m] by {
      assert Concat(us) == [t] + Concat(us[1..]);
      assert Concat(us[1..]) == [n] + Concat(us[2..]);
      assert Concat(us[2..]) == [m] + Concat([]);
    }
    assert FirstUnparsed([t, n, m]) == None;
  }

  lemma PreferredStep(t: FileData, n: FileData, m: FileData)
    requires SampleAndControl(t, n) && SampleAndControl(t, m)
    requires n.barcode.value.sequencing == t.barcode.value.sequencing
    requires m.barcode.value.sequencing != t.barcode.value.sequencing
    ensures PairStep([[t], [n], [m]], 0, false) == Ok([[t, n], [], [m]])
  {
    var us: seq<Unit> := [[t], [n], [m]];
    var s := t.barcode.value;
    var cs: seq<Control> := [(1, n), (2, m)];
    ThreeUnitControls(t, n, m);
    assert SameSequencing(cs, s) == [(1, n)] by {
      assert SameSequencing(cs[1..], s) == [];
    }
    assert ControlFiles([(1, n)]) == [n];
    assert RemoveFirst([n], n) == [];
    assert [t] + [n] == [t, n];
    assert us[0 := [t] + [n]] == [[t, n], [n], [m]];
    assert RemoveControls([[t, n], [n], [m]], [(1, n)], -1) == RemoveControls([[t, n], [], [m]], [], -1);
  }

  /** With two normals, the one with the sample's sequencing is taken and
      the other stays where it was. */
  lemma SameSequencingPreferred(t: FileData, n: FileData, m: FileData)
    requires SampleAndControl(t, n) && SampleAndControl(t, m)
    requires n.barcode.value.sequencing == t.barcode.value.sequencing
    requires m.barcode.value.sequencing != t.barcode.value.sequencing
    ensures Paired([[t], [n], [m]], false) == Ok([[t, n], [m]])
  {
    var after: seq<Unit> := [[t, n], [], [m]];
    PreferredStep(t, n, m);
    Unfold([[t], [n], [m]], 0, false, after);
    Skip(after, 1, false);
    assert TypeOf(m) != Sample;
    Skip(after, 2, false);
    Done(after, false);
    PairedOf([[t], [n], [m]], false, after);
    DropEmptyMiddle([t, n], [m]);
  }

  // ---------------------------------------------------------------------
  // The source as written.

  /** The controls found for a sample unit `[t, n, m]` holding two normals
      with the sample's sequencing. */
  lemma OwnControlsFound(t: FileData, n: FileData, m: FileData)
    requires SampleAndControl(t, n) && SampleAndControl(t, m)
    ensures ControlsFrom([[t, n, m]], 0, t.barcode.value) == [(0, n), (0, m)]
  {
    var s := t.barcode.value;
    ControlsInCons(m, [], 0, s);
    ControlsInCons(n, [m], 0, s);
    ControlsInCons(t, [n, m], 0, s);
    assert [m] + [] == [m];
    assert [n] + [m] == [n, m];
    assert [t] + [n, m] == [t, n, m];
  }

  lemma OwnControlsParsed(t: FileData, n: FileData, m: FileData)
    requires SampleAndControl(t, n) && SampleAndControl(t, m)
    ensures FirstUnparsed(Concat([[t, n, m]])) == None
  {
    assert Concat([[t, n, m]]) == [t, n, m] + Concat([]);
  }

  lemma OwnControlsPreferred(t: FileData, n: FileData, m: FileData)
    requires SampleAndControl(t, n) && SampleAndControl(t, m)
    requires n.barcode.value.sequencing == m.barcode.value.sequencing == t.barcode.value.sequencing
    ensures SameSequencing([(0, n), (0, m)], t.barcode.value) == [(0, n), (0, m)]
  {
    var cs: seq<Control> := [(0, n), (0, m)];
    assert SameSequencing(cs[1..], t.barcode.value) == [(0, m)] by {
      assert cs[1..][1..] == [];
    }
  }

  /** The first step on `[[t, n, m]]` up to the removals. */
  lemma TwoOwnControls(t: FileData, n: FileData, m: FileData, asWritten: bool)
    requires SampleAndControl(t, n) && SampleAndControl(t, m)
    requires n.barcode.value.sequencing == m.barcode.value.sequencing == t.barcode.value.sequencing
    ensures PairStep([[t, n, m]], 0, asWritten)
      == Ok(RemoveControls([[t, n, m, n, m]], [(0, n), (0, m)], if asWritten then 0 else -1))
  {
    OwnControlsFound(t, n, m);
    OwnControlsParsed(t, n, m);
    OwnControlsPreferred(t, n, m);
    assert ControlFiles([(0, n), (0, m)]) == [n, m];
    assert [t, n, m] + [n, m] == [t, n, m, n, m];
    assert [[t, n, m]][0 := [t, n, m] + [n, m]] == [[t, n, m, n, m]];
  }

  lemma AsWrittenStep(t: FileData, n: FileData, m: FileData)
    requires SampleAndControl(t, n) && SampleAndControl(t, m)
    requires n.barcode.value.sequencing == m.barcode.value.sequencing == t.barcode.value.sequencing
    ensures PairStep([[t, n, m]], 0, true) == Ok([[t, n, m, n, m]])
  {
    TwoOwnControls(t, n, m, true);
    var grown: seq<Unit> := [[t, n, m, n, m]];
    var cs: seq<Control> := [(0, n), (0, m)];
    assert RemoveControls(grown, cs[1..], 0) == grown;
    assert RemoveControls(grown, cs, 0) == grown;
  }

  /** As written, two normals already in the sample's own unit are appended
      again while the removals go to the replaced list object: the unit ends
      up with each normal twice. */
  lemma AsWrittenDuplicatesControls(t: FileData, n: FileData, m: FileData)
    requires SampleAndControl(t, n) && SampleAndControl(t, m)
    requires n.barcode.value.sequencing == m.barcode.value.sequencing == t.barcode.value.sequencing
    ensures Paired([[t, n, m]], true) == Ok([[t, n, m, n, m]])
  {
    AsWrittenStep(t, n, m);
    Unfold([[t, n, m]], 0, true, [[t, n, m, n, m]]);
    NonEmptyCons([t, n, m, n, m], []);
    assert [[t, n, m, n, m]] + [] == [[t, n, m, n, m]];
  }

  lemma RemoveFirstCons(x: FileData, rest: Unit, f: FileData)
    ensures RemoveFirst([x] + rest, f) == if x == f then rest else [x] + RemoveFirst(rest, f)
  {
    assert ([x] + rest)[1..] == rest;
  }

  lemma RemoveSecond(t: FileData, n: FileData, m: FileData)
    requires t != n
    ensures RemoveFirst([t, n, m, n, m], n) == [t, m, n, m]
  {
    RemoveFirstCons(n, [m, n, m], n);
    RemoveFirstCons(t, [n, m, n, m], n);
    assert [t] + [n, m, n, m] == [t, n, m, n, m];
    assert [n] + [m, n, m] == [n, m, n, m];
    assert [t] + [m, n, m] == [t, m, n, m];
  }

  /** Removing `n` and then `m` from `[t, n, m, n, m]` leaves `[t, n, m]`. */
  lemma RemoveBoth(t: FileData, n: FileData, m: FileData)
    requires t != n && t != m && n != m
    ensures RemoveFirst(RemoveFirst([t, n, m, n, m], n), m) == [t, n, m]
  {
    RemoveSecond(t, n, m);
    RemoveFirstCons(m, [n, m], m);
    RemoveFirstCons(t, [m, n, m], m);
    assert [m] + [n, m] == [m, n, m];
    assert [t] + [m, n, m] == [t, m, n, m];
    assert [t] + [n, m] == [t, n, m];
  }

  /** Two removals from the same unit, neither skipped. */
  lemma RemoveTwice(us: seq<Unit>, j: nat, x: FileData, y: FileData)
    requires j < |us|
    ensures RemoveControls(us, [(j, x), (j, y)], -1)
         == us[j := RemoveFirst(RemoveFirst(us[j], x), y)]
  {
    var cs: seq<Control> := [(j, x), (j, y)];
    var once := us[j := RemoveFirst(us[j], x)];
    assert RemoveControls(us, cs, -1) == RemoveControls(once, cs[1..], -1);
    assert cs[1..] == [(j, y)];
    var twice := once[j := RemoveFirst(once[j], y)];
    assert RemoveControls(once, cs[1..], -1) == RemoveControls(twice, cs[1..][1..], -1);
    assert cs[1..][1..] == [];
  }

  lemma CorrectedStep(t: FileData, n: FileData, m: FileData)
    requires SampleAndControl(t, n) && SampleAndControl(t, m)
    requires n.barcode.value.sequencing == m.barcode.value.sequencing == t.barcode.value.sequencing
    requires n != m
    ensures PairStep([[t, n, m]], 0, false) == Ok([[t, n, m]])
  {
    var grown: seq<Unit> := [[t, n, m, n, m]];
    TwoOwnControls(t, n, m, false);
    assert TypeOf(t) != TypeOf(n) && TypeOf(t) != TypeOf(m);
    RemoveBoth(t, n, m);
    RemoveTwice(grown, 0, n, m);
    assert grown[0 := [t, n, m]] == [[t, n, m]];
  }

  /** Removing from the unit that is in the list moves the two normals to
      the end of the unit instead, each still there once. */
  lemma CorrectedMovesControls(t: FileData, n: FileData, m: FileData)
    requires SampleAndControl(t, n) && SampleAndControl(t, m)
    requires n.barcode.value.sequencing == m.barcode.value.sequencing == t.barcode.value.sequencing
    requires n != m
    ensures Paired([[t, n, m]], false) == Ok([[t, n, m]])
  {
    CorrectedStep(t, n, m);
    Unfold([[t, n, m]], 0, false, [[t, n, m]]);
    NonEmptyCons([t, n, m], []);
    assert [[t, n, m]] + [] == [[t, n, m]];
  }
}
