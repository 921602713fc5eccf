/** The files an executor step works on (`AnalysisType`, `AnalysisFileData`,
    `SingleAnalysis`). The barcode parser `BarcodedFilename` is not part of
    this model: it is a parameter that either yields the fields the executor
    reads or fails. */
module Files {
  import opened Util

  /** `barcode.tissue`: `is_normal()`, `is_tumor()` or neither. */
  datatype Tissue = Tumor | Normal | OtherTissue

  /** The barcode fields the executor reads. `identity` stands for the fields
      `equals_without_tissue` compares; `readIndex` is 0 when the name
      carries no read index. */
  datatype Barcode = Barcode(
    identity: string,
    tissue: Tissue,
    organism: Option<string>,
    sequencing: string,
    readIndex: int)

  /** `BarcodedFilename(filename)`, `None` where the constructor raises. */
  type Parser = string -> Option<Barcode>

  /** An `AnalysisFileData`. `id` is the object's identity: Python's
      `list.remove` compares these objects by identity, so two files with the
      same name are still different entries. */
  datatype FileData = FileData(id: nat, filename: string, barcode: Option<Barcode>)

  datatype AnalysisType = Unspecified | Sample | Control

  function Classify(id: nat, filename: string, parse: Parser): FileData {
    FileData(id, filename, parse(filename))
  }

  /** The `type` attribute set by the constructor. */
  function TypeOf(f: FileData): (t: AnalysisType)
    ensures t == Control <==> f.barcode.Some? && f.barcode.value.tissue == Normal
    ensures t == Sample <==> f.barcode.Some? && f.barcode.value.tissue == Tumor
  {
    match f.barcode
    case None => Unspecified
    case Some(b) => if b.tissue == Normal then Control else if b.tissue == Tumor then Sample else Unspecified
  }

  /** A `SingleAnalysis`: the files one execution unit works on. */
  type Unit = seq<FileData>

  /** The first file of the unit with type `t`, or `None`. */
  function FirstOfType(u: Unit, t: AnalysisType): (r: Option<FileData>)
    ensures r.None? <==> forall i :: 0 <= i < |u| ==> TypeOf(u[i]) != t
    ensures r.Some? ==>
      exists i :: 0 <= i < |u| && u[i] == r.value && TypeOf(u[i]) == t
                && forall j :: 0 <= j < i ==> TypeOf(u[j]) != t
  {
    if u == [] then None
    else if TypeOf(u[0]) == t then Some(u[0])
    else
      var r := FirstOfType(u[1..], t);
      assert forall j :: 0 < j < |u| ==> u[j] == u[1..][j - 1];
      r
  }

  /** `SingleAnalysis.sample` */
  function SampleOf(u: Unit): Option<FileData> {
    FirstOfType(u, Sample)
  }

  /** `SingleAnalysis.control` */
  function ControlOf(u: Unit): Option<FileData> {
    FirstOfType(u, Control)
  }

  function Filenames(u: Unit): (names: seq<string>)
    ensures |names| == |u| && forall i :: 0 <= i < |u| ==> names[i] == u[i].filename
  {
    seq(|u|, i requires 0 <= i < |u| => u[i].filename)
  }

  /** The files of several units, one unit after the other. */
  function Concat(us: seq<Unit>): Unit {
    if us == [] then [] else us[0] + Concat(us[1..])
  }

  /** Sample and control accessors agree with the order of the unit: the
      sample is a file before which no other sample occurs, and a unit whose
      first file is a sample has that file as its sample. */
  lemma {:induction false} SampleIsFirst(u: Unit)
    requires u != [] && TypeOf(u[0]) == Sample
    ensures SampleOf(u) == Some(u[0])
    ensures ControlOf(u) == ControlOf(u[1..])
  {
  }

  lemma {:induction false} ConcatLength(us: seq<Unit>)
    ensures |Concat(us)| == if us == [] then 0 else |us[0]| + |Concat(us[1..])|
  {
  }

  lemma {:induction false} ConcatAppend(us: seq<Unit>, u: Unit)
    ensures Concat(us + [u]) == Concat(us) + u
  {
    if us != [] {
      assert (us + [u])[1..] == us[1..] + [u];
      ConcatAppend(us[1..], u);
    } else {
      assert Concat([u]) == u + Concat([]);
    }
  }
}
