/** The parts of `Mapping` that compute rather than configure a command:
    the SAM record filter of `filter_alignment`, the scanner of the
    novoalign log in `align`, `_filter_non_hg`, and the names the cutadapt
    step writes. A text file is a sequence of lines, each with its line
    terminator as Python's line iteration yields it. */
module Mapping {
  import opened Util
  import opened Files
  import opened Placeholders
  import opened Outputs
  import Commands

  // ---------------------------------------------------------------------
  // Splitting text.

  /** `\s` on ASCII text. */
  predicate IsSpace(c: char) {
    c == ' ' || c == '\t' || c == '\n' || c == '\r' || c as int == 11 || c as int == 12
  }

  predicate NoSpace(s: string) {
    forall i :: 0 <= i < |s| ==> !IsSpace(s[i])
  }

  /** Drop the leading whitespace. */
  function SkipSpaces(s: string): (r: string)
    ensures |r| <= |s| && r == s[|s| - |r|..]
    ensures r != [] ==> !IsSpace(r[0])
    ensures s != [] && IsSpace(s[0]) ==> |r| < |s|
    ensures s != [] && !IsSpace(s[0]) ==> r == s
  {
    if s != [] && IsSpace(s[0]) then SkipSpaces(s[1..]) else s
  }

  /** The longest prefix without whitespace. */
  function TakeWord(s: string): (w: string)
    ensures |w| <= |s| && w == s[..|w|] && NoSpace(w)
    ensures |w| < |s| ==> IsSpace(s[|w|])
    ensures s != [] && !IsSpace(s[0]) ==> w != []
  {
    if s == [] || IsSpace(s[0]) then [] else [s[0]] + TakeWord(s[1..])
  }

  function ReSplitFrom(s: string, cur: string): (r: seq<string>)
    ensures r != []
    decreases |s|
  {
    if s == [] then [cur]
    else if IsSpace(s[0]) then [cur] + ReSplitFrom(SkipSpaces(s), [])
    else ReSplitFrom(s[1..], cur + [s[0]])
  }

  /** `re.split(r"\s+", s)`: the pieces between runs of whitespace, with an
      empty first piece when `s` starts with whitespace and an empty last
      one when it ends with it. */
  function ReSplit(s: string): seq<string> {
    ReSplitFrom(s, [])
  }

  /** Every piece is a non-empty word without whitespace. */
  predicate AllWords(ws: seq<string>) {
    forall i :: 0 <= i < |ws| ==> ws[i] != [] && NoSpace(ws[i])
  }

  lemma PrependWord(w: string, ws: seq<string>)
    requires w != [] && NoSpace(w) && AllWords(ws)
    ensures AllWords([w] + ws)
  {
    forall i | 0 < i < |[w] + ws| ensures ([w] + ws)[i] == ws[i - 1] { }
  }

  /** `s.split()`: the words, without empty pieces. */
  function Words(s: string): (ws: seq<string>)
    ensures AllWords(ws)
    decreases |s|
  {
    var t := SkipSpaces(s);
    if t == [] then []
    else
      var w := TakeWord(t);
      assert w != [];
      var rest := Words(t[|w|..]);
      PrependWord(w, rest);
      [w] + rest
  }

  function TrimEnd(s: string): (r: string)
    decreases |s|
  {
    if s != [] && IsSpace(s[|s| - 1]) then TrimEnd(s[..|s| - 1]) else s
  }

  /** `s.strip()` */
  function Strip(s: string): string {
    TrimEnd(SkipSpaces(s))
  }

  function SplitOnFrom(s: string, c: char, cur: string): (r: seq<string>)
    ensures r != []
    decreases |s|
  {
    if s == [] then [cur]
    else if s[0] == c then [cur] + SplitOnFrom(s[1..], c, [])
    else SplitOnFrom(s[1..], c, cur + [s[0]])
  }

  /** `s.split(c)` */
  function SplitOn(s: string, c: char): seq<string> {
    SplitOnFrom(s, c, [])
  }

  /** A record of fields without whitespace, separated by tabs and ended by
      a newline, splits back into its fields and a last empty piece. */
  lemma {:induction false} ReSplitRecord(fields: seq<string>, cur: string)
    requires fields != [] && forall i :: 0 <= i < |fields| ==> fields[i] != [] && NoSpace(fields[i])
    requires NoSpace(cur)
    ensures ReSplitFrom(Tabbed(fields) + "\n", cur) == [cur + fields[0]] + fields[1..] + [""]
    decreases |fields|, |fields[0]|
  {
    var f := fields[0];
    if |fields| == 1 {
      WordThenSpace(f, "\n", cur);
      assert ReSplitFrom("\n", cur + f) == [cur + f] + ReSplitFrom(SkipSpaces("\n"), []);
      assert SkipSpaces("\n") == [];
    } else {
      var rest := Tabbed(fields[1..]) + "\n";
      assert Tabbed(fields) + "\n" == f + ("\t" + rest);
      WordThenSpace(f, "\t" + rest, cur);
      TabbedStarts(fields[1..]);
      assert ("\t" + rest)[1..] == rest;
      assert rest[0] == fields[1][0];
      assert SkipSpaces(rest) == rest;
      assert SkipSpaces("\t" + rest) == rest;
      ReSplitRecord(fields[1..], []);
      assert ReSplitFrom(rest, []) == [fields[1]] + fields[2..] + [""] by {
        assert [] + fields[1..][0] == fields[1];
        assert fields[1..][1..] == fields[2..];
      }
      assert [cur + f] + ([fields[1]] + fields[2..] + [""]) == [cur + f] + fields[1..] + [""];
    }
  }

  /** One character that is not whitespace joins the current piece. */
  lemma ReSplitNonSpace(c: char, s: string, cur: string)
    requires !IsSpace(c)
    ensures ReSplitFrom([c] + s, cur) == ReSplitFrom(s, cur + [c])
  {
    assert ([c] + s)[1..] == s;
  }

  /** Whitespace ends the current piece. */
  lemma ReSplitAtSpace(rest: string, cur: string)
    requires rest != [] && IsSpace(rest[0])
    ensures ReSplitFrom(rest, cur) == [cur] + ReSplitFrom(SkipSpaces(rest), [])
  {
  }

  lemma NoSpaceTail(w: string)
    requires w != [] && NoSpace(w)
    ensures !IsSpace(w[0]) && NoSpace(w[1..])
  {
    forall i | 0 <= i < |w[1..]| ensures !IsSpace(w[1..][i]) {
      assert w[1..][i] == w[i + 1];
    }
  }

  /** The first character of a word moves into the current piece. */
  lemma WordStep(w: string, rest: string, cur: string)
    requires w != [] && NoSpace(w)
    ensures NoSpace(w[1..]) && cur + [w[0]] + w[1..] == cur + w
    ensures ReSplitFrom(w + rest, cur) == ReSplitFrom(w[1..] + rest, cur + [w[0]])
  {
    assert w + rest == [w[0]] + (w[1..] + rest);
    NoSpaceTail(w);
    ReSplitNonSpace(w[0], w[1..] + rest, cur);
    assert cur + [w[0]] + w[1..] == cur + w;
  }

  /** Reading a word without whitespace accumulates it whole. */
  lemma {:induction false} WordThenSpace(w: string, rest: string, cur: string)
    requires NoSpace(w) && rest != [] && IsSpace(rest[0])
    ensures ReSplitFrom(w + rest, cur) == [cur + w] + ReSplitFrom(SkipSpaces(rest), [])
    decreases |w|
  {
    if w == [] {
      assert w + rest == rest;
      assert cur + w == cur;
      ReSplitAtSpace(rest, cur);
    } else {
      WordStep(w, rest, cur);
      WordThenSpace(w[1..], rest, cur + [w[0]]);
    }
  }

  /** Fields joined by tabs. */
  function Tabbed(fields: seq<string>): string
    requires fields != []
  {
    if |fields| == 1 then fields[0] else fields[0] + "\t" + Tabbed(fields[1..])
  }

  /** A tab-separated record line splits into its fields, followed by the
      empty piece after the newline. */
  lemma ReSplitTabbed(fields: seq<string>)
    requires fields != [] && forall i :: 0 <= i < |fields| ==> fields[i] != [] && NoSpace(fields[i])
    ensures ReSplit(Tabbed(fields) + "\n") == fields + [""]
  {
    ReSplitRecord(fields, []);
    assert [] + fields[0] == fields[0];
    assert [fields[0]] + fields[1..] == fields;
  }

  // ---------------------------------------------------------------------
  // `filter_alignment`

  predicate AllDigits(s: string) {
    forall i :: 0 <= i < |s| ==> IsDigit(s[i])
  }

  /** `int(s)` for a field: an optional sign, then one or more decimal
      digits. */
  function ParseInt(s: string): Option<int> {
    if s != [] && (s[0] == '+' || s[0] == '-') then
      if |s| > 1 && AllDigits(s[1..]) then
        var d: int := DigitsValue(s[1..]);
        Some(if s[0] == '-' then -d else d)
      else None
    else if s != [] && AllDigits(s) then Some(DigitsValue(s))
    else None
  }

  /** Reading back a written integer gives the integer. */
  lemma ParseIntRoundTrip(n: int)
    ensures ParseInt(IntToString(n)) == Some(n)
  {
    if n < 0 {
      NatToStringRoundTrip(-n);
      var s := IntToString(n);
      assert s[1..] == NatToString(-n);
    } else {
      NatToStringRoundTrip(n);
      assert IntToString(n)[0] != '+' && IntToString(n)[0] != '-';
    }
  }

  /** `re.compile("N|H|P").search(cigar)` */
  predicate Clipped(cigar: string) {
    'N' in cigar || 'H' in cigar || 'P' in cigar
  }

  /** The value of the first `NM:i:` tag, if any. */
  function FirstMismatchTag(tags: seq<string>): (r: Option<string>)
    ensures r.Some? ==>
      exists i :: (0 <= i < |tags| && StartsWith(tags[i], "NM:i:") && r.value == tags[i][5..]
                   && forall j :: 0 <= j < i ==> !StartsWith(tags[j], "NM:i:"))
    ensures r.None? <==> forall i :: 0 <= i < |tags| ==> !StartsWith(tags[i], "NM:i:")
  {
    if tags == [] then None
    else if StartsWith(tags[0], "NM:i:") then Some(tags[0][5..])
    else
      var r := FirstMismatchTag(tags[1..]);
      assert forall i :: 0 < i < |tags| ==> tags[i] == tags[1..][i - 1];
      r
  }

  /** The mismatches a read may have: `floor(read_length * 0.04)`. */
  function MismatchLimit(readLength: nat): nat {
    readLength / 25
  }

  /** The search for the mismatch tag, from tag `i` on. */
  lemma FirstMismatchTagAt(tags: seq<string>, i: int)
    requires 0 <= i < |tags|
    ensures FirstMismatchTag(tags[i..])
         == if StartsWith(tags[i], "NM:i:") then Some(tags[i][5..]) else FirstMismatchTag(tags[i + 1..])
  {
    assert tags[i..][0] == tags[i];
    assert tags[i..][1..] == tags[i + 1..];
  }

  /** Whether one line is written to the filtered file; an empty line, a
      record too short for its CIGAR or sequence field, and a tag value that
      is not an integer raise. */
  function Verdict(line: string): Result<bool> {
    if line == [] then Err(MalformedLine(line))
    else if line[0] == '@' then Ok(true)
    else
      var params := ReSplit(line);
      if |params| < 6 then Err(MalformedLine(line))
      else if Clipped(params[5]) then Ok(false)
      else if |params| < 10 then Err(MalformedLine(line))
      else
        var readLength := |params[9]|;
        match FirstMismatchTag(if |params| > 11 then params[11..] else [])
        case None => Ok(false)
        case Some(v) =>
          match ParseInt(v)
          case None => Err(MalformedLine(line))
          case Some(n) => Ok(n <= MismatchLimit(readLength))
  }

  /** The lines written before the filter stopped, and why it stopped. */
  datatype Filtered = Filtered(kept: seq<string>, error: Option<Error>)

  function FilterLines(lines: seq<string>): Filtered {
    if lines == [] then Filtered([], None)
    else
      match Verdict(lines[0])
      case Err(e) => Filtered([], Some(e))
      case Ok(keep) =>
        var rest := FilterLines(lines[1..]);
        Filtered((if keep then [lines[0]] else []) + rest.kept, rest.error)
  }

  /** Filtering a file in two parts: the second part is filtered only if the
      first part went through, and its kept lines follow the first's. */
  lemma {:induction false} FilterLinesAppend(a: seq<string>, b: seq<string>)
    ensures FilterLines(a + b) ==
      if FilterLines(a).error.Some? then FilterLines(a)
      else Filtered(FilterLines(a).kept + FilterLines(b).kept, FilterLines(b).error)
  {
    if a == [] {
      assert a + b == b;
    } else {
      assert (a + b)[0] == a[0] && (a + b)[1..] == a[1..] + b;
      FilterLinesAppend(a[1..], b);
      if Verdict(a[0]).Ok? && FilterLines(a[1..]).error.None? {
        var head: seq<string> := if Verdict(a[0]).value then [a[0]] else [];
        assert head + (FilterLines(a[1..]).kept + FilterLines(b).kept)
            == (head + FilterLines(a[1..]).kept) + FilterLines(b).kept;
      }
    }
  }

  lemma FilterLinesOne(line: string)
    ensures FilterLines([line]) ==
      match Verdict(line)
      case Err(e) => Filtered([], Some(e))
      case Ok(keep) => Filtered(if keep then [line] else [], None)
  {
    assert [line][1..] == [];
  }

  /** A line that raises ends the filter with what was kept before it. */
  lemma FilterLinesStops(lines: seq<string>, i: int)
    requires 0 <= i < |lines|
    requires FilterLines(lines[..i]).error.None?
    requires Verdict(lines[i]).Err?
    ensures FilterLines(lines) == Filtered(FilterLines(lines[..i]).kept, Some(Verdict(lines[i]).error))
  {
    var before := FilterLines(lines[..i]).kept;
    FilterLinesAppend(lines[..i], lines[i..]);
    assert lines[..i] + lines[i..] == lines;
    assert lines[i..][0] == lines[i];
    assert before + [] == before;
  }

  /** A line that does not raise extends the filtered prefix by itself
      when it is kept, and by nothing otherwise. */
  lemma FilterLinesGoesOn(lines: seq<string>, i: int)
    requires 0 <= i < |lines|
    requires FilterLines(lines[..i]).error.None?
    ensures Verdict(lines[i]) == Ok(true) ==>
      FilterLines(lines[..i + 1]) == Filtered(FilterLines(lines[..i]).kept + [lines[i]], None)
    ensures Verdict(lines[i]) == Ok(false) ==>
      FilterLines(lines[..i + 1]) == Filtered(FilterLines(lines[..i]).kept, None)
  {
    var before := FilterLines(lines[..i]).kept;
    assert lines[..i + 1] == lines[..i] + [lines[i]];
    FilterLinesAppend(lines[..i], [lines[i]]);
    FilterLinesOne(lines[i]);
    assert before + [] == before;
  }

  /** What the filter promises: it goes through exactly when no line
      raises; it writes nothing but lines of the input whose verdict is to
      keep them, and when it goes through it writes every such line, every
      header line among them. */
  lemma {:induction false} FilterLinesSpec(lines: seq<string>)
    ensures FilterLines(lines).error.None? <==> forall i :: 0 <= i < |lines| ==> Verdict(lines[i]).Ok?
    ensures forall l :: l in FilterLines(lines).kept ==> l in lines && Verdict(l) == Ok(true)
    ensures FilterLines(lines).error.None? ==>
      forall i :: 0 <= i < |lines| ==> (lines[i] in FilterLines(lines).kept <==> Verdict(lines[i]) == Ok(true))
    ensures FilterLines(lines).error.None? ==>
      forall i :: 0 <= i < |lines| && lines[i] != [] && lines[i][0] == '@' ==> lines[i] in FilterLines(lines).kept
    ensures |FilterLines(lines).kept| <= |lines|
  {
    if lines != [] {
      FilterLinesSpec(lines[1..]);
      assert forall i :: 0 < i < |lines| ==> lines[i] == lines[1..][i - 1];
    }
  }

  /** A record whose CIGAR has a skip, a hard clip or padding is dropped. */
  lemma ClippedDropped(fields: seq<string>)
    requires 6 <= |fields| && forall i :: 0 <= i < |fields| ==> fields[i] != [] && NoSpace(fields[i])
    requires fields[0][0] != '@' && Clipped(fields[5])
    ensures Verdict(Tabbed(fields) + "\n") == Ok(false)
  {
    ReSplitTabbed(fields);
    assert (Tabbed(fields) + "\n")[0] == fields[0][0] by { TabbedStarts(fields); }
  }

  /** An unclipped record is kept exactly when its first `NM:i:` tag from
      field 12 on is at most a 25th of the read length, and dropped when it
      has no such tag. */
  lemma MismatchesDecide(fields: seq<string>, n: int)
    requires 11 <= |fields| && forall i :: 0 <= i < |fields| ==> fields[i] != [] && NoSpace(fields[i])
    requires fields[0][0] != '@' && !Clipped(fields[5])
    ensures FirstMismatchTag(fields[11..]).None? ==> Verdict(Tabbed(fields) + "\n") == Ok(false)
    ensures FirstMismatchTag(fields[11..]) == Some(IntToString(n)) ==>
      Verdict(Tabbed(fields) + "\n") == Ok(n <= |fields[9]| / 25)
  {
    ReSplitTabbed(fields);
    var params := fields + [""];
    assert (Tabbed(fields) + "\n")[0] == fields[0][0] by { TabbedStarts(fields); }
    assert params[11..] == fields[11..] + [""];
    TagsWithEmpty(fields[11..]);
    ParseIntRoundTrip(n);
  }

  lemma TagsWithEmpty(tags: seq<string>)
    ensures FirstMismatchTag(tags + [""]) == FirstMismatchTag(tags)
  {
    if tags == [] {
      assert FirstMismatchTag([""]) == FirstMismatchTag([]);
    } else {
      assert (tags + [""])[1..] == tags[1..] + [""];
      TagsWithEmpty(tags[1..]);
    }
  }

  lemma TabbedStarts(fields: seq<string>)
    requires fields != [] && fields[0] != []
    ensures Tabbed(fields) != [] && Tabbed(fields)[0] == fields[0][0]
  {
  }

  /** Files on disk by name, each a sequence of lines. */
  class Storage {
    var contents: map<string, seq<string>>

    constructor (contents: map<string, seq<string>>)
      ensures this.contents == contents
    {
      this.contents := contents;
    }

    /** The tag loop of `filter_alignment` for one line. */
    static method CheckLine(line: string) returns (r: Result<bool>)
      ensures r == Verdict(line)
    {
      if line == [] {
        return Err(MalformedLine(line));
      }
      if line[0] == '@' {
        return Ok(true);
      }
      var params := ReSplit(line);
      if |params| < 6 {
        return Err(MalformedLine(line));
      }
      if Clipped(params[5]) {
        return Ok(false);
      }
      if |params| < 10 {
        return Err(MalformedLine(line));
      }
      var readLength := |params[9]|;
      var tags := if |params| > 11 then params[11..] else [];
      var i := 0;
      while i < |tags|
        invariant 0 <= i <= |tags|
        invariant FirstMismatchTag(tags) == FirstMismatchTag(tags[i..])
      {
        FirstMismatchTagAt(tags, i);
        if StartsWith(tags[i], "NM:i:") {
          var n := ParseInt(tags[i][5..]);
          if n.None? {
            return Err(MalformedLine(line));
          }
          return Ok(n.value <= MismatchLimit(readLength));
        }
        i := i + 1;
      }
      return Ok(false);
    }

    /** `filter_alignment` on the file `name`: the kept lines go to
        `name + ".tmp"`, which then replaces `name`. A line that raises
        leaves the partial temporary file and the input as they are. */
    method FilterAlignment(name: string) returns (err: Option<Error>)
      modifies this
      ensures name !in old(contents) ==> err == Some(FileNotFound(name)) && contents == old(contents)
      ensures name in old(contents) ==>
        var r := FilterLines(old(contents)[name]);
        && err == r.error
        && (r.error.None? ==> contents == (old(contents) - {name + ".tmp"})[name := r.kept])
        && (r.error.Some? ==> contents == old(contents)[name + ".tmp" := r.kept])
    {
      if name !in contents {
        return Some(FileNotFound(name));
      }
      var lines := contents[name];
      var tmp := name + ".tmp";
      contents := contents[tmp := []];
      var i := 0;
      while i < |lines|
        invariant 0 <= i <= |lines|
        invariant FilterLines(lines[..i]).error.None?
        invariant contents == old(contents)[tmp := FilterLines(lines[..i]).kept]
      {
        var keep := CheckLine(lines[i]);
        if keep.Err? {
          FilterLinesStops(lines, i);
          return Some(keep.error);
        }
        FilterLinesGoesOn(lines, i);
        if keep.value {
          contents := contents[tmp := contents[tmp] + [lines[i]]];
        }
        i := i + 1;
      }
      assert lines[..i] == lines;
      assert |tmp| > |name|;
      contents := (contents - {tmp})[name := contents[tmp]];
      return None;
    }
  }

  // ---------------------------------------------------------------------
  // The novoalign log scanner of `align`.

  /** The scanner's variables: `is_stat`, `is_csv`, the statistics labels
      and values gathered so far and the rows written to the insert-size
      CSV file so far. */
  datatype ScanState = ScanState(
    isStat: bool,
    isCsv: bool,
    labels: seq<string>,
    values: seq<string>,
    rows: seq<seq<string>>)

  const Start := ScanState(false, false, [], [], [])

  const PairedReads := "Paired Reads"
  const NoMappingFound := "No Mapping Found"

  /** What one log line does: go on with a new state, `break`, or raise. */
  datatype ScanStep = Next(state: ScanState) | Stop | Fail(error: Error)

  function DropFirst(s: string): string {
    if s == [] then [] else s[1..]
  }

  /** `line.split(":")[0][1:].strip()` */
  function Label(line: string): string {
    Strip(DropFirst(SplitOn(line, ':')[0]))
  }

  /** `fields[1].strip().split()[0]`, `None` where an index is out of
      range. */
  function StatValue(line: string): (r: Option<string>)
    ensures r.Some? ==> r.value != [] && NoSpace(r.value)
  {
    var fields := SplitOn(line, ':');
    if |fields| < 2 then None
    else
      var ws := Words(Strip(fields[1]));
      if ws == [] then None else Some(ws[0])
  }

  /** `fields[1:4]` */
  function Row(ws: seq<string>): (r: seq<string>)
    requires |ws| >= 2
    ensures 1 <= |r| <= 3 && r[0] == ws[1]
  {
    if |ws| >= 4 then ws[1..4] else ws[1..]
  }

  function ScanLine(line: string, st: ScanState): ScanStep {
    var name := Label(line);
    if st.isStat then
      match StatValue(line)
      case None => Fail(MalformedLine(line))
      case Some(v) =>
        Next(st.(isStat := name != NoMappingFound, labels := st.labels + [name], values := st.values + [v]))
    else if name == PairedReads then
      match StatValue(line)
      case None => Fail(MalformedLine(line))
      case Some(v) =>
        Next(st.(isStat := true, labels := st.labels + [name], values := st.values + [v]))
    else
      var ws := Words(line);
      if |ws| < 2 then Fail(MalformedLine(line))
      else if st.isCsv then
        if ws[1] == "Mean" then Stop else Next(st.(rows := st.rows + [Row(ws)]))
      else if ws[1] == "From" then Next(st.(isCsv := true, rows := st.rows + [Row(ws)]))
      else Next(st)
  }

  /** Where the scan ends, and the exception that ended it, if one did. */
  datatype Scanned = Scanned(state: ScanState, error: Option<Error>)

  function Scan(lines: seq<string>, st: ScanState): Scanned {
    if lines == [] then Scanned(st, None)
    else
      match ScanLine(lines[0], st)
      case Stop => Scanned(st, None)
      case Fail(e) => Scanned(st, Some(e))
      case Next(s) => Scan(lines[1..], s)
  }

  /** What the two CSV files hold: the insert-size rows, and the labels row
      and values row of the statistics file, which is written only when the
      scan went through. */
  datatype Report = Report(rows: seq<seq<string>>, stat: seq<seq<string>>, error: Option<Error>)

  function NovoalignReport(log: seq<string>): Report {
    var r := Scan(log, Start);
    Report(r.state.rows, if r.error.None? then [r.state.labels, r.state.values] else [], r.error)
  }

  /** What holds of the scanner's variables between lines: one value per
      label; labels are gathered from a "Paired Reads" line on, and between
      such a section's start and its "No Mapping Found" line the scanner is
      in the statistics section; CSV rows are written from a "From" header
      on, and none of them is the "Mean" line that ends the table. */
  predicate Consistent(st: ScanState) {
    && |st.labels| == |st.values|
    && (forall i :: 0 <= i < |st.values| ==> st.values[i] != [] && NoSpace(st.values[i]))
    && (st.isStat ==> st.labels != [])
    && (st.labels != [] ==> st.labels[0] == PairedReads)
    && (!st.isStat && st.labels != [] ==> st.labels[|st.labels| - 1] == NoMappingFound)
    && (st.isCsv <==> st.rows != [])
    && (forall i :: 0 <= i < |st.rows| ==> 1 <= |st.rows[i]| <= 3 && st.rows[i][0] != "Mean")
    && (st.rows != [] ==> st.rows[0][0] == "From")
  }

  /** A statistics line keeps the scanner consistent. */
  lemma StatLineConsistent(st: ScanState, name: string, v: string)
    requires Consistent(st) && (st.isStat || name == PairedReads) && v != [] && NoSpace(v)
    ensures Consistent(st.(isStat := if st.isStat then name != NoMappingFound else true,
                           labels := st.labels + [name], values := st.values + [v]))
  {
  }

  /** A table line keeps the scanner consistent. */
  lemma RowLineConsistent(st: ScanState, ws: seq<string>)
    requires Consistent(st) && |ws| >= 2 && ws[1] != "Mean" && (!st.isCsv ==> ws[1] == "From")
    ensures Consistent(st.(isCsv := true, rows := st.rows + [Row(ws)]))
  {
    var rows := st.rows + [Row(ws)];
    assert rows[0] == if st.rows == [] then Row(ws) else st.rows[0];
  }

  lemma ScanLineConsistent(line: string, st: ScanState)
    requires Consistent(st)
    ensures ScanLine(line, st).Next? ==> Consistent(ScanLine(line, st).state)
  {
    var name := Label(line);
    if st.isStat || name == PairedReads {
      if StatValue(line).Some? {
        StatLineConsistent(st, name, StatValue(line).value);
      }
    } else {
      var ws := Words(line);
      if |ws| >= 2 && (st.isCsv || ws[1] == "From") && ws[1] != "Mean" {
        RowLineConsistent(st, ws);
      }
    }
  }

  lemma {:induction false} ScanConsistent(lines: seq<string>, st: ScanState)
    requires Consistent(st)
    ensures Consistent(Scan(lines, st).state)
  {
    if lines != [] {
      ScanLineConsistent(lines[0], st);
      if ScanLine(lines[0], st).Next? {
        ScanConsistent(lines[1..], ScanLine(lines[0], st).state);
      }
    }
  }

  /** The statistics file, when written, pairs every label with a value and
      starts with "Paired Reads"; the CSV file holds rows of one to three
      cells from the "From" header on and never the "Mean" line. */
  predicate WellShaped(r: Report) {
    && (r.error.None? <==> |r.stat| == 2)
    && (r.stat != [] ==> |r.stat| == 2 && |r.stat[0]| == |r.stat[1]| && (r.stat[0] != [] ==> r.stat[0][0] == PairedReads))
    && (forall i :: 0 <= i < |r.rows| ==> 1 <= |r.rows[i]| <= 3 && r.rows[i][0] != "Mean")
    && (r.rows != [] ==> r.rows[0][0] == "From")
  }

  lemma ReportOfConsistent(sc: Scanned)
    requires Consistent(sc.state)
    ensures WellShaped(Report(sc.state.rows, if sc.error.None? then [sc.state.labels, sc.state.values] else [], sc.error))
  {
  }

  lemma NovoalignReportSpec(log: seq<string>)
    ensures WellShaped(NovoalignReport(log))
  {
    ScanConsistent(log, Start);
    ReportOfConsistent(Scan(log, Start));
  }

  /** Inside the insert-size table, outside a statistics section, a line
      whose second word is "Mean" ends the scan: nothing after it is
      read. */
  lemma ScanLineStops(line: string, st: ScanState)
    requires !st.isStat && Label(line) != PairedReads && st.isCsv
    requires |Words(line)| >= 2 && Words(line)[1] == "Mean"
    ensures forall rest :: Scan([line] + rest, st) == Scanned(st, None)
  {
    assert ScanLine(line, st) == Stop;
    forall rest: seq<string> ensures Scan([line] + rest, st) == Scanned(st, None) {
      assert ([line] + rest)[0] == line;
    }
  }

  // What the scanner writes, line by line.

  /** Lines inside a statistics section before its "No Mapping Found"
      line: each has a value after its first colon. */
  predicate StatLines(lines: seq<string>) {
    forall k :: 0 <= k < |lines| ==> Label(lines[k]) != NoMappingFound && StatValue(lines[k]).Some?
  }

  function Labels(lines: seq<string>): seq<string> {
    if lines == [] then [] else [Label(lines[0])] + Labels(lines[1..])
  }

  function Values(lines: seq<string>): seq<string>
    requires StatLines(lines)
  {
    if lines == [] then [] else StatLinesTail(lines); [StatValue(lines[0]).value] + Values(lines[1..])
  }

  /** Lines of the insert-size table after its "From" header: two words or
      more, the second not "Mean", and none opening a statistics
      section. */
  predicate TableLines(lines: seq<string>) {
    forall k :: 0 <= k < |lines| ==>
      Label(lines[k]) != PairedReads && |Words(lines[k])| >= 2 && Words(lines[k])[1] != "Mean"
  }

  function TableRows(lines: seq<string>): seq<seq<string>>
    requires TableLines(lines)
  {
    if lines == [] then [] else TableLinesTail(lines); [Row(Words(lines[0]))] + TableRows(lines[1..])
  }

  /** Lines outside both sections that the scanner reads past: two words
      or more, the second not "From", and none opening a statistics
      section. */
  predicate OtherLines(lines: seq<string>) {
    forall k :: 0 <= k < |lines| ==>
      Label(lines[k]) != PairedReads && |Words(lines[k])| >= 2 && Words(lines[k])[1] != "From"
  }

  lemma SplitHead<T>(a: seq<T>, b: seq<T>)
    requires a != []
    ensures a + b == [a[0]] + (a[1..] + b)
  {
  }

  lemma AppendHead<T>(a: seq<T>, x: T, b: seq<T>)
    ensures (a + [x]) + b == a + ([x] + b)
  {
  }

  /** `Scan` over a list that starts with a line going on. */
  lemma ScanCons(l: string, tail: seq<string>, st: ScanState, next: ScanState)
    requires ScanLine(l, st) == Next(next)
    ensures Scan([l] + tail, st) == Scan(tail, next)
  {
    assert ([l] + tail)[0] == l && ([l] + tail)[1..] == tail;
  }

  lemma StatLinesTail(lines: seq<string>)
    requires lines != [] && StatLines(lines)
    ensures StatLines(lines[1..])
  {
    forall k | 0 <= k < |lines[1..]| ensures Label(lines[1..][k]) != NoMappingFound && StatValue(lines[1..][k]).Some? {
      assert lines[1..][k] == lines[k + 1];
    }
  }

  lemma TableLinesTail(lines: seq<string>)
    requires lines != [] && TableLines(lines)
    ensures TableLines(lines[1..])
  {
    forall k | 0 <= k < |lines[1..]|
      ensures Label(lines[1..][k]) != PairedReads && |Words(lines[1..][k])| >= 2 && Words(lines[1..][k])[1] != "Mean"
    {
      assert lines[1..][k] == lines[k + 1];
    }
  }

  lemma OtherLinesTail(lines: seq<string>)
    requires lines != [] && OtherLines(lines)
    ensures OtherLines(lines[1..])
  {
    forall k | 0 <= k < |lines[1..]|
      ensures Label(lines[1..][k]) != PairedReads && |Words(lines[1..][k])| >= 2 && Words(lines[1..][k])[1] != "From"
    {
      assert lines[1..][k] == lines[k + 1];
    }
  }

  /** One line of a statistics section before "No Mapping Found". */
  lemma StatStep(l: string, st: ScanState)
    requires st.isStat && Label(l) != NoMappingFound && StatValue(l).Some?
    ensures ScanLine(l, st) == Next(st.(labels := st.labels + [Label(l)], values := st.values + [StatValue(l).value]))
  {
  }

  /** One line of the insert-size table before "Mean". */
  lemma TableStep(l: string, st: ScanState)
    requires !st.isStat && st.isCsv && Label(l) != PairedReads && |Words(l)| >= 2 && Words(l)[1] != "Mean"
    ensures ScanLine(l, st) == Next(st.(rows := st.rows + [Row(Words(l))]))
  {
  }

  /** One line outside both sections that opens neither. */
  lemma OtherStep(l: string, st: ScanState)
    requires !st.isStat && !st.isCsv && Label(l) != PairedReads && |Words(l)| >= 2 && Words(l)[1] != "From"
    ensures ScanLine(l, st) == Next(st)
  {
  }

  /** Inside a statistics section, every line before "No Mapping Found"
      appends its label and the first word of its value, in order. */
  lemma {:induction false} ScanStatLines(lines: seq<string>, rest: seq<string>, st: ScanState)
    requires st.isStat && StatLines(lines)
    ensures Scan(lines + rest, st) ==
      Scan(rest, st.(labels := st.labels + Labels(lines), values := st.values + Values(lines)))
  {
    if lines == [] {
      assert lines + rest == rest;
      assert st.labels + Labels(lines) == st.labels && st.values + Values(lines) == st.values;
    } else {
      var next := st.(labels := st.labels + [Label(lines[0])], values := st.values + [StatValue(lines[0]).value]);
      StatStep(lines[0], st);
      SplitHead(lines, rest);
      ScanCons(lines[0], lines[1..] + rest, st, next);
      StatLinesTail(lines);
      ScanStatLines(lines[1..], rest, next);
      AppendHead(st.labels, Label(lines[0]), Labels(lines[1..]));
      AppendHead(st.values, StatValue(lines[0]).value, Values(lines[1..]));
      assert next.(labels := next.labels + Labels(lines[1..]), values := next.values + Values(lines[1..]))
          == st.(labels := st.labels + Labels(lines), values := st.values + Values(lines));
    }
  }

  /** Inside the insert-size table, every line before the "Mean" line is
      written as its second to fourth words, in order. */
  lemma {:induction false} ScanTableLines(lines: seq<string>, rest: seq<string>, st: ScanState)
    requires !st.isStat && st.isCsv && TableLines(lines)
    ensures Scan(lines + rest, st) == Scan(rest, st.(rows := st.rows + TableRows(lines)))
  {
    if lines == [] {
      assert lines + rest == rest;
      assert st.rows + TableRows(lines) == st.rows;
    } else {
      var next := st.(rows := st.rows + [Row(Words(lines[0]))]);
      TableStep(lines[0], st);
      SplitHead(lines, rest);
      ScanCons(lines[0], lines[1..] + rest, st, next);
      TableLinesTail(lines);
      ScanTableLines(lines[1..], rest, next);
      AppendHead(st.rows, Row(Words(lines[0])), TableRows(lines[1..]));
      assert next.(rows := next.rows + TableRows(lines[1..])) == st.(rows := st.rows + TableRows(lines));
    }
  }

  /** Outside both sections, lines that neither open the statistics nor
      the table change nothing. */
  lemma {:induction false} ScanOtherLines(lines: seq<string>, rest: seq<string>, st: ScanState)
    requires !st.isStat && !st.isCsv && OtherLines(lines)
    ensures Scan(lines + rest, st) == Scan(rest, st)
  {
    if lines == [] {
      assert lines + rest == rest;
    } else {
      OtherStep(lines[0], st);
      SplitHead(lines, rest);
      ScanCons(lines[0], lines[1..] + rest, st, st);
      OtherLinesTail(lines);
      ScanOtherLines(lines[1..], rest, st);
    }
  }

  lemma EmptyAppend<T>(x: seq<T>)
    ensures [] + x == x
  {
  }

  /** The "Paired Reads" line opens the statistics section. */
  lemma OpenStep(l: string, st: ScanState)
    requires !st.isStat && Label(l) == PairedReads && StatValue(l).Some?
    ensures ScanLine(l, st) == Next(st.(isStat := true, labels := st.labels + [PairedReads], values := st.values + [StatValue(l).value]))
  {
  }

  /** The "No Mapping Found" line is the last one of the section. */
  lemma CloseStep(l: string, st: ScanState)
    requires st.isStat && Label(l) == NoMappingFound && StatValue(l).Some?
    ensures ScanLine(l, st) == Next(st.(isStat := false, labels := st.labels + [NoMappingFound], values := st.values + [StatValue(l).value]))
  {
  }

  /** The "From" header opens the table and is its first row. */
  lemma HeaderStep(l: string, st: ScanState)
    requires !st.isStat && !st.isCsv && Label(l) != PairedReads && |Words(l)| >= 2 && Words(l)[1] == "From"
    ensures ScanLine(l, st) == Next(st.(isCsv := true, rows := st.rows + [Row(Words(l))]))
  {
  }

  /** A log of the usual shape: header lines, the statistics from the
      "Paired Reads" line to the "No Mapping Found" line, more lines, then
      the insert-size table from its "From" header to its "Mean" line. The
      statistics file holds exactly the labels and first value words of the
      statistics lines, and the CSV file exactly the second to fourth words
      of the table lines before "Mean", header included; nothing after the
      "Mean" line is read. */
  lemma NovoalignReportContent(pre: seq<string>, open: string, body: seq<string>, close: string,
                               mid: seq<string>, header: string, table: seq<string>, mean: string,
                               post: seq<string>)
    requires OtherLines(pre) && OtherLines(mid)
    requires Label(open) == PairedReads && StatValue(open).Some?
    requires StatLines(body)
    requires Label(close) == NoMappingFound && StatValue(close).Some?
    requires Label(header) != PairedReads && |Words(header)| >= 2 && Words(header)[1] == "From"
    requires TableLines(table)
    requires Label(mean) != PairedReads && |Words(mean)| >= 2 && Words(mean)[1] == "Mean"
    ensures NovoalignReport(pre + [open] + body + [close] + mid + [header] + table + [mean] + post) ==
      Report([Row(Words(header))] + TableRows(table),
             [[PairedReads] + Labels(body) + [NoMappingFound],
              [StatValue(open).value] + Values(body) + [StatValue(close).value]],
             None)
  {
    var r8 := [mean] + post;
    var r7 := table + r8;
    var r6 := [header] + r7;
    var r5 := mid + r6;
    var r4 := [close] + r5;
    var r3 := body + r4;
    var r2 := [open] + r3;
    var x2 := pre + [open];
    var x3 := x2 + body;
    var x4 := x3 + [close];
    var x5 := x4 + mid;
    var x6 := x5 + [header];
    var x7 := x6 + table;
    var log := x7 + [mean] + post;
    Associative(x7, [mean], post);
    Associative(x6, table, r8);
    Associative(x5, [header], r7);
    Associative(x4, mid, r6);
    Associative(x3, [close], r5);
    Associative(x2, body, r4);
    Associative(pre, [open], r3);
    assert log == pre + r2;

    ScanOtherLines(pre, r2, Start);
    var s1 := Start.(isStat := true, labels := Start.labels + [PairedReads], values := Start.values + [StatValue(open).value]);
    OpenStep(open, Start);
    ScanCons(open, r3, Start, s1);
    ScanStatLines(body, r4, s1);
    var s2 := s1.(labels := s1.labels + Labels(body), values := s1.values + Values(body));
    var s3 := s2.(isStat := false, labels := s2.labels + [NoMappingFound], values := s2.values + [StatValue(close).value]);
    CloseStep(close, s2);
    ScanCons(close, r5, s2, s3);
    ScanOtherLines(mid, r6, s3);
    var s4 := s3.(isCsv := true, rows := s3.rows + [Row(Words(header))]);
    HeaderStep(header, s3);
    ScanCons(header, r7, s3, s4);
    ScanTableLines(table, r8, s4);
    var s5 := s4.(rows := s4.rows + TableRows(table));
    ScanLineStops(mean, s5);
    assert Scan(log, Start) == Scanned(s5, None);
    EmptyAppend([Row(Words(header))]);
    EmptyAppend([PairedReads]);
    EmptyAppend([StatValue(open).value]);
    assert NovoalignReport(log) == Report(s5.rows, [s5.labels, s5.values], None);
  }

  /** The loop of `align` over the log, with its `break`. */
  method ScanLog(log: seq<string>) returns (r: Report)
    ensures r == NovoalignReport(log)
  {
    var st := Start;
    var i := 0;
    var err: Option<Error> := None;
    while i < |log|
      invariant 0 <= i <= |log|
      invariant err.None? ==> Scan(log[i..], st) == Scan(log, Start)
      invariant err.Some? ==> Scan(log, Start) == Scanned(st, err)
      decreases |log| - i, if err.None? then 1 else 0
    {
      assert log[i..][0] == log[i] && log[i..][1..] == log[i + 1..];
      var step := ScanLine(log[i], st);
      if step.Stop? {
        break;
      } else if step.Fail? {
        err := Some(step.error);
        break;
      }
      st := step.state;
      i := i + 1;
    }
    if err.None? && i == |log| {
      assert log[i..] == [];
    }
    r := Report(st.rows, if err.None? then [st.labels, st.values] else [], err);
  }

  // ---------------------------------------------------------------------
  // `_filter_non_hg`

  /** The name of a file of a human organism or of no organism, `None` for
      another organism; a name the barcode parser refuses raises. */
  function FilterNonHg(filename: string, parse: Parser): Result<Option<string>> {
    match parse(filename)
    case None => Err(MissingBarcode(filename))
    case Some(b) =>
      if b.organism.None? || StartsWith(LowerAscii(b.organism.value), "hg") then Ok(Some(filename))
      else Ok(None)
  }

  /** The organism test ignores case in its first two letters only, and
      passes the name through unchanged. */
  lemma FilterNonHgSpec(filename: string, parse: Parser)
    ensures parse(filename).None? <==> FilterNonHg(filename, parse).Err?
    ensures parse(filename).Some? ==>
      var o := parse(filename).value.organism;
      FilterNonHg(filename, parse) ==
        Ok(if o.None? || (|o.value| >= 2 && o.value[0] in "hH" && o.value[1] in "gG") then Some(filename) else None)
  {
    var b := parse(filename);
    if b.Some? && b.value.organism.Some? {
      var o := b.value.organism.value;
      if |o| >= 2 {
        var l := LowerAscii(o);
        assert l[0] == (if 'A' <= o[0] <= 'Z' then (o[0] as int + 32) as char else o[0]);
        assert LowerAscii(o)[1..] == LowerAscii(o[1..]);
        assert l[1] == (if 'A' <= o[1] <= 'Z' then (o[1] as int + 32) as char else o[1]);
        assert StartsWith(l, "hg") <==> l[0] == 'h' && l[1] == 'g';
      }
    }
  }

  // ---------------------------------------------------------------------
  // The output names of `cutadapt`.

  /** `template % n` for an integer `n`: `%d`, `%i` and `%s` take the one
      argument, `%%` is a percent sign; no conversion, a second conversion
      or any other directive raises. */
  function Formatted(template: string, n: int): Result<string> {
    FormatRest(template, template, n, false)
  }

  function FormatRest(template: string, t: string, n: int, used: bool): Result<string>
    decreases |t|
  {
    if t == [] then (if used then Ok([]) else Err(FormatFailed(template)))
    else if t[0] != '%' then Prefixed([t[0]], FormatRest(template, t[1..], n, used))
    else if |t| == 1 then Err(FormatFailed(template))
    else if t[1] == '%' then Prefixed("%", FormatRest(template, t[2..], n, used))
    else if t[1] in "dis" then
      if used then Err(FormatFailed(template))
      else Prefixed(IntToString(n), FormatRest(template, t[2..], n, true))
    else Err(FormatFailed(template))
  }

  function Prefixed(p: string, r: Result<string>): Result<string> {
    match r
    case Err(e) => Err(e)
    case Ok(s) => Ok(p + s)
  }

  lemma {:induction false} FormatRestPlain(template: string, p: string, t: string, n: int, used: bool)
    requires '%' !in p
    ensures FormatRest(template, p + t, n, used) == Prefixed(p, FormatRest(template, t, n, used))
    decreases |p|
  {
    if p == [] {
      assert p + t == t;
      match FormatRest(template, t, n, used)
      case Err(e) =>
      case Ok(s) => assert p + s == s;
    } else {
      assert (p + t)[0] == p[0] && (p + t)[1..] == p[1..] + t;
      FormatRestPlain(template, p[1..], t, n, used);
      match FormatRest(template, t, n, used)
      case Err(e) =>
      case Ok(s) => assert [p[0]] + (p[1..] + s) == p + s;
    }
  }

  /** A template with a single `%d` and no other percent sign formats to
      the number written in its place. */
  lemma FormatOneSlot(p: string, q: string, n: int)
    requires '%' !in p && '%' !in q
    ensures Formatted(p + "%d" + q, n) == Ok(p + IntToString(n) + q)
  {
    var t := p + "%d" + q;
    assert t == p + ("%d" + q);
    FormatRestPlain(t, p, "%d" + q, n, false);
    assert ("%d" + q)[0] == '%' && ("%d" + q)[1] == 'd' && ("%d" + q)[2..] == q;
    assert FormatRest(t, "%d" + q, n, false) == Prefixed(IntToString(n), FormatRest(t, q, n, true));
    FormatRestPlain(t, q, [], n, true);
    assert q + [] == q;
    assert FormatRest(t, q, n, true) == Ok(q);
    assert p + (IntToString(n) + q) == p + IntToString(n) + q;
  }

  /** `lambda filename: [filename % (index + 1) for index in range(2)]` */
  function CutadaptNames(name: string): Option<seq<string>> {
    match (Formatted(name, 1), Formatted(name, 2))
    case (Ok(r1), Ok(r2)) => Some([r1, r2])
    case _ => None
  }

  /** `Join` only puts the directory and a separator before the name. */
  lemma JoinAppend(a: string, b: string, c: string)
    requires b != []
    ensures Join(a, b + c) == Join(a, b) + c
  {
    assert (b + c)[..1] == b[..1];
    if StartsWith(b, "/") {
    } else if a == [] || EndsWith(a, "/") {
      assert a + (b + c) == a + b + c;
    } else {
      assert a + "/" + (b + c) == a + "/" + b + c;
    }
  }

  /** The characters of a joined path come from its parts or the separator. */
  lemma JoinChars(a: string, b: string)
    ensures forall ch :: ch in Join(a, b) ==> ch in a || ch in b || ch == '/'
  {
  }

  /** One template under a directory names one file. */
  lemma OneTemplate(t: string, dir: string, env: Env)
    ensures WithPath(Formats([Template(t)], env), Some(dir)) == [Join(dir, t)]
  {
    assert Formats([Template(t)], env) == [t];
  }

  lemma SubstituteOne(x: string, env: Env, v: string)
    requires Substitution(x, env, Evaluate) == Ok(v)
    ensures SubstituteAll([x], env) == Ok([v])
  {
    assert [x][0] == x && [x][1..] == [];
    assert SubstituteAll([], env) == Ok([]);
    assert [v] + [] == [v];
  }

  /** No brace or percent sign enters a name that the directory and the
      sample name do not hold. */
  lemma JoinClean(dir: string, sample: string, organism: string)
    requires sample != [] && '{' !in dir + sample + organism && '%' !in dir + sample + organism
    ensures '{' !in Join(dir, sample) + organism && '%' !in Join(dir, sample) + organism
  {
    JoinChars(dir, sample);
    forall ch | ch in Join(dir, sample) + organism ensures ch != '{' && ch != '%' {
      assert ch in dir || ch in sample || ch == '/' || ch in organism;
      assert ch in dir ==> ch in dir + sample + organism;
      assert ch in sample ==> ch in dir + sample + organism;
    }
  }

  /** The cutadapt template placed under the FASTQ directory. */
  lemma CutadaptTemplatePath(dir: string, sample: string, env: Env)
    requires sample != []
    ensures WithPath(Formats([Template(sample + "{organism_str}.clipped.R%d.fastq")], env), Some(dir))
         == [Join(dir, sample) + Braced("organism_str") + ".clipped.R%d.fastq"]
  {
    var tail := ".clipped.R%d.fastq";
    var template := sample + "{organism_str}.clipped.R%d.fastq";
    assert template == sample + (Braced("organism_str") + tail);
    JoinAppend(dir, sample, Braced("organism_str") + tail);
    OneTemplate(template, dir, env);
    assert Join(dir, sample) + (Braced("organism_str") + tail) == Join(dir, sample) + Braced("organism_str") + tail;
  }

  /** The organism placeholder of the placed template is substituted. */
  lemma CutadaptTemplateFilled(head: string, env: Env, organism: string)
    requires '{' !in head && '{' !in organism
    requires Lookup(env, "organism_str", Evaluate) == Ok(organism)
    ensures SubstituteAll([head + Braced("organism_str") + ".clipped.R%d.fastq"], env)
         == Ok([head + organism + ".clipped.R%d.fastq"])
  {
    var tail := ".clipped.R%d.fastq";
    assert '{' !in tail;
    Commands.OnePlaceholder(head, "organism_str", tail, env, Evaluate);
    SubstituteOne(head + Braced("organism_str") + tail, env, head + organism + tail);
  }

  /** The template of the cutadapt step under the FASTQ directory, with
      the organism substituted. */
  lemma CutadaptTemplate(dir: string, sample: string, env: Env, organism: string)
    requires sample != [] && '{' !in dir + sample + organism && '%' !in dir + sample + organism
    requires Lookup(env, "organism_str", Evaluate) == Ok(organism)
    ensures '%' !in Join(dir, sample) + organism
    ensures SubstituteAll(WithPath(Formats([Template(sample + "{organism_str}.clipped.R%d.fastq")], env), Some(dir)), env)
         == Ok([Join(dir, sample) + organism + ".clipped.R%d.fastq"])
  {
    var head := Join(dir, sample);
    JoinClean(dir, sample, organism);
    assert '{' !in head && '{' !in organism by {
      assert forall ch :: ch in head ==> ch in head + organism;
      assert forall ch :: ch in organism ==> ch in head + organism;
    }
    CutadaptTemplatePath(dir, sample, env);
    CutadaptTemplateFilled(head, env, organism);
  }

  /** The output function of the cutadapt step makes the R1 and R2 names. */
  lemma CutadaptPair(p: string)
    requires '%' !in p
    ensures FlatMap([p + ".clipped.R%d.fastq"], CutadaptNames) == Ok([p + ".clipped.R1.fastq", p + ".clipped.R2.fastq"])
  {
    var q := p + ".clipped.R";
    assert p + ".clipped.R%d.fastq" == q + "%d" + ".fastq";
    FormatOneSlot(q, ".fastq", 1);
    FormatOneSlot(q, ".fastq", 2);
    assert IntToString(1) == "1" && IntToString(2) == "2";
    assert q + "1" + ".fastq" == p + ".clipped.R1.fastq";
    assert q + "2" + ".fastq" == p + ".clipped.R2.fastq";
    var r := [p + ".clipped.R1.fastq", p + ".clipped.R2.fastq"];
    assert [p + ".clipped.R%d.fastq"][1..] == [];
    assert r + [] == r;
  }

  /** A formatted output spec with an output function yields what the
      function makes of the substituted names. */
  lemma OutputThroughFunction(spec: OutputSpec, env: Env, inputs: seq<string>, names: seq<string>, out: seq<string>)
    requires spec.format.Some? && spec.outputFunction.Some?
    requires SubstituteAll(WithPath(Formats(spec.format.value, env), spec.path), env) == Ok(names)
    requires FlatMap(names, spec.outputFunction.value) == Ok(out)
    ensures OutputFilename(spec, env, inputs) == Ok(AsOutput(out))
  {
  }

  /** The directory joins the sample name the same whatever follows it. */
  lemma CutadaptJoined(dir: string, sample: string, organism: string, suffix: string)
    requires sample != []
    ensures Join(dir, sample) + organism + suffix == Join(dir, sample + organism + suffix)
  {
    JoinAppend(dir, sample, organism + suffix);
    Associative(sample, organism, suffix);
    Associative(Join(dir, sample), organism, suffix);
  }

  lemma Associative<T>(x: seq<T>, y: seq<T>, z: seq<T>)
    ensures x + y + z == x + (y + z)
  {
  }

  /** The cutadapt step's output name for an organism: the two read files
      under the FASTQ directory. */
  lemma CutadaptOutputNames(dir: string, sample: string, env: Env, organism: string, inputs: seq<string>)
    requires sample != [] && '{' !in dir + sample + organism && '%' !in dir + sample + organism
    requires Lookup(env, "organism_str", Evaluate) == Ok(organism)
    ensures var spec := OutputSpec(Some([Template(sample + "{organism_str}.clipped.R%d.fastq")]), Some(dir), Some(CutadaptNames));
      OutputFilename(spec, env, inputs) ==
        Ok(NameList([Join(dir, sample + organism + ".clipped.R1.fastq"), Join(dir, sample + organism + ".clipped.R2.fastq")]))
  {
    var spec := OutputSpec(Some([Template(sample + "{organism_str}.clipped.R%d.fastq")]), Some(dir), Some(CutadaptNames));
    var p := Join(dir, sample) + organism;
    var out := [p + ".clipped.R1.fastq", p + ".clipped.R2.fastq"];
    CutadaptTemplate(dir, sample, env, organism);
    CutadaptPair(p);
    OutputThroughFunction(spec, env, inputs, [p + ".clipped.R%d.fastq"], out);
    CutadaptJoined(dir, sample, organism, ".clipped.R1.fastq");
    CutadaptJoined(dir, sample, organism, ".clipped.R2.fastq");
  }
}
