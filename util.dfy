/** Shared vocabulary of the model: optional values, the errors the executor
    raises, and the few `str` / `os.path` operations the executor relies on,
    written out on `seq<char>` with POSIX path rules. */
module Util {

  datatype Option<+T> = None | Some(value: T)

  /** The exceptions that abort a step. `PipelineError` messages of the
      source appear as their own constructors; Python assertion failures,
      `AttributeError` and `FileNotFoundError` are kept apart from them. */
  datatype Error =
    | MissingInput                            // "input files missing and last_operation_filenames empty"
    | EmptyInputList                          // "empty input list"
    | CannotEvaluate(expr: string)            // "cannot evaluate %s"
    | EvaluatesToNone(expr: string)           // "evaluation of %s is None"
    | CannotReplaceParameter(text: string)    // "cannot replace parameter %s"
    | CommandFailed(logged: string, message: string)  // logged error_string, raised exception_string
    | AssertionFailed(what: string)           // a Python `assert` that does not hold
    | MissingBarcode(filename: string)        // `.barcode` read on a file whose name did not parse
    | MissingKitAttribute(name: string)       // `getattr(kit, "indels_<organism>")` failed
    | FileNotFound(path: string)              // `os.unlink` of a path that does not exist
    | OutputFunctionFailed(name: string)      // the caller's output_function raised on `name`
    | LastOperation(reason: string)           // the errors of override_last_operation_filename
    | MalformedLine(line: string)             // `IndexError` / `ValueError` on a line of a scanned file
    | FormatFailed(template: string)          // `template % n` raised

  datatype Result<+T> = Ok(value: T) | Err(error: Error)

  /** `s.startswith(p)` */
  predicate StartsWith(s: string, p: string) {
    |p| <= |s| && s[..|p|] == p
  }

  /** `s.endswith(p)` */
  predicate EndsWith(s: string, p: string) {
    |p| <= |s| && s[|s| - |p|..] == p
  }

  /** `s.rfind(c)`: the last index holding `c`, or -1. */
  function LastIndexOf(s: string, c: char): (r: int)
    ensures -1 <= r < |s|
    ensures r >= 0 ==> s[r] == c
    ensures forall j :: r < j < |s| ==> s[j] != c
  {
    if s == [] then -1
    else if s[|s| - 1] == c then |s| - 1
    else LastIndexOf(s[..|s| - 1], c)
  }

  /** `s.find(c)`: the first index holding `c`, or -1. */
  function IndexOf(s: string, c: char): (r: int)
    ensures -1 <= r < |s|
    ensures r >= 0 ==> s[r] == c
    ensures forall j :: 0 <= j < |s| && (r < 0 || j < r) ==> s[j] != c
  {
    if s == [] then -1
    else if s[0] == c then 0
    else var k := IndexOf(s[1..], c); if k < 0 then -1 else k + 1
  }

  /** `s.split(" ")[0]`: everything before the first blank. */
  function FirstToken(s: string): string {
    var k := IndexOf(s, ' ');
    if k < 0 then s else s[..k]
  }

  /** `os.path.basename(p)` */
  function Basename(p: string): string {
    p[LastIndexOf(p, '/') + 1..]
  }

  function StripTrailingSlashes(s: string): string
    decreases |s|
  {
    if s != [] && s[|s| - 1] == '/' then StripTrailingSlashes(s[..|s| - 1]) else s
  }

  /** `os.path.dirname(p)`: the part up to the last slash, without trailing
      slashes unless it consists of slashes only. */
  function Dirname(p: string): string {
    var head := p[..LastIndexOf(p, '/') + 1];
    if head != [] && exists k :: 0 <= k < |head| && head[k] != '/'
    then StripTrailingSlashes(head)
    else head
  }

  /** `os.path.join(a, b)` for two components. */
  function Join(a: string, b: string): string {
    if StartsWith(b, "/") then b
    else if a == [] || EndsWith(a, "/") then a + b
    else a + "/" + b
  }

  /** `os.path.splitext(p)[1]`: from the last dot of the last component,
      unless that component is only dots up to it. */
  function Extension(p: string): string {
    var sep := LastIndexOf(p, '/');
    var dot := LastIndexOf(p, '.');
    if dot > sep && exists k :: sep + 1 <= k < dot && p[k] != '.' then p[dot..] else ""
  }

  /** `str.lower()` restricted to ASCII letters. */
  function LowerAscii(s: string): (r: string)
    ensures |r| == |s|
  {
    if s == [] then []
    else
      var c := s[0];
      [if 'A' <= c <= 'Z' then (c as int + 32) as char else c] + LowerAscii(s[1..])
  }

  function DigitChar(d: nat): char
    requires d < 10
  {
    "0123456789"[d]
  }

  function NatToString(n: nat): string {
    if n < 10 then [DigitChar(n)] else NatToString(n / 10) + [DigitChar(n % 10)]
  }

  predicate IsDigit(c: char) {
    '0' <= c <= '9'
  }

  function DigitValue(c: char): nat
    requires IsDigit(c)
  {
    c as int - '0' as int
  }

  /** The value of a string of decimal digits. */
  function DigitsValue(s: string): nat
    requires forall i :: 0 <= i < |s| ==> IsDigit(s[i])
  {
    if s == [] then 0 else DigitsValue(s[..|s| - 1]) * 10 + DigitValue(s[|s| - 1])
  }

  lemma DigitCharValue(d: nat)
    requires d < 10
    ensures IsDigit(DigitChar(d)) && DigitValue(DigitChar(d)) == d
  {
    if d == 0 { assert DigitChar(d) == '0'; }
    else if d == 1 { assert DigitChar(d) == '1'; }
    else if d == 2 { assert DigitChar(d) == '2'; }
    else if d == 3 { assert DigitChar(d) == '3'; }
    else if d == 4 { assert DigitChar(d) == '4'; }
    else if d == 5 { assert DigitChar(d) == '5'; }
    else if d == 6 { assert DigitChar(d) == '6'; }
    else if d == 7 { assert DigitChar(d) == '7'; }
    else if d == 8 { assert DigitChar(d) == '8'; }
    else { assert DigitChar(d) == '9'; }
  }

  /** Writing a number in decimal and reading it back gives the number:
      the digits are digits, there is at least one, and the value is `n`. */
  lemma {:induction false} NatToStringRoundTrip(n: nat)
    ensures NatToString(n) != []
    ensures forall i :: 0 <= i < |NatToString(n)| ==> IsDigit(NatToString(n)[i])
    ensures DigitsValue(NatToString(n)) == n
  {
    var s := NatToString(n);
    if n < 10 {
      DigitCharValue(n);
      assert s[..0] == [];
    } else {
      NatToStringRoundTrip(n / 10);
      DigitCharValue(n % 10);
      var h := NatToString(n / 10);
      assert s == h + [DigitChar(n % 10)];
      assert s[..|s| - 1] == h;
    }
  }

  /** Different numbers are written differently. */
  lemma NatToStringInjective(a: nat, b: nat)
    requires NatToString(a) == NatToString(b)
    ensures a == b
  {
    NatToStringRoundTrip(a);
    NatToStringRoundTrip(b);
  }

  /** `"%d" % n` */
  function IntToString(n: int): string {
    if n < 0 then "-" + NatToString(-n) else NatToString(n)
  }

  /** `sep.join(xs)` */
  function JoinWith(sep: string, xs: seq<string>): string {
    if xs == [] then ""
    else if |xs| == 1 then xs[0]
    else xs[0] + sep + JoinWith(sep, xs[1..])
  }
}
