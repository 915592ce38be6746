/**
 * Cleaning of one sonde data block: the report is split into CR LF lines,
 * the first and last lines are skipped, and each remaining line contributes
 * an ozone value and a pressure value read from two adjacent columns.
 */
module SondeCleaning {
  import opened Wrappers
  import opened Text
  import opened Records

  /** Python's `float()` on one field: `None` when it raises `ValueError`. */
  type Parse = string -> Option<real>

  const LineBreak: string := "\r\n"
  const FieldSeparator: string := ","
  const DurationHeader: string := "Duration"

  /** The loop gives up at this many unreadable lines (counted over the whole block). */
  const MaxFailures: nat := 5

  /**
   * Column of the pressure field: 1 when the header's first field is
   * `Duration` (those stations put elapsed time first), else 0. Ozone is
   * always the next column.
   */
  function PressureColumn(header: string): (col: nat)
    ensures col <= 1
    ensures col == 1 <==> Split(header, FieldSeparator)[0] == DurationHeader
  {
    if Split(header, FieldSeparator)[0] == DurationHeader then 1 else 0
  }

  /**
   * A header whose first comma-separated field is `Duration` puts pressure in
   * column 1 and any other first field puts it in column 0; a header with no
   * comma is a single field.
   */
  lemma PressureColumnByFirstField(first: string, rest: string)
    requires FreeOf(first, FieldSeparator)
    ensures PressureColumn(first + FieldSeparator + rest) == (if first == DurationHeader then 1 else 0)
    ensures PressureColumn(first) == (if first == DurationHeader then 1 else 0)
  {
    SplitFirst(first, FieldSeparator, rest);
    SplitFree(first, FieldSeparator);
  }

  /** What reading one line yields. */
  datatype LineOutcome =
    | TooFewFields                     // indexing the ozone column raises IndexError
    | OzoneUnparsed                    // the ozone field is not a number
    | PressureUnparsed(ozone: real)    // ozone was appended, then pressure failed
    | Parsed(ozone: real, pressure: real)
  {
    predicate Failed() { OzoneUnparsed? || PressureUnparsed? }
  }

  /** Ozone is read (and appended) before pressure. */
  function ReadLine(line: string, col: nat, parse: Parse): (o: LineOutcome)
    ensures o.TooFewFields? <==> |Split(line, FieldSeparator)| <= col + 1
    ensures o.Parsed? ==>
      Some(o.ozone) == parse(Split(line, FieldSeparator)[col + 1])
      && Some(o.pressure) == parse(Split(line, FieldSeparator)[col])
    ensures o.PressureUnparsed? ==>
      Some(o.ozone) == parse(Split(line, FieldSeparator)[col + 1])
      && parse(Split(line, FieldSeparator)[col]).None?
    ensures o.OzoneUnparsed? ==> parse(Split(line, FieldSeparator)[col + 1]).None?
  {
    var fields := Split(line, FieldSeparator);
    if |fields| <= col + 1 then TooFewFields
    else match parse(fields[col + 1])
      case None => OzoneUnparsed
      case Some(v) =>
        match parse(fields[col])
        case None => PressureUnparsed(v)
        case Some(p) => Parsed(v, p)
  }

  function Outcomes(lines: seq<string>, col: nat, parse: Parse): (outs: seq<LineOutcome>)
    ensures |outs| == |lines|
    ensures forall k :: 0 <= k < |lines| ==> outs[k] == ReadLine(lines[k], col, parse)
  {
    seq(|lines|, k requires 0 <= k < |lines| => ReadLine(lines[k], col, parse))
  }

  // The loop's lists and counts after reading lines 1 .. n-1, given each line's outcome.

  /** The ozone list after lines 1 .. n-1. */
  function OzoneUpTo(outs: seq<LineOutcome>, n: nat): seq<real>
    requires n <= |outs|
  {
    if n <= 1 then []
    else
      var o := outs[n - 1];
      OzoneUpTo(outs, n - 1) + (if o.PressureUnparsed? || o.Parsed? then [o.ozone] else [])
  }

  /** The pressure list after lines 1 .. n-1. */
  function PressureUpTo(outs: seq<LineOutcome>, n: nat): seq<real>
    requires n <= |outs|
  {
    if n <= 1 then []
    else
      var o := outs[n - 1];
      PressureUpTo(outs, n - 1) + (if o.Parsed? then [o.pressure] else [])
  }

  /** Unreadable lines among lines 1 .. n-1. */
  function FailuresUpTo(outs: seq<LineOutcome>, n: nat): nat
    requires n <= |outs|
  {
    if n <= 1 then 0 else FailuresUpTo(outs, n - 1) + (if outs[n - 1].Failed() then 1 else 0)
  }

  /** Lines among 1 .. n-1 whose ozone parsed but whose pressure did not. */
  function HalfParsedUpTo(outs: seq<LineOutcome>, n: nat): nat
    requires n <= |outs|
  {
    if n <= 1 then 0 else HalfParsedUpTo(outs, n - 1) + (if outs[n - 1].PressureUnparsed? then 1 else 0)
  }

  predicate NoShortLineUpTo(outs: seq<LineOutcome>, n: nat)
    requires n <= |outs|
  {
    forall k :: 1 <= k < n ==> !outs[k].TooFewFields?
  }

  /** The ozone list outgrows the pressure list by exactly one entry per half-parsed line. */
  lemma {:induction false} OzoneOutgrowsPressure(outs: seq<LineOutcome>, n: nat)
    requires n <= |outs|
    ensures |OzoneUpTo(outs, n)| == |PressureUpTo(outs, n)| + HalfParsedUpTo(outs, n)
  {
    if n > 1 {
      OzoneOutgrowsPressure(outs, n - 1);
    }
  }

  /** The result of a completed cleaning loop. */
  datatype Cleaned = Cleaned(pressure: seq<real>, ozone: seq<real>, failures: nat, stoppedEarly: bool, linesRead: nat)

  /** Index one past the last line the loop may read: `range(1, len(lines) - 1)`. */
  function LastLine(lines: seq<string>): (e: nat)
    requires |lines| >= 1
    ensures 1 <= e <= |lines|
    ensures |lines| >= 2 ==> e == |lines| - 1
  {
    if |lines| >= 2 then |lines| - 1 else 1
  }

  /** Why the loop ended, and where. */
  datatype Stop = RanOut(end: nat) | HitLimit(end: nat) | ShortLineAt(line: nat)

  /** Where the loop, started at line `i` with `failures` so far, stops. */
  function Scan(outs: seq<LineOutcome>, last: nat, i: nat, failures: nat): (s: Stop)
    requires 1 <= i <= last <= |outs|
    requires failures < MaxFailures
    ensures s.RanOut? ==> s.end == last
    ensures s.HitLimit? ==> i < s.end <= last
    ensures s.HitLimit? ==> outs[s.end - 1].Failed()
    ensures s.HitLimit? ==> failures + FailuresUpTo(outs, s.end) == MaxFailures + FailuresUpTo(outs, i)
    ensures s.RanOut? ==> failures + FailuresUpTo(outs, last) < MaxFailures + FailuresUpTo(outs, i)
    ensures s.ShortLineAt? ==> i <= s.line < last && outs[s.line].TooFewFields?
    ensures s.ShortLineAt? ==> forall j :: i <= j < s.line ==> !outs[j].TooFewFields?
    ensures !s.ShortLineAt? ==> forall j :: i <= j < s.end ==> !outs[j].TooFewFields?
    decreases last - i
  {
    if i == last then RanOut(i)
    else if outs[i].TooFewFields? then ShortLineAt(i)
    else if outs[i].Failed() && failures + 1 == MaxFailures then HitLimit(i + 1)
    else Scan(outs, last, i + 1, failures + (if outs[i].Failed() then 1 else 0))
  }

  /** What the loop has built after reading lines 1 .. n-1. */
  function Summary(outs: seq<LineOutcome>, n: nat, stoppedEarly: bool): Cleaned
    requires n <= |outs|
  {
    Cleaned(PressureUpTo(outs, n), OzoneUpTo(outs, n), FailuresUpTo(outs, n), stoppedEarly, n)
  }

  /** Cleaning of the lines of a block, as a function: a reference for `ReadLines`. */
  function CleanLines(lines: seq<string>, col: nat, parse: Parse): Result<Cleaned, Fatal>
    requires |lines| >= 1
  {
    var outs := Outcomes(lines, col, parse);
    match Scan(outs, LastLine(lines), 1, 0)
    case ShortLineAt(k) => Failure(ShortSondeLine(k))
    case RanOut(e) => Success(Summary(outs, e, false))
    case HitLimit(e) => Success(Summary(outs, e, true))
  }

  /** Cleaning of a whole data block, as a function. */
  function CleanBlock(block: string, parse: Parse): Result<Cleaned, Fatal> {
    var lines := Split(block, LineBreak);
    CleanLines(lines, PressureColumn(lines[0]), parse)
  }

  /**
   * What a successful cleaning returned: the lists and count built from the
   * lines it read, a count that never passed the limit, an early stop exactly
   * at the limit, and an ozone list that outgrows the pressure list by one per
   * half-parsed line.
   */
  predicate ReadUpTo(outs: seq<LineOutcome>, last: nat, c: Cleaned)
    requires last <= |outs|
  {
    && 1 <= c.linesRead <= last
    && c.pressure == PressureUpTo(outs, c.linesRead)
    && c.ozone == OzoneUpTo(outs, c.linesRead)
    && c.failures == FailuresUpTo(outs, c.linesRead)
    && NoShortLineUpTo(outs, c.linesRead)
    && c.failures <= MaxFailures
    && (c.stoppedEarly <==> c.failures == MaxFailures)
    && (!c.stoppedEarly ==> c.linesRead == last)
    && (c.stoppedEarly ==> c.linesRead >= 2 && outs[c.linesRead - 1].Failed())
    && |c.ozone| == |c.pressure| + HalfParsedUpTo(outs, c.linesRead)
  }

  /** Line `k` is the first one too short to hold the ozone column, and the limit was not reached before it. */
  predicate ShortAt(outs: seq<LineOutcome>, last: nat, k: nat)
    requires last <= |outs|
  {
    && 1 <= k < last
    && outs[k].TooFewFields?
    && NoShortLineUpTo(outs, k)
    && FailuresUpTo(outs, k) < MaxFailures
  }

  /** What holds before each turn of the cleaning loop, with `i` the next line to read. */
  predicate LoopInv(outs: seq<LineOutcome>, last: nat, i: nat,
                    pressure: seq<real>, ozone: seq<real>, failures: nat)
    requires last <= |outs|
  {
    && 1 <= i <= last
    && pressure == PressureUpTo(outs, i)
    && ozone == OzoneUpTo(outs, i)
    && failures == FailuresUpTo(outs, i)
    && failures < MaxFailures
    && NoShortLineUpTo(outs, i)
  }

  /** A turn that reads a line with both columns present, yielding the primed lists and count. */
  lemma LoopStep(outs: seq<LineOutcome>, last: nat, i: nat,
                 pressure: seq<real>, ozone: seq<real>, failures: nat,
                 pressure': seq<real>, ozone': seq<real>, failures': nat)
    requires last <= |outs| && i < last
    requires LoopInv(outs, last, i, pressure, ozone, failures)
    requires !outs[i].TooFewFields?
    requires pressure' == pressure + (if outs[i].Parsed? then [outs[i].pressure] else [])
    requires ozone' == ozone + (if outs[i].Parsed? || outs[i].PressureUnparsed? then [outs[i].ozone] else [])
    requires failures' == failures + (if outs[i].Failed() then 1 else 0)
    ensures failures' < MaxFailures ==> LoopInv(outs, last, i + 1, pressure', ozone', failures')
    ensures failures' == MaxFailures ==>
      && ReadUpTo(outs, last, Cleaned(pressure', ozone', failures', true, i + 1))
      && Cleaned(pressure', ozone', failures', true, i + 1) == Summary(outs, i + 1, true)
  {
    OzoneOutgrowsPressure(outs, i + 1);
  }

  /** A turn past a readable line, below the limit, leaves the stopping point where it was. */
  lemma ScanStep(outs: seq<LineOutcome>, last: nat, i: nat, failures: nat, failures': nat)
    requires 1 <= i < last <= |outs|
    requires failures < MaxFailures
    requires !outs[i].TooFewFields?
    requires failures' == failures + (if outs[i].Failed() then 1 else 0)
    requires failures' < MaxFailures
    ensures Scan(outs, last, i, failures) == Scan(outs, last, i + 1, failures')
  {
  }

  /** Where the loop stops, and that what it has built there is as `ReadUpTo` and `ShortAt` describe. */
  lemma {:induction false} ScanOutcome(outs: seq<LineOutcome>, last: nat, i: nat,
                                       pressure: seq<real>, ozone: seq<real>, failures: nat)
    requires last <= |outs|
    requires LoopInv(outs, last, i, pressure, ozone, failures)
    ensures match Scan(outs, last, i, failures)
      case RanOut(e) => ReadUpTo(outs, last, Summary(outs, e, false))
      case HitLimit(e) => ReadUpTo(outs, last, Summary(outs, e, true))
      case ShortLineAt(k) => ShortAt(outs, last, k)
    decreases last - i
  {
    if i == last {
      OzoneOutgrowsPressure(outs, i);
    } else if !outs[i].TooFewFields? {
      var o := outs[i];
      var pressure' := pressure + (if o.Parsed? then [o.pressure] else []);
      var ozone' := ozone + (if o.Parsed? || o.PressureUnparsed? then [o.ozone] else []);
      var failures' := failures + (if o.Failed() then 1 else 0);
      LoopStep(outs, last, i, pressure, ozone, failures, pressure', ozone', failures');
      if failures' < MaxFailures {
        ScanStep(outs, last, i, failures, failures');
        ScanOutcome(outs, last, i + 1, pressure', ozone', failures');
      }
    }
  }

  /**
   * Cleaning reads lines 1 .. |lines|-2 in order, stopping early only at the
   * fifth unreadable line (and then keeping what it has) or at a line too
   * short for the ozone column (and then ending the run); the lists it keeps
   * are exactly those the lines read so far give.
   */
  lemma CleanBlockOutcome(block: string, parse: Parse)
    ensures var lines := Split(block, LineBreak);
      var outs := Outcomes(lines, PressureColumn(lines[0]), parse);
      var r := CleanBlock(block, parse);
      && (r.Success? ==> ReadUpTo(outs, LastLine(lines), r.value))
      && (r.Failure? ==> r.error.ShortSondeLine? && ShortAt(outs, LastLine(lines), r.error.line))
  {
    var lines := Split(block, LineBreak);
    var outs := Outcomes(lines, PressureColumn(lines[0]), parse);
    ScanOutcome(outs, LastLine(lines), 1, [], [], 0);
  }

  /**
   * The cleaning loop written as a tail-recursive function: started at line
   * `i` with the lists and count built so far, what the loop ends with.
   */
  function CleanFrom(outs: seq<LineOutcome>, last: nat, i: nat,
                     pressure: seq<real>, ozone: seq<real>, failures: nat): Result<Cleaned, Fatal>
    requires 1 <= i <= last <= |outs|
    requires failures < MaxFailures
    decreases last - i
  {
    if i == last then Success(Cleaned(pressure, ozone, failures, false, i))
    else if outs[i].TooFewFields? then Failure(ShortSondeLine(i))
    else
      var o := outs[i];
      var pressure' := pressure + (if o.Parsed? then [o.pressure] else []);
      var ozone' := ozone + (if o.Parsed? || o.PressureUnparsed? then [o.ozone] else []);
      var failures' := failures + (if o.Failed() then 1 else 0);
      if failures' == MaxFailures then Success(Cleaned(pressure', ozone', failures', true, i + 1))
      else CleanFrom(outs, last, i + 1, pressure', ozone', failures')
  }

  /** One turn past a readable line below the limit: the loop goes on from the next line. */
  lemma CleanFromStep(outs: seq<LineOutcome>, last: nat, i: nat,
                      pressure: seq<real>, ozone: seq<real>, failures: nat,
                      pressure': seq<real>, ozone': seq<real>, failures': nat)
    requires 1 <= i < last <= |outs|
    requires failures < MaxFailures
    requires !outs[i].TooFewFields?
    requires pressure' == pressure + (if outs[i].Parsed? then [outs[i].pressure] else [])
    requires ozone' == ozone + (if outs[i].Parsed? || outs[i].PressureUnparsed? then [outs[i].ozone] else [])
    requires failures' == failures + (if outs[i].Failed() then 1 else 0)
    ensures failures' == MaxFailures ==>
      CleanFrom(outs, last, i, pressure, ozone, failures) == Success(Cleaned(pressure', ozone', failures', true, i + 1))
    ensures failures' < MaxFailures ==>
      CleanFrom(outs, last, i, pressure, ozone, failures) == CleanFrom(outs, last, i + 1, pressure', ozone', failures')
  {
  }

  /** From any point the loop can reach, it ends as `Scan` and `Summary` say. */
  lemma {:induction false} CleanFromScan(outs: seq<LineOutcome>, last: nat, i: nat,
                                         pressure: seq<real>, ozone: seq<real>, failures: nat)
    requires last <= |outs|
    requires LoopInv(outs, last, i, pressure, ozone, failures)
    ensures CleanFrom(outs, last, i, pressure, ozone, failures) ==
      match Scan(outs, last, i, failures)
      case ShortLineAt(k) => Failure(ShortSondeLine(k))
      case RanOut(e) => Success(Summary(outs, e, false))
      case HitLimit(e) => Success(Summary(outs, e, true))
    decreases last - i
  {
    if i < last && !outs[i].TooFewFields? {
      var o := outs[i];
      var pressure' := pressure + (if o.Parsed? then [o.pressure] else []);
      var ozone' := ozone + (if o.Parsed? || o.PressureUnparsed? then [o.ozone] else []);
      var failures' := failures + (if o.Failed() then 1 else 0);
      LoopStep(outs, last, i, pressure, ozone, failures, pressure', ozone', failures');
      if failures' < MaxFailures {
        ScanStep(outs, last, i, failures, failures');
        CleanFromScan(outs, last, i + 1, pressure', ozone', failures');
      }
    }
  }

  /**
   * The cleaning loop over the lines of a block. Reads lines 1 .. |lines|-2,
   * taking pressure from column `col` and ozone from the next one; counts
   * unreadable lines without ever resetting the count, and leaves the loop,
   * keeping what it has, at the fifth. A line too short to hold the ozone
   * column ends the run.
   */
  method ReadLines(lines: seq<string>, col: nat, parse: Parse) returns (r: Result<Cleaned, Fatal>)
    requires |lines| >= 1
    ensures r == CleanLines(lines, col, parse)
  {
    var outs := Outcomes(lines, col, parse);
    var last := LastLine(lines);
    var pressure: seq<real> := [];
    var ozone: seq<real> := [];
    var failures: nat := 0;
    var i: nat := 1;
    CleanFromScan(outs, last, 1, [], [], 0);
    ghost var target := CleanFrom(outs, last, 1, [], [], 0);
    while i < last
      invariant 1 <= i <= last
      invariant failures < MaxFailures
      invariant CleanFrom(outs, last, i, pressure, ozone, failures) == target
      decreases last - i
    {
      var o := outs[i];
      if o.TooFewFields? {
        return Failure(ShortSondeLine(i));
      }
      var pressure' := pressure + (if o.Parsed? then [o.pressure] else []);
      var ozone' := ozone + (if o.Parsed? || o.PressureUnparsed? then [o.ozone] else []);
      var failures' := failures + (if o.Failed() then 1 else 0);
      CleanFromStep(outs, last, i, pressure, ozone, failures, pressure', ozone', failures');
      if failures' == MaxFailures {
        return Success(Cleaned(pressure', ozone', failures', true, i + 1));
      }
      pressure, ozone, failures, i := pressure', ozone', failures', i + 1;
    }
    return Success(Cleaned(pressure, ozone, failures, false, i));
  }

  /** Cleaning of one sonde data block: split into CR LF lines, pick the column, run the loop. */
  method CleanDataBlock(block: string, parse: Parse) returns (r: Result<Cleaned, Fatal>)
    ensures r == CleanBlock(block, parse)
    ensures r.Success? ==> r.value.failures <= MaxFailures
    ensures r.Success? ==> (r.value.stoppedEarly <==> r.value.failures == MaxFailures)
    ensures r.Success? ==> |r.value.ozone| >= |r.value.pressure|
    ensures r.Failure? ==> r.error.ShortSondeLine?
  {
    var lines := Split(block, LineBreak);
    r := ReadLines(lines, PressureColumn(lines[0]), parse);
    CleanBlockOutcome(block, parse);
  }
}
