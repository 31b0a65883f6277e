/** The primer-scheme BED reader: Scheme.read_primer_bed
    (viramp_hub/scheme.py:75-91). */
module BedRecords {
  import opened Outcomes
  import opened Text

  /** The (start, end, name, strand) tuple the reader yields for a primer. */
  datatype Primer = Primer(start: int, end: int, name: string, strand: string)

  /** A primer together with the reference and pool columns of its line. */
  datatype Record = Record(primer: Primer, ref: string, pool: string)

  /** What one line of the BED file gives. */
  datatype LineResult = Skipped | Parsed(rec: Record) | Malformed(error: Error)

  /** `not record.strip() or record[0] == '#'`: the whitespace test strips,
      the comment test looks at the unstripped first character. */
  predicate IsSkipped(line: string)
    ensures IsSkipped(line) <==> (forall k :: 0 <= k < |line| ==> line[k] in Whitespace) || line[0] == '#'
  {
    Strip(line, Whitespace) == [] || line[0] == '#'
  }

  /** A line with a character that is not whitespace and no leading '#'
      is not skipped. */
  lemma NotSkippedAt(line: string, k: nat)
    requires k < |line| && line[k] !in Whitespace && line[0] != '#'
    ensures !IsSkipped(line)
  {
  }

  /** `record.strip('\n').split('\t')` */
  function Fields(line: string): (fields: seq<string>)
    ensures |fields| >= 1
  {
    Split(Strip(line, {'\n'}), '\t')
  }

  /** One line: skipped, or fields 1 and 2 as integers, fields 3 and 5 as name
      and strand, fields 0 and 4 as reference and pool. Python evaluates
      int(fields[1]), int(fields[2]), fields[3], fields[5] in that order, so
      a bad start beats a missing end, and so on. */
  function ReadLine(line: string): (r: LineResult)
    ensures r.Skipped? <==> IsSkipped(line)
    ensures !r.Skipped? ==>
      var f := Fields(line);
      (r.Parsed? <==> |f| >= 6 && ParseInt(f[1]).Some? && ParseInt(f[2]).Some?)
    ensures r.Parsed? ==>
      var f := Fields(line);
      r.rec == Record(Primer(ParseInt(f[1]).value, ParseInt(f[2]).value, f[3], f[5]), f[0], f[4])
    ensures !IsSkipped(line) ==>
      var f := Fields(line);
      && (|f| < 2 ==> r == Malformed(MissingField))
      && (|f| >= 2 && ParseInt(f[1]).None? ==> r == Malformed(BadCoordinate(f[1])))
      && (|f| >= 2 && ParseInt(f[1]).Some? && |f| < 3 ==> r == Malformed(MissingField))
      && (|f| >= 3 && ParseInt(f[1]).Some? && ParseInt(f[2]).None? ==> r == Malformed(BadCoordinate(f[2])))
      && (|f| >= 3 && ParseInt(f[1]).Some? && ParseInt(f[2]).Some? && |f| < 6 ==> r == Malformed(MissingField))
  {
    if IsSkipped(line) then Skipped
    else
      var f := Fields(line);
      if |f| < 2 then Malformed(MissingField)
      else
        var start := ParseInt(f[1]);
        if start.None? then Malformed(BadCoordinate(f[1]))
        else if |f| < 3 then Malformed(MissingField)
        else
          var end := ParseInt(f[2]);
          if end.None? then Malformed(BadCoordinate(f[2]))
          else if |f| < 6 then Malformed(MissingField)
          else Parsed(Record(Primer(start.value, end.value, f[3], f[5]), f[0], f[4]))
  }

  /** A line that is not skipped and has six fields, the second and third
      of them integers, reads as the record of those fields. */
  lemma ReadLineParsed(line: string, f: seq<string>)
    requires !IsSkipped(line) && Fields(line) == f && |f| == 6
    requires ParseInt(f[1]).Some? && ParseInt(f[2]).Some?
    ensures ReadLine(line) == Parsed(Record(Primer(ParseInt(f[1]).value, ParseInt(f[2]).value, f[3], f[5]), f[0], f[4]))
  {
  }

  /** The per-line results of a whole file, line by line. */
  function ReadLines(lines: seq<string>): (rs: seq<LineResult>)
    ensures |rs| == |lines|
  {
    seq(|lines|, k requires 0 <= k < |lines| => ReadLine(lines[k]))
  }

  lemma ReadLinesAt(lines: seq<string>, k: nat)
    requires k < |lines|
    ensures ReadLines(lines)[k] == ReadLine(lines[k])
  {
  }

  /** The generator of read_primer_bed drained: the records of the parsed
      lines in order, or the error of the first malformed line. */
  function Collect(rs: seq<LineResult>): Result<seq<Record>>
    decreases |rs|
  {
    if rs == [] then Ok([])
    else
      match Collect(rs[..|rs| - 1])
      case Err(e) => Err(e)
      case Ok(prev) =>
        match rs[|rs| - 1]
        case Skipped => Ok(prev)
        case Parsed(rec) => Ok(prev + [rec])
        case Malformed(e) => Err(e)
  }

  function ReadPrimerBed(lines: seq<string>): Result<seq<Record>>
  {
    Collect(ReadLines(lines))
  }

  /** Draining two parts of a file: an error in the first part wins over
      one in the second, and otherwise the records come in order. */
  lemma {:induction false} CollectAppend(a: seq<LineResult>, b: seq<LineResult>)
    ensures Collect(a + b) ==
      match Collect(a)
      case Err(e) => Err(e)
      case Ok(x) =>
        match Collect(b)
        case Err(e) => Err(e)
        case Ok(y) => Ok(x + y)
    decreases |b|
  {
    if b == [] {
      assert a + b == a;
      match Collect(a)
      case Err(_) =>
      case Ok(x) => assert x + [] == x;
    } else {
      var b' := b[..|b| - 1];
      assert (a + b)[..|a + b| - 1] == a + b';
      assert (a + b)[|a + b| - 1] == b[|b| - 1];
      CollectAppend(a, b');
      match Collect(a)
      case Err(_) =>
      case Ok(x) =>
        match Collect(b')
        case Err(_) =>
        case Ok(y) =>
          match b[|b| - 1]
          case Skipped =>
          case Malformed(_) =>
          case Parsed(rec) =>
            assert x + (y + [rec]) == (x + y) + [rec];
    }
  }

  /** With no malformed line nothing fails. */
  lemma {:induction false} CollectSucceeds(rs: seq<LineResult>)
    requires forall j :: 0 <= j < |rs| ==> !rs[j].Malformed?
    ensures Collect(rs).Ok?
    decreases |rs|
  {
    if rs != [] {
      CollectSucceeds(rs[..|rs| - 1]);
    }
  }

  /** Draining fails with the error of the first malformed line. */
  lemma CollectFails(rs: seq<LineResult>, k: nat)
    requires k < |rs| && rs[k].Malformed?
    requires forall j :: 0 <= j < k ==> !rs[j].Malformed?
    ensures Collect(rs) == Err(rs[k].error)
  {
    assert rs == rs[..k + 1] + rs[k + 1..];
    CollectAppend(rs[..k + 1], rs[k + 1..]);
    assert rs[..k + 1][..k] == rs[..k];
    CollectSucceeds(rs[..k]);
  }

  /** Reading fails with the error of the first malformed line. */
  lemma ReadPrimerBedFails(lines: seq<string>, k: nat)
    requires k < |lines| && ReadLine(lines[k]).Malformed?
    requires forall j :: 0 <= j < k ==> !ReadLine(lines[j]).Malformed?
    ensures ReadPrimerBed(lines) == Err(ReadLine(lines[k]).error)
  {
    CollectFails(ReadLines(lines), k);
  }

  /** Reading succeeds when no line is malformed. */
  lemma ReadPrimerBedSucceeds(lines: seq<string>)
    requires forall j :: 0 <= j < |lines| ==> !ReadLine(lines[j]).Malformed?
    ensures ReadPrimerBed(lines).Ok?
  {
    CollectSucceeds(ReadLines(lines));
  }
}
