/** The three writers of Scheme (viramp_hub/scheme.py:97-154). Each writes
    strings to a stream `o` one after the other; the stream is modelled as
    the sequence of strings written. The selections of outer and inner
    primers may raise ValueError in the middle of a report, after earlier
    lines were written, so a writer's result is an Output: what was written
    and the error that stopped it, if any. */
module Writers {
  import opened Outcomes
  import opened Text
  import opened BedRecords
  import opened Grouping
  import opened Geometry
  import opened Sorting
  import opened SchemeBuilders

  datatype Output = Output(written: seq<string>, failure: Option<Error>)

  // ---------------------------------------------------------------------
  // Writing rows until the first error.

  /** The rows the loop of a writer produces, one per amplicon: the
      strings it writes for that amplicon, or the error it raises. Emit
      writes them in order and stops at the first error. */
  function Emit(rows: seq<Result<seq<string>>>): Output
    decreases |rows|
  {
    if rows == [] then Output([], None)
    else EmitStep(Emit(rows[..|rows| - 1]), rows[|rows| - 1])
  }

  function EmitStep(o: Output, row: Result<seq<string>>): Output
  {
    if o.failure.Some? then o
    else
      match row
      case Err(e) => Output(o.written, Some(e))
      case Ok(lines) => Output(o.written + lines, None)
  }

  lemma EmitSnoc(rows: seq<Result<seq<string>>>, k: nat)
    requires k < |rows|
    ensures Emit(rows[..k + 1]) == EmitStep(Emit(rows[..k]), rows[k])
  {
    assert rows[..k + 1][..k] == rows[..k];
  }

  /** A row that is not an error extends what was written. */
  lemma EmitOk(rows: seq<Result<seq<string>>>, k: nat, written: seq<string>, lines: seq<string>)
    requires k < |rows| && Emit(rows[..k]) == Output(written, None) && rows[k] == Ok(lines)
    ensures Emit(rows[..k + 1]) == Output(written + lines, None)
  {
    EmitSnoc(rows, k);
  }

  /** A row that is an error stops the writer with that error. */
  lemma EmitErr(rows: seq<Result<seq<string>>>, k: nat, written: seq<string>, e: Error)
    requires k < |rows| && Emit(rows[..k]) == Output(written, None) && rows[k] == Err(e)
    ensures Emit(rows) == Output(written, Some(e))
  {
    EmitSnoc(rows, k);
    EmitErrorPersists(rows, k + 1);
  }

  lemma {:induction false} EmitErrorPersists(rows: seq<Result<seq<string>>>, k: nat)
    requires k <= |rows| && Emit(rows[..k]).failure.Some?
    ensures Emit(rows) == Emit(rows[..k])
    decreases |rows| - k
  {
    if k < |rows| {
      EmitSnoc(rows, k);
      EmitErrorPersists(rows, k + 1);
    } else {
      assert rows[..k] == rows;
    }
  }

  /** The index of the first row that is an error, or the number of rows. */
  function FirstErr(rows: seq<Result<seq<string>>>): (f: nat)
    ensures f <= |rows|
    ensures forall k :: 0 <= k < f ==> rows[k].Ok?
    ensures f < |rows| ==> rows[f].Err?
    decreases |rows|
  {
    if rows == [] || rows[0].Err? then 0 else 1 + FirstErr(rows[1..])
  }

  /** All the strings of rows that are not errors, in order. */
  function Concat(rows: seq<Result<seq<string>>>): seq<string>
    requires forall k :: 0 <= k < |rows| ==> rows[k].Ok?
    decreases |rows|
  {
    if rows == [] then [] else Concat(rows[..|rows| - 1]) + rows[|rows| - 1].value
  }

  /** A writer writes the strings of every row before the first error, and
      fails with that error if there is one. */
  lemma {:induction false} EmitSpec(rows: seq<Result<seq<string>>>)
    ensures var f := FirstErr(rows);
      Emit(rows) == Output(Concat(rows[..f]), if f < |rows| then Some(rows[f].error) else None)
    decreases |rows|
  {
    if rows != [] {
      var front := rows[..|rows| - 1];
      EmitSpec(front);
      var f0 := FirstErr(front);
      var f := FirstErr(rows);
      assert forall k :: 0 <= k < |front| ==> front[k] == rows[k];
      if f0 < |front| {
        assert f == f0;
        assert rows[..f] == front[..f0];
      } else {
        assert front[..f0] == front;
        if rows[|rows| - 1].Ok? {
          assert f == |rows|;
          assert rows[..f] == rows;
          assert rows[..f][..|rows| - 1] == front;
        } else {
          assert f == |front|;
          assert rows[..f] == front;
        }
      }
    }
  }

  /** When every row is one line, the strings written are those lines,
      one per row. */
  lemma {:induction false} ConcatSingles(rows: seq<Result<seq<string>>>)
    requires forall k :: 0 <= k < |rows| ==> rows[k].Ok? && |rows[k].value| == 1
    ensures |Concat(rows)| == |rows|
    ensures forall k :: 0 <= k < |rows| ==> Concat(rows)[k] == rows[k].value[0]
    decreases |rows|
  {
    if rows != [] {
      ConcatSingles(rows[..|rows| - 1]);
    }
  }

  /** When every row before the first error is one line, the writer
      writes exactly those lines, one per row, and fails with the error of
      the first failing row. */
  lemma EmitSingles(rows: seq<Result<seq<string>>>)
    requires forall k :: 0 <= k < FirstErr(rows) ==> |rows[k].value| == 1
    ensures var out := Emit(rows);
      var f := FirstErr(rows);
      && |out.written| == f
      && (forall k :: 0 <= k < f ==> rows[k] == Ok([out.written[k]]))
      && (out.failure.None? <==> f == |rows|)
      && (out.failure.Some? ==> out.failure == Some(rows[f].error))
  {
    EmitSpec(rows);
    var f := FirstErr(rows);
    ConcatSingles(rows[..f]);
    forall k | 0 <= k < f ensures rows[k] == Ok([Concat(rows[..f])[k]]) {
      assert rows[..f][k] == rows[k];
      assert rows[k].value == [rows[k].value[0]];
    }
  }

  // ---------------------------------------------------------------------
  // The BED line both BED writers emit.

  /** f'{ref}\t{start}\t{end}\t{name}\t{col5}\t{strand}\n': the six
      columns separated by tabs, then a newline. */
  function BedLine(ref: string, start: int, end: int, name: string, col5: string, strand: string): string
  {
    Join([ref, ShowInt(start), ShowInt(end), name, col5, strand], '\t') + "\n"
  }

  /** A text field that cannot break the line into other fields. */
  predicate PlainField(s: string)
  {
    '\t' !in s && '\n' !in s
  }

  lemma PlainSix(a: string, b: string, c: string, d: string, e: string, f: string)
    requires PlainField(a) && PlainField(b) && PlainField(c) && PlainField(d) && PlainField(e) && PlainField(f)
    ensures forall k :: 0 <= k < 6 ==> '\t' !in [a, b, c, d, e, f][k] && '\n' !in [a, b, c, d, e, f][k]
  {
  }

  /** Splitting a line written from plain fields gives back the fields. */
  lemma BedLineFields(ref: string, start: int, end: int, name: string, col5: string, strand: string)
    requires PlainField(ref) && PlainField(name) && PlainField(col5) && PlainField(strand)
    ensures Fields(BedLine(ref, start, end, name, col5, strand)) ==
      [ref, ShowInt(start), ShowInt(end), name, col5, strand]
  {
    var fields := [ref, ShowInt(start), ShowInt(end), name, col5, strand];
    ShowIntPlain(start);
    ShowIntPlain(end);
    PlainSix(ref, ShowInt(start), ShowInt(end), name, col5, strand);
    var body := Join(fields, '\t');
    JoinAvoids(fields, '\t', '\n');
    assert body != [] && body[0] != '\n' && body[|body| - 1] != '\n';
    StripOneTrailing(body, '\n', {'\n'});
    SplitOfJoin(fields, '\t');
  }

  /** A BED line written from plain fields, with a reference that does not
      start with '#', reads back as the record it was written from, the
      fifth column coming back as the pool. */
  lemma BedLineReadsBack(ref: string, start: int, end: int, name: string, col5: string, strand: string)
    requires PlainField(ref) && PlainField(name) && PlainField(col5) && PlainField(strand)
    requires ref == [] || ref[0] != '#'
    ensures ReadLine(BedLine(ref, start, end, name, col5, strand)) ==
      Parsed(Record(Primer(start, end, name, strand), ref, col5))
  {
    var line := BedLine(ref, start, end, name, col5, strand);
    BedLineFields(ref, start, end, name, col5, strand);
    BedLineNotSkipped(ref, start, end, name, col5, strand);
    ReadsBackFromFields(line, ref, start, end, name, col5, strand);
  }

  lemma ReadsBackFromFields(line: string, ref: string, start: int, end: int, name: string, col5: string, strand: string)
    requires !IsSkipped(line) && Fields(line) == [ref, ShowInt(start), ShowInt(end), name, col5, strand]
    ensures ReadLine(line) == Parsed(Record(Primer(start, end, name, strand), ref, col5))
  {
    ParseShowInt(start);
    ParseShowInt(end);
    ReadLineParsed(line, Fields(line));
  }

  /** Such a line is neither blank nor a comment: its second field, a
      number, starts with a character that is not whitespace. */
  lemma BedLineNotSkipped(ref: string, start: int, end: int, name: string, col5: string, strand: string)
    requires ref == [] || ref[0] != '#'
    ensures !IsSkipped(BedLine(ref, start, end, name, col5, strand))
  {
    ShowIntPlain(start);
    NumberCharNotWhitespace(ShowInt(start)[0]);
    BedLineChars(ref, start, end, name, col5, strand);
    NotSkippedAt(BedLine(ref, start, end, name, col5, strand), |ref| + 1);
  }

  lemma BedLineChars(ref: string, start: int, end: int, name: string, col5: string, strand: string)
    requires ref == [] || ref[0] != '#'
    ensures var line := BedLine(ref, start, end, name, col5, strand);
      |ref| + 1 < |line| && line[|ref| + 1] == ShowInt(start)[0] && line[0] != '#'
  {
    var fields := [ref, ShowInt(start), ShowInt(end), name, col5, strand];
    var rest := Join(fields[1..], '\t');
    assert Join(fields, '\t') == ref + ['\t'] + rest;
    assert fields[1..][1..] == fields[2..];
    assert rest == ShowInt(start) + ['\t'] + Join(fields[2..], '\t');
    assert rest[0] == ShowInt(start)[0];
    if ref != [] { assert Join(fields, '\t')[0] == ref[0]; }
  }

  // ---------------------------------------------------------------------
  // write_sanitized_bed

  /** The records of one amplicon: (primer, ref, pool) for its primers. */
  function RecordsOf(a: Amplicon): (recs: seq<Record>)
    ensures |recs| == |a.primers|
    ensures forall k :: 0 <= k < |a.primers| ==> recs[k] == Record(a.primers[k], a.ref, a.pool)
  {
    seq(|a.primers|, k requires 0 <= k < |a.primers| => Record(a.primers[k], a.ref, a.pool))
  }

  predicate Listed(byId: map<int, Amplicon>, order: seq<int>)
  {
    forall k :: 0 <= k < |order| ==> order[k] in byId
  }

  lemma WellFormedListed(amps: Amplicons)
    requires WellFormed(amps)
    ensures Listed(amps.byId, amps.order)
  {
    forall k | 0 <= k < |amps.order| ensures amps.order[k] in amps.byId {
      assert amps.order[k] in amps.order;
    }
  }

  /** The generator of write_sanitized_bed: the records of every amplicon,
      amplicons in dict order. */
  function AllRecords(byId: map<int, Amplicon>, order: seq<int>): seq<Record>
    requires Listed(byId, order)
    decreases |order|
  {
    if order == [] then []
    else AllRecords(byId, order[..|order| - 1]) + RecordsOf(byId[order[|order| - 1]])
  }

  /** The records of a scheme, amplicons in dict order. */
  function SchemeRecords(s: Scheme): seq<Record>
    requires WellFormed(s.amplicons)
  {
    WellFormedListed(s.amplicons);
    AllRecords(s.amplicons.byId, s.amplicons.order)
  }

  function SanitizedLine(rec: Record): string
  {
    BedLine(rec.ref, rec.primer.start, rec.primer.end, rec.primer.name, "60", rec.primer.strand)
  }

  /** The lines write_sanitized_bed writes. */
  function SanitizedBed(s: Scheme): seq<string>
    requires WellFormed(s.amplicons)
  {
    SanitizedLines(SortRecords(SchemeRecords(s)))
  }

  /** The lines of the given records, one each, in order. */
  function SanitizedLines(recs: seq<Record>): seq<string>
    decreases |recs|
  {
    if recs == [] then [] else SanitizedLines(recs[..|recs| - 1]) + [SanitizedLine(recs[|recs| - 1])]
  }

  lemma {:induction false} SanitizedLinesLength(recs: seq<Record>)
    ensures |SanitizedLines(recs)| == |recs|
    decreases |recs|
  {
    if recs != [] {
      SanitizedLinesLength(recs[..|recs| - 1]);
    }
  }

  lemma {:induction false} SanitizedLinesAt(recs: seq<Record>, k: nat)
    requires k < |recs|
    ensures |SanitizedLines(recs)| == |recs| && SanitizedLines(recs)[k] == SanitizedLine(recs[k])
    decreases |recs|
  {
    var front := recs[..|recs| - 1];
    SanitizedLinesLength(recs);
    SanitizedLinesLength(front);
    if k < |front| {
      SanitizedLinesAt(front, k);
      assert front[k] == recs[k];
    }
  }

  /** Scheme.write_sanitized_bed */
  method WriteSanitizedBed(s: Scheme) returns (written: seq<string>)
    requires WellFormed(s.amplicons)
    ensures written == SanitizedBed(s)
  {
    var records := SortRecords(SchemeRecords(s));
    written := [];
    for k := 0 to |records|
      invariant written == SanitizedLines(records[..k])
    {
      assert records[..k + 1][..k] == records[..k];
      written := written + [SanitizedLine(records[k])];
    }
    assert records[..|records|] == records;
  }

  /** The records are exactly the primers of the amplicons, each with the
      reference and pool of its amplicon, amplicon by amplicon. */
  lemma {:induction false} AllRecordsSpec(byId: map<int, Amplicon>, order: seq<int>)
    requires Listed(byId, order)
    ensures forall k, j :: 0 <= k < |order| && 0 <= j < |byId[order[k]].primers| ==>
      Record(byId[order[k]].primers[j], byId[order[k]].ref, byId[order[k]].pool) in AllRecords(byId, order)
    ensures forall r :: r in AllRecords(byId, order) ==>
      exists k :: 0 <= k < |order| && r in RecordsOf(byId[order[k]])
    decreases |order|
  {
    if order != [] {
      var front := order[..|order| - 1];
      AllRecordsSpec(byId, front);
      var all := AllRecords(byId, order);
      var last := RecordsOf(byId[order[|order| - 1]]);
      assert all == AllRecords(byId, front) + last;
      forall k, j | 0 <= k < |order| && 0 <= j < |byId[order[k]].primers|
        ensures Record(byId[order[k]].primers[j], byId[order[k]].ref, byId[order[k]].pool) in all
      {
        if k < |front| {
          assert order[k] == front[k];
        } else {
          assert last[j] in all;
        }
      }
      forall r | r in all ensures exists k :: 0 <= k < |order| && r in RecordsOf(byId[order[k]]) {
        if r in AllRecords(byId, front) {
          var k :| 0 <= k < |front| && r in RecordsOf(byId[front[k]]);
          assert order[k] == front[k];
        } else {
          assert r in last;
        }
      }
    }
  }

  /** write_sanitized_bed writes one line per primer of the scheme: the
      lines are those of the records sorted stably by (ref, start, end),
      which take every primer exactly once; keys never decrease, and
      primers with equal keys keep their amplicon and append order. */
  lemma SanitizedBedSpec(s: Scheme)
    requires WellFormed(s.amplicons)
    ensures var recs := SchemeRecords(s);
      var sorted := SortRecords(recs);
      && |SanitizedBed(s)| == |recs|
      && multiset(sorted) == multiset(recs)
      && (forall k :: 0 <= k < |sorted| ==> SanitizedBed(s)[k] == SanitizedLine(sorted[k]))
      && (forall a, b :: 0 <= a < b < |sorted| ==> !KeyLess(sorted[b], sorted[a]))
  {
    var sorted := SortRecords(SchemeRecords(s));
    SortRecordsSpec(SchemeRecords(s));
    SanitizedLinesLength(sorted);
    forall k | 0 <= k < |sorted| ensures SanitizedBed(s)[k] == SanitizedLine(sorted[k]) {
      SanitizedLinesAt(sorted, k);
    }
  }

  /** A sanitized line reads back as its record with the pool replaced by
      the score column "60": the pool is not written. */
  lemma SanitizedLineReadsBack(rec: Record)
    requires PlainField(rec.ref) && PlainField(rec.primer.name) && PlainField(rec.primer.strand)
    requires rec.ref == [] || rec.ref[0] != '#'
    ensures ReadLine(SanitizedLine(rec)) == Parsed(Record(rec.primer, rec.ref, "60"))
  {
    BedLineReadsBack(rec.ref, rec.primer.start, rec.primer.end, rec.primer.name, "60", rec.primer.strand);
  }

  // ---------------------------------------------------------------------
  // write_amplicon_info

  function Names(ps: seq<Primer>): (names: seq<string>)
    ensures |names| == |ps| && forall k :: 0 <= k < |ps| ==> names[k] == ps[k].name
  {
    seq(|ps|, k requires 0 <= k < |ps| => ps[k].name)
  }

  /** f'{first[2]}\t{last[2]}\n', or the ValueError of min()/max(). */
  function PairRow(ps: seq<Primer>, first: Option<nat>, last: Option<nat>): Result<seq<string>>
    requires first.Some? ==> first.value < |ps|
    requires last.Some? ==> last.value < |ps|
  {
    if first.None? || last.None? then Err(EmptySelection)
    else Ok([ps[first.value].name + "\t" + ps[last.value].name + "\n"])
  }

  /** What write_amplicon_info writes for one amplicon in a mode. */
  function InfoRow(a: Amplicon, mode: string): Result<seq<string>>
  {
    var ps := a.primers;
    if mode == "full" then Ok([Join(Names(ps), '\t') + "\n"])
    else if mode == "outer" then PairRow(ps, OuterForward(ps), OuterReverse(ps))
    else if mode == "inner" then PairRow(ps, InnerForward(ps), InnerReverse(ps))
    else Ok([])
  }

  function InfoRows(amps: Amplicons, mode: string): (rows: seq<Result<seq<string>>>)
    requires Listed(amps.byId, amps.order)
    ensures |rows| == |amps.order|
    ensures forall k :: 0 <= k < |amps.order| ==> rows[k] == InfoRow(amps.byId[amps.order[k]], mode)
  {
    seq(|amps.order|, k requires 0 <= k < |amps.order| => InfoRow(amps.byId[amps.order[k]], mode))
  }

  /** What write_amplicon_info writes, amplicons in dict order. */
  function AmpliconInfo(s: Scheme, mode: string): Output
    requires WellFormed(s.amplicons)
  {
    WellFormedListed(s.amplicons);
    Emit(InfoRows(s.amplicons, mode))
  }

  /** Scheme.write_amplicon_info */
  method WriteAmpliconInfo(s: Scheme, mode: string) returns (out: Output)
    requires WellFormed(s.amplicons)
    ensures out == AmpliconInfo(s, mode)
  {
    WellFormedListed(s.amplicons);
    ghost var rows := InfoRows(s.amplicons, mode);
    var order := s.amplicons.order;
    var written: seq<string> := [];
    var k := 0;
    while k < |order|
      invariant 0 <= k <= |order|
      invariant Emit(rows[..k]) == Output(written, None)
    {
      var row := AmpliconInfoRow(s.amplicons.byId[order[k]], mode);
      if row.Err? {
        EmitErr(rows, k, written, row.error);
        return Output(written, Some(row.error));
      }
      EmitOk(rows, k, written, row.value);
      written := written + row.value;
      k := k + 1;
    }
    assert rows[..k] == rows;
    out := Output(written, None);
  }

  /** The body of the loop of write_amplicon_info for one amplicon: the
      lines it writes, or the ValueError of min() or max(). */
  method AmpliconInfoRow(amplicon: Amplicon, mode: string) returns (row: Result<seq<string>>)
    ensures row == InfoRow(amplicon, mode)
  {
    var ps := amplicon.primers;
    if mode == "full" {
      return Ok([Join(Names(ps), '\t') + "\n"]);
    } else if mode == "outer" || mode == "inner" {
      var first := if mode == "outer" then OuterForward(ps) else InnerForward(ps);
      if first.None? {
        return Err(EmptySelection);
      }
      var last := if mode == "outer" then OuterReverse(ps) else InnerReverse(ps);
      if last.None? {
        return Err(EmptySelection);
      }
      return Ok([ps[first.value].name + "\t" + ps[last.value].name + "\n"]);
    }
    return Ok([]);
  }

  predicate HasStrand(ps: seq<Primer>, strand: string)
  {
    exists k :: 0 <= k < |ps| && ps[k].strand == strand
  }

  /** "full" never fails; "outer" and "inner" fail exactly for an amplicon
      without a '+' or without a '-' primer; every other mode writes
      nothing and never fails. */
  lemma InfoRowSpec(a: Amplicon, mode: string)
    ensures mode == "full" ==> InfoRow(a, mode).Ok?
    ensures mode == "outer" || mode == "inner" ==>
      && (InfoRow(a, mode).Err? <==> !HasStrand(a.primers, "+") || !HasStrand(a.primers, "-"))
      && (InfoRow(a, mode).Err? ==> InfoRow(a, mode).error == EmptySelection)
    ensures (mode == "full" || mode == "outer" || mode == "inner") && InfoRow(a, mode).Ok? ==>
      |InfoRow(a, mode).value| == 1
    ensures mode != "full" && mode != "outer" && mode != "inner" ==> InfoRow(a, mode) == Ok([])
  {
  }

  /** The report has one line per amplicon in dict order up to the first
      amplicon whose row fails, and fails there with EmptySelection. */
  lemma AmpliconInfoSpec(s: Scheme, mode: string)
    requires WellFormed(s.amplicons)
    requires mode == "full" || mode == "outer" || mode == "inner"
    ensures var out := AmpliconInfo(s, mode);
      var amps := s.amplicons;
      && |out.written| <= |amps.order|
      && (forall k :: 0 <= k < |out.written| ==>
            amps.order[k] in amps.byId && InfoRow(amps.byId[amps.order[k]], mode) == Ok([out.written[k]]))
      && (out.failure.None? ==> |out.written| == |amps.order|)
      && (out.failure.Some? ==>
            && out.failure == Some(EmptySelection)
            && |out.written| < |amps.order| && amps.order[|out.written|] in amps.byId
            && InfoRow(amps.byId[amps.order[|out.written|]], mode).Err?)
  {
    WellFormedListed(s.amplicons);
    var rows := InfoRows(s.amplicons, mode);
    forall k | 0 <= k < FirstErr(rows) ensures |rows[k].value| == 1 {
      InfoRowSpec(s.amplicons.byId[s.amplicons.order[k]], mode);
    }
    EmitSingles(rows);
    if FirstErr(rows) < |rows| {
      InfoRowSpec(s.amplicons.byId[s.amplicons.order[FirstErr(rows)]], mode);
    }
  }

  /** With a mode other than "full", "outer" and "inner" nothing is
      written and nothing fails. */
  lemma AmpliconInfoOtherMode(s: Scheme, mode: string)
    requires WellFormed(s.amplicons)
    requires mode != "full" && mode != "outer" && mode != "inner"
    ensures AmpliconInfo(s, mode) == Output([], None)
  {
    WellFormedListed(s.amplicons);
    var rows := InfoRows(s.amplicons, mode);
    forall k | 0 <= k < |rows| ensures rows[k] == Ok([]) {
      InfoRowSpec(s.amplicons.byId[s.amplicons.order[k]], mode);
    }
    EmitSpec(rows);
    ConcatEmpty(rows);
  }

  /** In "full" mode the report never fails; in "outer" and "inner" mode
      it finishes exactly when every amplicon has a '+' and a '-' primer. */
  lemma AmpliconInfoSucceeds(s: Scheme, mode: string)
    requires WellFormed(s.amplicons)
    requires mode == "full" || mode == "outer" || mode == "inner"
    ensures mode == "full" ==> AmpliconInfo(s, mode).failure.None?
    ensures mode == "outer" || mode == "inner" ==>
      (AmpliconInfo(s, mode).failure.None? <==>
        forall id :: id in s.amplicons.byId ==>
          HasStrand(s.amplicons.byId[id].primers, "+") && HasStrand(s.amplicons.byId[id].primers, "-"))
  {
    AmpliconInfoSpec(s, mode);
    var out := AmpliconInfo(s, mode);
    var amps := s.amplicons;
    if out.failure.Some? {
      InfoRowSpec(amps.byId[amps.order[|out.written|]], mode);
    } else if mode != "full" {
      forall id | id in amps.byId
        ensures HasStrand(amps.byId[id].primers, "+") && HasStrand(amps.byId[id].primers, "-")
      {
        var k :| 0 <= k < |amps.order| && amps.order[k] == id;
        InfoRowSpec(amps.byId[id], mode);
      }
    }
  }

  lemma {:induction false} ConcatEmpty(rows: seq<Result<seq<string>>>)
    requires forall k :: 0 <= k < |rows| ==> rows[k] == Ok([])
    ensures FirstErr(rows) == |rows| && Concat(rows[..|rows|]) == []
    decreases |rows|
  {
    assert rows[..|rows|] == rows;
    if rows != [] {
      ConcatEmpty(rows[..|rows| - 1]);
      assert rows[..|rows| - 1][..|rows| - 1] == rows[..|rows| - 1];
    }
  }

  predicate NoWhitespace(s: string)
  {
    forall i :: 0 <= i < |s| ==> s[i] !in Whitespace
  }

  /** A "full" line is read back by from_primers_and_amplicons as the
      primer names of its amplicon, when the names are non-empty, hold no
      whitespace, and the first does not start with '#'. */
  lemma FullRowReadsBack(a: Amplicon)
    requires a.primers != []
    requires forall k :: 0 <= k < |a.primers| ==> a.primers[k].name != [] && NoWhitespace(a.primers[k].name)
    requires a.primers[0].name[0] != '#'
    ensures InfoLine(Join(Names(a.primers), '\t') + "\n") == Some(Names(a.primers))
  {
    var names := Names(a.primers);
    var body := Join(names, '\t');
    JoinEnds(names, '\t');
    assert '\n' in Whitespace && '\t' in Whitespace;
    assert body[0] == names[0][0] && body[0] !in Whitespace;
    assert body[|body| - 1] !in Whitespace by {
      var last := names[|names| - 1];
      assert body[|body| - 1] == last[|last| - 1];
      assert NoWhitespace(a.primers[|names| - 1].name);
    }
    StripOneTrailing(body, '\n', Whitespace);
    forall k | 0 <= k < |names| ensures '\t' !in names[k] {
      assert NoWhitespace(a.primers[k].name);
    }
    SplitOfJoin(names, '\t');
  }

  // ---------------------------------------------------------------------
  // write_insert_bed

  /** f'{self.name}_INSERT_{amplicon_id}' if self.name, else
      f'INSERT_{amplicon_id}'. */
  function InsertName(name: Option<string>, id: int): string
  {
    if name.Some? && name.value != "" then name.value + "_INSERT_" + ShowInt(id)
    else "INSERT_" + ShowInt(id)
  }

  /** What write_insert_bed writes for one amplicon: the stretch between
      the inner primers, from the end of the inner forward primer to the
      start of the inner reverse primer. */
  function InsertRow(id: int, a: Amplicon, name: Option<string>): Result<seq<string>>
  {
    var ps := a.primers;
    var first := InnerForward(ps);
    var last := InnerReverse(ps);
    if first.None? || last.None? then Err(EmptySelection)
    else Ok([BedLine(a.ref, ps[first.value].end, ps[last.value].start, InsertName(name, id), a.pool, "+")])
  }

  function InsertRows(amps: Amplicons, ids: seq<int>, name: Option<string>): (rows: seq<Result<seq<string>>>)
    requires Listed(amps.byId, ids)
    ensures |rows| == |ids|
    ensures forall k :: 0 <= k < |ids| ==> rows[k] == InsertRow(ids[k], amps.byId[ids[k]], name)
  {
    seq(|ids|, k requires 0 <= k < |ids| => InsertRow(ids[k], amps.byId[ids[k]], name))
  }

  /** What write_insert_bed writes: amplicons by ascending id. */
  function InsertBed(s: Scheme): Output
    requires WellFormed(s.amplicons)
  {
    var ids := SortIds(s.amplicons.order);
    SortedIdsListed(s.amplicons);
    Emit(InsertRows(s.amplicons, ids, s.name))
  }

  lemma SortedIdsListed(amps: Amplicons)
    requires WellFormed(amps)
    ensures Listed(amps.byId, SortIds(amps.order))
  {
    var ids := SortIds(amps.order);
    forall k | 0 <= k < |ids| ensures ids[k] in amps.byId {
      assert ids[k] in multiset(ids);
      assert ids[k] in amps.order;
    }
  }

  /** Scheme.write_insert_bed */
  method WriteInsertBed(s: Scheme) returns (out: Output)
    requires WellFormed(s.amplicons)
    ensures out == InsertBed(s)
  {
    var ids := SortIds(s.amplicons.order);
    SortedIdsListed(s.amplicons);
    ghost var rows := InsertRows(s.amplicons, ids, s.name);
    var written: seq<string> := [];
    var k := 0;
    while k < |ids|
      invariant 0 <= k <= |ids|
      invariant Emit(rows[..k]) == Output(written, None)
    {
      var row := InsertBedRow(ids[k], s.amplicons.byId[ids[k]], s.name);
      if row.Err? {
        EmitErr(rows, k, written, row.error);
        return Output(written, Some(row.error));
      }
      EmitOk(rows, k, written, row.value);
      written := written + row.value;
      k := k + 1;
    }
    assert rows[..k] == rows;
    out := Output(written, None);
  }

  /** The body of the loop of write_insert_bed for one amplicon: its line,
      or the ValueError of max() or min(). */
  method InsertBedRow(id: int, amplicon: Amplicon, name: Option<string>) returns (row: Result<seq<string>>)
    ensures row == InsertRow(id, amplicon, name)
  {
    var ps := amplicon.primers;
    var first := InnerForward(ps);
    if first.None? {
      return Err(EmptySelection);
    }
    var last := InnerReverse(ps);
    if last.None? {
      return Err(EmptySelection);
    }
    var insertStart := ps[first.value].end;
    var insertEnd := ps[last.value].start;
    var insertName := InsertName(name, id);
    return Ok([BedLine(amplicon.ref, insertStart, insertEnd, insertName, amplicon.pool, "+")]);
  }

  /** An amplicon's insert row fails exactly when it lacks a '+' or a '-'
      primer, and is otherwise one line. */
  lemma InsertRowSpec(id: int, a: Amplicon, name: Option<string>)
    ensures InsertRow(id, a, name).Err? <==> !HasStrand(a.primers, "+") || !HasStrand(a.primers, "-")
    ensures InsertRow(id, a, name).Err? ==> InsertRow(id, a, name).error == EmptySelection
    ensures InsertRow(id, a, name).Ok? ==> |InsertRow(id, a, name).value| == 1
  {
  }

  /** The insert BED has one line per amplicon, ids ascending, up to the
      first amplicon without a '+' or '-' primer, where it fails with
      EmptySelection. */
  lemma InsertBedSpec(s: Scheme)
    requires WellFormed(s.amplicons)
    ensures var out := InsertBed(s);
      var ids := SortIds(s.amplicons.order);
      && Ascending(ids) && multiset(ids) == multiset(s.amplicons.order)
      && |out.written| <= |ids|
      && (forall k :: 0 <= k < |out.written| ==>
            ids[k] in s.amplicons.byId && InsertRow(ids[k], s.amplicons.byId[ids[k]], s.name) == Ok([out.written[k]]))
      && (out.failure.None? ==> |out.written| == |ids|)
      && (out.failure.Some? ==>
            && out.failure == Some(EmptySelection)
            && |out.written| < |ids| && ids[|out.written|] in s.amplicons.byId
            && InsertRow(ids[|out.written|], s.amplicons.byId[ids[|out.written|]], s.name).Err?)
  {
    var ids := SortIds(s.amplicons.order);
    SortIdsSpec(s.amplicons.order);
    SortedIdsListed(s.amplicons);
    var rows := InsertRows(s.amplicons, ids, s.name);
    forall k | 0 <= k < FirstErr(rows) ensures |rows[k].value| == 1 {
      InsertRowSpec(ids[k], s.amplicons.byId[ids[k]], s.name);
    }
    EmitSingles(rows);
    if FirstErr(rows) < |rows| {
      InsertRowSpec(ids[FirstErr(rows)], s.amplicons.byId[ids[FirstErr(rows)]], s.name);
    }
  }

  /** write_insert_bed finishes exactly when every amplicon has a '+' and a
      '-' primer. */
  lemma InsertBedSucceeds(s: Scheme)
    requires WellFormed(s.amplicons)
    ensures InsertBed(s).failure.None? <==>
      forall id :: id in s.amplicons.byId ==>
        HasStrand(s.amplicons.byId[id].primers, "+") && HasStrand(s.amplicons.byId[id].primers, "-")
  {
    var ids := SortIds(s.amplicons.order);
    InsertBedSpec(s);
    SortIdsSpec(s.amplicons.order);
    var out := InsertBed(s);
    if out.failure.Some? {
      InsertRowSpec(ids[|out.written|], s.amplicons.byId[ids[|out.written|]], s.name);
    } else {
      forall id | id in s.amplicons.byId
        ensures HasStrand(s.amplicons.byId[id].primers, "+") && HasStrand(s.amplicons.byId[id].primers, "-")
      {
        assert id in s.amplicons.order;
        assert id in multiset(ids);
        var k :| 0 <= k < |ids| && ids[k] == id;
        InsertRowSpec(id, s.amplicons.byId[id], s.name);
      }
    }
  }

  /** An insert line reads back as a '+' record from the end of the inner
      forward primer to the start of the inner reverse primer, named after
      the scheme and the id, in the amplicon's pool. */
  lemma InsertRowReadsBack(id: int, a: Amplicon, name: Option<string>)
    requires InsertRow(id, a, name).Ok?
    requires PlainField(a.ref) && PlainField(a.pool) && (a.ref == [] || a.ref[0] != '#')
    requires name.Some? ==> PlainField(name.value)
    ensures var ps := a.primers;
      ReadLine(InsertRow(id, a, name).value[0]) ==
        Parsed(Record(Primer(ps[InnerForward(ps).value].end, ps[InnerReverse(ps).value].start,
                             InsertName(name, id), "+"), a.ref, a.pool))
  {
    var ps := a.primers;
    ShowIntPlain(id);
    var n := InsertName(name, id);
    assert PlainField(n);
    BedLineReadsBack(a.ref, ps[InnerForward(ps).value].end, ps[InnerReverse(ps).value].start, n, a.pool, "+");
  }
}
