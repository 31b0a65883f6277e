/** A worked example: a BED file of one forward and one reverse primer
    named "scheme_1_LEFT" and "scheme_1_RIGHT" is grouped into amplicon 1
    of a scheme named "scheme", and its insert BED is the stretch between
    the two primers (viramp_hub/scheme.py:9-38, 136-154). */
module WorkedExample {
  import opened Outcomes
  import opened Text
  import opened BedRecords
  import opened AmpliconNames
  import opened Grouping
  import opened SchemeBuilders
  import opened Geometry
  import opened Sorting
  import opened Writers

  const Left: Primer := Primer(100, 120, "scheme_1_LEFT", "+")
  const Right: Primer := Primer(200, 220, "scheme_1_RIGHT", "-")

  /** The two lines of the BED file, column by column. */
  const PrimerBed: seq<string> := [
    "ref1" + "\t" + "100" + "\t" + "120" + "\t" + "scheme_1_LEFT" + "\t" + "pool1" + "\t" + "+" + "\n",
    "ref1" + "\t" + "200" + "\t" + "220" + "\t" + "scheme_1_RIGHT" + "\t" + "pool1" + "\t" + "-" + "\n"]

  /** The one line of the insert BED. */
  const InsertLine: string :=
    "ref1" + "\t" + "120" + "\t" + "200" + "\t" + ("scheme" + "_INSERT_" + "1") + "\t" + "pool1" + "\t" + "+" + "\n"

  const Expected: Scheme :=
    Scheme(Amplicons(map[1 := Amplicon([Left, Right], "ref1", "pool1")], [1]), Some("scheme"))

  lemma LeftName()
    ensures ParseAmpliconName("scheme_1_LEFT") == Some(AmpliconName("scheme", 1))
  {
    var a := "scheme_1_LEFT";
    assert RoleMarkerAt(a, 8) && NoNewlineBefore(a, 8);
    assert DigitRunEnd(a, 7) == 8;
    forall k | 7 <= k < |a| - 1 && a[k] == '_' ensures !IsDigit(a[k + 1]) {
      assert 7 <= k <= 11;
      assert k == 7 || k == 8 || k == 9 || k == 10 || k == 11;
    }
    PrefixEndAt(a, 7);
    assert a[7..8] == "1" && a[..6] == "scheme";
    assert "1"[..0] == "";
  }

  lemma RightName()
    ensures ParseAmpliconName("scheme_1_RIGHT") == Some(AmpliconName("scheme", 1))
  {
    var a := "scheme_1_RIGHT";
    assert RoleMarkerAt(a, 8) && NoNewlineBefore(a, 8);
    assert DigitRunEnd(a, 7) == 8;
    forall k | 7 <= k < |a| - 1 && a[k] == '_' ensures !IsDigit(a[k + 1]) {
      assert 7 <= k <= 12;
      assert k == 7 || k == 8 || k == 9 || k == 10 || k == 11 || k == 12;
    }
    PrefixEndAt(a, 7);
    assert a[7..8] == "1" && a[..6] == "scheme";
    assert "1"[..0] == "";
  }

  lemma ShowSmall()
    ensures ShowInt(100) == "100" && ShowInt(120) == "120"
    ensures ShowInt(200) == "200" && ShowInt(220) == "220" && ShowInt(1) == "1"
  {
  }

  /** Six columns joined by tabs, spelled out. */
  lemma JoinSix(a: string, b: string, c: string, d: string, e: string, f: string)
    ensures Join([a, b, c, d, e, f], '\t') == a + "\t" + b + "\t" + c + "\t" + d + "\t" + e + "\t" + f
  {
    var parts := [a, b, c, d, e, f];
    assert Join(parts[5..], '\t') == f;
    assert Join(parts[4..], '\t') == e + "\t" + f;
    assert Join(parts[3..], '\t') == d + "\t" + e + "\t" + f;
    assert Join(parts[2..], '\t') == c + "\t" + d + "\t" + e + "\t" + f;
    assert Join(parts[1..], '\t') == b + "\t" + c + "\t" + d + "\t" + e + "\t" + f;
  }

  /** A BED line spelled out column by column. */
  lemma BedLineSpelled(ref: string, start: int, end: int, name: string, col5: string, strand: string)
    ensures BedLine(ref, start, end, name, col5, strand) ==
      ref + "\t" + ShowInt(start) + "\t" + ShowInt(end) + "\t" + name + "\t" + col5 + "\t" + strand + "\n"
  {
    JoinSix(ref, ShowInt(start), ShowInt(end), name, col5, strand);
  }

  lemma FirstLine()
    ensures PrimerBed[0] == BedLine("ref1", 100, 120, "scheme_1_LEFT", "pool1", "+")
  {
    ShowSmall();
    BedLineSpelled("ref1", 100, 120, "scheme_1_LEFT", "pool1", "+");
  }

  lemma SecondLine()
    ensures PrimerBed[1] == BedLine("ref1", 200, 220, "scheme_1_RIGHT", "pool1", "-")
  {
    ShowSmall();
    BedLineSpelled("ref1", 200, 220, "scheme_1_RIGHT", "pool1", "-");
  }

  /** The text columns of the example hold no tab and no newline. */
  lemma PlainColumns()
    ensures PlainField("ref1") && PlainField("pool1") && PlainField("+") && PlainField("-")
  {
  }

  lemma PlainNames()
    ensures PlainField("scheme_1_LEFT") && PlainField("scheme_1_RIGHT")
  {
    var a := "scheme_1_RIGHT";
    forall k | 0 <= k < |a| ensures a[k] != '\t' && a[k] != '\n' {
      assert k < 7 || k == 7 || k == 8 || k > 8;
    }
    assert "scheme_1_LEFT" == a[..9] + "LEFT";
  }

  lemma FirstLineRead()
    ensures ReadLine(PrimerBed[0]) == Parsed(Record(Left, "ref1", "pool1"))
  {
    PlainColumns();
    PlainNames();
    BedLineReadsBack("ref1", 100, 120, "scheme_1_LEFT", "pool1", "+");
    FirstLine();
  }

  lemma SecondLineRead()
    ensures ReadLine(PrimerBed[1]) == Parsed(Record(Right, "ref1", "pool1"))
  {
    PlainColumns();
    PlainNames();
    BedLineReadsBack("ref1", 200, 220, "scheme_1_RIGHT", "pool1", "-");
    SecondLine();
  }

  /** Two records whose names give one number and one non-empty prefix,
      with the same reference and pool, make one amplicon holding both in
      file order, and the scheme is named after the prefix. */
  lemma TwoRecordsGrouped(rs: seq<LineResult>, l: Record, r: Record, prefix: string, id: nat)
    requires |rs| == 2 && rs[0] == Parsed(l) && rs[1] == Parsed(r)
    requires ParseAmpliconName(l.primer.name) == Some(AmpliconName(prefix, id))
    requires ParseAmpliconName(r.primer.name) == Some(AmpliconName(prefix, id))
    requires l.ref == r.ref && l.pool == r.pool && prefix != ""
    ensures InferredFromRecords(rs) ==
      Ok(Scheme(Amplicons(map[id := Amplicon([l.primer, r.primer], l.ref, l.pool)], [id]), Some(prefix)))
  {
    assert rs[..0] == [] && rs[..2] == rs;
    GroupRecordsSnoc(FromName, rs, 0);
    GroupRecordsSnoc(FromName, rs, 1);
    var one := Amplicons(map[id := Amplicon([l.primer], l.ref, l.pool)], [id]);
    var empty := Amplicons(map[], []);
    assert id !in empty.byId;
    assert empty.byId[id := Amplicon([l.primer], l.ref, l.pool)] == one.byId;
    assert empty.order + [id] == one.order;
    assert AddPrimer(empty, id, l) == Ok(one);
    assert GroupRecords(FromName, rs[..1]) == Ok(one);
    var both := Amplicon([l.primer, r.primer], l.ref, l.pool);
    assert [l.primer] + [r.primer] == both.primers;
    assert one.byId[id := one.byId[id].(primers := one.byId[id].primers + [r.primer])] == map[id := both];
    assert GroupRecords(FromName, rs) == Ok(Amplicons(map[id := both], [id]));
    NamePrefixesSnoc(rs, 0);
    NamePrefixesSnoc(rs, 1);
    assert NamePrefixes(rs[..1]) == [prefix];
    assert NamePrefixes(rs) == [prefix, prefix];
    InferredNameRule([prefix, prefix]);
  }

  /** infer_from_primer_scheme groups both primers into amplicon 1, in
      file order, and names the scheme after their common prefix. */
  lemma InferredExample()
    ensures InferredScheme(PrimerBed) == Ok(Expected)
  {
    FirstLineRead();
    SecondLineRead();
    LeftName();
    RightName();
    var l := Record(Left, "ref1", "pool1");
    var r := Record(Right, "ref1", "pool1");
    var rs := ReadLines(PrimerBed);
    ReadLinesAt(PrimerBed, 0);
    ReadLinesAt(PrimerBed, 1);
    TwoRecordsGrouped(rs, l, r, "scheme", 1);
  }

  /** The insert of an amplicon of one forward and one reverse primer runs
      from the end of the forward primer to the start of the reverse one. */
  lemma PairInsert(f: Primer, r: Primer, ref: string, pool: string, name: Option<string>, id: int)
    requires f.strand == "+" && r.strand == "-"
    ensures InsertBed(Scheme(Amplicons(map[id := Amplicon([f, r], ref, pool)], [id]), name)) ==
      Output([BedLine(ref, f.end, r.start, InsertName(name, id), pool, "+")], None)
  {
    var ps := [f, r];
    assert ps[..1] == [f] && [f][..0] == [] && ps[..0] == [];
    assert Select([f], "+", Start, Greatest) == Some(0);
    assert InnerForward(ps) == Some(0);
    assert Select([f], "-", End, Least) == None;
    assert InnerReverse(ps) == Some(1);
    assert SortIds([id]) == [id];
    var amps := Amplicons(map[id := Amplicon([f, r], ref, pool)], [id]);
    var rows := InsertRows(amps, [id], name);
    assert rows == [Ok([BedLine(ref, f.end, r.start, InsertName(name, id), pool, "+")])];
    assert rows[..0] == [];
    assert Emit(rows[..0]) == Output([], None);
    assert Emit(rows) == EmitStep(Emit(rows[..0]), rows[0]);
    assert Emit(rows) == Output([BedLine(ref, f.end, r.start, InsertName(name, id), pool, "+")], None);
    assert InsertBed(Scheme(amps, name)) == Emit(rows);
  }

  lemma InsertLineSpelled()
    ensures BedLine("ref1", 120, 200, InsertName(Some("scheme"), 1), "pool1", "+") == InsertLine
  {
    ShowSmall();
    BedLineSpelled("ref1", 120, 200, InsertName(Some("scheme"), 1), "pool1", "+");
  }

  /** Its insert BED is the one line from the end of the left primer to
      the start of the right one, named after the scheme. */
  lemma InsertBedExample()
    ensures WellFormed(Expected.amplicons)
    ensures InsertBed(Expected) == Output([InsertLine], None)
  {
    PairInsert(Left, Right, "ref1", "pool1", Some("scheme"), 1);
    InsertLineSpelled();
  }
}
