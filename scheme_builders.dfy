/** The two ways a Scheme is built (viramp_hub/scheme.py:8-73), as the
    loops the source runs, each proved to compute its specification from
    Grouping. */
module SchemeBuilders {
  import opened Outcomes
  import opened Text
  import opened BedRecords
  import opened AmpliconNames
  import opened Grouping

  // ---------------------------------------------------------------------
  // infer_from_primer_scheme

  /** The prefix a matching name contributes to `prefixes_seen`. */
  function NamePrefix(name: string): string
  {
    match ParseAmpliconName(name)
    case None => ""
    case Some(m) => m.prefix
  }

  /** The prefixes of the primers of the parsed lines, in line order. */
  function NamePrefixes(rs: seq<LineResult>): seq<string>
    decreases |rs|
  {
    if rs == [] then []
    else
      NamePrefixes(rs[..|rs| - 1]) +
      (if rs[|rs| - 1].Parsed? then [NamePrefix(rs[|rs| - 1].rec.primer.name)] else [])
  }

  /** `scheme_name = prefix if len(prefixes_seen) == 1 and prefix else None`,
      where `prefix` is the last primer's prefix. */
  function SchemeName(prefixesSeen: set<string>, prefix: string): Option<string>
  {
    if |prefixesSeen| == 1 && prefix != "" then Some(prefix) else None
  }

  /** The elements of a list, as the set `prefixes_seen` collects them. */
  function SetOf(xs: seq<string>): set<string>
    decreases |xs|
  {
    if xs == [] then {} else SetOf(xs[..|xs| - 1]) + {xs[|xs| - 1]}
  }

  lemma {:induction false} SetOfSpec(xs: seq<string>)
    ensures forall x :: x in SetOf(xs) <==> x in xs
    decreases |xs|
  {
    if xs != [] {
      var front := xs[..|xs| - 1];
      SetOfSpec(front);
      assert xs == front + [xs[|xs| - 1]];
    }
  }

  /** The name inferred from the prefixes of all primers, in order. */
  function InferredName(prefixes: seq<string>): Option<string>
  {
    if prefixes == [] then None
    else SchemeName(SetOf(prefixes), prefixes[|prefixes| - 1])
  }

  /** A name is inferred exactly when there is at least one primer, all
      primers share one prefix, and that prefix is not empty. */
  lemma InferredNameRule(prefixes: seq<string>)
    ensures InferredName(prefixes).Some? <==>
      prefixes != [] && prefixes[0] != "" && forall k :: 0 <= k < |prefixes| ==> prefixes[k] == prefixes[0]
    ensures InferredName(prefixes).Some? ==> InferredName(prefixes).value == prefixes[0]
  {
    if prefixes != [] {
      SetOfSpec(prefixes);
      var seen := SetOf(prefixes);
      var last := prefixes[|prefixes| - 1];
      if forall k :: 0 <= k < |prefixes| ==> prefixes[k] == prefixes[0] {
        assert seen == {prefixes[0]};
      } else {
        var k :| 0 <= k < |prefixes| && prefixes[k] != prefixes[0];
        assert {prefixes[0], prefixes[k]} <= seen;
        assert |{prefixes[0], prefixes[k]}| == 2;
        SubsetCardinality({prefixes[0], prefixes[k]}, seen);
      }
      if |seen| == 1 {
        assert last in seen && prefixes[0] in seen;
        SingletonSet(seen, last, prefixes[0]);
      }
    }
  }

  lemma SubsetCardinality(a: set<string>, b: set<string>)
    requires a <= b
    ensures |a| <= |b|
  {
    assert b == a + (b - a);
  }

  lemma SingletonSet(s: set<string>, x: string, y: string)
    requires |s| == 1 && x in s && y in s
    ensures x == y
  {
    if x != y {
      SubsetCardinality({x, y}, s);
    }
  }

  /** What infer_from_primer_scheme returns for the line results of a BED
      file. */
  function InferredFromRecords(rs: seq<LineResult>): Result<Scheme>
  {
    match GroupRecords(FromName, rs)
    case Err(e) => Err(e)
    case Ok(amps) => Ok(Scheme(amps, InferredName(NamePrefixes(rs))))
  }

  /** What infer_from_primer_scheme returns for the lines of a BED file. */
  function InferredScheme(primerScheme: seq<string>): Result<Scheme>
  {
    InferredFromRecords(ReadLines(primerScheme))
  }

  lemma NamePrefixesSnoc(rs: seq<LineResult>, i: nat)
    requires i < |rs|
    ensures NamePrefixes(rs[..i + 1]) ==
      NamePrefixes(rs[..i]) + (if rs[i].Parsed? then [NamePrefix(rs[i].rec.primer.name)] else [])
  {
    assert rs[..i + 1][..i] == rs[..i];
  }

  /** A parsed line whose name matches adds its prefix to the list and
      to the set of prefixes seen. */
  lemma PrefixStep(rs: seq<LineResult>, i: nat, m: AmpliconName)
    requires i < |rs| && rs[i].Parsed? && ParseAmpliconName(rs[i].rec.primer.name) == Some(m)
    ensures NamePrefixes(rs[..i + 1]) == NamePrefixes(rs[..i]) + [m.prefix]
    ensures SetOf(NamePrefixes(rs[..i + 1])) == SetOf(NamePrefixes(rs[..i])) + {m.prefix}
  {
    NamePrefixesSnoc(rs, i);
    SetOfSnoc(NamePrefixes(rs[..i]), m.prefix);
  }

  /** Other lines leave the prefixes unchanged. */
  lemma NoPrefixStep(rs: seq<LineResult>, i: nat)
    requires i < |rs| && !rs[i].Parsed?
    ensures NamePrefixes(rs[..i + 1]) == NamePrefixes(rs[..i])
  {
    NamePrefixesSnoc(rs, i);
  }

  lemma SetOfSnoc(xs: seq<string>, x: string)
    ensures SetOf(xs + [x]) == SetOf(xs) + {x}
  {
    assert (xs + [x])[..|xs|] == xs;
  }

  /** Once the grouping has failed on a prefix of the lines, it fails with
      the same error on the whole file. */
  lemma {:induction false} GroupRecordsErrorPersists(src: IdSource, rs: seq<LineResult>, i: nat)
    requires i <= |rs| && GroupRecords(src, rs[..i]).Err?
    ensures GroupRecords(src, rs) == GroupRecords(src, rs[..i])
    decreases |rs| - i
  {
    if i < |rs| {
      assert rs[..i + 1][..i] == rs[..i];
      GroupRecordsErrorPersists(src, rs, i + 1);
    } else {
      assert rs[..i] == rs;
    }
  }

  /** Scheme.infer_from_primer_scheme. */
  method InferFromPrimerScheme(primerScheme: seq<string>) returns (r: Result<Scheme>)
    ensures r == InferredScheme(primerScheme)
  {
    // What read_primer_bed yields, line by line; reading a line is pure, so
    // taking the results before the loop yields the same first error.
    var rs := ReadLines(primerScheme);
    r := InferFromRecords(rs);
  }

  /** The loop of infer_from_primer_scheme: for each record its name is
      matched, its prefix collected, and it is appended to the amplicon of
      its number after the reference and pool checks. */
  method InferFromRecords(rs: seq<LineResult>) returns (r: Result<Scheme>)
    ensures r == InferredFromRecords(rs)
  {
    var amplicons: map<int, Amplicon> := map[];
    var order: seq<int> := [];
    var prefixesSeen: set<string> := {};
    var prefix := "";
    ghost var prefixes: seq<string> := [];
    var i := 0;
    while i < |rs|
      invariant 0 <= i <= |rs|
      invariant GroupRecords(FromName, rs[..i]) == Ok(Amplicons(amplicons, order))
      invariant prefixes == NamePrefixes(rs[..i])
      invariant prefixesSeen == SetOf(prefixes)
      invariant prefixes != [] ==> prefix == prefixes[|prefixes| - 1]
    {
      match rs[i] {
      case Skipped =>
        GroupRecordsSnoc(FromName, rs, i);
        NoPrefixStep(rs, i);
      case Malformed(e) =>
        GroupRecordsSnoc(FromName, rs, i);
        GroupRecordsErrorPersists(FromName, rs, i + 1);
        return Err(e);
      case Parsed(rec) =>
        var name := rec.primer.name;
        var m := ParseAmpliconName(name);
        if m.None? {
          GroupRecordsSnoc(FromName, rs, i);
          GroupRecordsErrorPersists(FromName, rs, i + 1);
          return Err(UnrecognizedName(name));
        }
        PrefixStep(rs, i, m.value);
        SetOfSnoc(prefixes, m.value.prefix);
        prefix := m.value.prefix;
        prefixesSeen := prefixesSeen + {prefix};
        prefixes := prefixes + [prefix];
        var id := m.value.num;
        GroupRecordsAdd(FromName, rs, i, Amplicons(amplicons, order), id);
        var added := AddToAmplicons(amplicons, order, id, rec);
        if added.Err? {
          GroupRecordsErrorPersists(FromName, rs, i + 1);
          return Err(added.error);
        }
        amplicons, order := added.value.byId, added.value.order;
      }
      i := i + 1;
    }
    assert rs[..i] == rs;
    var schemeName := SchemeName(prefixesSeen, prefix);
    r := Ok(Scheme(Amplicons(amplicons, order), schemeName));
  }

  /** The dict update both builders make for one primer
      (viramp_hub/scheme.py:23-31 and 61-69): append to the amplicon of the
      id after checking its reference, then its pool, or start a new
      amplicon at the end of the insertion order. */
  method AddToAmplicons(amplicons: map<int, Amplicon>, order: seq<int>, id: int, rec: Record)
    returns (r: Result<Amplicons>)
    ensures r == AddPrimer(Amplicons(amplicons, order), id, rec)
  {
    if id in amplicons {
      var amplicon := amplicons[id];
      if amplicon.ref != rec.ref {
        return Err(RefMismatch);
      }
      if amplicon.pool != rec.pool {
        return Err(PoolMismatch);
      }
      return Ok(Amplicons(amplicons[id := amplicon.(primers := amplicon.primers + [rec.primer])], order));
    }
    return Ok(Amplicons(amplicons[id := Amplicon([rec.primer], rec.ref, rec.pool)], order + [id]));
  }

  // ---------------------------------------------------------------------
  // from_primers_and_amplicons

  /** One line of the amplicon info file after `line.strip()`: None when
      it is empty or starts with '#', else its tab-separated primer names. */
  function InfoLine(line: string): Option<seq<string>>
  {
    var stripped := Strip(line, Whitespace);
    if stripped == [] || stripped[0] == '#' then None else Some(Split(stripped, '\t'))
  }

  function InfoLines(ampliconInfo: seq<string>): (ls: seq<Option<seq<string>>>)
    ensures |ls| == |ampliconInfo|
    ensures forall k :: 0 <= k < |ampliconInfo| ==> ls[k] == InfoLine(ampliconInfo[k])
  {
    seq(|ampliconInfo|, k requires 0 <= k < |ampliconInfo| => InfoLine(ampliconInfo[k]))
  }

  /** The name lists of the lines that count, in file order: entry k
      defines amplicon k + 1. */
  function EntriesOf(ls: seq<Option<seq<string>>>): seq<seq<string>>
    decreases |ls|
  {
    if ls == [] then []
    else
      EntriesOf(ls[..|ls| - 1]) +
      (match ls[|ls| - 1] case None => [] case Some(names) => [names])
  }

  /** The inner loop: each name of one line assigned the line's id. */
  function AssignAll(m: map<string, int>, names: seq<string>, id: int): map<string, int>
    decreases |names|
  {
    if names == [] then m else AssignAll(m, names[..|names| - 1], id)[names[|names| - 1] := id]
  }

  /** The name→id table after the lines ls. */
  function MappingOf(ls: seq<Option<seq<string>>>): map<string, int>
    decreases |ls|
  {
    if ls == [] then map[]
    else
      var front := ls[..|ls| - 1];
      match ls[|ls| - 1]
      case None => MappingOf(front)
      case Some(names) => AssignAll(MappingOf(front), names, |EntriesOf(front)| + 1)
  }

  function InfoEntries(ampliconInfo: seq<string>): seq<seq<string>>
  {
    EntriesOf(InfoLines(ampliconInfo))
  }

  /** `primer_amplicon_mapping` after reading the amplicon info lines. */
  function PrimerAmpliconMapping(ampliconInfo: seq<string>): map<string, int>
  {
    MappingOf(InfoLines(ampliconInfo))
  }

  /** Assigning one id to a list of names keeps the other keys and gives
      every listed name that id. */
  lemma {:induction false} AssignAllSpec(m: map<string, int>, names: seq<string>, id: int)
    ensures forall n :: n in AssignAll(m, names, id) <==> n in m || n in names
    ensures forall n :: n in names ==> AssignAll(m, names, id)[n] == id
    ensures forall n :: n in m && n !in names ==> AssignAll(m, names, id)[n] == m[n]
    decreases |names|
  {
    if names != [] {
      var front := names[..|names| - 1];
      AssignAllSpec(m, front, id);
      assert names == front + [names[|names| - 1]];
    }
  }

  /** A name is mapped exactly when some counted line lists it. */
  lemma {:induction false} MappingOfDomain(ls: seq<Option<seq<string>>>)
    ensures forall name :: name in MappingOf(ls) <==>
      exists k :: 0 <= k < |EntriesOf(ls)| && name in EntriesOf(ls)[k]
    decreases |ls|
  {
    if ls != [] {
      var front := ls[..|ls| - 1];
      MappingOfDomain(front);
      var entries := EntriesOf(ls);
      var entries0 := EntriesOf(front);
      assert forall k :: 0 <= k < |entries0| ==> entries[k] == entries0[k];
      match ls[|ls| - 1]
      case None =>
      case Some(names) =>
        AssignAllSpec(MappingOf(front), names, |entries0| + 1);
        assert entries[|entries0|] == names;
    }
  }

  /** A mapped name is mapped to the number of the last counted line that
      lists it. */
  lemma {:induction false} MappingOfLastLineWins(ls: seq<Option<seq<string>>>)
    ensures forall name :: name in MappingOf(ls) ==>
      var id := MappingOf(ls)[name];
      && 1 <= id <= |EntriesOf(ls)|
      && name in EntriesOf(ls)[id - 1]
      && forall k :: id <= k < |EntriesOf(ls)| ==> name !in EntriesOf(ls)[k]
    decreases |ls|
  {
    if ls != [] {
      var front := ls[..|ls| - 1];
      MappingOfLastLineWins(front);
      var entries := EntriesOf(ls);
      var entries0 := EntriesOf(front);
      assert forall k :: 0 <= k < |entries0| ==> entries[k] == entries0[k];
      match ls[|ls| - 1]
      case None =>
      case Some(names) =>
        AssignAllSpec(MappingOf(front), names, |entries0| + 1);
        assert entries[|entries0|] == names;
    }
  }

  /** The first loop of from_primers_and_amplicons. */
  method BuildPrimerAmpliconMapping(ampliconInfo: seq<string>) returns (mapping: map<string, int>)
    ensures mapping == PrimerAmpliconMapping(ampliconInfo)
  {
    ghost var ls := InfoLines(ampliconInfo);
    mapping := map[];
    var ampliconId := 1;
    for i := 0 to |ampliconInfo|
      invariant mapping == MappingOf(ls[..i])
      invariant ampliconId == |EntriesOf(ls[..i])| + 1
    {
      var line := Strip(ampliconInfo[i], Whitespace);
      if line == [] || line[0] == '#' {
        MappingSkip(ls, i);
        continue;
      }
      var names := Split(line, '\t');
      MappingAdd(ls, i, names);
      for j := 0 to |names|
        invariant mapping == AssignAll(MappingOf(ls[..i]), names[..j], ampliconId)
      {
        AssignAllSnoc(MappingOf(ls[..i]), names, j, ampliconId);
        mapping := mapping[names[j] := ampliconId];
      }
      assert names[..|names|] == names;
      ampliconId := ampliconId + 1;
    }
    assert ls[..|ampliconInfo|] == ls;
  }

  lemma MappingSkip(ls: seq<Option<seq<string>>>, i: nat)
    requires i < |ls| && ls[i].None?
    ensures MappingOf(ls[..i + 1]) == MappingOf(ls[..i])
    ensures |EntriesOf(ls[..i + 1])| == |EntriesOf(ls[..i])|
  {
    assert ls[..i + 1][..i] == ls[..i];
  }

  lemma MappingAdd(ls: seq<Option<seq<string>>>, i: nat, names: seq<string>)
    requires i < |ls| && ls[i] == Some(names)
    ensures MappingOf(ls[..i + 1]) == AssignAll(MappingOf(ls[..i]), names, |EntriesOf(ls[..i])| + 1)
    ensures |EntriesOf(ls[..i + 1])| == |EntriesOf(ls[..i])| + 1
  {
    assert ls[..i + 1][..i] == ls[..i];
  }

  lemma AssignAllSnoc(m: map<string, int>, names: seq<string>, j: nat, id: int)
    requires j < |names|
    ensures AssignAll(m, names[..j + 1], id) == AssignAll(m, names[..j], id)[names[j] := id]
  {
    assert names[..j + 1][..j] == names[..j];
  }

  /** What from_primers_and_amplicons returns. */
  function MappedScheme(primerScheme: seq<string>, ampliconInfo: seq<string>, schemeName: Option<string>): Result<Scheme>
  {
    match GroupRecords(FromTable(PrimerAmpliconMapping(ampliconInfo)), ReadLines(primerScheme))
    case Err(e) => Err(e)
    case Ok(amps) => Ok(Scheme(amps, schemeName))
  }

  /** Scheme.from_primers_and_amplicons: the name→id table is read first,
      then the records are grouped by it. The scheme name is the caller's. */
  method FromPrimersAndAmplicons(primerScheme: seq<string>, ampliconInfo: seq<string>, schemeName: Option<string>)
    returns (r: Result<Scheme>)
    ensures r == MappedScheme(primerScheme, ampliconInfo, schemeName)
    ensures r.Ok? ==> r.value.name == schemeName
  {
    var primerAmpliconMapping := BuildPrimerAmpliconMapping(ampliconInfo);
    // What read_primer_bed yields, as in InferFromPrimerScheme.
    var rs := ReadLines(primerScheme);
    var amplicons := GroupMappedRecords(primerAmpliconMapping, rs);
    r := match amplicons
      case Err(e) => Err(e)
      case Ok(amps) => Ok(Scheme(amps, schemeName));
  }

  /** The second loop of from_primers_and_amplicons: each record is looked
      up in the table and appended to the amplicon of that id after the
      reference and pool checks. */
  method GroupMappedRecords(primerAmpliconMapping: map<string, int>, rs: seq<LineResult>)
    returns (r: Result<Amplicons>)
    ensures r == GroupRecords(FromTable(primerAmpliconMapping), rs)
  {
    ghost var src := FromTable(primerAmpliconMapping);
    var amplicons: map<int, Amplicon> := map[];
    var order: seq<int> := [];
    var i := 0;
    while i < |rs|
      invariant 0 <= i <= |rs|
      invariant GroupRecords(src, rs[..i]) == Ok(Amplicons(amplicons, order))
    {
      GroupRecordsSnoc(src, rs, i);
      match rs[i] {
      case Skipped =>
      case Malformed(e) =>
        GroupRecordsErrorPersists(src, rs, i + 1);
        return Err(e);
      case Parsed(rec) =>
        var name := rec.primer.name;
        if name !in primerAmpliconMapping {
          GroupRecordsErrorPersists(src, rs, i + 1);
          return Err(UnmappedPrimer(name));
        }
        var mappedId := primerAmpliconMapping[name];
        var added := AddToAmplicons(amplicons, order, mappedId, rec);
        if added.Err? {
          GroupRecordsErrorPersists(src, rs, i + 1);
          return Err(added.error);
        }
        amplicons, order := added.value.byId, added.value.order;
      }
      i := i + 1;
    }
    assert rs[..i] == rs;
    r := Ok(Amplicons(amplicons, order));
  }
}
