/** The amplicon grouping shared by Scheme.infer_from_primer_scheme
    (viramp_hub/scheme.py:9-38) and Scheme.from_primers_and_amplicons
    (viramp_hub/scheme.py:41-73), stated as a fold over the lines of the
    BED file. The two methods in SchemeBuilders are proved to compute it. */
module Grouping {
  import opened Outcomes
  import opened Text
  import opened BedRecords
  import opened AmpliconNames

  /** The value the `amplicons` dict holds per id: ([primer_dat, ...], ref_id, pool_id). */
  datatype Amplicon = Amplicon(primers: seq<Primer>, ref: string, pool: string)

  /** The `amplicons` dict: the entries by id, and the ids in the order in
      which they were first inserted (the order Python iterates in). */
  datatype Amplicons = Amplicons(byId: map<int, Amplicon>, order: seq<int>)

  /** The order lists every key once and nothing else. */
  ghost predicate WellFormed(amps: Amplicons)
  {
    && (forall a, b :: 0 <= a < b < |amps.order| ==> amps.order[a] != amps.order[b])
    && (forall id :: id in amps.byId <==> id in amps.order)
  }

  /** A Scheme object: its `amplicons` dict and its `name`. */
  datatype Scheme = Scheme(amplicons: Amplicons, name: Option<string>)

  /** Where a primer's amplicon id comes from: the amplicon pattern applied
      to its name, or the name→id table read from an amplicon info file. */
  datatype IdSource = FromName | FromTable(table: map<string, int>)

  /** The id of a primer, or the error naming it. */
  function AmpliconId(src: IdSource, name: string): (r: Result<int>)
    ensures src.FromName? ==>
      (r.Err? <==> ParseAmpliconName(name).None?) &&
      (r.Ok? ==> r.value == ParseAmpliconName(name).value.num) &&
      (r.Err? ==> r.error == UnrecognizedName(name))
    ensures src.FromTable? ==>
      (r.Ok? <==> name in src.table) &&
      (r.Ok? ==> r.value == src.table[name]) &&
      (r.Err? ==> r.error == UnmappedPrimer(name))
  {
    match src
    case FromName =>
      (match ParseAmpliconName(name)
       case None => Err(UnrecognizedName(name))
       case Some(m) => Ok(m.num))
    case FromTable(t) =>
      if name in t then Ok(t[name]) else Err(UnmappedPrimer(name))
  }

  /** One primer into the dict: appended to the amplicon of its id after the
      reference, then the pool, are checked against that amplicon's, or
      starting a new amplicon at the end of the insertion order. */
  function AddPrimer(amps: Amplicons, id: int, rec: Record): (r: Result<Amplicons>)
    ensures r.Ok? <==>
      (id in amps.byId ==> amps.byId[id].ref == rec.ref && amps.byId[id].pool == rec.pool)
    ensures r.Err? ==>
      r.error == (if amps.byId[id].ref != rec.ref then RefMismatch else PoolMismatch)
  {
    if id in amps.byId then
      var a := amps.byId[id];
      if a.ref != rec.ref then Err(RefMismatch)
      else if a.pool != rec.pool then Err(PoolMismatch)
      else Ok(Amplicons(amps.byId[id := a.(primers := a.primers + [rec.primer])], amps.order))
    else
      Ok(Amplicons(amps.byId[id := Amplicon([rec.primer], rec.ref, rec.pool)], amps.order + [id]))
  }

  /** The grouping loop over the line results of a BED file: the first
      error in line order (malformed line, name without id, reference or
      pool mismatch) or the filled dict. */
  function GroupRecords(src: IdSource, rs: seq<LineResult>): Result<Amplicons>
    decreases |rs|
  {
    if rs == [] then Ok(Amplicons(map[], []))
    else GroupStep(src, GroupRecords(src, rs[..|rs| - 1]), rs[|rs| - 1])
  }

  /** One line of the grouping loop applied to the dict built so far. */
  function GroupStep(src: IdSource, acc: Result<Amplicons>, lr: LineResult): Result<Amplicons>
  {
    match acc
    case Err(e) => Err(e)
    case Ok(amps) =>
      match lr
      case Skipped => Ok(amps)
      case Malformed(e) => Err(e)
      case Parsed(rec) =>
        match AmpliconId(src, rec.primer.name)
        case Err(e) => Err(e)
        case Ok(id) => AddPrimer(amps, id, rec)
  }

  lemma GroupRecordsSnoc(src: IdSource, rs: seq<LineResult>, i: nat)
    requires i < |rs|
    ensures GroupRecords(src, rs[..i + 1]) == GroupStep(src, GroupRecords(src, rs[..i]), rs[i])
  {
    assert rs[..i + 1][..i] == rs[..i];
  }

  /** A parsed line whose name yields an id is added to the dict. */
  lemma GroupRecordsAdd(src: IdSource, rs: seq<LineResult>, i: nat, amps: Amplicons, id: int)
    requires i < |rs| && rs[i].Parsed? && GroupRecords(src, rs[..i]) == Ok(amps)
    requires AmpliconId(src, rs[i].rec.primer.name) == Ok(id)
    ensures GroupRecords(src, rs[..i + 1]) == AddPrimer(amps, id, rs[i].rec)
  {
    GroupRecordsSnoc(src, rs, i);
  }

  // ---------------------------------------------------------------------
  // An independent description of the grouping, over the records paired
  // with their ids.

  datatype Keyed = Keyed(id: int, rec: Record)

  /** The records of the parsed lines with their ids, or the first error of
      a malformed line or an id lookup; no ref/pool checks. */
  function KeyRecords(src: IdSource, rs: seq<LineResult>): Result<seq<Keyed>>
    decreases |rs|
  {
    if rs == [] then Ok([])
    else
      match KeyRecords(src, rs[..|rs| - 1])
      case Err(e) => Err(e)
      case Ok(ks) =>
        match rs[|rs| - 1]
        case Skipped => Ok(ks)
        case Malformed(e) => Err(e)
        case Parsed(rec) =>
          match AmpliconId(src, rec.primer.name)
          case Err(e) => Err(e)
          case Ok(id) => Ok(ks + [Keyed(id, rec)])
  }

  /** Records with the same id agree on reference and pool. */
  ghost predicate Consistent(ks: seq<Keyed>)
  {
    forall i, j :: 0 <= i < j < |ks| && ks[i].id == ks[j].id ==>
      ks[i].rec.ref == ks[j].rec.ref && ks[i].rec.pool == ks[j].rec.pool
  }

  /** The primers with the given id, in record order. */
  function PrimersWithId(ks: seq<Keyed>, id: int): seq<Primer>
    decreases |ks|
  {
    if ks == [] then []
    else
      PrimersWithId(ks[..|ks| - 1], id) +
      (if ks[|ks| - 1].id == id then [ks[|ks| - 1].rec.primer] else [])
  }

  /** The index of the first record with the given id, |ks| if none. */
  function FirstIndex(ks: seq<Keyed>, id: int): (i: nat)
    ensures i <= |ks|
    ensures i < |ks| ==> ks[i].id == id
    ensures forall j :: 0 <= j < i ==> ks[j].id != id
    decreases |ks|
  {
    if ks == [] then 0
    else if ks[0].id == id then 0
    else 1 + FirstIndex(ks[1..], id)
  }

  /** The dict holds exactly the ids of the records. */
  ghost predicate KeysAreIds(amps: Amplicons, ks: seq<Keyed>)
  {
    forall id :: id in amps.byId <==> exists j :: 0 <= j < |ks| && ks[j].id == id
  }

  /** Each amplicon holds the primers of its id in record order. */
  ghost predicate HoldsItsPrimers(amps: Amplicons, ks: seq<Keyed>)
  {
    forall id :: id in amps.byId ==> amps.byId[id].primers == PrimersWithId(ks, id)
  }

  /** Each record's amplicon carries that record's reference and pool. */
  ghost predicate CarriesRefAndPool(amps: Amplicons, ks: seq<Keyed>)
  {
    forall j :: 0 <= j < |ks| ==>
      ks[j].id in amps.byId &&
      amps.byId[ks[j].id].ref == ks[j].rec.ref && amps.byId[ks[j].id].pool == ks[j].rec.pool
  }

  /** Ids are ordered by their first record. */
  ghost predicate FirstEncounterOrder(amps: Amplicons, ks: seq<Keyed>)
  {
    forall a, b :: 0 <= a < b < |amps.order| ==>
      FirstIndex(ks, amps.order[a]) < FirstIndex(ks, amps.order[b])
  }

  ghost predicate Describes(amps: Amplicons, ks: seq<Keyed>)
  {
    && WellFormed(amps)
    && KeysAreIds(amps, ks)
    && HoldsItsPrimers(amps, ks)
    && CarriesRefAndPool(amps, ks)
    && FirstEncounterOrder(amps, ks)
  }

  lemma FirstIndexSnoc(ks: seq<Keyed>, k: Keyed, id: int)
    ensures FirstIndex(ks + [k], id) ==
      if FirstIndex(ks, id) < |ks| then FirstIndex(ks, id)
      else if k.id == id then |ks| else |ks| + 1
  {
    assert forall j :: 0 <= j < |ks| ==> (ks + [k])[j] == ks[j];
    assert (ks + [k])[|ks|] == k;
  }

  /** One step of the grouping keeps the description. */
  lemma AddPrimerDescribes(amps: Amplicons, ks: seq<Keyed>, id: int, rec: Record)
    requires Describes(amps, ks) && Consistent(ks)
    ensures AddPrimer(amps, id, rec).Ok? <==> Consistent(ks + [Keyed(id, rec)])
    ensures AddPrimer(amps, id, rec).Ok? ==> Describes(AddPrimer(amps, id, rec).value, ks + [Keyed(id, rec)])
  {
    if id in amps.byId {
      AddToExisting(amps, ks, id, rec);
    } else {
      AddNew(amps, ks, id, rec);
    }
  }

  lemma AddToExisting(amps: Amplicons, ks: seq<Keyed>, id: int, rec: Record)
    requires Describes(amps, ks) && Consistent(ks) && id in amps.byId
    ensures AddPrimer(amps, id, rec).Ok? <==> Consistent(ks + [Keyed(id, rec)])
    ensures AddPrimer(amps, id, rec).Ok? ==> Describes(AddPrimer(amps, id, rec).value, ks + [Keyed(id, rec)])
  {
    var ks' := ks + [Keyed(id, rec)];
    if AddPrimer(amps, id, rec).Ok? {
      AppendKeepsConsistent(amps, ks, Keyed(id, rec));
      AppendToExisting(amps, ks, id, rec);
    } else {
      var j0 :| 0 <= j0 < |ks| && ks[j0].id == id;
      assert ks'[j0] == ks[j0];
      assert ks'[j0].id == ks'[|ks|].id;
    }
  }

  lemma AppendToExisting(amps: Amplicons, ks: seq<Keyed>, id: int, rec: Record)
    requires Describes(amps, ks) && id in amps.byId
    requires amps.byId[id].ref == rec.ref && amps.byId[id].pool == rec.pool
    ensures AddPrimer(amps, id, rec).Ok?
    ensures Describes(AddPrimer(amps, id, rec).value, ks + [Keyed(id, rec)])
  {
    var amps' := AddPrimer(amps, id, rec).value;
    var ks' := ks + [Keyed(id, rec)];
    AppendHolds(amps, ks, id, rec);
    AppendKeys(amps, ks, id, rec);
    AppendOrder(amps, ks, id, rec);
    AppendCarries(amps, ks, id, rec);
    assert WellFormed(amps');
  }

  lemma AppendHolds(amps: Amplicons, ks: seq<Keyed>, id: int, rec: Record)
    requires HoldsItsPrimers(amps, ks) && id in amps.byId
    requires amps.byId[id].ref == rec.ref && amps.byId[id].pool == rec.pool
    ensures AddPrimer(amps, id, rec).Ok?
    ensures HoldsItsPrimers(AddPrimer(amps, id, rec).value, ks + [Keyed(id, rec)])
  {
    var ks' := ks + [Keyed(id, rec)];
    assert ks'[..|ks|] == ks;
    var amps' := AddPrimer(amps, id, rec).value;
    forall x | x in amps'.byId
      ensures amps'.byId[x].primers == PrimersWithId(ks', x)
    {
      assert PrimersWithId(ks', x) ==
        PrimersWithId(ks, x) + (if id == x then [rec.primer] else []);
    }
  }

  lemma AppendKeys(amps: Amplicons, ks: seq<Keyed>, id: int, rec: Record)
    requires KeysAreIds(amps, ks) && id in amps.byId
    requires amps.byId[id].ref == rec.ref && amps.byId[id].pool == rec.pool
    ensures AddPrimer(amps, id, rec).Ok?
    ensures KeysAreIds(AddPrimer(amps, id, rec).value, ks + [Keyed(id, rec)])
  {
    var ks' := ks + [Keyed(id, rec)];
    var amps' := AddPrimer(amps, id, rec).value;
    forall x ensures x in amps'.byId <==> exists j :: 0 <= j < |ks'| && ks'[j].id == x {
      if x in amps'.byId {
        var j :| 0 <= j < |ks| && ks[j].id == x;
        assert ks'[j].id == x;
      } else {
        forall j | 0 <= j < |ks'| ensures ks'[j].id != x {
          if j < |ks| { assert ks'[j] == ks[j]; }
        }
      }
    }
  }

  lemma AppendOrder(amps: Amplicons, ks: seq<Keyed>, id: int, rec: Record)
    requires WellFormed(amps) && KeysAreIds(amps, ks) && FirstEncounterOrder(amps, ks)
    requires id in amps.byId
    requires amps.byId[id].ref == rec.ref && amps.byId[id].pool == rec.pool
    ensures AddPrimer(amps, id, rec).Ok?
    ensures FirstEncounterOrder(AddPrimer(amps, id, rec).value, ks + [Keyed(id, rec)])
  {
    var k := Keyed(id, rec);
    var ks' := ks + [k];
    var amps' := AddPrimer(amps, id, rec).value;
    forall a, b | 0 <= a < b < |amps'.order|
      ensures FirstIndex(ks', amps'.order[a]) < FirstIndex(ks', amps'.order[b])
    {
      FirstIndexSnoc(ks, k, amps.order[a]);
      FirstIndexSnoc(ks, k, amps.order[b]);
      assert amps.order[a] in amps.byId && amps.order[b] in amps.byId;
      FirstIndexPresent(ks, amps.order[a]);
      FirstIndexPresent(ks, amps.order[b]);
    }
  }

  lemma AppendCarries(amps: Amplicons, ks: seq<Keyed>, id: int, rec: Record)
    requires CarriesRefAndPool(amps, ks) && id in amps.byId
    requires amps.byId[id].ref == rec.ref && amps.byId[id].pool == rec.pool
    ensures AddPrimer(amps, id, rec).Ok?
    ensures CarriesRefAndPool(AddPrimer(amps, id, rec).value, ks + [Keyed(id, rec)])
  {
    var ks' := ks + [Keyed(id, rec)];
    assert forall j :: 0 <= j < |ks| ==> ks'[j] == ks[j];
  }

  /** A record that agrees with its amplicon keeps the records consistent. */
  lemma AppendKeepsConsistent(amps: Amplicons, ks: seq<Keyed>, k: Keyed)
    requires Consistent(ks) && CarriesRefAndPool(amps, ks) && KeysAreIds(amps, ks)
    requires k.id in amps.byId ==> amps.byId[k.id].ref == k.rec.ref && amps.byId[k.id].pool == k.rec.pool
    ensures Consistent(ks + [k])
  {
    var ks' := ks + [k];
    forall i, j | 0 <= i < j < |ks'| && ks'[i].id == ks'[j].id
      ensures ks'[i].rec.ref == ks'[j].rec.ref && ks'[i].rec.pool == ks'[j].rec.pool
    {
      assert ks'[i] == ks[i];
      if j < |ks| {
        assert ks'[j] == ks[j];
      }
    }
  }

  lemma AddNew(amps: Amplicons, ks: seq<Keyed>, id: int, rec: Record)
    requires Describes(amps, ks) && Consistent(ks) && id !in amps.byId
    ensures AddPrimer(amps, id, rec).Ok? && Consistent(ks + [Keyed(id, rec)])
    ensures Describes(AddPrimer(amps, id, rec).value, ks + [Keyed(id, rec)])
  {
    AppendKeepsConsistent(amps, ks, Keyed(id, rec));
    NewHolds(amps, ks, id, rec);
    NewKeys(amps, ks, id, rec);
    NewOrder(amps, ks, id, rec);
    NewCarries(amps, ks, id, rec);
    NewWellFormed(amps, id, rec);
  }

  lemma NewHolds(amps: Amplicons, ks: seq<Keyed>, id: int, rec: Record)
    requires HoldsItsPrimers(amps, ks) && KeysAreIds(amps, ks) && id !in amps.byId
    ensures AddPrimer(amps, id, rec).Ok?
    ensures HoldsItsPrimers(AddPrimer(amps, id, rec).value, ks + [Keyed(id, rec)])
  {
    var ks' := ks + [Keyed(id, rec)];
    assert ks'[..|ks|] == ks;
    var amps' := AddPrimer(amps, id, rec).value;
    forall x | x in amps'.byId
      ensures amps'.byId[x].primers == PrimersWithId(ks', x)
    {
      assert PrimersWithId(ks', x) ==
        PrimersWithId(ks, x) + (if id == x then [rec.primer] else []);
      if x == id {
        PrimersWithIdAbsent(ks, id);
      }
    }
  }

  lemma NewKeys(amps: Amplicons, ks: seq<Keyed>, id: int, rec: Record)
    requires KeysAreIds(amps, ks) && id !in amps.byId
    ensures AddPrimer(amps, id, rec).Ok?
    ensures KeysAreIds(AddPrimer(amps, id, rec).value, ks + [Keyed(id, rec)])
  {
    var ks' := ks + [Keyed(id, rec)];
    var amps' := AddPrimer(amps, id, rec).value;
    forall x ensures x in amps'.byId <==> exists j :: 0 <= j < |ks'| && ks'[j].id == x {
      if x in amps'.byId {
        if x == id {
          assert ks'[|ks|].id == x;
        } else {
          var j :| 0 <= j < |ks| && ks[j].id == x;
          assert ks'[j].id == x;
        }
      } else {
        forall j | 0 <= j < |ks'| ensures ks'[j].id != x {
          if j < |ks| { assert ks'[j] == ks[j]; }
        }
      }
    }
  }

  lemma NewOrder(amps: Amplicons, ks: seq<Keyed>, id: int, rec: Record)
    requires WellFormed(amps) && KeysAreIds(amps, ks) && FirstEncounterOrder(amps, ks)
    requires id !in amps.byId
    ensures AddPrimer(amps, id, rec).Ok?
    ensures FirstEncounterOrder(AddPrimer(amps, id, rec).value, ks + [Keyed(id, rec)])
  {
    var k := Keyed(id, rec);
    var ks' := ks + [k];
    var amps' := AddPrimer(amps, id, rec).value;
    forall a, b | 0 <= a < b < |amps'.order|
      ensures FirstIndex(ks', amps'.order[a]) < FirstIndex(ks', amps'.order[b])
    {
      FirstIndexSnoc(ks, k, amps'.order[a]);
      FirstIndexSnoc(ks, k, amps'.order[b]);
      assert amps'.order[a] == amps.order[a] && amps.order[a] in amps.byId;
      FirstIndexPresent(ks, amps'.order[a]);
      if b < |amps.order| {
        assert amps'.order[b] == amps.order[b] && amps.order[b] in amps.byId;
        FirstIndexPresent(ks, amps'.order[b]);
      } else {
        FirstIndexAbsent(ks, id);
      }
    }
  }

  lemma NewCarries(amps: Amplicons, ks: seq<Keyed>, id: int, rec: Record)
    requires CarriesRefAndPool(amps, ks) && id !in amps.byId
    ensures AddPrimer(amps, id, rec).Ok?
    ensures CarriesRefAndPool(AddPrimer(amps, id, rec).value, ks + [Keyed(id, rec)])
  {
    var ks' := ks + [Keyed(id, rec)];
    assert forall j :: 0 <= j < |ks| ==> ks'[j] == ks[j];
  }

  lemma NewWellFormed(amps: Amplicons, id: int, rec: Record)
    requires WellFormed(amps) && id !in amps.byId
    ensures AddPrimer(amps, id, rec).Ok?
    ensures WellFormed(AddPrimer(amps, id, rec).value)
  {
    var amps' := AddPrimer(amps, id, rec).value;
    assert id !in amps.order;
    forall x ensures x in amps'.byId <==> x in amps'.order {
      assert x in amps'.order <==> x in amps.order || x == id;
    }
  }

  lemma FirstIndexPresent(ks: seq<Keyed>, id: int)
    requires exists j :: 0 <= j < |ks| && ks[j].id == id
    ensures FirstIndex(ks, id) < |ks|
  {
  }

  lemma FirstIndexAbsent(ks: seq<Keyed>, id: int)
    requires forall j :: 0 <= j < |ks| ==> ks[j].id != id
    ensures FirstIndex(ks, id) == |ks|
  {
  }

  lemma {:induction false} PrimersWithIdAbsent(ks: seq<Keyed>, id: int)
    requires forall j :: 0 <= j < |ks| ==> ks[j].id != id
    ensures PrimersWithId(ks, id) == []
    decreases |ks|
  {
    if ks != [] {
      PrimersWithIdAbsent(ks[..|ks| - 1], id);
    }
  }

  /** The grouping succeeds exactly when every line is read, every primer
      gets an id and records with one id agree on reference and pool; the
      dict it builds then holds, per id, exactly the primers with that id in
      line order, with the reference and pool of those records, and its ids
      in order of first appearance. */
  lemma {:induction false} GroupRecordsSpec(src: IdSource, rs: seq<LineResult>)
    ensures GroupRecords(src, rs).Ok? <==>
      KeyRecords(src, rs).Ok? && Consistent(KeyRecords(src, rs).value)
    ensures GroupRecords(src, rs).Ok? ==>
      Describes(GroupRecords(src, rs).value, KeyRecords(src, rs).value)
    decreases |rs|
  {
    if rs != [] {
      var front := rs[..|rs| - 1];
      GroupRecordsSpec(src, front);
      match KeyRecords(src, front)
      case Err(_) =>
      case Ok(ks) =>
        match rs[|rs| - 1]
        case Skipped =>
        case Malformed(_) =>
        case Parsed(rec) =>
          match AmpliconId(src, rec.primer.name)
          case Err(_) =>
          case Ok(id) =>
            var ks' := ks + [Keyed(id, rec)];
            if GroupRecords(src, front).Ok? {
              AddPrimerDescribes(GroupRecords(src, front).value, ks, id, rec);
            } else {
              assert !Consistent(ks);
              assert forall j :: 0 <= j < |ks| ==> ks'[j] == ks[j];
            }
    }
  }

  /** Keying the lines fails exactly when reading them fails or some record
      read gets no id; otherwise it pairs the records read_primer_bed yields,
      in the same order, each with its own id. */
  lemma {:induction false} KeyRecordsCollect(src: IdSource, rs: seq<LineResult>)
    ensures KeyRecords(src, rs).Ok? <==>
      Collect(rs).Ok? &&
      forall k :: 0 <= k < |Collect(rs).value| ==> AmpliconId(src, Collect(rs).value[k].primer.name).Ok?
    ensures KeyRecords(src, rs).Ok? ==>
      |KeyRecords(src, rs).value| == |Collect(rs).value| &&
      forall k :: 0 <= k < |Collect(rs).value| ==>
        KeyRecords(src, rs).value[k] ==
          Keyed(AmpliconId(src, Collect(rs).value[k].primer.name).value, Collect(rs).value[k])
    decreases |rs|
  {
    if rs != [] {
      var front := rs[..|rs| - 1];
      KeyRecordsCollect(src, front);
      match rs[|rs| - 1]
      case Skipped =>
      case Malformed(_) =>
      case Parsed(rec) =>
        if Collect(front).Ok? {
          var prev := Collect(front).value;
          var all := prev + [rec];
          assert Collect(rs).value == all;
          assert forall k :: 0 <= k < |prev| ==> all[k] == prev[k];
          assert all[|prev|] == rec;
          if KeyRecords(src, front).Ok? {
            match AmpliconId(src, rec.primer.name)
            case Err(_) =>
            case Ok(id) =>
              var ks := KeyRecords(src, front).value;
              assert forall k :: 0 <= k < |ks| ==> (ks + [Keyed(id, rec)])[k] == ks[k];
          }
        }
    }
  }

  // ---------------------------------------------------------------------
  // The grouping does not depend on the order of the lines, up to the
  // order of each amplicon's primers and of the dict.

  /** Concatenating what f gives for each element, in order. */
  function FlatMap<A, B>(f: A -> seq<B>, xs: seq<A>): seq<B>
    decreases |xs|
  {
    if xs == [] then [] else FlatMap(f, xs[..|xs| - 1]) + f(xs[|xs| - 1])
  }

  lemma {:induction false} FlatMapAppend<A, B>(f: A -> seq<B>, xs: seq<A>, ys: seq<A>)
    ensures FlatMap(f, xs + ys) == FlatMap(f, xs) + FlatMap(f, ys)
    decreases |ys|
  {
    if ys != [] {
      var ys0 := ys[..|ys| - 1];
      FlatMapAppend(f, xs, ys0);
      assert (xs + ys)[..|xs + ys| - 1] == xs + ys0;
      assert (xs + ys)[|xs + ys| - 1] == ys[|ys| - 1];
    } else {
      assert xs + ys == xs;
    }
  }

  /** Permuting the input permutes the output. */
  lemma {:induction false} FlatMapPermutation<A, B>(f: A -> seq<B>, xs: seq<A>, ys: seq<A>)
    requires multiset(xs) == multiset(ys)
    ensures multiset(FlatMap(f, xs)) == multiset(FlatMap(f, ys))
    decreases |xs|
  {
    if xs == [] {
      assert |ys| == |multiset(ys)| == 0;
    } else {
      var x := xs[|xs| - 1];
      var front := xs[..|xs| - 1];
      assert xs == front + [x];
      assert x in multiset(ys);
      var j :| 0 <= j < |ys| && ys[j] == x;
      var before, after := ys[..j], ys[j + 1..];
      assert ys == before + [x] + after;
      assert multiset(xs) == multiset(front) + multiset{x};
      assert multiset(ys) == multiset(before) + multiset{x} + multiset(after);
      assert multiset(before + after) == multiset(before) + multiset(after);
      assert multiset(front) == multiset(xs) - multiset{x};
      assert multiset(before + after) == multiset(ys) - multiset{x};
      FlatMapPermutation(f, front, before + after);
      FlatMapAppend(f, before + [x], after);
      FlatMapAppend(f, before, [x]);
      FlatMapAppend(f, before, after);
      assert [x][..0] == [];
    }
  }

  /** What one line contributes to the keyed records. */
  function KeyOf(src: IdSource, lr: LineResult): seq<Keyed>
  {
    match lr
    case Parsed(rec) =>
      (match AmpliconId(src, rec.primer.name)
       case Ok(id) => [Keyed(id, rec)]
       case Err(_) => [])
    case _ => []
  }

  /** What one keyed record contributes to the primers of an id. */
  function IdPrimer(id: int, k: Keyed): seq<Primer>
  {
    if k.id == id then [k.rec.primer] else []
  }

  /** A line the keying passes: skipped, or read with a primer that has an id. */
  predicate Acceptable(src: IdSource, lr: LineResult)
  {
    lr.Skipped? || (lr.Parsed? && AmpliconId(src, lr.rec.primer.name).Ok?)
  }

  lemma {:induction false} KeyRecordsOk(src: IdSource, rs: seq<LineResult>)
    ensures KeyRecords(src, rs).Ok? <==> forall lr :: lr in rs ==> Acceptable(src, lr)
    decreases |rs|
  {
    if rs != [] {
      var front, last := rs[..|rs| - 1], rs[|rs| - 1];
      KeyRecordsOk(src, front);
      assert rs == front + [last];
      assert forall lr :: lr in rs <==> lr in front || lr == last;
      if KeyRecords(src, front).Err? {
        var lr :| lr in front && !Acceptable(src, lr);
        assert lr in rs;
      } else if !Acceptable(src, last) {
        assert KeyRecords(src, rs).Err?;
      } else {
        assert KeyRecords(src, rs).Ok?;
      }
    }
  }

  lemma {:induction false} KeyRecordsFlat(src: IdSource, rs: seq<LineResult>, f: LineResult -> seq<Keyed>)
    requires forall lr :: f(lr) == KeyOf(src, lr)
    ensures KeyRecords(src, rs).Ok? ==> KeyRecords(src, rs).value == FlatMap(f, rs)
    decreases |rs|
  {
    if rs != [] {
      KeyRecordsFlat(src, rs[..|rs| - 1], f);
    }
  }

  lemma {:induction false} PrimersWithIdFlat(ks: seq<Keyed>, id: int, g: Keyed -> seq<Primer>)
    requires forall k :: g(k) == IdPrimer(id, k)
    ensures PrimersWithId(ks, id) == FlatMap(g, ks)
    decreases |ks|
  {
    if ks != [] {
      PrimersWithIdFlat(ks[..|ks| - 1], id, g);
    }
  }

  /** Consistency only depends on which keyed records occur. */
  lemma ConsistentMembers(ks: seq<Keyed>)
    ensures Consistent(ks) <==>
      forall x, y :: x in ks && y in ks && x.id == y.id ==>
        x.rec.ref == y.rec.ref && x.rec.pool == y.rec.pool
  {
    if Consistent(ks) {
      forall x, y | x in ks && y in ks && x.id == y.id
        ensures x.rec.ref == y.rec.ref && x.rec.pool == y.rec.pool
      {
        var i :| 0 <= i < |ks| && ks[i] == x;
        var j :| 0 <= j < |ks| && ks[j] == y;
        assert i < j || i == j || j < i;
      }
    }
  }

  /** Reordering the lines neither makes the keying fail nor succeed, and
      reorders the keyed records. */
  lemma KeyRecordsPermutation(src: IdSource, rs: seq<LineResult>, rs': seq<LineResult>)
    requires multiset(rs) == multiset(rs')
    ensures KeyRecords(src, rs).Ok? <==> KeyRecords(src, rs').Ok?
    ensures KeyRecords(src, rs).Ok? && KeyRecords(src, rs').Ok? ==>
      multiset(KeyRecords(src, rs).value) == multiset(KeyRecords(src, rs').value)
  {
    KeyRecordsOk(src, rs);
    KeyRecordsOk(src, rs');
    forall lr ensures lr in rs <==> lr in rs' {
      assert lr in rs <==> lr in multiset(rs);
      assert lr in rs' <==> lr in multiset(rs');
    }
    var f := (lr: LineResult) => KeyOf(src, lr);
    KeyRecordsFlat(src, rs, f);
    KeyRecordsFlat(src, rs', f);
    FlatMapPermutation(f, rs, rs');
  }

  /** Keyed records with the same members give the same ids. */
  lemma SameMembersSameKeys(a: Amplicons, ks: seq<Keyed>, b: Amplicons, ks': seq<Keyed>)
    requires forall x :: x in ks <==> x in ks'
    requires KeysAreIds(a, ks) && KeysAreIds(b, ks')
    ensures a.byId.Keys == b.byId.Keys
  {
    forall id ensures id in a.byId <==> id in b.byId {
      if id in a.byId {
        var j :| 0 <= j < |ks| && ks[j].id == id;
        assert ks[j] in ks';
      }
      if id in b.byId {
        var j :| 0 <= j < |ks'| && ks'[j].id == id;
        assert ks'[j] in ks;
      }
    }
  }

  /** ... and each id the same reference and pool. */
  lemma SameMembersSameRefPool(a: Amplicons, ks: seq<Keyed>, b: Amplicons, ks': seq<Keyed>, id: int)
    requires forall x :: x in ks <==> x in ks'
    requires KeysAreIds(a, ks) && CarriesRefAndPool(a, ks) && CarriesRefAndPool(b, ks')
    requires id in a.byId
    ensures id in b.byId && a.byId[id].ref == b.byId[id].ref && a.byId[id].pool == b.byId[id].pool
  {
    var j :| 0 <= j < |ks| && ks[j].id == id;
    assert ks[j] in ks';
    var j' :| 0 <= j' < |ks'| && ks'[j'] == ks[j];
  }

  /** Reordered keyed records give each id the same primers, reordered. */
  lemma PermutedSamePrimers(a: Amplicons, ks: seq<Keyed>, b: Amplicons, ks': seq<Keyed>, id: int)
    requires multiset(ks) == multiset(ks')
    requires HoldsItsPrimers(a, ks) && HoldsItsPrimers(b, ks')
    requires id in a.byId && id in b.byId
    ensures multiset(a.byId[id].primers) == multiset(b.byId[id].primers)
  {
    var g := (k: Keyed) => IdPrimer(id, k);
    PrimersWithIdFlat(ks, id, g);
    PrimersWithIdFlat(ks', id, g);
    FlatMapPermutation(g, ks, ks');
  }

  /** Two dicts that describe reorderings of the same keyed records have the
      same ids, each with the same reference, pool and primers. */
  lemma DescribesPermutation(a: Amplicons, ks: seq<Keyed>, b: Amplicons, ks': seq<Keyed>)
    requires multiset(ks) == multiset(ks')
    requires Describes(a, ks) && Describes(b, ks')
    ensures a.byId.Keys == b.byId.Keys
    ensures forall id :: id in a.byId ==>
      && a.byId[id].ref == b.byId[id].ref
      && a.byId[id].pool == b.byId[id].pool
      && multiset(a.byId[id].primers) == multiset(b.byId[id].primers)
  {
    forall x ensures x in ks <==> x in ks' {
      assert x in ks <==> x in multiset(ks);
      assert x in ks' <==> x in multiset(ks');
    }
    SameMembersSameKeys(a, ks, b, ks');
    forall id | id in a.byId
      ensures a.byId[id].ref == b.byId[id].ref && a.byId[id].pool == b.byId[id].pool
      ensures multiset(a.byId[id].primers) == multiset(b.byId[id].primers)
    {
      SameMembersSameRefPool(a, ks, b, ks', id);
      PermutedSamePrimers(a, ks, b, ks', id);
    }
  }

  /** Grouping by id does not depend on the order of the lines: reordering
      them neither makes it fail nor succeed, and when it succeeds the dict
      has the same ids, each with the same reference and pool and the same
      primers; only the order of the primers and of the ids may change. */
  lemma GroupRecordsOrderFree(src: IdSource, rs: seq<LineResult>, rs': seq<LineResult>)
    requires multiset(rs) == multiset(rs')
    ensures GroupRecords(src, rs).Ok? <==> GroupRecords(src, rs').Ok?
    ensures GroupRecords(src, rs).Ok? && GroupRecords(src, rs').Ok? ==>
      var a, b := GroupRecords(src, rs).value.byId, GroupRecords(src, rs').value.byId;
      && a.Keys == b.Keys
      && forall id :: id in a ==>
        && a[id].ref == b[id].ref
        && a[id].pool == b[id].pool
        && multiset(a[id].primers) == multiset(b[id].primers)
  {
    GroupRecordsSpec(src, rs);
    GroupRecordsSpec(src, rs');
    KeyRecordsPermutation(src, rs, rs');
    if KeyRecords(src, rs).Ok? {
      var ks, ks' := KeyRecords(src, rs).value, KeyRecords(src, rs').value;
      forall x ensures x in ks <==> x in ks' {
        assert x in ks <==> x in multiset(ks);
        assert x in ks' <==> x in multiset(ks');
      }
      ConsistentMembers(ks);
      ConsistentMembers(ks');
      if GroupRecords(src, rs).Ok? {
        DescribesPermutation(GroupRecords(src, rs).value, ks, GroupRecords(src, rs').value, ks');
      }
    }
  }
}
