# viramp-hub primer schemes, modelled in Dafny

This project models `Scheme`, the core of viramp-hub's primer-scheme
converter (`viramp_hub/scheme.py`). A primer-scheme BED file lists PCR
primers, one tab-separated line each: reference, start, end, name, pool
and strand. `Scheme` groups those primers into amplicons in one of two
ways:

- `infer_from_primer_scheme` parses a number out of each primer name with
  the class pattern `amplicon_pat`, and infers the scheme name from the
  common name prefix.
- `from_primers_and_amplicons` uses an amplicon-info file in which each
  line lists the primer names of one amplicon.

`Scheme` then writes three derived files:

- a sanitized primer BED;
- an amplicon-info report in mode `full`, `outer` or `inner`;
- an insert BED, one line per amplicon, covering the stretch between the
  innermost primers.

Modules, leaf first:

- `Outcomes`: `Option`, the error kinds the source raises, and `Result`.
- `Text`: the Python string operations the source uses, each as a function:
  - `str.strip` and `str.split` on one separator, and `str.join`;
  - `int()` on a decimal literal and `str()` of an int;
  - `<` on `str`.
- `BedRecords`: `read_primer_bed`, line by line (`ReadLine`), and drained
  in order (`ReadPrimerBed`).
- `AmpliconNames`: `amplicon_pat` applied with `re.match`, as a
  characterisation of what the backtracking matcher reports.
- `Grouping`: the `amplicons` dict as a map plus its insertion order.
  - `GroupRecords` is the grouping loop written as a fold.
  - `GroupRecordsSpec` relates that fold to an independent description:
    the records keyed by id, the primers of each id, the reference and
    pool checks, and first-encounter order.
  - `GroupRecordsOrderFree` shows the grouping does not depend on the
    order of the lines, up to the order of primers and ids.
- `SchemeBuilders`: the two class methods as imperative loops. Each is
  proved equal to its specification function. The module also holds the
  amplicon-info table and the scheme-name rule.
- `Geometry`: `min()` / `max()` with a key over the primers of one
  strand, including the tie and empty cases.
- `Sorting`: the two `sorted()` calls. They are proved stable
  permutations, ascending by key.
- `Writers`: the three writers as loops over the scheme. Each is proved
  equal to a function of the scheme, and lemmas state what that function
  writes.
- `WorkedExample`: a worked example, from the two-line BED file of a single
  amplicon to its insert BED.

## Model

| member | source | states |
|---|---|---|
| BedRecords.IsSkipped | viramp_hub/scheme.py:78 | a line is skipped exactly when it is all whitespace or starts with '#' |
| BedRecords.ReadLine | viramp_hub/scheme.py:78-91 | a line is skipped, parsed or malformed. It parses exactly when it has six tab fields whose second and third are integers. Then start, end, name and strand come from fields 1, 2, 3 and 5, and ref and pool from fields 0 and 4. Otherwise the error is the first one Python meets, in column order: a missing field 1, a bad start (its text), a missing field 2, a bad end (its text), then a missing field 3 to 5 |
| BedRecords.Fields | viramp_hub/scheme.py:80 | `record.strip('\n').split('\t')`: the tab-separated fields of the line without its surrounding newlines, never an empty list |
| BedRecords.CollectAppend | viramp_hub/scheme.py:77-91 | reading two parts of a file: an error in the first part wins, otherwise the records of both parts come in order |
| BedRecords.ReadPrimerBedFails | viramp_hub/scheme.py:76-91 | reading fails with the error of the first malformed line |
| BedRecords.ReadPrimerBedSucceeds | viramp_hub/scheme.py:76-91 | reading succeeds when no line is malformed |
| BedRecords.ReadPrimerBed | viramp_hub/scheme.py:75-91 | `read_primer_bed` drained: the lines read one by one, in order. The records and the first error are those of `CollectAppend`, `ReadPrimerBedFails` and `ReadPrimerBedSucceeds` |
| Text.Split | viramp_hub/scheme.py:80 | `split('\t')` gives at least one piece; no piece holds a tab; joining the pieces gives the line back |
| Text.Strip | viramp_hub/scheme.py:78 | `str.strip()` leaves no whitespace at either end, and gives the empty string exactly when the line is all whitespace |
| Text.StripInfix | viramp_hub/scheme.py:78 | what `str.strip()` leaves is an infix of the line, and everything it cut from either end is whitespace |
| Text.SplitOfJoin | viramp_hub/scheme.py:80 | splitting a tab-join of tab-free parts gives the parts back |
| Text.ParseInt | viramp_hub/scheme.py:83-84 | `int()` accepts exactly an optional sign followed by one or more digits |
| Text.ParseShowInt | viramp_hub/scheme.py:107 | `int(str(i)) == i`, so the integer columns a writer emits read back unchanged |
| Text.ShowInt | viramp_hub/scheme.py:107 | `str()` of an int: a '-' for negatives, then the decimal digits. `ParseShowInt` states its inverse |
| AmpliconNames.ParseAmpliconNameSpec | viramp_hub/scheme.py:4-6 | a name is refused exactly when no prefix end lets the pattern match. Otherwise the prefix group ends at the last such end, the prefix is that group without its closing '_', and the number is the value of the digit run |
| AmpliconNames.NumberMustFollowUnderscore | viramp_hub/scheme.py:4-6 | a name with no digit at its start or right after an '_' does not match |
| AmpliconNames.RoleMarkerNeeded | viramp_hub/scheme.py:4-6 | a name with no "_L" or "_R" does not match |
| AmpliconNames.PrefixEndAt | viramp_hub/scheme.py:4-6 | a matching prefix end after which no '_' precedes a digit is the one the match reports |
| AmpliconNames.LeadingZerosAndSuffixes | viramp_hub/scheme.py:15-22 | "x_01_LEFT" and "x_1_RIGHT" both give prefix "x" and amplicon 1 |
| AmpliconNames.LongestPrefixWins | viramp_hub/scheme.py:4-6 | in "x_2_3_RIGHT" the prefix is "x_2" and the number is 3 |
| AmpliconNames.ParseAmpliconName | viramp_hub/scheme.py:15-22 | `amplicon_pat.match(name)` with the prefix and amplicon-number groups; `None` when there is no match. `ParseAmpliconNameSpec` characterises it |
| Grouping.AmpliconId | viramp_hub/scheme.py:15-22 | a primer's id is the number its name matches, or the table entry for its name (lines 57-62). The error names the primer when there is none |
| Grouping.AddPrimer | viramp_hub/scheme.py:23-31 | adding a primer fails exactly when its amplicon exists with another ref or pool. The ref is checked before the pool |
| Grouping.AddPrimerDescribes | viramp_hub/scheme.py:23-31 | one dict update succeeds exactly when the keyed records stay consistent, and keeps the dict describing them |
| Grouping.GroupRecordsSpec | viramp_hub/scheme.py:13-31 | grouping succeeds exactly when every line is read, every primer gets an id and the records of each id agree on ref and pool. Then the dict holds exactly the ids of the records, each with its primers in file order and the ref and pool of its records. The ids come in order of first appearance |
| Grouping.GroupRecords | viramp_hub/scheme.py:13-31 | the grouping loop over the read lines, one `GroupStep` per line, stopping at the first error. `GroupRecordsSpec` states what it builds |
| Grouping.GroupStep | viramp_hub/scheme.py:54-71 | the body of the grouping loop for one line: skip, propagate the read error, look up the id, then add the primer |
| Grouping.KeyRecordsCollect | viramp_hub/scheme.py:13-31 | keying the lines fails exactly when reading fails or some record gets no id. Otherwise it pairs each record `read_primer_bed` yields, in the same order, with its own id |
| Grouping.KeyRecordsPermutation | viramp_hub/scheme.py:13-31 | reordering the lines neither makes keying fail nor succeed, and only reorders the keyed records |
| Grouping.GroupRecordsOrderFree | viramp_hub/scheme.py:13-31 | reordering the lines neither makes the grouping fail nor succeed. On success the dict has the same ids, each with the same ref, pool and primers; only the order of the primers within an amplicon and of the ids may differ |
| Geometry.Select | viramp_hub/scheme.py:116-123 | `min`/`max` with a key over one strand fails exactly when no primer has that strand. The pick has the strand, none of that strand beats it, and it beats every earlier one, so ties go to the first |
| Geometry.OuterForward | viramp_hub/scheme.py:116-119 | the outer forward primer is `min` over the '+' primers by start: the first '+' primer with the least start |
| Geometry.OuterReverse | viramp_hub/scheme.py:120-123 | the outer reverse primer is `max` over the '-' primers by end: the first '-' primer with the greatest end |
| Geometry.InnerForward | viramp_hub/scheme.py:126-129 | the inner forward primer is `max` over the '+' primers by start: the first '+' primer with the greatest start. `write_insert_bed` makes the same choice at lines 138-141 |
| Geometry.InnerReverse | viramp_hub/scheme.py:130-133 | the inner reverse primer is `min` over the '-' primers by end: the first '-' primer with the least end. `write_insert_bed` makes the same choice at lines 142-145 |
| Geometry.SelectIgnoresOtherStrands | viramp_hub/scheme.py:116-118 | a primer of another strand added at the end does not change the pick |
| Geometry.SelectKeepsFirstOnTie | viramp_hub/scheme.py:126-129 | a later primer with the same key does not change the pick |
| Sorting.SortRecordsSpec | viramp_hub/scheme.py:98-104 | the sorted records are a permutation of the input. Keys (ref, start, end) never decrease, and records with equal keys keep their input order |
| Sorting.SortIdsSpec | viramp_hub/scheme.py:137 | the sorted ids are a permutation of the dict keys, ascending |
| Sorting.KeyLess | viramp_hub/scheme.py:103 | the sort key `(ref, start, end)` compared lexicographically, `ref` as a Python string |
| SchemeBuilders.InferFromPrimerScheme | viramp_hub/scheme.py:9-38 | the method returns the grouping of the read lines by name, with the inferred scheme name |
| SchemeBuilders.InferFromRecords | viramp_hub/scheme.py:13-36 | the loop over the read records computes that grouping and name, and stops at the first error |
| SchemeBuilders.AddToAmplicons | viramp_hub/scheme.py:23-31 | the dict update of one primer is AddPrimer |
| SchemeBuilders.SetOfSpec | viramp_hub/scheme.py:21 | `prefixes_seen` holds exactly the prefixes collected |
| SchemeBuilders.NamePrefixes | viramp_hub/scheme.py:20-21 | the prefixes added to `prefixes_seen`, in line order, one per read record: the prefix group of its name without the closing '_' |
| SchemeBuilders.InferredNameRule | viramp_hub/scheme.py:33-36 | a name is inferred exactly when there is a primer and all prefixes are equal and non-empty. The name is then that prefix |
| SchemeBuilders.SchemeName | viramp_hub/scheme.py:33-36 | the name test `len(prefixes_seen) == 1 and prefix` on the last primer's prefix. `InferredNameRule` gives its meaning |
| SchemeBuilders.InferredName | viramp_hub/scheme.py:33-36 | that test applied after the loop: no name when there is no primer. `InferredNameRule` gives its meaning |
| SchemeBuilders.InfoLine | viramp_hub/scheme.py:47-50 | one amplicon-info line: skipped when blank or starting with '#' after stripping, otherwise its tab-separated names. `MappingOfDomain` and `MappingOfLastLineWins` state what the lines give |
| SchemeBuilders.AssignAllSpec | viramp_hub/scheme.py:50-51 | one info line maps every name it lists to its id and leaves the other names alone |
| SchemeBuilders.MappingOfDomain | viramp_hub/scheme.py:44-52 | a name is in the table exactly when some counted line (not blank, not '#') lists it |
| SchemeBuilders.MappingOfLastLineWins | viramp_hub/scheme.py:46-52 | a name maps to the number of the last counted line listing it. Counted lines are numbered 1, 2, … in file order |
| SchemeBuilders.BuildPrimerAmpliconMapping | viramp_hub/scheme.py:44-52 | the loop over the info lines builds that table |
| SchemeBuilders.GroupMappedRecords | viramp_hub/scheme.py:54-71 | the loop over the read records groups them by the table. An unlisted primer stops it with an error naming that primer |
| SchemeBuilders.FromPrimersAndAmplicons | viramp_hub/scheme.py:41-73 | the method returns that grouping, and the scheme name is the caller's |
| Writers.BedLineReadsBack | viramp_hub/scheme.py:107 | a BED line written from tab- and newline-free fields reads back as the record it was written from |
| Writers.BedLine | viramp_hub/scheme.py:107 | one BED line: six tab-joined columns with `str()` of the coordinates, ending in a newline. `BedLineReadsBack` states its inverse |
| Writers.WriteSanitizedBed | viramp_hub/scheme.py:97-108 | the loop writes the sanitized line of each sorted record, in order |
| Writers.SanitizedBedSpec | viramp_hub/scheme.py:97-108 | the sanitized BED has one line per primer of the scheme. The lines are the primers in stable (ref, start, end) order, each written `ref\tstart\tend\tname\t60\tstrand` |
| Writers.SanitizedLineReadsBack | viramp_hub/scheme.py:105-108 | a sanitized line reads back as its primer and ref, with pool "60": the pool itself is never written |
| Writers.WriteAmpliconInfo | viramp_hub/scheme.py:110-134 | the loop writes each amplicon's row in dict order and stops at the first failing selection |
| Writers.AmpliconInfoRow | viramp_hub/scheme.py:112-134 | one amplicon's row in the given mode |
| Writers.InfoRow | viramp_hub/scheme.py:112-134 | the row one amplicon contributes in a mode. `InfoRowSpec` gives when it fails and how many lines it writes |
| Writers.InfoRowSpec | viramp_hub/scheme.py:112-134 | a full row never fails. Outer and inner rows fail, with an empty selection, exactly when the amplicon lacks a '+' or a '-' primer. Known modes write one line; any other mode writes nothing |
| Writers.AmpliconInfoSpec | viramp_hub/scheme.py:110-134 | for a known mode the report is one line per amplicon in insertion order. On failure it stops at the first amplicon whose row fails, after the lines before it |
| Writers.AmpliconInfoOtherMode | viramp_hub/scheme.py:110-134 | an unknown mode writes nothing and does not fail |
| Writers.AmpliconInfoSucceeds | viramp_hub/scheme.py:115-134 | full mode never fails. Outer and inner finish exactly when every amplicon has a '+' and a '-' primer |
| Writers.FullRowReadsBack | viramp_hub/scheme.py:112-114 | a full row read back as an amplicon-info line gives the amplicon's primer names |
| Writers.WriteInsertBed | viramp_hub/scheme.py:136-154 | the loop writes each amplicon's insert line in ascending id order and stops at the first failing selection |
| Writers.InsertBedRow | viramp_hub/scheme.py:138-154 | one amplicon's insert line |
| Writers.InsertRow | viramp_hub/scheme.py:138-154 | the insert line of one amplicon. `InsertRowSpec` and `InsertRowReadsBack` state when it fails and what it reads back as |
| Writers.InsertName | viramp_hub/scheme.py:148-151 | `{name}_INSERT_{id}` when the scheme has a non-empty name, `INSERT_{id}` otherwise |
| Writers.InsertRowSpec | viramp_hub/scheme.py:138-145 | an insert line fails, with an empty selection, exactly when the amplicon lacks a '+' or a '-' primer |
| Writers.InsertBedSpec | viramp_hub/scheme.py:136-154 | the insert BED is one line per amplicon, ids ascending, each id once. It stops at the first amplicon that lacks a strand |
| Writers.InsertBedSucceeds | viramp_hub/scheme.py:136-145 | the insert BED finishes exactly when every amplicon has a '+' and a '-' primer |
| Writers.InsertRowReadsBack | viramp_hub/scheme.py:146-154 | an insert line reads back as a '+' record. It runs from the inner forward primer's end to the inner reverse primer's start, named `{name}_INSERT_{id}` or `INSERT_{id}`, with the amplicon's ref and pool |
| WorkedExample.InferredExample | viramp_hub/scheme.py:9-38 | a scheme_1_LEFT / scheme_1_RIGHT pair on ref1, pool1 gives amplicon 1 holding both primers in file order, and the scheme name "scheme" |
| WorkedExample.InsertBedExample | viramp_hub/scheme.py:136-154 | that scheme's insert BED is the single line `ref1\t120\t200\tscheme_INSERT_1\tpool1\t+` |

## Behaviour of the source worth noting

- The writers raise `ValueError` from `min()`/`max()` in the middle of a
  report, after the lines of earlier amplicons have been written. They do
  not fail before writing anything. A writer's result is therefore an
  `Output`: the lines written plus the error that stopped it, if any.
- `int(fields[1])` is evaluated before `fields[5]` is indexed. A line with
  a bad start and at least two but fewer than six fields therefore fails
  on the start; a line with a single field fails on the missing
  `fields[1]`.
- The comment test of `read_primer_bed` looks at the first character of
  the unstripped line. The amplicon-info reader looks at the first
  character of the stripped one.
- Reference and pool mismatches raise `'ref error'` and `'pool_error'`
  without naming the primer. `RefMismatch` and `PoolMismatch` carry no
  name either.
- The scheme name is `prefix` when `len(prefixes_seen) == 1 and prefix`,
  where `prefix` is the last primer's prefix.
  `SchemeBuilders.InferredNameRule` shows this is the same as "one
  distinct prefix, and it is non-empty".

## Left out

- `viramp_hub/command.py`, which does argument parsing, opening and
  closing files, and choosing a writer, is not part of this model.
  Neither is the BEDPE writer it drives.
- Streams are modelled as sequences: a file as the sequence of its
  lines, an output stream as the sequence of strings written to it.
  File-system I/O is not modelled.
- The lazy generator `read_primer_bed` is modelled by reading every line
  to a `LineResult` first and then running the loop over those results.
  Reading a line is pure and the loop stops at the first malformed one,
  so the records, the error and the order of errors are the same.
- Lists and dicts that the source mutates in place (an amplicon's primer
  list, the `amplicons` dict, the name→id table) are modelled as values
  that the loops reassign. The source never shares them, so aliasing is
  not modelled.
- `__init__` is the `Grouping.Scheme` datatype constructor. It only
  stores its two arguments.
- `int()` is modelled on an optional sign and ASCII digits. Surrounding
  whitespace, `_` digit separators and non-ASCII digits, which Python
  also accepts, are not modelled.
- `\d` in `amplicon_pat` is modelled as the ASCII digits. Python also
  matches other Unicode decimal digits there.
- Exception messages are modelled by error kind plus, where the message
  names it, the offending text.
- Running `write_insert_bed` twice gives the same output. The model's
  writer is specified by a function of the scheme, which is never
  mutated, so this holds by construction and has no lemma of its own.
