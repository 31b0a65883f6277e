/** Scheme.amplicon_pat (viramp_hub/scheme.py:4-6) as used by
    infer_from_primer_scheme (viramp_hub/scheme.py:15-22): the pattern
    (?P<prefix>(.*_)*)(?P<num>\d+).*_(?P<name>L(?:EFT)?|R(?:IGHT)?)
    applied with re.match, so anchored at the start of the name only.

    Backtracking tries the end of the `prefix` group from the right: first
    after the last '_' that `.*` can reach, then after earlier ones, and
    finally at position 0. For one prefix end, `\d+` takes the whole digit
    run, and whether `.*_(L|R)` can follow does not depend on how much of
    the run `\d+` took. So the match is described by the largest prefix end
    at which the rest can succeed. */
module AmpliconNames {
  import opened Outcomes
  import opened Text

  /** "_L" or "_R" at r: where `_(?P<name>L(?:EFT)?|R(?:IGHT)?)` can match
      (the optional EFT / IGHT never decides success). */
  predicate RoleMarkerAt(s: string, r: int)
  {
    0 <= r && r + 1 < |s| && s[r] == '_' && (s[r + 1] == 'L' || s[r + 1] == 'R')
  }

  /** `.` matches every character except a newline. */
  predicate NoNewlineBefore(s: string, r: int)
    requires r <= |s|
  {
    forall k :: 0 <= k < r ==> s[k] != '\n'
  }

  /** The end of the run of ASCII digits that starts at p: what greedy
      `\d+` takes. */
  function DigitRunEnd(s: string, p: nat): (q: nat)
    requires p <= |s|
    ensures p <= q <= |s|
    ensures forall k :: p <= k < q ==> IsDigit(s[k])
    ensures q == |s| || !IsDigit(s[q])
    decreases |s| - p
  {
    if p < |s| && IsDigit(s[p]) then DigitRunEnd(s, p + 1) else p
  }

  /** The pattern can match with the `prefix` group being s[..p]: the
      prefix is empty or ends with '_', a digit follows it, and after the
      digit run some "_L" or "_R" is reached without crossing a newline. */
  ghost predicate MatchesAt(s: string, p: int)
  {
    && 0 <= p < |s|
    && (p == 0 || s[p - 1] == '_')
    && IsDigit(s[p])
    && exists r :: DigitRunEnd(s, p) <= r && RoleMarkerAt(s, r) && NoNewlineBefore(s, r)
  }

  /** Scans forward from q for "_L" or "_R", giving up at a newline. */
  function MarkerFrom(s: string, q: nat): (b: bool)
    requires q <= |s|
    ensures b <==> exists r :: q <= r && RoleMarkerAt(s, r) && forall k :: q <= k < r ==> s[k] != '\n'
    decreases |s| - q
  {
    if q + 1 >= |s| then false
    else if RoleMarkerAt(s, q) then true
    else if s[q] == '\n' then false
    else MarkerFrom(s, q + 1)
  }

  /** The executable test for one candidate prefix end. */
  function MatchesAtExec(s: string, p: nat): (b: bool)
    ensures b <==> MatchesAt(s, p)
  {
    && p < |s| && (p == 0 || s[p - 1] == '_') && IsDigit(s[p]) && NoNewlineBefore(s, p)
    && MarkerFrom(s, DigitRunEnd(s, p))
  }

  /** The largest prefix end at most hi at which the pattern matches. */
  function LastMatchFrom(s: string, hi: nat): (r: Option<nat>)
    ensures r.Some? ==> r.value <= hi && MatchesAt(s, r.value)
    ensures forall p :: (if r.Some? then r.value < p else 0 <= p) && p <= hi ==> !MatchesAt(s, p)
    decreases hi
  {
    if MatchesAtExec(s, hi) then Some(hi)
    else if hi == 0 then None
    else LastMatchFrom(s, hi - 1)
  }

  /** Where `re.match` ends the `prefix` group, or None when the name does
      not match at all. */
  function PrefixEnd(name: string): (r: Option<nat>)
    ensures r.Some? ==> MatchesAt(name, r.value)
    ensures forall p :: (if r.Some? then r.value < p else 0 <= p) ==> !MatchesAt(name, p)
  {
    LastMatchFrom(name, |name|)
  }

  /** What infer_from_primer_scheme takes from a match: the `prefix` group
      without its last character, and int() of the `num` group. */
  datatype AmpliconName = AmpliconName(prefix: string, num: nat)

  function ParseAmpliconName(name: string): Option<AmpliconName>
  {
    match PrefixEnd(name)
    case None => None
    case Some(p) =>
      var q := DigitRunEnd(name, p);
      Some(AmpliconName(if p == 0 then "" else name[..p - 1], DigitsValue(name[p..q])))
  }

  /** A name is refused exactly when no prefix end lets the pattern match;
      a match has a digit run after the prefix and an "_L" or "_R" after
      that, and its prefix never ends with the '_' that delimited it. */
  lemma ParseAmpliconNameSpec(name: string)
    ensures ParseAmpliconName(name).None? <==> forall p :: !MatchesAt(name, p)
    ensures ParseAmpliconName(name).Some? ==>
      var m := ParseAmpliconName(name).value;
      var p := PrefixEnd(name).value;
      && MatchesAt(name, p)
      && (forall p' :: p < p' ==> !MatchesAt(name, p'))
      && (p == 0 ==> m.prefix == "")
      && (p > 0 ==> m.prefix + "_" == name[..p])
      && m.num == DigitsValue(name[p..DigitRunEnd(name, p)])
  {
    match PrefixEnd(name)
    case None =>
    case Some(p) =>
      if p > 0 {
        assert name[..p - 1] + "_" == name[..p];
      }
  }

  /** A name with an "_L" or "_R" but no digit right at the start or right
      after an underscore is refused: the number must open a '_'-delimited
      field. */
  lemma NumberMustFollowUnderscore(name: string)
    requires forall p :: 0 <= p < |name| && (p == 0 || name[p - 1] == '_') ==> !IsDigit(name[p])
    ensures ParseAmpliconName(name).None?
  {
    ParseAmpliconNameSpec(name);
  }

  /** Without "_L" or "_R" anywhere in the name nothing matches. */
  lemma RoleMarkerNeeded(name: string)
    requires forall r :: !RoleMarkerAt(name, r)
    ensures ParseAmpliconName(name).None?
  {
    ParseAmpliconNameSpec(name);
  }

  /** A matching prefix end after which no '_' is followed by a digit is
      the one re.match reports. */
  lemma PrefixEndAt(s: string, p: nat)
    requires MatchesAt(s, p)
    requires forall k :: p <= k < |s| - 1 && s[k] == '_' ==> !IsDigit(s[k + 1])
    ensures PrefixEnd(s) == Some(p)
  {
  }

  /** "x_01_LEFT" and "x_1_RIGHT" give the same amplicon: the number is the
      value of the digits, and text after L or R is allowed. */
  lemma LeadingZerosAndSuffixes()
    ensures ParseAmpliconName("x_01_LEFT") == Some(AmpliconName("x", 1))
    ensures ParseAmpliconName("x_1_RIGHT") == Some(AmpliconName("x", 1))
  {
    var a := "x_01_LEFT";
    assert RoleMarkerAt(a, 4) && NoNewlineBefore(a, 4);
    assert DigitRunEnd(a, 2) == 4;
    forall k | 2 <= k < |a| - 1 && a[k] == '_' ensures !IsDigit(a[k + 1]) {
      assert k == 2 || k == 3 || k == 4 || k == 5 || k == 6 || k == 7;
    }
    PrefixEndAt(a, 2);
    assert a[2..4] == "01" && a[..1] == "x";
    assert "01"[..1] == "0" && "0"[..0] == "";
    assert DigitsValue("01") == 1;
    var b := "x_1_RIGHT";
    assert RoleMarkerAt(b, 3) && NoNewlineBefore(b, 3);
    assert DigitRunEnd(b, 2) == 3;
    forall k | 2 <= k < |b| - 1 && b[k] == '_' ensures !IsDigit(b[k + 1]) {
      assert k == 2 || k == 3 || k == 4 || k == 5 || k == 6 || k == 7;
    }
    PrefixEndAt(b, 2);
    assert b[2..3] == "1" && b[..1] == "x";
    assert "1"[..0] == "";
  }

  /** The prefix is as long as it can be: in "x_2_3_RIGHT" the number is 3
      and the prefix "x_2". */
  lemma LongestPrefixWins()
    ensures ParseAmpliconName("x_2_3_RIGHT") == Some(AmpliconName("x_2", 3))
  {
    var a := "x_2_3_RIGHT";
    assert RoleMarkerAt(a, 5) && NoNewlineBefore(a, 5);
    assert DigitRunEnd(a, 4) == 5;
    forall k | 4 <= k < |a| - 1 && a[k] == '_' ensures !IsDigit(a[k + 1]) {
      assert 4 <= k <= 9;
      assert k == 4 || k == 5 || k == 6 || k == 7 || k == 8 || k == 9;
    }
    PrefixEndAt(a, 4);
    assert a[4..5] == "3";
    assert a[..3] == "x_2";
  }
}
