/** routes/users.js, ranks: `calculateAutoRank`, `getHardcodedRankings` and
    the threshold chain used when the ranking lookup throws. */
module Ranks {
  import opened Base
  import opened Accounts
  import opened Sorting

  /** `getHardcodedRankings()`: seven levels, 1 to 7, whose minimum deposits
      rise with the level. The referral and bonus columns of the table are
      not used by the rank calculation and are not modelled. */
  function HardcodedRankings(): (rs: seq<Ranking>)
    ensures |rs| == 7
    ensures forall i :: 0 <= i < |rs| ==> rs[i].level == i + 1 && rs[i].name != ""
    ensures forall i, j :: 0 <= i < j < |rs| ==> rs[i].minimumDeposit < rs[j].minimumDeposit
  {
    [ Ranking(1, "welcome", 0),
      Ranking(2, "silver", 5000),
      Ranking(3, "silverPro", 25000),
      Ranking(4, "gold", 50000),
      Ranking(5, "goldPro", 100000),
      Ranking(6, "diamond", 500000),
      Ranking(7, "ambassador", 1000000) ]
  }

  /** The threshold chain of the `catch` block of `calculateAutoRank`. */
  function FallbackRank(deposit: int): string {
    if deposit >= 1000000 then "ambassador"
    else if deposit >= 500000 then "diamond"
    else if deposit >= 100000 then "goldPro"
    else if deposit >= 50000 then "gold"
    else if deposit >= 25000 then "silverPro"
    else if deposit >= 5000 then "silver"
    else "welcome"
  }

  function Level(r: Ranking): int {
    r.level
  }

  predicate Qualifies(r: Ranking, deposit: int) {
    deposit >= r.minimumDeposit
  }

  /** What `calculateAutoRank` may return for a table `rs`: the name of a
      highest-level ranking whose minimum deposit the deposit reaches;
      failing that, the name of a lowest-level ranking (`'welcome'` when that
      name is empty); `'welcome'` for an empty table. Which of several
      rankings of equal level wins is settled by `AutoRankFirstOfTopLevel`
      and `AutoRankLastOfLowest`. */
  ghost predicate IsAutoRank(deposit: int, rs: seq<Ranking>, name: string) {
    if exists i :: 0 <= i < |rs| && Qualifies(rs[i], deposit) then
      exists i :: 0 <= i < |rs| && Qualifies(rs[i], deposit) && rs[i].name == name
        && forall j :: 0 <= j < |rs| && Qualifies(rs[j], deposit) ==> rs[j].level <= rs[i].level
    else if |rs| == 0 then
      name == "welcome"
    else
      exists i :: 0 <= i < |rs| && (forall j :: 0 <= j < |rs| ==> rs[i].level <= rs[j].level)
        && name == (if rs[i].name == "" then "welcome" else rs[i].name)
  }

  /** Scanning a level-descending copy of `rs` and stopping at the first
      ranking the deposit reaches gives an auto rank of `rs`. */
  lemma SortedScanFinds(deposit: int, rs: seq<Ranking>, s: seq<Ranking>, i: int)
    requires multiset(s) == multiset(rs) && SortedDesc(s, Level)
    requires 0 <= i < |s| && Qualifies(s[i], deposit)
    requires forall k :: 0 <= k < i ==> !Qualifies(s[k], deposit)
    ensures IsAutoRank(deposit, rs, s[i].name)
  {
    assert s[i] in multiset(rs);
    var t :| 0 <= t < |rs| && rs[t] == s[i];
    forall j | 0 <= j < |rs| && Qualifies(rs[j], deposit)
      ensures rs[j].level <= rs[t].level
    {
      assert rs[j] in multiset(s);
      var k :| 0 <= k < |s| && s[k] == rs[j];
      assert i <= k;
      assert Level(s[i]) >= Level(s[k]) || i == k;
    }
  }

  /** When the deposit reaches no ranking, the last entry of the sorted copy
      is a lowest-level ranking of `rs`. */
  lemma SortedScanFallsThrough(deposit: int, rs: seq<Ranking>, s: seq<Ranking>)
    requires multiset(s) == multiset(rs) && SortedDesc(s, Level)
    requires forall k :: 0 <= k < |s| ==> !Qualifies(s[k], deposit)
    ensures IsAutoRank(deposit, rs,
              if |s| == 0 then "welcome"
              else if s[|s| - 1].name == "" then "welcome"
              else s[|s| - 1].name)
  {
    assert |s| == |multiset(s)| == |multiset(rs)| == |rs|;
    forall j | 0 <= j < |rs| ensures !Qualifies(rs[j], deposit) {
      assert rs[j] in multiset(s);
    }
    if |s| > 0 {
      var last := s[|s| - 1];
      assert last in multiset(rs);
      var t :| 0 <= t < |rs| && rs[t] == last;
      forall j | 0 <= j < |rs| ensures rs[t].level <= rs[j].level {
        assert rs[j] in multiset(s);
        var k :| 0 <= k < |s| && s[k] == rs[j];
        assert k == |s| - 1 || Level(s[k]) >= Level(s[|s| - 1]);
      }
    }
  }

  /** The name a scan of the sorted copy `s` returns when it stops at
      position `i`: the ranking there, or past the end the last entry's
      name, `'welcome'` when that is empty or there is no entry. */
  function ScanName(s: seq<Ranking>, i: nat): string {
    if i < |s| then s[i].name
    else if |s| == 0 || s[|s| - 1].name == "" then "welcome"
    else s[|s| - 1].name
  }

  /** Wherever the scan of a sorted copy stops, its name is an auto rank. */
  lemma ScanChoosesAutoRank(deposit: int, rs: seq<Ranking>, s: seq<Ranking>, i: nat)
    requires multiset(s) == multiset(rs) && SortedDesc(s, Level)
    requires i <= |s| && (i < |s| ==> Qualifies(s[i], deposit))
    requires forall k :: 0 <= k < i ==> !Qualifies(s[k], deposit)
    ensures IsAutoRank(deposit, rs, ScanName(s, i))
  {
    if i < |s| {
      SortedScanFinds(deposit, rs, s, i);
    } else {
      SortedScanFallsThrough(deposit, rs, s);
    }
  }

  /** The position of the first ranking of `s` the deposit reaches;
      `|s|` when it reaches none. */
  function FirstQualifying(s: seq<Ranking>, deposit: int): (i: nat)
    ensures i <= |s|
    ensures forall k :: 0 <= k < i ==> !Qualifies(s[k], deposit)
    ensures i < |s| ==> Qualifies(s[i], deposit)
  {
    if |s| == 0 then 0
    else if Qualifies(s[0], deposit) then 0
    else
      var i := FirstQualifying(s[1..], deposit);
      assert forall k :: 1 <= k < 1 + i ==> s[k] == s[1..][k - 1];
      1 + i
  }

  /** What `calculateAutoRank` returns for the table `rs`: the stable sort
      of `rs` by level, highest first, scanned for the first ranking the
      deposit reaches. */
  function AutoRank(deposit: int, rs: seq<Ranking>): string {
    var s := StableSortDesc(rs, Level);
    ScanName(s, FirstQualifying(s, deposit))
  }

  /** The scan's result is a highest-level ranking the deposit reaches,
      or a lowest-level one when it reaches none. */
  lemma AutoRankIsAutoRank(deposit: int, rs: seq<Ranking>)
    ensures IsAutoRank(deposit, rs, AutoRank(deposit, rs))
  {
    var s := StableSortDesc(rs, Level);
    StableSortSorted(rs, Level);
    StableSortPermutes(rs, Level);
    ScanChoosesAutoRank(deposit, rs, s, FirstQualifying(s, deposit));
  }

  /** If `t[p]` is the first ranking of level `L` in `t` that the deposit
      reaches, it is the first such ranking among the level-`L` entries. */
  lemma {:induction false} FirstQualifyingTie(t: seq<Ranking>, deposit: int, L: int, p: nat)
    requires p < |t| && Qualifies(t[p], deposit) && t[p].level == L
    requires forall k :: 0 <= k < p && t[k].level == L ==> !Qualifies(t[k], deposit)
    ensures var c := Ties(t, Level, L);
            FirstQualifying(c, deposit) < |c| && c[FirstQualifying(c, deposit)] == t[p]
    decreases p
  {
    var c := Ties(t, Level, L);
    var c' := Ties(t[1..], Level, L);
    TiesCons(t[0], t[1..], Level, L);
    assert [t[0]] + t[1..] == t;
    if p == 0 {
      assert c == [t[0]] + c';
      FirstQualifyingCons(t[0], c', deposit);
    } else {
      FirstQualifyingTie(t[1..], deposit, L, p - 1);
      assert t[1..][p - 1] == t[p];
      if t[0].level == L {
        assert c == [t[0]] + c';
        FirstQualifyingCons(t[0], c', deposit);
      } else {
        assert c == c';
      }
    }
  }

  lemma FirstQualifyingCons(y: Ranking, r: seq<Ranking>, deposit: int)
    ensures FirstQualifying([y] + r, deposit) == if Qualifies(y, deposit) then 0 else 1 + FirstQualifying(r, deposit)
  {
    assert ([y] + r)[1..] == r;
  }

  /** If `t[p]` is the last ranking of level `L` in `t`, it is the last of
      the level-`L` entries. */
  lemma LastTie(t: seq<Ranking>, L: int, p: nat)
    requires p < |t| && t[p].level == L
    requires forall k :: p < k < |t| ==> t[k].level != L
    ensures var c := Ties(t, Level, L); |c| > 0 && c[|c| - 1] == t[p]
  {
    assert t == t[..p] + ([t[p]] + t[p + 1..]);
    TiesAppend(t[..p], [t[p]] + t[p + 1..], Level, L);
    TiesCons(t[p], t[p + 1..], Level, L);
    TiesAbsent(t[p + 1..], Level, L);
  }

  /** In a level-descending rearrangement `s` of `rs`, the first ranking
      the deposit reaches has the level of a highest qualifying ranking
      `rs[i]`. */
  lemma ScanStopsAtTopLevel(deposit: int, rs: seq<Ranking>, s: seq<Ranking>, i: nat)
    requires SortedDesc(s, Level) && multiset(s) == multiset(rs)
    requires i < |rs| && Qualifies(rs[i], deposit)
    requires forall j :: 0 <= j < |rs| && Qualifies(rs[j], deposit) ==> rs[j].level <= rs[i].level
    ensures FirstQualifying(s, deposit) < |s|
    ensures s[FirstQualifying(s, deposit)].level == rs[i].level
  {
    assert rs[i] in multiset(s);
    var k :| 0 <= k < |s| && s[k] == rs[i];
    var p := FirstQualifying(s, deposit);
    assert p <= k;
    assert s[p] in multiset(rs);
    var t :| 0 <= t < |rs| && rs[t] == s[p];
    assert Level(s[p]) >= Level(s[k]);
  }

  /** When the deposit reaches nothing, the last entry of a level-descending
      rearrangement `s` of `rs` has the level of a lowest ranking `rs[i]`. */
  lemma ScanFallsToLowestLevel(deposit: int, rs: seq<Ranking>, s: seq<Ranking>, i: nat)
    requires SortedDesc(s, Level) && multiset(s) == multiset(rs)
    requires forall j :: 0 <= j < |rs| ==> !Qualifies(rs[j], deposit)
    requires i < |rs| && forall j :: 0 <= j < |rs| ==> rs[i].level <= rs[j].level
    ensures FirstQualifying(s, deposit) == |s| && |s| > 0
    ensures s[|s| - 1].level == rs[i].level
  {
    var n := |s|;
    forall k | 0 <= k < n ensures !Qualifies(s[k], deposit) {
      assert s[k] in multiset(rs);
    }
    assert rs[i] in multiset(s);
    var k :| 0 <= k < n && s[k] == rs[i];
    assert s[n - 1] in multiset(rs);
    var t :| 0 <= t < |rs| && rs[t] == s[n - 1];
    assert k == n - 1 || Level(s[k]) >= Level(s[n - 1]);
  }

  /** Ties among the highest qualifying level go to the first of them in
      table order, since the stable sort keeps that order. */
  lemma AutoRankFirstOfTopLevel(deposit: int, rs: seq<Ranking>, i: nat)
    requires i < |rs| && Qualifies(rs[i], deposit)
    requires forall j :: 0 <= j < |rs| && Qualifies(rs[j], deposit) ==> rs[j].level <= rs[i].level
    requires forall j :: 0 <= j < i && Qualifies(rs[j], deposit) ==> rs[j].level != rs[i].level
    ensures AutoRank(deposit, rs) == rs[i].name
  {
    var s := StableSortDesc(rs, Level);
    var L := rs[i].level;
    StableSortSorted(rs, Level);
    StableSortPermutes(rs, Level);
    ScanStopsAtTopLevel(deposit, rs, s, i);
    FirstQualifyingTie(s, deposit, L, FirstQualifying(s, deposit));
    FirstQualifyingTie(rs, deposit, L, i);
    StableSortTies(rs, Level, L);
  }

  /** When the deposit reaches no ranking, ties among the lowest level go
      to the last of them in table order. */
  lemma AutoRankLastOfLowest(deposit: int, rs: seq<Ranking>, i: nat)
    requires forall j :: 0 <= j < |rs| ==> !Qualifies(rs[j], deposit)
    requires i < |rs| && forall j :: 0 <= j < |rs| ==> rs[i].level <= rs[j].level
    requires forall j :: i < j < |rs| ==> rs[j].level != rs[i].level
    ensures AutoRank(deposit, rs) == (if rs[i].name == "" then "welcome" else rs[i].name)
  {
    var s := StableSortDesc(rs, Level);
    var L := rs[i].level;
    StableSortSorted(rs, Level);
    StableSortPermutes(rs, Level);
    ScanFallsToLowestLevel(deposit, rs, s, i);
    LastTie(s, L, |s| - 1);
    LastTie(rs, L, i);
    StableSortTies(rs, Level, L);
  }

  /** A scan of the stable sort that stops at the first ranking the
      deposit reaches yields the auto rank. */
  lemma ScanIsAutoRank(deposit: int, rs: seq<Ranking>, s: seq<Ranking>, i: nat)
    requires s == StableSortDesc(rs, Level)
    requires i <= |s| && (i < |s| ==> Qualifies(s[i], deposit))
    requires forall k :: 0 <= k < i ==> !Qualifies(s[k], deposit)
    ensures ScanName(s, i) == AutoRank(deposit, rs)
    ensures IsAutoRank(deposit, rs, ScanName(s, i))
  {
    assert i == FirstQualifying(s, deposit);
    AutoRankIsAutoRank(deposit, rs);
  }

  /** The rank table from `sortedRankings`: copy the table, sort the copy by
      level (highest first) and return the first name the deposit reaches,
      else the last entry's name or `'welcome'`. */
  method RankFromTable(deposit: int, rankings: seq<Ranking>) returns (name: string)
    ensures name == AutoRank(deposit, rankings)
    ensures IsAutoRank(deposit, rankings, name)
  {
    var a := new Ranking[|rankings|](i requires 0 <= i < |rankings| => rankings[i]);
    assert a[..] == rankings;
    SortDescending(a, Level);
    var s := a[..];
    var i := 0;
    while i < |s| && deposit < s[i].minimumDeposit
      invariant 0 <= i <= |s|
      invariant forall k :: 0 <= k < i ==> !Qualifies(s[k], deposit)
    {
      i := i + 1;
    }
    if i < |s| {
      name := s[i].name;
    } else if |s| == 0 || s[|s| - 1].name == "" {
      name := "welcome";
    } else {
      name := s[|s| - 1].name;
    }
    assert name == ScanName(s, i);
    ScanIsAutoRank(deposit, rankings, s, i);
  }

  /** How the lookups inside `calculateAutoRank` turned out: one of them
      threw, or they found the util document's `defaultRankings` (`None`
      when there is no util document). */
  datatype RankSource = LookupFailed | Looked(defaults: Option<seq<Ranking>>)

  /** The table `calculateAutoRank` uses: the user's custom rankings when
      there are any, else the util document's default rankings (an empty
      array included), else the hardcoded table. */
  function RankingsFor(user: Option<User>, defaults: Option<seq<Ranking>>): seq<Ranking> {
    if user.Some? && |user.value.customRankings| > 0 then user.value.customRankings
    else if defaults.Some? then defaults.value
    else HardcodedRankings()
  }

  /** What `calculateAutoRank` returns: the threshold chain when a lookup
      threw, else the auto rank of the table in force. */
  ghost predicate IsCalculatedRank(deposit: int, user: Option<User>, source: RankSource, name: string) {
    match source
    case LookupFailed => name == FallbackRank(deposit)
    case Looked(defaults) => name == AutoRank(deposit, RankingsFor(user, defaults))
  }

  /** `calculateAutoRank(depositAmount, userEmail)`, given the user the
      e-mail finds and the outcome of the lookups. */
  method CalculateAutoRank(deposit: int, user: Option<User>, source: RankSource) returns (name: string)
    ensures source.LookupFailed? ==> name == FallbackRank(deposit)
    ensures source.Looked? ==> name == AutoRank(deposit, RankingsFor(user, source.defaults))
    ensures source.Looked? ==> IsAutoRank(deposit, RankingsFor(user, source.defaults), name)
    ensures IsCalculatedRank(deposit, user, source, name)
  {
    if source.LookupFailed? {
      return FallbackRank(deposit);
    }
    name := RankFromTable(deposit, RankingsFor(user, source.defaults));
  }

  /** The position in the hardcoded table of the threshold the chain of
      the error path picks for a non-negative deposit. */
  function HardcodedIndex(deposit: int): (k: nat)
    requires deposit >= 0
    ensures k < |HardcodedRankings()|
    ensures Qualifies(HardcodedRankings()[k], deposit)
    ensures k + 1 < |HardcodedRankings()| ==> !Qualifies(HardcodedRankings()[k + 1], deposit)
    ensures HardcodedRankings()[k].name == FallbackRank(deposit)
  {
    if deposit >= 1000000 then 6 else if deposit >= 500000 then 5
    else if deposit >= 100000 then 4 else if deposit >= 50000 then 3
    else if deposit >= 25000 then 2 else if deposit >= 5000 then 1 else 0
  }

  /** In a table whose levels follow the positions and whose thresholds
      rise, a qualifying ranking of level at least that of the last
      qualifying position `k` is the one at `k`. */
  lemma HighestQualifierIsLast(deposit: int, rs: seq<Ranking>, i: nat, k: nat)
    requires forall j :: 0 <= j < |rs| ==> rs[j].level == j + 1
    requires forall p, q :: 0 <= p < q < |rs| ==> rs[p].minimumDeposit < rs[q].minimumDeposit
    requires k < |rs| && (k + 1 < |rs| ==> !Qualifies(rs[k + 1], deposit))
    requires i < |rs| && Qualifies(rs[i], deposit) && rs[k].level <= rs[i].level
    ensures i == k
  {
    forall q | k < q < |rs| ensures !Qualifies(rs[q], deposit) {
      assert rs[k + 1].minimumDeposit <= rs[q].minimumDeposit;
    }
  }

  /** A negative deposit reaches no hardcoded threshold, and the lowest
      level is `'welcome'`. */
  lemma HardcodedBelowAll(deposit: int, name: string)
    requires deposit < 0
    requires IsAutoRank(deposit, HardcodedRankings(), name)
    ensures name == "welcome"
  {
    var rs := HardcodedRankings();
    assert !Qualifies(rs[0], deposit);
    assert !exists j :: 0 <= j < |rs| && Qualifies(rs[j], deposit);
    var i :| 0 <= i < |rs| && (forall j :: 0 <= j < |rs| ==> rs[i].level <= rs[j].level)
             && name == (if rs[i].name == "" then "welcome" else rs[i].name);
    assert rs[i].level <= rs[0].level;
  }

  /** A non-negative deposit is ranked by the highest hardcoded threshold
      it reaches. */
  lemma HardcodedReached(deposit: int, name: string)
    requires deposit >= 0
    requires IsAutoRank(deposit, HardcodedRankings(), name)
    ensures name == FallbackRank(deposit)
  {
    var rs := HardcodedRankings();
    var k := HardcodedIndex(deposit);
    var i :| 0 <= i < |rs| && Qualifies(rs[i], deposit) && rs[i].name == name
             && forall j :: 0 <= j < |rs| && Qualifies(rs[j], deposit) ==> rs[j].level <= rs[i].level;
    HighestQualifierIsLast(deposit, rs, i, k);
  }

  /** On the hardcoded table the rank calculation agrees with the threshold
      chain of the error path. */
  lemma HardcodedAgreesWithFallback(deposit: int, name: string)
    requires IsAutoRank(deposit, HardcodedRankings(), name)
    ensures name == FallbackRank(deposit)
  {
    if deposit < 0 {
      HardcodedBelowAll(deposit, name);
    } else {
      HardcodedReached(deposit, name);
    }
  }

  /** With no util document and no custom rankings the hardcoded table is
      used; an empty default table (a util document without rankings)
      gives `'welcome'`. */
  lemma EmptyDefaultsGiveWelcome(deposit: int, user: Option<User>, name: string)
    requires user.None? || |user.value.customRankings| == 0
    requires IsAutoRank(deposit, RankingsFor(user, Some([])), name)
    ensures name == "welcome"
  {
  }
  /** The table the comments describe: the util document's default
      rankings only when it holds some, the hardcoded table otherwise. A
      util document always carries `defaultRankings`, an empty array when
      no ranking was ever stored, and an empty array is truthy, so the
      `||` of the source never reaches the hardcoded table once a util
      document exists. */
  function IntendedRankingsFor(user: Option<User>, defaults: Option<seq<Ranking>>): (rs: seq<Ranking>)
    ensures |rs| > 0
    ensures defaults.Some? && |defaults.value| == 0 && (user.None? || |user.value.customRankings| == 0) ==>
              rs == HardcodedRankings()
    ensures |RankingsFor(user, defaults)| > 0 ==> rs == RankingsFor(user, defaults)
  {
    if user.Some? && |user.value.customRankings| > 0 then user.value.customRankings
    else if defaults.Some? && |defaults.value| > 0 then defaults.value
    else HardcodedRankings()
  }

  /** With the intended table an empty default table ranks by the
      threshold chain, so a large deposit is no longer ranked `'welcome'`. */
  lemma IntendedEmptyDefaultsFollowDeposit(deposit: int, user: Option<User>, name: string)
    requires user.None? || |user.value.customRankings| == 0
    requires IsAutoRank(deposit, IntendedRankingsFor(user, Some([])), name)
    ensures name == FallbackRank(deposit)
    ensures deposit >= 5000 ==> name != "welcome"
  {
    HardcodedAgreesWithFallback(deposit, name);
  }
}
