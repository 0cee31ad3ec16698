/**
 * Per-building consumption: ten fixed buildings, a consumption multiplier
 * chosen by the first keyword the name contains, raw figures drawn from
 * injected random draws, derived carbon, and a stable ranking by total
 * carbon, highest first.
 */
module Buildings {
  import opened Emissions

  const BuildingNames: seq<string> := [
    "Library", "Administration Building", "Teaching Building A", "Teaching Building B",
    "Student Dormitory Area 1", "Student Dormitory Area 2", "Cafeteria", "Laboratory A",
    "Laboratory B", "Gymnasium"]

  /** Each of the ten names occurs once in the list. */
  lemma BuildingNamesDistinct()
    ensures |BuildingNames| == 10
    ensures forall i, j :: 0 <= i < j < 10 ==> BuildingNames[i] != BuildingNames[j]
  {
  }

  // ---------------------------------------------------------------------
  // Substring classification

  /** pat occurs in s starting at index k. */
  predicate MatchesAt(s: string, pat: string, k: nat) {
    k + |pat| <= |s| && s[k..k + |pat|] == pat
  }

  /** String.prototype.includes. */
  predicate Includes(s: string, pat: string) {
    exists k :: 0 <= k <= |s| - |pat| && MatchesAt(s, pat, k)
  }

  /** Every character of an included pattern is a character of the string. */
  lemma IncludesHasChar(s: string, pat: string, j: nat)
    requires j < |pat|
    ensures Includes(s, pat) ==> pat[j] in s
  {
    if Includes(s, pat) {
      var k :| 0 <= k <= |s| - |pat| && MatchesAt(s, pat, k);
      assert s[k + j] == s[k..k + |pat|][j];
    }
  }

  predicate IsCafeteria(name: string) { Includes(name, "Cafeteria") }

  /**
   * The consumption multiplier: the first of Laboratory, Cafeteria,
   * Teaching and Dormitory the name contains decides, 1 otherwise.
   */
  function Multiplier(name: string): (m: real)
    ensures m == 1.8 <==> Includes(name, "Laboratory")
    ensures m == 1.5 <==> !Includes(name, "Laboratory") && Includes(name, "Cafeteria")
    ensures m == 1.3 <==> !Includes(name, "Laboratory") && !Includes(name, "Cafeteria")
                          && Includes(name, "Teaching")
    ensures m == 1.2 <==> !Includes(name, "Laboratory") && !Includes(name, "Cafeteria")
                          && !Includes(name, "Teaching") && Includes(name, "Dormitory")
    ensures m == 1.0 <==> !Includes(name, "Laboratory") && !Includes(name, "Cafeteria")
                          && !Includes(name, "Teaching") && !Includes(name, "Dormitory")
  {
    if Includes(name, "Laboratory") then 1.8
    else if Includes(name, "Cafeteria") then 1.5
    else if Includes(name, "Teaching") then 1.3
    else if Includes(name, "Dormitory") then 1.2
    else 1.0
  }

  /**
   * A name containing both Laboratory and Cafeteria takes the
   * earlier-checked Laboratory multiplier, yet still draws cafeteria gas.
   */
  lemma LaboratoryWinsOverCafeteria(name: string)
    requires Includes(name, "Laboratory") && Includes(name, "Cafeteria")
    ensures Multiplier(name) == 1.8 && IsCafeteria(name)
  {
  }

  /** A pattern with a character the string lacks is not included in it. */
  lemma Lacks(s: string, pat: string, j: nat)
    requires j < |pat| && pat[j] !in s
    ensures !Includes(s, pat)
  {
    IncludesHasChar(s, pat, j);
  }

  /** A name lacking a character of every keyword takes the default multiplier. */
  lemma NoKeyword(name: string, jl: nat, jc: nat, jt: nat, jd: nat)
    requires jl < 10 && "Laboratory"[jl] !in name
    requires jc < 9 && "Cafeteria"[jc] !in name
    requires jt < 8 && "Teaching"[jt] !in name
    requires jd < 9 && "Dormitory"[jd] !in name
    ensures Multiplier(name) == 1.0 && !IsCafeteria(name)
  {
    Lacks(name, "Laboratory", jl);
    Lacks(name, "Cafeteria", jc);
    Lacks(name, "Teaching", jt);
    Lacks(name, "Dormitory", jd);
  }

  /** A name with Teaching but without Laboratory or Cafeteria takes 1.3. */
  lemma TeachingKeyword(name: string)
    requires !Includes(name, "Laboratory") && !Includes(name, "Cafeteria")
    requires Includes(name, "Teaching")
    ensures Multiplier(name) == 1.3 && !IsCafeteria(name)
  {
  }

  /** A name with Dormitory and none of the earlier keywords takes 1.2. */
  lemma DormitoryKeyword(name: string)
    requires !Includes(name, "Laboratory") && !Includes(name, "Cafeteria") && !Includes(name, "Teaching")
    requires Includes(name, "Dormitory")
    ensures Multiplier(name) == 1.2 && !IsCafeteria(name)
  {
  }

  /** Library and Gymnasium match no keyword. */
  lemma LibraryAndGymnasiumMultipliers()
    ensures Multiplier(BuildingNames[0]) == 1.0 && !IsCafeteria(BuildingNames[0])
    ensures Multiplier(BuildingNames[9]) == 1.0 && !IsCafeteria(BuildingNames[9])
  {
    NoKeyword(BuildingNames[0], 3, 0, 0, 0);
    NoKeyword(BuildingNames[9], 0, 0, 0, 0);
  }

  /** Administration Building matches no keyword. */
  lemma AdministrationMultiplier()
    ensures Multiplier(BuildingNames[1]) == 1.0 && !IsCafeteria(BuildingNames[1])
  {
    NoKeyword(BuildingNames[1], 0, 0, 0, 0);
  }

  /** Both teaching buildings take 1.3. */
  lemma TeachingMultipliers()
    ensures Multiplier(BuildingNames[2]) == 1.3 && !IsCafeteria(BuildingNames[2])
    ensures Multiplier(BuildingNames[3]) == 1.3 && !IsCafeteria(BuildingNames[3])
  {
    Lacks(BuildingNames[2], "Laboratory", 0);
    Lacks(BuildingNames[2], "Cafeteria", 0);
    assert MatchesAt(BuildingNames[2], "Teaching", 0);
    TeachingKeyword(BuildingNames[2]);
    Lacks(BuildingNames[3], "Laboratory", 0);
    Lacks(BuildingNames[3], "Cafeteria", 0);
    assert MatchesAt(BuildingNames[3], "Teaching", 0);
    TeachingKeyword(BuildingNames[3]);
  }

  /** Student Dormitory Area 1 takes 1.2. */
  lemma FirstDormitoryMultiplier()
    ensures Multiplier(BuildingNames[4]) == 1.2 && !IsCafeteria(BuildingNames[4])
  {
    Lacks(BuildingNames[4], "Laboratory", 0);
    Lacks(BuildingNames[4], "Cafeteria", 0);
    Lacks(BuildingNames[4], "Teaching", 0);
    assert MatchesAt(BuildingNames[4], "Dormitory", 8);
    DormitoryKeyword(BuildingNames[4]);
  }

  /** Student Dormitory Area 2 takes 1.2. */
  lemma SecondDormitoryMultiplier()
    ensures Multiplier(BuildingNames[5]) == 1.2 && !IsCafeteria(BuildingNames[5])
  {
    Lacks(BuildingNames[5], "Laboratory", 0);
    Lacks(BuildingNames[5], "Cafeteria", 0);
    Lacks(BuildingNames[5], "Teaching", 0);
    assert MatchesAt(BuildingNames[5], "Dormitory", 8);
    DormitoryKeyword(BuildingNames[5]);
  }

  /** The cafeteria takes 1.5, both laboratories 1.8. */
  lemma CafeteriaAndLaboratoryMultipliers()
    ensures Multiplier(BuildingNames[6]) == 1.5 && IsCafeteria(BuildingNames[6])
    ensures Multiplier(BuildingNames[7]) == 1.8 && !IsCafeteria(BuildingNames[7])
    ensures Multiplier(BuildingNames[8]) == 1.8 && !IsCafeteria(BuildingNames[8])
  {
    Lacks(BuildingNames[6], "Laboratory", 0);
    assert MatchesAt(BuildingNames[6], "Cafeteria", 0);
    assert MatchesAt(BuildingNames[7], "Laboratory", 0);
    Lacks(BuildingNames[7], "Cafeteria", 0);
    assert MatchesAt(BuildingNames[8], "Laboratory", 0);
    Lacks(BuildingNames[8], "Cafeteria", 0);
  }

  /** The multiplier of each fixed building, and which one is the dining facility. */
  function FixedMultiplier(k: nat): real
    requires k < 10
  {
    [1.0, 1.0, 1.3, 1.3, 1.2, 1.2, 1.5, 1.8, 1.8, 1.0][k]
  }

  lemma FixedMultipliers()
    ensures forall k :: 0 <= k < 10 ==> Multiplier(BuildingNames[k]) == FixedMultiplier(k)
    ensures forall k :: 0 <= k < 10 ==> (IsCafeteria(BuildingNames[k]) <==> k == 6)
  {
    LibraryAndGymnasiumMultipliers();
    AdministrationMultiplier();
    TeachingMultipliers();
    FirstDormitoryMultiplier();
    SecondDormitoryMultiplier();
    CafeteriaAndLaboratoryMultipliers();
  }

  // ---------------------------------------------------------------------
  // Building records

  datatype BuildingRecord = BuildingRecord(
    name: string,
    electricity: int,
    water: int,
    gas: int,
    carbon: Carbon)

  predicate CarbonDerived(b: BuildingRecord) {
    IsDerived(b.electricity, b.water, b.gas, b.carbon)
  }

  /** The record after the carbon fields are assigned from its raw figures. */
  function WithCarbon(b: BuildingRecord): (d: BuildingRecord)
    ensures CarbonDerived(d)
    ensures d.name == b.name && d.electricity == b.electricity && d.water == b.water && d.gas == b.gas
  {
    b.(carbon := Derive(b.electricity, b.water, b.gas))
  }

  /** Raw figures of one building from three random draws. */
  function BuildingUsage(name: string, r0: real, r1: real, r2: real): BuildingRecord {
    var m := Multiplier(name);
    BuildingRecord(
      name,
      Round((70000.0 + r0 * 50000.0) * m),
      Round((40000.0 + r1 * 20000.0) * m),
      if IsCafeteria(name) then Round(20000.0 + r2 * 10000.0) else Round(5000.0 + r2 * 5000.0),
      Unset)
  }

  /** A scaled draw lies between the scaled ends of its range. */
  lemma ScaledBetween(lo: real, span: real, r: real, m: real)
    requires 0.0 <= span && 0.0 <= r < 1.0 && 0.0 <= m
    ensures lo * m <= (lo + r * span) * m <= (lo + span) * m
  {
    assert (lo + r * span) * m - lo * m == r * (span * m);
    assert (lo + span) * m - (lo + r * span) * m == (1.0 - r) * (span * m);
    assert 0.0 <= span * m;
  }

  /**
   * Electricity lies in [round(70000 m), round(120000 m)] and water in
   * [round(40000 m), round(60000 m)] for the name's multiplier m; gas in
   * [20000, 30000] for the cafeteria and [5000, 10000] otherwise.
   */
  lemma BuildingUsageBounds(name: string, r0: real, r1: real, r2: real)
    requires 0.0 <= r0 < 1.0 && 0.0 <= r1 < 1.0 && 0.0 <= r2 < 1.0
    ensures var b := BuildingUsage(name, r0, r1, r2);
      var m := Multiplier(name);
      && Round(70000.0 * m) <= b.electricity <= Round(120000.0 * m)
      && Round(40000.0 * m) <= b.water <= Round(60000.0 * m)
      && if IsCafeteria(name) then 20000 <= b.gas <= 30000 else 5000 <= b.gas <= 10000
  {
    var m := Multiplier(name);
    ScaledBetween(70000.0, 50000.0, r0, m);
    RoundMonotone(70000.0 * m, (70000.0 + r0 * 50000.0) * m);
    RoundMonotone((70000.0 + r0 * 50000.0) * m, 120000.0 * m);
    ScaledBetween(40000.0, 20000.0, r1, m);
    RoundMonotone(40000.0 * m, (40000.0 + r1 * 20000.0) * m);
    RoundMonotone((40000.0 + r1 * 20000.0) * m, 60000.0 * m);
    RoundBetween(20000.0 + r2 * 10000.0, 20000, 30000);
    RoundBetween(5000.0 + r2 * 5000.0, 5000, 10000);
  }

  /** The buildings, in list order. */
  function Names(s: seq<BuildingRecord>): (names: seq<string>)
    ensures |names| == |s| && forall k :: 0 <= k < |s| ==> names[k] == s[k].name
  {
    seq(|s|, k requires 0 <= k < |s| => s[k].name)
  }

  /** The raw record of building k, drawing draws[3k], draws[3k+1] and draws[3k+2]. */
  function RawBuilding(draws: seq<real>, k: nat): BuildingRecord
    requires |draws| == 30 && k < 10
  {
    BuildingUsage(BuildingNames[k], draws[3 * k], draws[3 * k + 1], draws[3 * k + 2])
  }

  /** The ten records in list order, before ranking. */
  function Unranked(draws: seq<real>): seq<BuildingRecord>
    requires |draws| == 30
  {
    seq(10, k requires 0 <= k < 10 => WithCarbon(RawBuilding(draws, k)))
  }

  /**
   * The ranges of the k-th generated record, before ranking: electricity
   * and water scale with the building's fixed multiplier, and only the
   * cafeteria (k = 6) draws gas from [20000, 30000].
   */
  lemma UnrankedBounds(draws: seq<real>, k: nat)
    requires IsRandomStream(draws, 30) && k < 10
    ensures var b := Unranked(draws)[k];
      var m := FixedMultiplier(k);
      && b.name == BuildingNames[k]
      && Round(70000.0 * m) <= b.electricity <= Round(120000.0 * m)
      && Round(40000.0 * m) <= b.water <= Round(60000.0 * m)
      && if k == 6 then 20000 <= b.gas <= 30000 else 5000 <= b.gas <= 10000
  {
    assert 0.0 <= draws[3 * k] < 1.0 && 0.0 <= draws[3 * k + 1] < 1.0 && 0.0 <= draws[3 * k + 2] < 1.0;
    BuildingUsageBounds(BuildingNames[k], draws[3 * k], draws[3 * k + 1], draws[3 * k + 2]);
    FixedMultipliers();
  }

  // ---------------------------------------------------------------------
  // Ranking: Array.prototype.sort with (a, b) => b.totalCarbon - a.totalCarbon

  predicate SortedByCarbon(s: seq<BuildingRecord>) {
    forall i, j :: 0 <= i < j < |s| ==> s[i].carbon.total >= s[j].carbon.total
  }

  /** The records whose total carbon is t, in their order in s. */
  function WithTotal(s: seq<BuildingRecord>, t: int): seq<BuildingRecord>
    decreases |s|
  {
    if s == [] then []
    else WithTotal(s[..|s| - 1], t) + (if s[|s| - 1].carbon.total == t then [s[|s| - 1]] else [])
  }

  lemma WithTotalAppend(s: seq<BuildingRecord>, x: BuildingRecord, t: int)
    ensures WithTotal(s + [x], t) == WithTotal(s, t) + (if x.carbon.total == t then [x] else [])
  {
    assert (s + [x])[..|s|] == s;
  }

  /**
   * Inserts x into a ranked sequence after every record with at least its
   * total: the step of a stable insertion sort.
   */
  function Insert(s: seq<BuildingRecord>, x: BuildingRecord): seq<BuildingRecord>
    decreases |s|
  {
    if s == [] || s[|s| - 1].carbon.total >= x.carbon.total then s + [x]
    else Insert(s[..|s| - 1], x) + [s[|s| - 1]]
  }

  /** The stable ranking, highest total carbon first. */
  function RankByCarbon(s: seq<BuildingRecord>): seq<BuildingRecord>
    decreases |s|
  {
    if s == [] then [] else Insert(RankByCarbon(s[..|s| - 1]), s[|s| - 1])
  }

  lemma {:induction false} InsertPermutes(s: seq<BuildingRecord>, x: BuildingRecord)
    ensures multiset(Insert(s, x)) == multiset(s) + multiset{x}
    ensures multiset(Names(Insert(s, x))) == multiset(Names(s)) + multiset{x.name}
    decreases |s|
  {
    if s == [] || s[|s| - 1].carbon.total >= x.carbon.total {
      assert Names(s + [x]) == Names(s) + [x.name];
    } else {
      var init, y := s[..|s| - 1], s[|s| - 1];
      assert s == init + [y];
      assert Names(s) == Names(init) + [y.name];
      InsertPermutes(init, x);
      assert Names(Insert(init, x) + [y]) == Names(Insert(init, x)) + [y.name];
    }
  }

  lemma {:induction false} InsertSorted(s: seq<BuildingRecord>, x: BuildingRecord)
    requires SortedByCarbon(s)
    ensures SortedByCarbon(Insert(s, x))
    decreases |s|
  {
    if s == [] || s[|s| - 1].carbon.total >= x.carbon.total {
    } else {
      var init, y := s[..|s| - 1], s[|s| - 1];
      InsertSorted(init, x);
      InsertPermutes(init, x);
      var r := Insert(init, x);
      forall k | 0 <= k < |r| ensures r[k].carbon.total >= y.carbon.total {
        assert r[k] in multiset(r);
        assert r[k] in multiset(init) || r[k] == x;
      }
    }
  }

  lemma {:induction false} InsertStable(s: seq<BuildingRecord>, x: BuildingRecord, t: int)
    ensures WithTotal(Insert(s, x), t) == WithTotal(s, t) + (if x.carbon.total == t then [x] else [])
    decreases |s|
  {
    if s == [] || s[|s| - 1].carbon.total >= x.carbon.total {
      WithTotalAppend(s, x, t);
    } else {
      var init, y := s[..|s| - 1], s[|s| - 1];
      assert s == init + [y];
      InsertStable(init, x, t);
      WithTotalAppend(Insert(init, x), y, t);
      WithTotalAppend(init, y, t);
    }
  }

  /** The ranking is non-increasing in total carbon. */
  lemma {:induction false} RankSorted(s: seq<BuildingRecord>)
    ensures SortedByCarbon(RankByCarbon(s))
    decreases |s|
  {
    if s != [] {
      RankSorted(s[..|s| - 1]);
      InsertSorted(RankByCarbon(s[..|s| - 1]), s[|s| - 1]);
    }
  }

  /** The ranking is a permutation of its input, and so of its names. */
  lemma {:induction false} RankPermutes(s: seq<BuildingRecord>)
    ensures multiset(RankByCarbon(s)) == multiset(s)
    ensures multiset(Names(RankByCarbon(s))) == multiset(Names(s))
    decreases |s|
  {
    if s != [] {
      var init, y := s[..|s| - 1], s[|s| - 1];
      assert s == init + [y];
      assert Names(s) == Names(init) + [y.name];
      RankPermutes(init);
      InsertPermutes(RankByCarbon(init), y);
    }
  }

  /** Records with equal total carbon keep their input order. */
  lemma {:induction false} RankStable(s: seq<BuildingRecord>, t: int)
    ensures WithTotal(RankByCarbon(s), t) == WithTotal(s, t)
    decreases |s|
  {
    if s != [] {
      RankStable(s[..|s| - 1], t);
      InsertStable(RankByCarbon(s[..|s| - 1]), s[|s| - 1], t);
    }
  }

  /** Stable insertion sort of the array in place, highest total carbon first. */
  method SortByCarbon(a: array<BuildingRecord>)
    modifies a
    ensures a[..] == RankByCarbon(old(a[..]))
  {
    ghost var input := a[..];
    var i := 0;
    while i < a.Length
      invariant 0 <= i <= a.Length
      invariant a[..i] == RankByCarbon(input[..i])
      invariant forall k :: i <= k < a.Length ==> a[k] == input[k]
    {
      assert input[..i + 1][..i] == input[..i] && input[i] == a[i];
      InsertStep(a, i);
      i := i + 1;
    }
    assert a[..] == a[..a.Length] && input == input[..a.Length];
  }

  /**
   * One pass of the insertion sort: a[i] moves left past every record of
   * a[..i] with a smaller total carbon.
   */
  method InsertStep(a: array<BuildingRecord>, i: nat)
    requires i < a.Length
    modifies a
    ensures a[..i + 1] == Insert(old(a[..i]), old(a[i]))
    ensures forall k :: i < k < a.Length ==> a[k] == old(a[k])
  {
    var x := a[i];
    ghost var ranked := a[..i];
    var j := i;
    while 0 < j && a[j - 1].carbon.total < x.carbon.total
      invariant 0 <= j <= i
      invariant forall k :: 0 <= k < j ==> a[k] == ranked[k]
      invariant forall k :: j < k <= i ==> a[k] == ranked[k - 1]
      invariant forall k :: i < k < a.Length ==> a[k] == old(a[k])
      invariant forall k :: j <= k < i ==> ranked[k].carbon.total < x.carbon.total
    {
      a[j] := a[j - 1];
      j := j - 1;
    }
    a[j] := x;
    InsertedAt(ranked, j, x, a[..i + 1]);
  }

  /**
   * A sequence that holds ranked with x placed at index j, just after the
   * last record with at least x's total carbon, is Insert(ranked, x).
   */
  lemma InsertedAt(ranked: seq<BuildingRecord>, j: nat, x: BuildingRecord, placed: seq<BuildingRecord>)
    requires j <= |ranked| && |placed| == |ranked| + 1
    requires j == 0 || ranked[j - 1].carbon.total >= x.carbon.total
    requires forall k :: j <= k < |ranked| ==> ranked[k].carbon.total < x.carbon.total
    requires forall k :: 0 <= k < j ==> placed[k] == ranked[k]
    requires placed[j] == x
    requires forall k :: j < k < |placed| ==> placed[k] == ranked[k - 1]
    ensures placed == Insert(ranked, x)
  {
    InsertSplit(ranked, j, x);
    assert placed == ranked[..j] + [x] + ranked[j..];
  }

  /**
   * Insert places x just after the last record with at least its total
   * carbon, when every later record has less.
   */
  lemma {:induction false} InsertSplit(s: seq<BuildingRecord>, j: nat, x: BuildingRecord)
    requires j <= |s|
    requires j == 0 || s[j - 1].carbon.total >= x.carbon.total
    requires forall k :: j <= k < |s| ==> s[k].carbon.total < x.carbon.total
    ensures Insert(s, x) == s[..j] + [x] + s[j..]
    decreases |s| - j
  {
    if j == |s| {
      assert s[..j] == s && s[j..] == [];
    } else {
      var init := s[..|s| - 1];
      InsertSplit(init, j, x);
      assert init[..j] == s[..j];
      assert init[j..] + [s[|s| - 1]] == s[j..];
    }
  }

  /**
   * The ranking of derived records: as many records, non-increasing in
   * total carbon, the same names, ties in input order, all still derived.
   */
  lemma RankedFacts(s: seq<BuildingRecord>)
    requires forall k :: 0 <= k < |s| ==> CarbonDerived(s[k])
    ensures var ranked := RankByCarbon(s);
      && |ranked| == |s| && SortedByCarbon(ranked)
      && multiset(Names(ranked)) == multiset(Names(s))
      && (forall t :: WithTotal(ranked, t) == WithTotal(s, t))
      && forall k :: 0 <= k < |ranked| ==> CarbonDerived(ranked[k])
  {
    var ranked := RankByCarbon(s);
    RankSorted(s);
    RankPermutes(s);
    assert |ranked| == |multiset(ranked)| == |multiset(s)| == |s|;
    forall t ensures WithTotal(ranked, t) == WithTotal(s, t) {
      RankStable(s, t);
    }
    forall k | 0 <= k < |ranked| ensures CarbonDerived(ranked[k]) {
      assert ranked[k] in multiset(s);
    }
  }

  /** The unranked records carry the ten names in list order, each derived. */
  lemma UnrankedShape(draws: seq<real>)
    requires |draws| == 30
    ensures |Unranked(draws)| == 10 && Names(Unranked(draws)) == BuildingNames
    ensures forall k :: 0 <= k < 10 ==> CarbonDerived(Unranked(draws)[k])
  {
    assert Names(Unranked(draws)) == BuildingNames;
  }

  /**
   * generateBuildingData: map the ten names to raw records, assign their
   * carbon fields in place, then sort by total carbon, highest first.
   */
  method GenerateBuildingData(draws: seq<real>) returns (buildings: seq<BuildingRecord>)
    requires IsRandomStream(draws, 30)
    ensures buildings == RankByCarbon(Unranked(draws))
    ensures |buildings| == 10 && SortedByCarbon(buildings)
    ensures multiset(Names(buildings)) == multiset(BuildingNames)
    ensures forall t :: WithTotal(buildings, t) == WithTotal(Unranked(draws), t)
    ensures forall k :: 0 <= k < 10 ==> CarbonDerived(buildings[k])
  {
    var a := new BuildingRecord[10](k requires 0 <= k < 10 => RawBuilding(draws, k));
    for k := 0 to 10
      invariant forall n :: 0 <= n < k ==> a[n] == WithCarbon(RawBuilding(draws, n))
      invariant forall n :: k <= n < 10 ==> a[n] == RawBuilding(draws, n)
    {
      a[k] := WithCarbon(a[k]);
    }
    assert a[..] == Unranked(draws);
    SortByCarbon(a);
    buildings := a[..];
    UnrankedShape(draws);
    RankedFacts(Unranked(draws));
  }
}
