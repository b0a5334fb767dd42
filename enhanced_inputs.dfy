/** The data loaders of the win-probability model, on rows already read
  * from their files: season FIP by pitcher id and by name with an
  * innings-weighted league average, rolling FIP, team bullpen FIP, the
  * ballpark distance table and the season's park factors. A missing file
  * is `None`. */
module EnhancedInputs {
  import opened Wrappers
  import opened PairTables
  import opened Weighted
  import opened TeamCodes
  import Parks = ParkFactors

  const DEFAULT_LEAGUE_FIP: real := 4.00
  /** Innings a pitcher needs to count toward the league average. */
  const MIN_LEAGUE_IP: real := 10.0
  /** Prior starts a rolling FIP needs to be loaded. */
  const MIN_ROLLING_STARTS: int := 3

  // Season FIP.

  /** One row of the season FIP file; `name` is already stripped. */
  datatype FipRow = FipRow(pitcherId: int, fip: real, ip: real, name: string)

  /** The loaded tables: (FIP, innings) by id and by normalised name, and the
    * league average, which fails when it would divide by zero. */
  datatype FipData = FipData(byId: map<int, (real, real)>, byName: map<string, (real, real)>, lgFip: Result<real>)

  function Always(r: FipRow): bool { true }
  function HasName(r: FipRow): bool { r.name != "" }
  function PitcherId(r: FipRow): int { r.pitcherId }
  function FipAndIp(r: FipRow): (real, real) { (r.fip, r.ip) }

  /** The name key: the row's name under the model's name normalisation. */
  function NameKey(normalize: string -> string): FipRow -> string
  {
    (r: FipRow) => normalize(r.name)
  }

  /** The rows that count toward the league average, as (FIP, innings). */
  function LeagueRows(rows: seq<FipRow>): seq<Rated>
  {
    if |rows| == 0 then []
    else
      var r := rows[|rows| - 1];
      LeagueRows(rows[..|rows| - 1]) + (if r.ip >= MIN_LEAGUE_IP then [Rated(r.fip, r.ip)] else [])
  }

  function FipDataOf(rows: seq<FipRow>, normalize: string -> string): FipData
  {
    FipData(PairsToMap(Keyed(rows, Always, PitcherId, FipAndIp)),
            PairsToMap(Keyed(rows, HasName, NameKey(normalize), FipAndIp)),
            LeagueAverage(LeagueRows(rows), DEFAULT_LEAGUE_FIP))
  }

  /** `load_fip_data`: one pass over the rows; a later row for the same id
    * or name replaces an earlier one. */
  method LoadFipData(rows: seq<FipRow>, normalize: string -> string) returns (d: FipData)
    ensures d == FipDataOf(rows, normalize)
  {
    var byId: map<int, (real, real)> := map[];
    var byName: map<string, (real, real)> := map[];
    var lg: seq<Rated> := [];
    var i := 0;
    while i < |rows|
      invariant 0 <= i <= |rows|
      invariant byId == PairsToMap(Keyed(rows[..i], Always, PitcherId, FipAndIp))
      invariant byName == PairsToMap(Keyed(rows[..i], HasName, NameKey(normalize), FipAndIp))
      invariant lg == LeagueRows(rows[..i])
    {
      var r := rows[i];
      KeyedStep(rows, i, Always, PitcherId, FipAndIp);
      KeyedStep(rows, i, HasName, NameKey(normalize), FipAndIp);
      assert rows[..i + 1][..i] == rows[..i];
      byId := byId[r.pitcherId := (r.fip, r.ip)];
      if r.name != "" {
        byName := byName[normalize(r.name) := (r.fip, r.ip)];
      }
      if r.ip >= MIN_LEAGUE_IP {
        lg := lg + [Rated(r.fip, r.ip)];
      }
      i := i + 1;
    }
    assert rows[..i] == rows;
    d := FipData(byId, byName, LeagueAverage(lg, DEFAULT_LEAGUE_FIP));
  }

  /** Every id in the file is loaded, with the FIP and innings of its last
    * row. */
  lemma FipByIdLastRow(rows: seq<FipRow>, normalize: string -> string, id: int)
    ensures id in FipDataOf(rows, normalize).byId <==> exists i :: 0 <= i < |rows| && rows[i].pitcherId == id
    ensures id in FipDataOf(rows, normalize).byId ==>
      exists i :: LastKept(rows, Always, PitcherId, i, id) && FipDataOf(rows, normalize).byId[id] == (rows[i].fip, rows[i].ip)
  {
    KeyedLastWins(rows, Always, PitcherId, FipAndIp, id);
  }

  /** Only rows with a name are loaded by name, under their normalised name. */
  lemma FipByNameLastRow(rows: seq<FipRow>, normalize: string -> string, key: string)
    ensures key in FipDataOf(rows, normalize).byName <==>
      exists i :: 0 <= i < |rows| && rows[i].name != "" && normalize(rows[i].name) == key
    ensures key in FipDataOf(rows, normalize).byName ==>
      exists i :: LastKept(rows, HasName, NameKey(normalize), i, key) &&
        FipDataOf(rows, normalize).byName[key] == (rows[i].fip, rows[i].ip)
  {
    KeyedLastWins(rows, HasName, NameKey(normalize), FipAndIp, key);
  }

  /** The league rows have innings of at least `MIN_LEAGUE_IP` and FIPs
    * within any bounds the qualifying file rows keep; there are none iff no
    * row qualifies. */
  lemma {:induction false} LeagueRowsFacts(rows: seq<FipRow>, lo: real, hi: real)
    requires forall i :: 0 <= i < |rows| && rows[i].ip >= MIN_LEAGUE_IP ==> lo <= rows[i].fip <= hi
    ensures forall j :: 0 <= j < |LeagueRows(rows)| ==> LeagueRows(rows)[j].weight >= MIN_LEAGUE_IP
    ensures Weighted.ValuesWithin(LeagueRows(rows), lo, hi)
    ensures LeagueRows(rows) == [] <==> forall i :: 0 <= i < |rows| ==> rows[i].ip < MIN_LEAGUE_IP
    decreases |rows|
  {
    if |rows| > 0 {
      var init := rows[..|rows| - 1];
      assert forall i :: 0 <= i < |init| ==> init[i] == rows[i];
      LeagueRowsFacts(init, lo, hi);
    }
  }

  /** The league FIP is the innings-weighted mean of the qualifying rows,
    * so it lies between their smallest and largest FIP; it is 4.00 when no
    * row qualifies, and it never fails. */
  lemma LeagueFipBetween(rows: seq<FipRow>, normalize: string -> string, lo: real, hi: real)
    requires forall i :: 0 <= i < |rows| && rows[i].ip >= MIN_LEAGUE_IP ==> lo <= rows[i].fip <= hi
    ensures FipDataOf(rows, normalize).lgFip.Ok?
    ensures (forall i :: 0 <= i < |rows| ==> rows[i].ip < MIN_LEAGUE_IP) ==>
      FipDataOf(rows, normalize).lgFip.value == DEFAULT_LEAGUE_FIP
    ensures (exists i :: 0 <= i < |rows| && rows[i].ip >= MIN_LEAGUE_IP) ==>
      lo <= FipDataOf(rows, normalize).lgFip.value <= hi
  {
    var lr := LeagueRows(rows);
    LeagueRowsFacts(rows, lo, hi);
    if lr != [] {
      TotalWeightPositive(lr, MIN_LEAGUE_IP);
      MeanBetween(lr, lo, hi);
    }
  }

  // Rolling FIP.

  /** One row of the rolling FIP file. */
  datatype RollingRow = RollingRow(pitcherId: int, date: string, fip: real, starts: int)

  function Reliable(r: RollingRow): bool { r.starts >= MIN_ROLLING_STARTS }
  function StartKey(r: RollingRow): (int, string) { (r.pitcherId, r.date) }
  function RollingFip(r: RollingRow): real { r.fip }

  /** `load_rolling_fip`: (pitcher, date) to rolling FIP, for rows with at
    * least three prior starts; empty when the file is missing. */
  function RollingOf(file: Option<seq<RollingRow>>): map<(int, string), real>
  {
    match file
    case None => map[]
    case Some(rows) => PairsToMap(Keyed(rows, Reliable, StartKey, RollingFip))
  }

  method LoadRollingFip(file: Option<seq<RollingRow>>) returns (rolling: map<(int, string), real>)
    ensures rolling == RollingOf(file)
  {
    rolling := map[];
    if file.Some? {
      var rows := file.value;
      var i := 0;
      while i < |rows|
        invariant 0 <= i <= |rows|
        invariant rolling == PairsToMap(Keyed(rows[..i], Reliable, StartKey, RollingFip))
      {
        KeyedStep(rows, i, Reliable, StartKey, RollingFip);
        var r := rows[i];
        if r.starts >= MIN_ROLLING_STARTS {
          rolling := rolling[(r.pitcherId, r.date) := r.fip];
        }
        i := i + 1;
      }
      assert rows[..i] == rows;
    }
  }

  /** A rolling FIP is loaded for (pitcher, date) iff some row for it has at
    * least three prior starts, and it is the last such row's FIP. */
  lemma RollingNeedsThreeStarts(rows: seq<RollingRow>, key: (int, string))
    ensures key in RollingOf(Some(rows)) <==>
      exists i :: 0 <= i < |rows| && rows[i].starts >= MIN_ROLLING_STARTS && (rows[i].pitcherId, rows[i].date) == key
    ensures key in RollingOf(Some(rows)) ==>
      exists i :: LastKept(rows, Reliable, StartKey, i, key) && RollingOf(Some(rows))[key] == rows[i].fip
  {
    KeyedLastWins(rows, Reliable, StartKey, RollingFip, key);
  }

  // Bullpen FIP.

  /** One row of the bullpen file: a full team name, its bullpen FIP and
    * innings. */
  datatype BullpenRow = BullpenRow(team: string, fip: real, ip: real)

  function MlbTeam(r: BullpenRow): bool { r.team in TeamNameToAbbrev() }
  function BullpenCode(r: BullpenRow): string
  {
    if r.team in TeamNameToAbbrev() then TeamNameToAbbrev()[r.team] else ""
  }
  function BullpenFip(r: BullpenRow): real { r.fip }

  /** The rows of major-league clubs, as (FIP, innings). */
  function BullpenRows(rows: seq<BullpenRow>): seq<Rated>
  {
    if |rows| == 0 then []
    else
      var r := rows[|rows| - 1];
      BullpenRows(rows[..|rows| - 1]) + (if MlbTeam(r) then [Rated(r.fip, r.ip)] else [])
  }

  /** `load_bullpen_fip`: club code to bullpen FIP for the rows naming a
    * major-league club, and their innings-weighted average FIP (which fails
    * when those innings sum to zero); `({}, 4.00)` when the file is missing. */
  function BullpenOf(file: Option<seq<BullpenRow>>): (map<string, real>, Result<real>)
  {
    match file
    case None => (map[], Ok(DEFAULT_LEAGUE_FIP))
    case Some(rows) =>
      (PairsToMap(Keyed(rows, MlbTeam, BullpenCode, BullpenFip)), LeagueAverage(BullpenRows(rows), DEFAULT_LEAGUE_FIP))
  }

  method LoadBullpenFip(file: Option<seq<BullpenRow>>) returns (bp: map<string, real>, lgAvg: Result<real>)
    ensures (bp, lgAvg) == BullpenOf(file)
  {
    bp := map[];
    if file.None? {
      lgAvg := Ok(DEFAULT_LEAGUE_FIP);
      return;
    }
    var rows := file.value;
    var lg: seq<Rated> := [];
    var i := 0;
    while i < |rows|
      invariant 0 <= i <= |rows|
      invariant bp == PairsToMap(Keyed(rows[..i], MlbTeam, BullpenCode, BullpenFip))
      invariant lg == BullpenRows(rows[..i])
    {
      KeyedStep(rows, i, MlbTeam, BullpenCode, BullpenFip);
      assert rows[..i + 1][..i] == rows[..i];
      var r := rows[i];
      if r.team in TeamNameToAbbrev() {
        bp := bp[TeamNameToAbbrev()[r.team] := r.fip];
        lg := lg + [Rated(r.fip, r.ip)];
      }
      i := i + 1;
    }
    assert rows[..i] == rows;
    lgAvg := LeagueAverage(lg, DEFAULT_LEAGUE_FIP);
  }

  /** Only major-league clubs are loaded, each under its canonical code;
    * minor-league and foreign rows are skipped. */
  lemma BullpenKeysCanonical(rows: seq<BullpenRow>, code: string)
    ensures code in BullpenOf(Some(rows)).0 ==> code in TeamLeague().Keys
    ensures code in BullpenOf(Some(rows)).0 <==>
      exists i :: 0 <= i < |rows| && rows[i].team in TeamNameToAbbrev() && TeamNameToAbbrev()[rows[i].team] == code
  {
    KeyedLastWins(rows, MlbTeam, BullpenCode, BullpenFip, code);
    NameTableBijective();
    if code in BullpenOf(Some(rows)).0 {
      var i :| 0 <= i < |rows| && MlbTeam(rows[i]) && BullpenCode(rows[i]) == code;
      assert TeamNameToAbbrev()[rows[i].team] in TeamNameToAbbrev().Values;
    }
  }

  // Ballpark data.

  /** One row of the distance file. */
  datatype DistanceRow = DistanceRow(teamA: string, teamB: string, miles: real)

  /** `load_ballpark_data`'s distances: each row is stored in both
    * directions. */
  function Distances(rows: seq<DistanceRow>): map<(string, string), real>
  {
    if |rows| == 0 then map[]
    else
      var r := rows[|rows| - 1];
      Distances(rows[..|rows| - 1])[(r.teamA, r.teamB) := r.miles][(r.teamB, r.teamA) := r.miles]
  }

  /** The distance table is symmetric, whatever order the rows come in. */
  lemma {:induction false} DistancesSymmetric(rows: seq<DistanceRow>, a: string, b: string)
    ensures (a, b) in Distances(rows) <==> (b, a) in Distances(rows)
    ensures (a, b) in Distances(rows) ==> Distances(rows)[(a, b)] == Distances(rows)[(b, a)]
    decreases |rows|
  {
    if |rows| > 0 {
      DistancesSymmetric(rows[..|rows| - 1], a, b);
    }
  }

  /** `load_park_factors`: the season's table, or the 2024 table for a season
    * with none. */
  function LoadParkFactors(season: int): (pf: map<string, int>)
    ensures pf == if season in Parks.ParkFactors() then Parks.ParkFactors()[season] else Parks.ParkFactors()[2024]
    ensures pf.Keys == TeamLeague().Keys && forall t :: t in pf ==> 94 <= pf[t] <= 113
  {
    Parks.ParkTablesCanonical();
    if season in Parks.ParkFactors() then Parks.ParkFactors()[season] else Parks.ParkFactors()[2024]
  }
}
