/** The enhanced win-probability model: Elo ratings replayed through a
  * season, with each game's probability built from the pre-game ratings
  * plus rating-point adjustments for the starting pitchers' FIP, bullpen
  * FIP, the park, eastward travel and injured WAR, then shrunk toward one
  * half. The ratings themselves are updated from the unadjusted values. */
module EnhancedModel {
  import opened RealMath
  import opened Wrappers
  import opened Sums
  import opened Elo
  import opened Weighted
  import opened ModelSchedule
  import opened Travel
  import opened SeasonReplay
  import Fip = SharedFip
  import Rounding
  import In = EnhancedInputs
  import TeamCodes

  // Parameters and features.

  const FIP_WEIGHT: real := 50.0
  const FIP_PRIOR_IP: real := 50.0
  const INJURY_WAR_WEIGHT: real := 5.0
  const BULLPEN_FIP_WEIGHT: real := 15.0
  const PARK_FACTOR_SCALE: real := 1.0
  const NEUTRAL_PARK: int := 100

  /** The module-level tunables the parameter sweep overwrites. */
  datatype Params = Params(fipWeight: real, fipPriorIp: real, travelPenalty: real,
                           bullpenWeight: real, parkScale: real, shrinkage: real)

  const DEFAULTS: Params := Params(FIP_WEIGHT, FIP_PRIOR_IP, TRAVEL_PENALTY, BULLPEN_FIP_WEIGHT,
                                   PARK_FACTOR_SCALE, Fip.PROB_SHRINKAGE)

  /** The `use_*` switches of a run. */
  datatype Features = Features(fip: bool, rollingFip: bool, bullpen: bool, park: bool,
                               travel: bool, injuries: bool)

  /** Which inputs a run found: the season FIP file, a non-empty bullpen
    * table, a non-empty park table, non-empty distances, the injury file. */
  datatype Availability = Availability(fipFile: bool, bullpen: bool, parks: bool,
                                       distances: bool, injuryFile: bool)

  /** The switches after loading: a feature whose data is missing is turned
    * off; a missing FIP file turns off both FIP features. */
  function ResolveFeatures(req: Features, av: Availability): (f: Features)
    ensures f.fip ==> req.fip && f.rollingFip ==> req.rollingFip && f.bullpen ==> req.bullpen
    ensures f.park ==> req.park && f.travel ==> req.travel && f.injuries ==> req.injuries
    ensures !av.fipFile ==> !f.fip && !f.rollingFip
    ensures av.fipFile ==> f.fip == req.fip && f.rollingFip == req.rollingFip
    ensures f.bullpen <==> req.bullpen && av.bullpen
    ensures f.park <==> req.park && av.parks
    ensures f.travel <==> req.travel && av.distances
    ensures f.injuries <==> req.injuries && av.injuryFile
  {
    Features(req.fip && av.fipFile, req.rollingFip && av.fipFile, req.bullpen && av.bullpen,
             req.park && av.parks, req.travel && av.distances, req.injuries && av.injuryFile)
  }

  /** The availability the loaders of `EnhancedInputs` report: the season
    * FIP file exists, the bullpen table (`BullpenOf`) is non-empty, the park
    * table (`LoadParkFactors`) is non-empty, the distance table
    * (`Distances`) is non-empty, the injury file exists. */
  function AvailabilityOf(fipFile: bool, bullpen: Option<seq<In.BullpenRow>>, season: int,
                          distances: seq<In.DistanceRow>, injuryFile: bool): Availability
  {
    Availability(fipFile, In.BullpenOf(bullpen).0 != map[], In.LoadParkFactors(season) != map[],
                 In.Distances(distances) != map[], injuryFile)
  }

  /** `load_park_factors` always returns a full table. */
  lemma ParksNeverEmpty(season: int)
    ensures In.LoadParkFactors(season) != map[]
  {
    var pf := In.LoadParkFactors(season);
    TeamCodes.MlbTablesSameKeys();
    assert |pf.Keys| == 30;
  }

  /** With the loaders' own outputs, the park feature is never switched off
    * (every season falls back to a full table), travel stays on exactly when
    * the distance file has a row, and bullpen exactly when some row names a
    * major-league club. */
  lemma LoadedFeatures(req: Features, fipFile: bool, bullpen: Option<seq<In.BullpenRow>>, season: int,
                       distances: seq<In.DistanceRow>, injuryFile: bool)
    ensures var f := ResolveFeatures(req, AvailabilityOf(fipFile, bullpen, season, distances, injuryFile));
      f.park == req.park &&
      (f.travel <==> req.travel && |distances| > 0) &&
      (f.bullpen <==> req.bullpen && In.BullpenOf(bullpen).0 != map[]) &&
      (f.injuries <==> req.injuries && injuryFile)
  {
    ParksNeverEmpty(season);
    if |distances| > 0 {
      var r := distances[|distances| - 1];
      assert (r.teamB, r.teamA) in In.Distances(distances);
    }
  }

  /** The loaded inputs of a run. Tables of a switched-off feature are not
    * consulted. `normalize` is the pitcher-name normalisation. The fields
    * are what `EnhancedInputs` loads: `byId`, `byName` and `lgFip` from
    * `FipDataOf`, `rolling` from `RollingOf`, `bullpen` and `lgBullpen` from
    * `BullpenOf`, `parks` from `LoadParkFactors`, `distances` from
    * `Distances`; `AvailabilityOf` reads the switches off the same loaders. */
  datatype Tables = Tables(
    byId: map<int, (real, real)>, byName: map<string, (real, real)>, lgFip: real,
    normalize: string -> string,
    rolling: map<(int, string), real>,
    bullpen: map<string, real>, lgBullpen: real,
    parks: map<string, int>,
    tz: map<string, int>, distances: map<(string, string), real>, prevVenue: map<(string, string), string>,
    injuryWar: map<string, real>)

  /** Park factors are positive, as every season table is. */
  predicate PositiveParks(t: Tables)
  {
    forall team :: team in t.parks ==> t.parks[team] > 0
  }

  // Starting pitchers.

  /** `(ip * raw + prior * lg) / (ip + prior)`: the pitcher's FIP pulled
    * toward the league figure by `prior` innings; it fails when the
    * innings and the prior sum to zero. */
  function ShrunkFip(raw: real, ip: real, lg: real, prior: real): (r: Result<real>)
    ensures r.Ok? <==> ip + prior != 0.0
  {
    PriorBlend(raw, ip, lg, prior)
  }

  /** For non-negative innings and prior, not both zero, the shrunk FIP lies
    * between the pitcher's own FIP and the league figure. */
  lemma ShrunkFipBetween(raw: real, ip: real, lg: real, prior: real)
    requires ip >= 0.0 && prior >= 0.0 && ip + prior > 0.0
    ensures ShrunkFip(raw, ip, lg, prior).Ok?
    ensures raw <= lg ==> raw <= ShrunkFip(raw, ip, lg, prior).value <= lg
    ensures lg <= raw ==> lg <= ShrunkFip(raw, ip, lg, prior).value <= raw
  {
    PriorBlendBetween(raw, ip, lg, prior);
  }

  /** A zero prior, which the first sweep tries, fails on a pitcher listed
    * with no innings. */
  lemma ZeroPriorFails(raw: real, lg: real)
    ensures ShrunkFip(raw, 0.0, lg, 0.0).Err?
  {
  }

  /** The blend as the prior range's "0 = no regression" reads: a zero
    * prior leaves the pitcher's own FIP as it is, innings or not; any
    * other prior blends as `ShrunkFip` does. */
  function ShrunkFipIntended(raw: real, ip: real, lg: real, prior: real): (r: real)
    ensures prior == 0.0 ==> r == raw
    ensures ip + prior != 0.0 ==> ShrunkFip(raw, ip, lg, prior) == Ok(r)
  {
    if prior == 0.0 then
      assert ip != 0.0 ==> PriorBlend(raw, ip, lg, prior) == Ok(raw) by {
        if ip != 0.0 {
          assert prior * lg == 0.0 && ip + prior == ip;
          Cancel(ip, raw);
        }
      }
      raw
    else if ip + prior == 0.0 then lg
    else PriorBlend(raw, ip, lg, prior).value
  }

  lemma Cancel(a: real, x: real)
    requires a != 0.0
    ensures (a * x) / a == x
  {
    assert (a * x) / a * a == a * x;
  }

  /** For non-negative innings and prior the intended blend never fails
    * and lies between the pitcher's own FIP and the league figure. */
  lemma ShrunkFipIntendedBetween(raw: real, ip: real, lg: real, prior: real)
    requires ip >= 0.0 && prior >= 0.0
    ensures raw <= lg ==> raw <= ShrunkFipIntended(raw, ip, lg, prior) <= lg
    ensures lg <= raw ==> lg <= ShrunkFipIntended(raw, ip, lg, prior) <= raw
  {
    if prior != 0.0 {
      ShrunkFipBetween(raw, ip, lg, prior);
    }
  }

  /** The season (FIP, innings) of a starter: by id, else by normalised
    * name when the schedule gives one. */
  function SeasonEntry(t: Tables, id: Option<int>, name: string): (e: Option<(real, real)>)
    ensures id.Some? && id.value in t.byId ==> e == Some(t.byId[id.value])
    ensures !(id.Some? && id.value in t.byId) && name != "" && t.normalize(name) in t.byName ==>
      e == Some(t.byName[t.normalize(name)])
    ensures e.None? <==> !(id.Some? && id.value in t.byId) && !(name != "" && t.normalize(name) in t.byName)
  {
    if id.Some? && id.value in t.byId then Some(t.byId[id.value])
    else if name != "" && t.normalize(name) in t.byName then Some(t.byName[t.normalize(name)])
    else None
  }

  /** Whether a rolling FIP is used for the starter: rolling FIP switched on,
    * a truthy id, and an entry for the id on the game date. */
  predicate UsesRolling(f: Features, t: Tables, id: Option<int>, date: string)
  {
    f.rollingFip && id.Some? && id.value != 0 && (id.value, date) in t.rolling
  }

  /** The starter's FIP, or `None` when there is no data for the pitcher. */
  function StarterFip(prior: real, f: Features, t: Tables, id: Option<int>, name: string, date: string): Result<Option<real>>
  {
    if UsesRolling(f, t, id, date) then Ok(Some(t.rolling[(id.value, date)]))
    else
      match SeasonEntry(t, id, name)
      case None => Ok(None)
      case Some(entry) =>
        var shrunk := ShrunkFip(entry.0, entry.1, t.lgFip, prior);
        if shrunk.Err? then Err(shrunk.error) else Ok(Some(shrunk.value))
  }

  /** A rolling FIP, when there is one for the starter and date, takes
    * precedence over the season figure; otherwise the season figure is
    * shrunk toward the league average, and a starter with no data gets
    * none. */
  lemma StarterFipPrecedence(prior: real, f: Features, t: Tables, id: Option<int>, name: string, date: string)
    ensures UsesRolling(f, t, id, date) ==> StarterFip(prior, f, t, id, name, date) == Ok(Some(t.rolling[(id.value, date)]))
    ensures !UsesRolling(f, t, id, date) && SeasonEntry(t, id, name).None? ==> StarterFip(prior, f, t, id, name, date) == Ok(None)
    ensures !UsesRolling(f, t, id, date) && SeasonEntry(t, id, name).Some? ==>
      var e := SeasonEntry(t, id, name).value;
      (StarterFip(prior, f, t, id, name, date).Ok? <==> ShrunkFip(e.0, e.1, t.lgFip, prior).Ok?) &&
      (StarterFip(prior, f, t, id, name, date).Ok? ==>
        StarterFip(prior, f, t, id, name, date).value == Some(ShrunkFip(e.0, e.1, t.lgFip, prior).value))
  {
  }

  /** Rating points for a starter: (league FIP - FIP) * weight, 0 without data. */
  function FipPoints(lg: real, fip: Option<real>, weight: real): (r: real)
    ensures fip.None? ==> r == 0.0
    ensures weight > 0.0 && fip.Some? ==> (r > 0.0 <==> fip.value < lg) && (r < 0.0 <==> fip.value > lg)
  {
    match fip
    case None => 0.0
    case Some(x) => ShiftSign(weight, lg - x); (lg - x) * weight
  }

  // Park, bullpen, injuries.

  /** The home park's multiplier on both pitching adjustments: 1.0 for a
    * neutral or unlisted park, else `100 / pf * scale + (1 - scale)`. */
  function ParkMultiplier(scale: real, t: Tables, home: string): (r: real)
    requires PositiveParks(t)
  {
    var pf := if home in t.parks then t.parks[home] else NEUTRAL_PARK;
    if pf != NEUTRAL_PARK then 100.0 / (pf as real) * scale + (1.0 - scale) else 1.0
  }

  /** A neutral or unlisted park changes nothing; with a scale in (0, 1] a
    * hitters' park (above 100) shrinks the pitching adjustments and a
    * pitchers' park enlarges them; scale 0 switches the effect off. */
  lemma ParkMultiplierFacts(scale: real, t: Tables, home: string)
    requires PositiveParks(t)
    ensures home !in t.parks || t.parks[home] == NEUTRAL_PARK ==> ParkMultiplier(scale, t, home) == 1.0
    ensures scale == 0.0 ==> ParkMultiplier(scale, t, home) == 1.0
    ensures 0.0 < scale <= 1.0 && home in t.parks && t.parks[home] > NEUTRAL_PARK ==>
      0.0 < ParkMultiplier(scale, t, home) < 1.0
    ensures 0.0 < scale && home in t.parks && 0 < t.parks[home] < NEUTRAL_PARK ==>
      ParkMultiplier(scale, t, home) > 1.0
  {
    if home in t.parks && t.parks[home] != NEUTRAL_PARK {
      var pf := t.parks[home] as real;
      InverseFactor(pf);
      ScaleBlend(100.0 / pf, scale);
      assert ParkMultiplier(scale, t, home) == 100.0 / pf * scale + (1.0 - scale);
      if t.parks[home] > NEUTRAL_PARK {
        assert pf > 100.0;
      } else {
        assert pf < 100.0;
        assert 100.0 / pf > 1.0;
        assert scale > 0.0 ==> 100.0 / pf * scale + (1.0 - scale) > 1.0;
      }
    }
  }

  lemma InverseFactor(pf: real)
    requires pf > 0.0
    ensures pf > 100.0 ==> 0.0 < 100.0 / pf < 1.0
    ensures pf < 100.0 ==> 100.0 / pf > 1.0
  {
    assert 100.0 / pf * pf == 100.0;
  }

  lemma ScaleBlend(q: real, s: real)
    ensures 0.0 < s <= 1.0 && 0.0 < q < 1.0 ==> 0.0 < q * s + (1.0 - s) < 1.0
    ensures 0.0 < s && q > 1.0 ==> q * s + (1.0 - s) > 1.0
  {
    if 0.0 < s && q > 1.0 {
      assert (q - 1.0) * s > 0.0;
    }
    if 0.0 < s <= 1.0 && 0.0 < q < 1.0 {
      assert (1.0 - q) * s > 0.0;
      MulMonotone(1.0 - q, s, 1.0);
      assert q * s + (1.0 - s) == 1.0 - (1.0 - q) * s;
    }
  }

  /** The bullpen points of a club: (league bullpen FIP - club's) * weight,
    * scaled by the park multiplier when park factors are on; 0 for a club
    * without bullpen data or with the feature off. */
  function BullpenPoints(weight: real, f: Features, t: Tables, team: string, mult: real): (r: real)
    ensures !f.bullpen || team !in t.bullpen ==> r == 0.0
  {
    if f.bullpen && team in t.bullpen then
      var b := (t.lgBullpen - t.bullpen[team]) * weight;
      if f.park then b * mult else b
    else 0.0
  }

  /** The injury points a club loses: its WAR lost times the weight. */
  function InjuryPoints(f: Features, t: Tables, team: string): (r: real)
    ensures !f.injuries ==> r == 0.0
    ensures f.injuries && team !in t.injuryWar ==> r == 0.0
  {
    if f.injuries then (if team in t.injuryWar then t.injuryWar[team] else 0.0) * INJURY_WAR_WEIGHT else 0.0
  }

  // One game.

  /** The adjustments of one game, in rating points. */
  datatype Adjustments = Adjustments(homeFip: real, awayFip: real, homeBullpen: real, awayBullpen: real,
                                     travel: real, homeInjury: real, awayInjury: real)

  function HomeTotal(a: Adjustments): real { a.homeFip + a.homeBullpen - a.homeInjury }
  function AwayTotal(a: Adjustments): real { a.awayFip + a.awayBullpen - a.travel - a.awayInjury }

  /** The adjustments other than travel (whose field is 0 here). */
  function ClubAdjustments(p: Params, f: Features, t: Tables, g: Game): (r: Result<Adjustments>)
    requires PositiveParks(t)
    ensures r.Ok? ==> r.value.travel == 0.0
    ensures r.Ok? && !f.fip && !f.rollingFip ==> r.value.homeFip == 0.0 && r.value.awayFip == 0.0
  {
    var homeFip := if f.fip || f.rollingFip then StarterFip(p.fipPriorIp, f, t, g.homeSpId, g.homeSpName, g.date) else Ok(None);
    var awayFip := if f.fip || f.rollingFip then StarterFip(p.fipPriorIp, f, t, g.awaySpId, g.awaySpName, g.date) else Ok(None);
    if homeFip.Err? then Err(homeFip.error)
    else if awayFip.Err? then Err(awayFip.error)
    else
      var mult := if f.park then ParkMultiplier(p.parkScale, t, g.home) else 1.0;
      Ok(Adjustments(
        FipPoints(t.lgFip, homeFip.value, p.fipWeight) * mult,
        FipPoints(t.lgFip, awayFip.value, p.fipWeight) * mult,
        BullpenPoints(p.bullpenWeight, f, t, g.home, mult),
        BullpenPoints(p.bullpenWeight, f, t, g.away, mult),
        0.0,
        InjuryPoints(f, t, g.home),
        InjuryPoints(f, t, g.away)))
  }

  /** The rating points the away club loses to travel. */
  function TravelPoints(p: Params, f: Features, t: Tables, g: Game): (r: real)
    ensures r == 0.0 || r == p.travelPenalty
    ensures !f.travel ==> r == 0.0
  {
    if f.travel then TravelPenalty(g.away, g.date, g.home, t.prevVenue, t.tz, t.distances, p.travelPenalty) else 0.0
  }

  /** All the adjustments of one game, in rating points. */
  function GameAdjustments(p: Params, f: Features, t: Tables, g: Game): (r: Result<Adjustments>)
    requires PositiveParks(t)
    ensures r.Ok? ==> r.value.travel == 0.0 || r.value.travel == p.travelPenalty
    ensures r.Ok? && !f.travel ==> r.value.travel == 0.0
    ensures r.Ok? && !f.fip && !f.rollingFip ==> r.value.homeFip == 0.0 && r.value.awayFip == 0.0
  {
    var clubs := ClubAdjustments(p, f, t, g);
    if clubs.Err? then clubs else Ok(clubs.value.(travel := TravelPoints(p, f, t, g)))
  }

  /** The travel penalty falls on the away club only: changing it leaves
    * every other adjustment as it was. */
  lemma TravelOnlyAway(p: Params, f: Features, t: Tables, g: Game, penalty: real)
    requires PositiveParks(t)
    ensures var a := GameAdjustments(p, f, t, g);
      var a2 := GameAdjustments(p.(travelPenalty := penalty), f, t, g);
      (a.Ok? <==> a2.Ok?) && (a.Ok? ==> a2.value == a.value.(travel := a2.value.travel))
    ensures var a := GameAdjustments(p, f, t, g);
      var a2 := GameAdjustments(p.(travelPenalty := penalty), f, t, g);
      a.Ok? ==> HomeTotal(a2.value) == HomeTotal(a.value)
  {
    ClubsIgnoreTravel(p, f, t, g, penalty);
  }

  lemma ClubsIgnoreTravel(p: Params, f: Features, t: Tables, g: Game, penalty: real)
    requires PositiveParks(t)
    ensures ClubAdjustments(p.(travelPenalty := penalty), f, t, g) == ClubAdjustments(p, f, t, g)
  {
    var p2 := p.(travelPenalty := penalty);
    var a := ClubAdjustments(p, f, t, g);
    var a2 := ClubAdjustments(p2, f, t, g);
    assert a.Ok? == a2.Ok?;
    if a.Ok? {
      assert a.value.homeFip == a2.value.homeFip;
      assert a.value.awayFip == a2.value.awayFip;
      assert a.value.homeBullpen == a2.value.homeBullpen;
      assert a.value.awayBullpen == a2.value.awayBullpen;
      assert a.value.homeInjury == a2.value.homeInjury;
      assert a.value.awayInjury == a2.value.awayInjury;
    } else {
      assert a.error == a2.error;
    }
  }

  /** The ratings a club enters a game with: its current rating, 1500 if new. */
  function RatingOf(elos: map<string, real>, team: string): real
  {
    if team in elos then elos[team] else ELO_INIT
  }

  /** The shrunk home-win probability from the adjusted ratings. */
  function HomeWinProb(m: Math, s: real, homeElo: real, awayElo: real, a: Adjustments): (q: real)
    requires Lawful(m)
    ensures 0.0 <= s < 0.5 ==> s <= q <= 1.0 - s
  {
    Fip.Shrink(s, ExpectedScore(m, homeElo + HomeTotal(a), awayElo + AwayTotal(a), ELO_HFA))
  }

  // Scoring.

  /** A call is right when a probability of at least one half meets a home
    * win, or one below half meets a home loss. */
  function Correct(prob: real, homeWon: int): bool
  {
    (prob >= 0.5 && homeWon == 1) || (prob < 0.5 && homeWon == 0)
  }

  const CLAMP_LO: real := 0.001
  const CLAMP_HI: real := 0.999

  function Clamp(prob: real): (c: real)
    ensures CLAMP_LO <= c <= CLAMP_HI
    ensures CLAMP_LO <= prob <= CLAMP_HI ==> c == prob
  {
    var lo := if prob < CLAMP_HI then prob else CLAMP_HI;
    if lo > CLAMP_LO then lo else CLAMP_LO
  }

  /** Log loss on the clamped probability; the clamp keeps both logarithms
    * finite. */
  function LogLoss(m: Math, prob: real, homeWon: int): real
  {
    var c := Clamp(prob);
    -((homeWon as real) * m.ln(c) + (1.0 - homeWon as real) * m.ln(1.0 - c))
  }

  /** A loss is positive for either outcome. */
  lemma LogLossPositive(m: Math, prob: real, homeWon: int)
    requires Lawful(m) && (homeWon == 0 || homeWon == 1)
    ensures LogLoss(m, prob, homeWon) > 0.0
  {
    var c := Clamp(prob);
    assert m.ln(c) < m.ln(1.0);
    assert m.ln(1.0 - c) < m.ln(1.0);
  }

  function Brier(prob: real, homeWon: int): real
  {
    (prob - homeWon as real) * (prob - homeWon as real)
  }

  lemma BrierBounds(prob: real, homeWon: int)
    requires 0.0 <= prob <= 1.0 && (homeWon == 0 || homeWon == 1)
    ensures 0.0 <= Brier(prob, homeWon) <= 1.0
  {
    var d := prob - homeWon as real;
    assert -1.0 <= d <= 1.0;
    if d >= 0.0 {
      assert d * d <= d * 1.0;
    } else {
      assert d * d <= (-d) * 1.0;
    }
  }

  // The rating update.

  /** `update_elo` here returns the new rating. */
  function UpdateElo(elo: real, expected: real, actual: real, k: real, mov: real): (r: real)
    ensures k * mov > 0.0 ==> (r > elo <==> actual > expected)
  {
    elo + EloShift(k, mov, expected, actual)
  }

  /** The multiplier of a game: 1.0 on a tie, else the uncapped log formula
    * on the unadjusted rating gap. */
  function GameMov(m: Math, g: Game, homeElo: real, awayElo: real): (mov: real)
    requires Lawful(m)
    ensures mov >= 0.0
    ensures g.homeScore == g.awayScore ==> mov == 1.0
  {
    var diff := g.homeScore - g.awayScore;
    if diff != 0 then MovMult(m, diff, homeElo - awayElo, None) else 1.0
  }

  /** The ratings after a game, from the unadjusted pre-game ratings. */
  function Updated(m: Math, elos: map<string, real>, g: Game): (r: map<string, real>)
    requires Lawful(m)
    ensures r.Keys == elos.Keys + {g.home, g.away}
  {
    var h := RatingOf(elos, g.home);
    var a := RatingOf(elos, g.away);
    var mov := GameMov(m, g, h, a);
    var exp := ExpectedScore(m, h, a, ELO_HFA);
    var won := HomeWon(g) as real;
    elos[g.home := UpdateElo(h, exp, won, ELO_K, mov)][g.away := UpdateElo(a, 1.0 - exp, 1.0 - won, ELO_K, mov)]
  }

  /** The update is zero-sum: what the home club gains the away club loses,
    * and the winner gains. */
  lemma UpdateZeroSum(m: Math, elos: map<string, real>, g: Game)
    requires Lawful(m) && g.home != g.away
    ensures var r := Updated(m, elos, g);
      r[g.home] - RatingOf(elos, g.home) == -(r[g.away] - RatingOf(elos, g.away))
    ensures var r := Updated(m, elos, g);
      g.homeScore > g.awayScore ==> r[g.home] > RatingOf(elos, g.home)
    ensures forall t :: t in elos && t != g.home && t != g.away ==> Updated(m, elos, g)[t] == elos[t]
  {
    var h := RatingOf(elos, g.home);
    var a := RatingOf(elos, g.away);
    var mov := GameMov(m, g, h, a);
    var exp := ExpectedScore(m, h, a, ELO_HFA);
    var won := HomeWon(g) as real;
    ShiftNegates(ELO_K, mov, exp, won);
    if g.homeScore > g.awayScore {
      RawMovMultPositive(m, g.homeScore - g.awayScore, h - a);
    }
  }

  lemma ShiftNegates(k: real, mov: real, e: real, w: real)
    ensures EloShift(k, mov, 1.0 - e, 1.0 - w) == -EloShift(k, mov, e, w)
  {
    assert (1.0 - w) - (1.0 - e) == -(w - e);
  }

  /** A win by at least one run gives a positive multiplier. */
  lemma RawMovMultPositive(m: Math, diff: int, eloDiff: real)
    requires Lawful(m) && diff > 0
    ensures MovMult(m, diff, eloDiff, None) > 0.0
  {
    var l := m.ln(Abs(diff as real) + 1.0);
    assert m.ln(1.0) < l;
    DampingBounds(eloDiff);
    assert MovMult(m, diff, eloDiff, None) == l * (MOV_MULTIPLIER / (0.001 * Abs(eloDiff) + MOV_MULTIPLIER));
  }

  // The season replay.

  /** The record kept for one game (the output rounds these for display). */
  datatype GameResult = GameResult(date: string, home: string, away: string, homeScore: int, awayScore: int,
                                   homeElo: real, awayElo: real, adjustments: Adjustments,
                                   homeWinProb: real, homeWon: int, logLoss: real, brier: real)

  function Evaluate(m: Math, p: Params, f: Features, t: Tables, elos: map<string, real>, g: Game): (r: Result<GameResult>)
    requires Lawful(m) && PositiveParks(t)
    ensures r.Ok? ==> r.value.homeElo == RatingOf(elos, g.home) && r.value.awayElo == RatingOf(elos, g.away)
    ensures r.Ok? ==> r.value.homeWon == HomeWon(g)
    ensures r.Ok? ==> r.value.logLoss == LogLoss(m, r.value.homeWinProb, r.value.homeWon)
    ensures r.Ok? ==> r.value.brier == Brier(r.value.homeWinProb, r.value.homeWon)
    ensures r.Ok? && 0.0 <= p.shrinkage < 0.5 ==> p.shrinkage <= r.value.homeWinProb <= 1.0 - p.shrinkage
  {
    var adj := GameAdjustments(p, f, t, g);
    if adj.Err? then Err(adj.error)
    else
      var h := RatingOf(elos, g.home);
      var a := RatingOf(elos, g.away);
      var prob := HomeWinProb(m, p.shrinkage, h, a, adj.value);
      var won := HomeWon(g);
      Ok(GameResult(g.date, g.home, g.away, g.homeScore, g.awayScore, h, a, adj.value,
                    prob, won, LogLoss(m, prob, won), Brier(prob, won)))
  }

  /** Scoring one game from the current ratings. */
  function Scorer(m: Math, p: Params, f: Features, t: Tables): (map<string, real>, Game) --> Result<GameResult>
  {
    (elos, g) requires Lawful(m) && PositiveParks(t) => Evaluate(m, p, f, t, elos, g)
  }

  /** The ratings after one game. */
  function Next(m: Math): (map<string, real>, Game) --> map<string, real>
  {
    (elos, g) requires Lawful(m) => Updated(m, elos, g)
  }

  /** The results of a season and the ratings after it, or the error that
    * ends the run. */
  function Season(m: Math, p: Params, f: Features, t: Tables, baseline: map<string, real>, games: seq<Game>):
    (r: Result<(seq<GameResult>, map<string, real>)>)
    requires Lawful(m) && PositiveParks(t)
    ensures r.Ok? ==> |r.value.0| == |games|
  {
    Replay(Scorer(m, p, f, t), Next(m), baseline, games)
  }

  /** Each game of a season is scored on the ratings the games before it
    * left: the first on the baseline, and so on. */
  lemma SeasonUsesPriorRatings(m: Math, p: Params, f: Features, t: Tables, baseline: map<string, real>,
                               games: seq<Game>, i: nat)
    requires Lawful(m) && PositiveParks(t) && i < |games|
    requires Season(m, p, f, t, baseline, games).Ok?
    ensures Season(m, p, f, t, baseline, games[..i]).Ok?
    ensures var before := Season(m, p, f, t, baseline, games[..i]).value.1;
      Evaluate(m, p, f, t, before, games[i]) == Ok(Season(m, p, f, t, baseline, games).value.0[i])
  {
    ReplayUsesPriorState(Scorer(m, p, f, t), Next(m), baseline, games, i);
  }

  /** The season summary: games, accuracy, mean log loss and mean Brier
    * score, with zeros for an empty season. */
  datatype Summary = Summary(games: nat, correct: nat, accuracy: real, logLoss: real, brier: real)

  function CorrectCount(r: GameResult): int { if Correct(r.homeWinProb, r.homeWon) then 1 else 0 }
  function LogLossOf(r: GameResult): real { r.logLoss }
  function BrierOf(r: GameResult): real { r.brier }

  function Summarize(results: seq<GameResult>): (s: Summary)
    ensures s.games == |results|
    ensures |results| == 0 ==> s.accuracy == 0.0 && s.logLoss == 0.0 && s.brier == 0.0
    ensures 0.0 <= s.accuracy <= 1.0
    ensures |results| > 0 ==> s.logLoss * |results| as real == SumOf(results, LogLossOf)
    ensures |results| > 0 ==> s.brier * |results| as real == SumOf(results, BrierOf)
  {
    IntSumOfCount(results, CorrectCount);
    var correct := IntSumOf(results, CorrectCount);
    var n := |results|;
    if n == 0 then Summary(0, 0, 0.0, 0.0, 0.0)
    else
      Fraction(correct, n);
      Weighted.DivTimes(SumOf(results, LogLossOf), n as real);
      Weighted.DivTimes(SumOf(results, BrierOf), n as real);
      Summary(n, correct, correct as real / n as real, SumOf(results, LogLossOf) / n as real,
              SumOf(results, BrierOf) / n as real)
  }

  lemma Fraction(a: int, n: int)
    requires 0 <= a <= n && n > 0
    ensures 0.0 <= a as real / n as real <= 1.0
  {
    assert a as real / n as real * n as real == a as real;
  }

  /** A scored game has a positive log loss and a Brier score within
    * [0, 1]. */
  lemma ScoreBounds(m: Math, p: Params, f: Features, t: Tables, elos: map<string, real>, g: Game, r: GameResult)
    requires Lawful(m) && PositiveParks(t) && 0.0 <= p.shrinkage < 0.5
    requires Evaluate(m, p, f, t, elos, g) == Ok(r)
    ensures r.logLoss > 0.0 && 0.0 <= r.brier <= 1.0
  {
    LogLossPositive(m, r.homeWinProb, r.homeWon);
    BrierBounds(r.homeWinProb, r.homeWon);
  }

  lemma GameScoreBounds(m: Math, p: Params, f: Features, t: Tables, baseline: map<string, real>,
                        games: seq<Game>, i: nat)
    requires Lawful(m) && PositiveParks(t) && 0.0 <= p.shrinkage < 0.5 && i < |games|
    requires Season(m, p, f, t, baseline, games).Ok?
    ensures var r := Season(m, p, f, t, baseline, games).value.0[i];
      r.logLoss > 0.0 && 0.0 <= r.brier <= 1.0
  {
    SeasonUsesPriorRatings(m, p, f, t, baseline, games, i);
    var before := Season(m, p, f, t, baseline, games[..i]).value.1;
    ScoreBounds(m, p, f, t, before, games[i], Season(m, p, f, t, baseline, games).value.0[i]);
  }

  /** The means of a season: log loss is positive and the Brier score within
    * [0, 1] whenever there was a game. */
  lemma SummaryBounds(m: Math, p: Params, f: Features, t: Tables, baseline: map<string, real>, games: seq<Game>)
    requires Lawful(m) && PositiveParks(t) && 0.0 <= p.shrinkage < 0.5
    requires Season(m, p, f, t, baseline, games).Ok?
    ensures var s := Summarize(Season(m, p, f, t, baseline, games).value.0);
      s.games == |games| && (|games| > 0 ==> s.logLoss > 0.0 && 0.0 <= s.brier <= 1.0)
  {
    var results := Season(m, p, f, t, baseline, games).value.0;
    forall i | 0 <= i < |results|
      ensures results[i].logLoss > 0.0 && 0.0 <= results[i].brier <= 1.0
    {
      GameScoreBounds(m, p, f, t, baseline, games, i);
    }
    ScoredMeans(results);
  }

  lemma ScoredMeans(results: seq<GameResult>)
    requires forall i :: 0 <= i < |results| ==> results[i].logLoss > 0.0 && 0.0 <= results[i].brier <= 1.0
    ensures |results| > 0 ==> Summarize(results).logLoss > 0.0 && 0.0 <= Summarize(results).brier <= 1.0
  {
    if |results| > 0 {
      PositiveSum(results);
      SumOfNonNegative(results, BrierOf);
      SumOfAtMost(results, BrierOf, 1.0);
      MeanBounds(SumOf(results, LogLossOf), SumOf(results, BrierOf), |results| as real);
    }
  }

  lemma {:induction false} PositiveSum(results: seq<GameResult>)
    requires |results| > 0 && forall i :: 0 <= i < |results| ==> results[i].logLoss > 0.0
    ensures SumOf(results, LogLossOf) > 0.0
    decreases |results|
  {
    var init := results[..|results| - 1];
    if |init| > 0 {
      assert forall i :: 0 <= i < |init| ==> init[i] == results[i];
      PositiveSum(init);
    } else {
      assert SumOf(init, LogLossOf) == 0.0;
    }
  }

  lemma MeanBounds(ll: real, br: real, n: real)
    requires n > 0.0 && ll > 0.0 && 0.0 <= br <= n * 1.0
    ensures ll / n > 0.0 && 0.0 <= br / n <= 1.0
  {
    assert br / n * n == br;
  }

  /** `run_model`'s game loop and summary; `Err` when a shrunk FIP divides by
    * zero. */
  method RunModel(m: Math, p: Params, f: Features, t: Tables, baseline: map<string, real>, games: seq<Game>)
    returns (r: Result<(seq<GameResult>, Summary)>)
    requires Lawful(m) && PositiveParks(t)
    ensures r.Ok? <==> Season(m, p, f, t, baseline, games).Ok?
    ensures r.Ok? ==> r.value.0 == Season(m, p, f, t, baseline, games).value.0
    ensures r.Ok? ==> r.value.1 == Summarize(r.value.0)
  {
    var elos := baseline;
    var results: seq<GameResult> := [];
    var correct := 0;
    var totalLogLoss := 0.0;
    var totalBrier := 0.0;
    var i := 0;
    while i < |games|
      invariant 0 <= i <= |games|
      invariant Season(m, p, f, t, baseline, games[..i]) == Ok((results, elos))
      invariant Tallied(results, correct, totalLogLoss, totalBrier)
    {
      ReplayStep(Scorer(m, p, f, t), Next(m), baseline, games, i);
      var res := Evaluate(m, p, f, t, elos, games[i]);
      if res.Err? {
        ErrorPersists(Scorer(m, p, f, t), Next(m), baseline, games, i + 1);
        return Err(res.error);
      }
      correct, totalLogLoss, totalBrier := TallyGame(results, res.value, correct, totalLogLoss, totalBrier);
      results := results + [res.value];
      elos := Updated(m, elos, games[i]);
      i := i + 1;
    }
    assert games[..i] == games;
    var summary := Finish(results, correct, totalLogLoss, totalBrier);
    r := Ok((results, summary));
  }

  /** The loop's running count of correct picks and its log-loss and Brier
    * totals over the results so far. */
  ghost predicate Tallied(results: seq<GameResult>, correct: int, totalLogLoss: real, totalBrier: real)
  {
    correct == IntSumOf(results, CorrectCount) &&
    totalLogLoss == SumOf(results, LogLossOf) &&
    totalBrier == SumOf(results, BrierOf)
  }

  /** Adds one game's row to the running totals. */
  method TallyGame(results: seq<GameResult>, row: GameResult, correct: int, totalLogLoss: real, totalBrier: real)
    returns (correct': int, totalLogLoss': real, totalBrier': real)
    requires Tallied(results, correct, totalLogLoss, totalBrier)
    ensures Tallied(results + [row], correct', totalLogLoss', totalBrier')
  {
    SummandsStep(results, row);
    correct' := if Correct(row.homeWinProb, row.homeWon) then correct + 1 else correct;
    totalLogLoss' := totalLogLoss + row.logLoss;
    totalBrier' := totalBrier + row.brier;
  }

  /** The summary `run_model` prints from the running totals: zeros for an
    * empty season, else the means. */
  method Finish(results: seq<GameResult>, correct: int, totalLogLoss: real, totalBrier: real) returns (s: Summary)
    requires Tallied(results, correct, totalLogLoss, totalBrier)
    ensures s == Summarize(results)
  {
    var n := |results|;
    IntSumOfCount(results, CorrectCount);
    s := if n == 0 then Summary(0, 0, 0.0, 0.0, 0.0)
      else Summary(n, correct, correct as real / n as real, totalLogLoss / n as real, totalBrier / n as real);
  }

  lemma SummandsStep(results: seq<GameResult>, row: GameResult)
    ensures IntSumOf(results + [row], CorrectCount) == IntSumOf(results, CorrectCount) + CorrectCount(row)
    ensures SumOf(results + [row], LogLossOf) == SumOf(results, LogLossOf) + row.logLoss
    ensures SumOf(results + [row], BrierOf) == SumOf(results, BrierOf) + row.brier
  {
    assert (results + [row])[..|results|] == results;
  }

  // Calibration buckets.

  /** The probability a results row holds: `round(home_win_prob, 4)`. The
    * buckets are filled from these rows. */
  function Shown(r: GameResult): real
  {
    Rounding.Round(r.homeWinProb, 4)
  }

  /** `int(p * 10)` capped at 9: which tenth a probability falls in. */
  function BucketIndex(prob: real): (k: int)
    ensures k <= 9
    ensures 0.0 <= prob ==> 0 <= k && k as real <= prob * 10.0 && (k == 9 || prob * 10.0 < k as real + 1.0)
    ensures 0.9 <= prob ==> k == 9
  {
    Rounding.TruncBounds(prob * 10.0);
    var t := Rounding.Trunc(prob * 10.0);
    if t < 9 then t else 9
  }

  /** `min(int(p * 10) / 10, 0.9)`: the lower edge of the probability's
    * bucket. A probability in [0, 1] lies in `[b, b + 0.1)`, except that
    * the last bucket also takes 1.0. */
  function Bucket(prob: real): (b: real)
    ensures b <= 0.9
    ensures 0.0 <= prob ==> 0.0 <= b <= prob && (b == 0.9 || prob < b + 0.1)
    ensures 0.9 <= prob ==> b == 0.9
  {
    BucketIndex(prob) as real / 10.0
  }

  /** A bucket's running totals: games, summed shown probability, summed
    * home wins. */
  datatype BucketStats = BucketStats(count: nat, predSum: real, actualSum: int)

  function WonOf(r: GameResult): int { r.homeWon }

  /** One row into the `defaultdict` of buckets. */
  function AddToBucket(buckets: map<real, BucketStats>, r: GameResult): map<real, BucketStats>
  {
    var b := Bucket(Shown(r));
    var s := if b in buckets then buckets[b] else BucketStats(0, 0.0, 0);
    buckets[b := BucketStats(s.count + 1, s.predSum + Shown(r), s.actualSum + r.homeWon)]
  }

  /** The buckets after all rows. */
  function Calibration(results: seq<GameResult>): map<real, BucketStats>
  {
    if |results| == 0 then map[]
    else AddToBucket(Calibration(results[..|results| - 1]), results[|results| - 1])
  }

  /** The rows whose shown probability falls in bucket `b`, in order. */
  function InBucket(results: seq<GameResult>, b: real): (r: seq<GameResult>)
    ensures |r| <= |results|
  {
    if |results| == 0 then []
    else
      var last := results[|results| - 1];
      InBucket(results[..|results| - 1], b) + (if Bucket(Shown(last)) == b then [last] else [])
  }

  /** Every row of bucket `b` comes from the results and has its shown
    * probability in that bucket. */
  lemma {:induction false} InBucketMembers(results: seq<GameResult>, b: real)
    ensures forall x :: x in InBucket(results, b) ==> x in results && Bucket(Shown(x)) == b
    decreases |results|
  {
    if |results| > 0 {
      var init := results[..|results| - 1];
      InBucketMembers(init, b);
      forall x | x in init ensures x in results {
        var i :| 0 <= i < |init| && init[i] == x;
        assert results[i] == x;
      }
    }
  }

  /** The bucket loop of `run_model`. */
  method CalibrationBuckets(results: seq<GameResult>) returns (buckets: map<real, BucketStats>)
    ensures buckets == Calibration(results)
  {
    buckets := map[];
    var i := 0;
    while i < |results|
      invariant 0 <= i <= |results|
      invariant buckets == Calibration(results[..i])
    {
      assert results[..i + 1][..i] == results[..i];
      var r := results[i];
      var b := Bucket(Rounding.Round(r.homeWinProb, 4));
      var s := if b in buckets then buckets[b] else BucketStats(0, 0.0, 0);
      buckets := buckets[b := BucketStats(s.count + 1, s.predSum + Rounding.Round(r.homeWinProb, 4), s.actualSum + r.homeWon)];
      i := i + 1;
    }
    assert results[..i] == results;
  }

  /** A bucket is kept exactly when some row falls in it. */
  lemma {:induction false} CalibrationKeys(results: seq<GameResult>, b: real)
    ensures b in Calibration(results) <==> |InBucket(results, b)| > 0
    decreases |results|
  {
    if |results| > 0 {
      CalibrationKeys(results[..|results| - 1], b);
    }
  }

  /** Appending a row adds its summands to both sums. */
  lemma SumsSnoc(xs: seq<GameResult>, r: GameResult)
    ensures SumOf(xs + [r], Shown) == SumOf(xs, Shown) + Shown(r)
    ensures IntSumOf(xs + [r], WonOf) == IntSumOf(xs, WonOf) + r.homeWon
  {
    assert (xs + [r])[..|xs|] == xs;
  }

  /** A kept bucket holds its number of rows, their summed shown
    * probability and their summed home wins; so its count is positive and
    * the means the report prints are defined. */
  lemma {:induction false} CalibrationSpec(results: seq<GameResult>, b: real)
    requires b in Calibration(results)
    ensures Calibration(results)[b] == BucketStats(|InBucket(results, b)|, SumOf(InBucket(results, b), Shown),
                                                   IntSumOf(InBucket(results, b), WonOf))
    ensures Calibration(results)[b].count > 0
    decreases |results|
  {
    var init := results[..|results| - 1];
    var last := results[|results| - 1];
    var xs := InBucket(init, b);
    var prev := Calibration(init);
    assert Calibration(results) == AddToBucket(prev, last);
    CalibrationKeys(init, b);
    var s := if b in prev then prev[b] else BucketStats(0, 0.0, 0);
    if b in prev {
      CalibrationSpec(init, b);
    } else {
      assert xs == [];
    }
    assert s == BucketStats(|xs|, SumOf(xs, Shown), IntSumOf(xs, WonOf));
    if Bucket(Shown(last)) == b {
      assert InBucket(results, b) == xs + [last];
      SumsSnoc(xs, last);
      assert Calibration(results)[b] == BucketStats(s.count + 1, s.predSum + Shown(last), s.actualSum + last.homeWon);
    } else {
      assert InBucket(results, b) == xs;
      assert Calibration(results)[b] == prev[b];
    }
  }

  /** The games in bucket `k / 10`, or 0 when the bucket is absent. */
  function CountAt(buckets: map<real, BucketStats>, k: int): nat
  {
    var b := k as real / 10.0;
    if b in buckets then buckets[b].count else 0
  }

  /** The games in buckets `k / 10` to `0.9`. */
  function CountsFrom(buckets: map<real, BucketStats>, k: nat): nat
    decreases 10 - k
  {
    if k >= 10 then 0 else CountAt(buckets, k) + CountsFrom(buckets, k + 1)
  }

  /** One more row adds one game to exactly one bucket. */
  lemma {:induction false} CountsAdd(buckets: map<real, BucketStats>, r: GameResult, k: nat)
    requires 0 <= BucketIndex(Shown(r)) && k <= 10
    ensures CountsFrom(AddToBucket(buckets, r), k) ==
      CountsFrom(buckets, k) + (if k <= BucketIndex(Shown(r)) then 1 else 0)
    decreases 10 - k
  {
    if k < 10 {
      CountsAdd(buckets, r, k + 1);
      CountAtAdd(buckets, r, k);
    }
  }

  /** Bucket `k / 10` gains a game exactly when the row's index is `k`. */
  lemma CountAtAdd(buckets: map<real, BucketStats>, r: GameResult, k: int)
    ensures CountAt(AddToBucket(buckets, r), k) == CountAt(buckets, k) + (if k == BucketIndex(Shown(r)) then 1 else 0)
  {
    var j := BucketIndex(Shown(r));
    assert (k as real / 10.0 == j as real / 10.0) <==> k == j;
  }

  /** When no shown probability is negative, as in any season with a
    * shrinkage in [0, 0.5), the ten buckets' counts add up to the number of
    * games. */
  lemma {:induction false} CalibrationTotal(results: seq<GameResult>)
    requires forall i :: 0 <= i < |results| ==> 0.0 <= results[i].homeWinProb
    ensures CountsFrom(Calibration(results), 0) == |results|
    decreases |results|
  {
    if |results| > 0 {
      var init := results[..|results| - 1];
      var last := results[|results| - 1];
      assert forall i :: 0 <= i < |init| ==> init[i] == results[i];
      CalibrationTotal(init);
      Rounding.RoundSign(last.homeWinProb, 4);
      CountsAdd(Calibration(init), last, 0);
    }
  }

  /** Every probability of a season run with a shrinkage in [0, 0.5) lies
    * in [shrinkage, 1 - shrinkage], so its buckets hold all its games. */
  lemma SeasonCalibration(m: Math, p: Params, f: Features, t: Tables, baseline: map<string, real>, games: seq<Game>)
    requires Lawful(m) && PositiveParks(t) && 0.0 <= p.shrinkage < 0.5
    requires Season(m, p, f, t, baseline, games).Ok?
    ensures CountsFrom(Calibration(Season(m, p, f, t, baseline, games).value.0), 0) == |games|
  {
    var results := Season(m, p, f, t, baseline, games).value.0;
    forall i | 0 <= i < |results| ensures 0.0 <= results[i].homeWinProb {
      SeasonProb(m, p, f, t, baseline, games, i);
    }
    CalibrationTotal(results);
  }

  /** Game `i` of a season run with a shrinkage in [0, 0.5) has a
    * probability in [shrinkage, 1 - shrinkage]. */
  lemma SeasonProb(m: Math, p: Params, f: Features, t: Tables, baseline: map<string, real>, games: seq<Game>, i: nat)
    requires Lawful(m) && PositiveParks(t) && 0.0 <= p.shrinkage < 0.5 && i < |games|
    requires Season(m, p, f, t, baseline, games).Ok?
    ensures var r := Season(m, p, f, t, baseline, games).value.0[i];
      p.shrinkage <= r.homeWinProb <= 1.0 - p.shrinkage
  {
    SeasonUsesPriorRatings(m, p, f, t, baseline, games, i);
    var before := Season(m, p, f, t, baseline, games[..i]).value.1;
    var r := Season(m, p, f, t, baseline, games).value.0[i];
    assert Evaluate(m, p, f, t, before, games[i]) == Ok(r);
  }

  // The parameter sweep.

  /** The first sweep's grids: FIP weight, prior innings (0 = no shrinkage)
    * and shrinkage. */
  const V1_FIP_RANGE: seq<real> := [25.0, 30.0, 35.0, 40.0, 45.0, 50.0]
  const V1_PRIOR_RANGE: seq<real> := [0.0, 25.0, 50.0, 75.0, 100.0]
  const V1_SHRINK_RANGE: seq<real> := [0.08, 0.10, 0.12, 0.14, 0.16]
  /** The second sweep's grids: FIP weight, bullpen weight, park scale and
    * shrinkage. */
  const V2_FIP_RANGE: seq<real> := [25.0, 30.0, 35.0, 40.0, 45.0, 50.0]
  const V2_BULLPEN_RANGE: seq<real> := [0.0, 5.0, 10.0, 15.0, 20.0, 25.0]
  const V2_PARK_RANGE: seq<real> := [0.0, 0.5, 1.0]
  const V2_SHRINK_RANGE: seq<real> := [0.06, 0.08, 0.10, 0.12, 0.14]

  /** The starting "best" log loss. */
  const NO_BEST: real := 999.0

  /** The index of the best run in sweep order: a run replaces the best only
    * with a strictly smaller log loss, starting from 999; failed runs are
    * `None`. */
  function BestIndex(runs: seq<Option<real>>): (b: Option<nat>)
  {
    if |runs| == 0 then None
    else
      var prev := BestIndex(runs[..|runs| - 1]);
      var bestLoss := if prev.Some? && prev.value < |runs| - 1 && runs[prev.value].Some? then runs[prev.value].value else NO_BEST;
      var last := runs[|runs| - 1];
      if last.Some? && last.value < bestLoss then Some(|runs| - 1) else prev
  }

  /** The best run is the first with the smallest log loss, provided that
    * loss is below 999; there is none iff no run is below 999. */
  lemma {:induction false} BestIndexSpec(runs: seq<Option<real>>)
    ensures var b := BestIndex(runs);
      b.Some? ==> b.value < |runs| && runs[b.value].Some? && runs[b.value].value < NO_BEST
    ensures var b := BestIndex(runs);
      b.Some? ==> forall j :: 0 <= j < |runs| && runs[j].Some? ==> runs[b.value].value <= runs[j].value
    ensures var b := BestIndex(runs);
      b.Some? ==> forall j :: 0 <= j < b.value && runs[j].Some? ==> runs[b.value].value < runs[j].value
    ensures BestIndex(runs).None? <==> forall j :: 0 <= j < |runs| && runs[j].Some? ==> runs[j].value >= NO_BEST
    decreases |runs|
  {
    if |runs| > 0 {
      var init := runs[..|runs| - 1];
      BestIndexSpec(init);
      assert forall j :: 0 <= j < |init| ==> init[j] == runs[j];
    }
  }

  /** `sweep_parameters`' selection loop over the runs' log losses. */
  method SelectBest(runs: seq<Option<real>>) returns (best: Option<nat>)
    ensures best == BestIndex(runs)
  {
    best := None;
    var bestLoss := NO_BEST;
    var i := 0;
    while i < |runs|
      invariant 0 <= i <= |runs|
      invariant best.Some? ==> best.value < i && runs[best.value].Some?
      invariant best == BestIndex(runs[..i])
      invariant bestLoss == if best.Some? then runs[best.value].value else NO_BEST
    {
      assert runs[..i + 1][..i] == runs[..i];
      if runs[i].Some? && runs[i].value < bestLoss {
        best := Some(i);
        bestLoss := runs[i].value;
      }
      i := i + 1;
    }
    assert runs[..i] == runs;
  }

  // The sweep's grids, in loop order.

  /** Each `x` of `xs` with each `y` of `ys`: two nested loops, the outer
    * over `xs`. */
  function Pairs<A, B>(xs: seq<A>, ys: seq<B>): (r: seq<(A, B)>)
    ensures |r| == |xs| * |ys|
  {
    if |xs| == 0 then []
    else
      var n := |xs| - 1;
      assert n * |ys| + |ys| == |xs| * |ys|;
      Pairs(xs[..n], ys) + seq(|ys|, j requires 0 <= j < |ys| => (xs[n], ys[j]))
  }

  /** Point `(i, j)` of the nested loops is run number `i * |ys| + j`. */
  lemma {:induction false} PairsAt<A, B>(xs: seq<A>, ys: seq<B>, i: nat, j: nat)
    requires i < |xs| && j < |ys|
    ensures i * |ys| + j < |Pairs(xs, ys)| && Pairs(xs, ys)[i * |ys| + j] == (xs[i], ys[j])
    decreases |xs|
  {
    var n := |xs| - 1;
    if i < n {
      PairsAt(xs[..n], ys, i, j);
      assert i * |ys| + j < n * |ys| by {
        assert (i + 1) * |ys| <= n * |ys| by {
          MulLe(i + 1, n, |ys|);
        }
      }
    }
  }

  lemma MulLe(a: nat, b: nat, c: nat)
    requires a <= b
    ensures a * c <= b * c
  {
  }

  /** Every point pairs a value of `xs` with a value of `ys`. */
  lemma {:induction false} PairsMembers<A, B>(xs: seq<A>, ys: seq<B>)
    ensures forall q :: q in Pairs(xs, ys) ==> q.0 in xs && q.1 in ys
    decreases |xs|
  {
    if |xs| > 0 {
      var n := |xs| - 1;
      PairsMembers(xs[..n], ys);
      assert forall x :: x in xs[..n] ==> x in xs;
    }
  }

  /** The first sweep's points: FIP weight, then prior innings, then
    * shrinkage. */
  function V1Grid(): seq<(real, (real, real))>
  {
    Pairs(V1_FIP_RANGE, Pairs(V1_PRIOR_RANGE, V1_SHRINK_RANGE))
  }

  /** The second sweep's points: FIP weight, then bullpen weight, then park
    * scale, then shrinkage. */
  function V2Grid(): seq<(real, (real, (real, real)))>
  {
    Pairs(V2_FIP_RANGE, Pairs(V2_BULLPEN_RANGE, Pairs(V2_PARK_RANGE, V2_SHRINK_RANGE)))
  }

  /** A first-sweep run: the three swept values, travel fixed at 10, the
    * other tunables at their defaults; season FIP and travel switched on. */
  function V1Run(q: (real, (real, real))): (Params, Features)
  {
    (Params(q.0, q.1.0, 10.0, DEFAULTS.bullpenWeight, DEFAULTS.parkScale, q.1.1),
     Features(true, false, false, false, true, false))
  }

  /** A second-sweep run: the four swept values, travel fixed at 10, the
    * prior at its default; rolling FIP and travel on, the bullpen only for
    * a positive weight and parks only for a positive scale. */
  function V2Run(q: (real, (real, (real, real)))): (Params, Features)
  {
    (Params(q.0, DEFAULTS.fipPriorIp, 10.0, q.1.0, q.1.1.0, q.1.1.1),
     Features(true, true, q.1.0 > 0.0, q.1.1.0 > 0.0, true, false))
  }

  /** The first sweep makes 150 runs; run `(a * 5 + b) * 5 + c` uses FIP
    * weight `a`, prior `b` and shrinkage `c`. */
  lemma V1GridOrder(a: nat, b: nat, c: nat)
    requires a < 6 && b < 5 && c < 5
    ensures |V1Grid()| == 150
    ensures V1Grid()[(a * 5 + b) * 5 + c] == (V1_FIP_RANGE[a], (V1_PRIOR_RANGE[b], V1_SHRINK_RANGE[c]))
  {
    PairsAt(V1_PRIOR_RANGE, V1_SHRINK_RANGE, b, c);
    PairsAt(V1_FIP_RANGE, Pairs(V1_PRIOR_RANGE, V1_SHRINK_RANGE), a, b * 5 + c);
  }

  /** The second sweep makes 540 runs; run `((a * 6 + b) * 3 + c) * 5 + d`
    * uses FIP weight `a`, bullpen weight `b`, park scale `c` and shrinkage
    * `d`. */
  lemma V2GridOrder(a: nat, b: nat, c: nat, d: nat)
    requires a < 6 && b < 6 && c < 3 && d < 5
    ensures |V2Grid()| == 540
    ensures V2Grid()[((a * 6 + b) * 3 + c) * 5 + d] ==
      (V2_FIP_RANGE[a], (V2_BULLPEN_RANGE[b], (V2_PARK_RANGE[c], V2_SHRINK_RANGE[d])))
  {
    PairsAt(V2_PARK_RANGE, V2_SHRINK_RANGE, c, d);
    PairsAt(V2_BULLPEN_RANGE, Pairs(V2_PARK_RANGE, V2_SHRINK_RANGE), b, c * 5 + d);
    PairsAt(V2_FIP_RANGE, Pairs(V2_BULLPEN_RANGE, Pairs(V2_PARK_RANGE, V2_SHRINK_RANGE)), a, (b * 3 + c) * 5 + d);
  }

  /** Every run of both sweeps has a shrinkage in [0, 0.5), so each of its
    * probabilities lies in (0, 1) (`SeasonProb`). */
  lemma SweepShrinkagesValid()
    ensures forall q :: q in V1Grid() ==> 0.0 <= V1Run(q).0.shrinkage < 0.5
    ensures forall q :: q in V2Grid() ==> 0.0 <= V2Run(q).0.shrinkage < 0.5
  {
    PairsMembers(V1_FIP_RANGE, Pairs(V1_PRIOR_RANGE, V1_SHRINK_RANGE));
    PairsMembers(V1_PRIOR_RANGE, V1_SHRINK_RANGE);
    PairsMembers(V2_FIP_RANGE, Pairs(V2_BULLPEN_RANGE, Pairs(V2_PARK_RANGE, V2_SHRINK_RANGE)));
    PairsMembers(V2_BULLPEN_RANGE, Pairs(V2_PARK_RANGE, V2_SHRINK_RANGE));
    PairsMembers(V2_PARK_RANGE, V2_SHRINK_RANGE);
  }

  /** The first sweep's first run uses a zero prior, which `ZeroPriorFails`
    * shows divides by zero for a starter listed with no innings. */
  lemma V1RunsZeroPrior()
    ensures |V1Grid()| > 0 && V1Run(V1Grid()[0]).0.fipPriorIp == 0.0
  {
    V1GridOrder(0, 0, 0);
  }

  // The sweep.

  /** What the runs of a sweep share: whether the schedule and baseline
    * files exist, which inputs were found, the tables, the baseline ratings
    * and the season's games. */
  datatype Inputs = Inputs(found: bool, av: Availability, t: Tables, baseline: map<string, real>, games: seq<Game>)

  /** `run_model(...)` as the sweep sees it: `None` (falsy) when the
    * schedule or baseline file is missing, else the season's summary; an
    * error of the season is raised. */
  function RunOutcome(m: Math, inp: Inputs, run: (Params, Features)): (r: Result<Option<Summary>>)
    requires Lawful(m) && PositiveParks(inp.t)
    ensures !inp.found ==> r == Ok(None)
  {
    if !inp.found then Ok(None)
    else
      var s := Season(m, run.0, ResolveFeatures(run.1, inp.av), inp.t, inp.baseline, inp.games);
      if s.Err? then Err(s.error) else Ok(Some(Summarize(s.value.0)))
  }

  /** The outcomes of `run` over `grid` in order; the first error aborts
    * the whole sequence. */
  function Collect<Q, S>(grid: seq<Q>, run: Q -> Result<S>): (r: Result<seq<S>>)
  {
    if |grid| == 0 then Ok([])
    else
      var prev := Collect(grid[..|grid| - 1], run);
      if prev.Err? then prev
      else
        var o := run(grid[|grid| - 1]);
        if o.Err? then Err(o.error) else Ok(prev.value + [o.value])
  }

  /** Collecting completes exactly when every run does, and then its `i`-th
    * entry is the outcome of grid point `i`. */
  lemma {:induction false} CollectSpec<Q, S>(grid: seq<Q>, run: Q -> Result<S>)
    ensures Collect(grid, run).Ok? <==> forall i :: 0 <= i < |grid| ==> run(grid[i]).Ok?
    ensures Collect(grid, run).Ok? ==>
      |Collect(grid, run).value| == |grid| &&
      forall i :: 0 <= i < |grid| ==> Collect(grid, run).value[i] == run(grid[i]).value
    decreases |grid|
  {
    if |grid| > 0 {
      var n := |grid| - 1;
      CollectSpec(grid[..n], run);
      assert forall i :: 0 <= i < n ==> grid[..n][i] == grid[i];
    }
  }

  /** Once a prefix of the grid aborts, the whole sequence aborts with its
    * error. */
  lemma {:induction false} CollectErr<Q, S>(grid: seq<Q>, run: Q -> Result<S>, i: nat)
    requires i <= |grid| && Collect(grid[..i], run).Err?
    ensures Collect(grid, run) == Collect(grid[..i], run)
    decreases |grid| - i
  {
    if i < |grid| {
      assert grid[..i + 1][..i] == grid[..i];
      CollectErr(grid, run, i + 1);
    } else {
      assert grid[..i] == grid;
    }
  }

  /** One run per grid point. */
  function Runner<Q>(m: Math, inp: Inputs, point: Q -> (Params, Features)): Q -> Result<Option<Summary>>
    requires Lawful(m) && PositiveParks(inp.t)
  {
    q => RunOutcome(m, inp, point(q))
  }

  /** The runs of a sweep in grid order; the first error aborts it. */
  function Sweep<Q>(m: Math, inp: Inputs, grid: seq<Q>, point: Q -> (Params, Features)): (r: Result<seq<Option<Summary>>>)
    requires Lawful(m) && PositiveParks(inp.t)
  {
    Collect(grid, Runner(m, inp, point))
  }

  /** A sweep completes exactly when every run does, and then its `i`-th
    * entry is the outcome of grid point `i`. */
  lemma SweepSpec<Q>(m: Math, inp: Inputs, grid: seq<Q>, point: Q -> (Params, Features))
    requires Lawful(m) && PositiveParks(inp.t)
    ensures Sweep(m, inp, grid, point).Ok? <==> forall i :: 0 <= i < |grid| ==> RunOutcome(m, inp, point(grid[i])).Ok?
    ensures Sweep(m, inp, grid, point).Ok? ==>
      |Sweep(m, inp, grid, point).value| == |grid| &&
      forall i :: 0 <= i < |grid| ==> Sweep(m, inp, grid, point).value[i] == RunOutcome(m, inp, point(grid[i])).value
  {
    CollectSpec(grid, Runner(m, inp, point));
  }

  /** The log loss of each run, `None` for a skipped one. */
  function Losses(runs: seq<Option<Summary>>): (ls: seq<Option<real>>)
    ensures |ls| == |runs|
    ensures forall i :: 0 <= i < |runs| ==> ls[i] == if runs[i].Some? then Some(runs[i].value.logLoss) else None
  {
    seq(|runs|, i requires 0 <= i < |runs| => if runs[i].Some? then Some(runs[i].value.logLoss) else None)
  }

  /** `sweep_parameters` up to its printing: the runs and the index of the
    * best one. With no run below the starting 999, `best["params"]` stays
    * empty and reading its FIP weight raises `KeyError`. */
  function SweepBest<Q>(m: Math, inp: Inputs, grid: seq<Q>, point: Q -> (Params, Features)):
    (r: Result<(seq<Option<Summary>>, nat)>)
    requires Lawful(m) && PositiveParks(inp.t)
  {
    var runs := Sweep(m, inp, grid, point);
    if runs.Err? then Err(runs.error)
    else
      var b := BestIndex(Losses(runs.value));
      if b.None? then Err("KeyError: 'fip_weight'") else Ok((runs.value, b.value))
  }

  /** A completed sweep's best run (the summary of grid point `b`, by
    * `SweepSpec`) has the smallest log loss of all runs, is the first one
    * with it, and is below 999; without the input files every run is skipped and the sweep ends in
    * the `KeyError`. */
  lemma SweepBestSpec<Q>(m: Math, inp: Inputs, grid: seq<Q>, point: Q -> (Params, Features))
    requires Lawful(m) && PositiveParks(inp.t)
    ensures var r := SweepBest(m, inp, grid, point);
      r.Ok? ==>
        (var (runs, b) := r.value;
         Sweep(m, inp, grid, point) == Ok(runs) && |runs| == |grid| && b < |runs| && runs[b].Some? &&
         runs[b].value.logLoss < NO_BEST &&
         (forall j :: 0 <= j < |runs| && runs[j].Some? ==> runs[b].value.logLoss <= runs[j].value.logLoss) &&
         (forall j :: 0 <= j < b && runs[j].Some? ==> runs[b].value.logLoss < runs[j].value.logLoss))
    ensures !inp.found ==> SweepBest(m, inp, grid, point).Err?
  {
    SweepSpec(m, inp, grid, point);
    var runs := Sweep(m, inp, grid, point);
    if runs.Ok? {
      BestIndexSpec(Losses(runs.value));
      if !inp.found {
        assert forall j :: 0 <= j < |runs.value| ==> runs.value[j] == None;
      }
    }
  }

  /** `sweep_parameters`' loops, flattened in grid order, then the choice
    * of the best run. */
  method SweepParameters<Q>(m: Math, inp: Inputs, grid: seq<Q>, point: Q -> (Params, Features))
    returns (r: Result<(seq<Option<Summary>>, nat)>)
    requires Lawful(m) && PositiveParks(inp.t)
    ensures r == SweepBest(m, inp, grid, point)
  {
    var run := Runner(m, inp, point);
    var runs: seq<Option<Summary>> := [];
    var i := 0;
    while i < |grid|
      invariant 0 <= i <= |grid|
      invariant Collect(grid[..i], run) == Ok(runs)
    {
      assert grid[..i + 1][..i] == grid[..i];
      var o := run(grid[i]);
      if o.Err? {
        CollectErr(grid, run, i + 1);
        return Err(o.error);
      }
      runs := runs + [o.value];
      i := i + 1;
    }
    assert grid[..i] == grid;
    var best := SelectBest(Losses(runs));
    if best.None? {
      return Err("KeyError: 'fip_weight'");
    }
    r := Ok((runs, best.value));
  }
}
