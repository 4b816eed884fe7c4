/**
  * The client's player records and the bundled fallback collection `playerDatabase`
  * (Frontend/src/data/playerData.ts). The record shapes are datatypes; the collection is a
  * constant, and the invariants the bundled entries satisfy are predicates proved about it.
  */
module PlayerData {
  import opened Wrappers
  import opened Text

  /** Per-game averages; exactly ten numeric fields. */
  datatype PlayerStats = PlayerStats(
    ppg: real, rpg: real, apg: real, spg: real, bpg: real,
    fgPct: real, threePct: real, ftPct: real, topg: real, mpg: real)

  datatype CareerOutcome = CareerOutcome(outcome: string, probability: real, description: string)

  /** Projected NBA peak stats from the draftability model. */
  datatype CareerProjections = CareerProjections(peak_bpm: real, peak_vorp: real, peak_pts: real, peak_mp: real)

  datatype SeasonLog = SeasonLog(season: string, ppg: real, rpg: real, apg: real, fgPct: real)

  datatype ComparisonStats = ComparisonStats(ppg: real, rpg: real, apg: real)

  datatype NbaComparison = NbaComparison(
    name: string, team: string, position: string, matchScore: real, headshotUrl: string,
    similarities: seq<string>, differences: seq<string>, stats: ComparisonStats)

  /** A prospect; `careerProjections` is the one optional field (absent or null is `None`). */
  datatype Player = Player(
    id: string, name: string, headshotUrl: string, school: string, year: string,
    position: string, height: string, weight: string, archetype: string,
    archetypeConfidence: real, nbaComp: string, nbaComparisons: seq<NbaComparison>,
    stats: PlayerStats, careerOutcomes: seq<CareerOutcome>,
    careerProjections: Option<CareerProjections>, seasonLog: seq<SeasonLog>,
    strengths: seq<string>, weaknesses: seq<string>, draftabilityScore: real)

  /** The id scheme the bundled data follows: the name lower-cased, each space a hyphen. */
  function Slugify(name: string): (r: string)
    ensures |r| == |name|
    ensures ' ' !in r
    ensures NoUpper(r)
  {
    var r := ReplaceChar(Lower(name), ' ', '-');
    assert forall i :: 0 <= i < |r| ==> r[i] != ' ';
    r
  }

  function ProbabilitySum(os: seq<CareerOutcome>): real {
    if os == [] then 0.0 else os[0].probability + ProbabilitySum(os[1..])
  }

  predicate StrictlyDecreasingScores(cs: seq<NbaComparison>) {
    forall i :: 0 <= i < |cs| - 1 ==> cs[i].matchScore > cs[i + 1].matchScore
  }

  /** The invariants every bundled entry satisfies. */
  predicate Bundled(p: Player) {
    && p.id == Slugify(p.name)
    && |p.nbaComparisons| > 0 && p.nbaComp == p.nbaComparisons[0].name
    && StrictlyDecreasingScores(p.nbaComparisons)
    && |p.careerOutcomes| == 5 && ProbabilitySum(p.careerOutcomes) == 100.0
    && |p.seasonLog| > 0
    && var last := p.seasonLog[|p.seasonLog| - 1];
       last.ppg == p.stats.ppg && last.rpg == p.stats.rpg
       && last.apg == p.stats.apg && last.fgPct == p.stats.fgPct
  }

  predicate DistinctIds(ps: seq<Player>) {
    forall i, j :: 0 <= i < j < |ps| ==> ps[i].id != ps[j].id
  }

  predicate DistinctScores(ps: seq<Player>) {
    forall i, j :: 0 <= i < j < |ps| ==> ps[i].draftabilityScore != ps[j].draftabilityScore
  }

  lemma MarcusWilliamsBundled()
    ensures Bundled(MarcusWilliams)
  {
  }

  lemma JaylenCarterBundled()
    ensures Bundled(JaylenCarter)
  {
  }

  lemma TylerAdamsBundled()
    ensures Bundled(TylerAdams)
  {
  }

  lemma EmmanuelOkekeBundled()
    ensures Bundled(EmmanuelOkeke)
  {
  }

  lemma DerekJohnsonBundled()
    ensures Bundled(DerekJohnson)
  {
  }

  lemma JamesMitchellBundled()
    ensures Bundled(JamesMitchell)
  {
  }

  lemma BrandonHayesBundled()
    ensures Bundled(BrandonHayes)
  {
  }

  lemma IsaiahColemanBundled()
    ensures Bundled(IsaiahColeman)
  {
  }

  lemma MarcusThompsonBundled()
    ensures Bundled(MarcusThompson)
  {
  }

  lemma JordanRiversBundled()
    ensures Bundled(JordanRivers)
  {
  }

  lemma AaronBrooksBundled()
    ensures Bundled(AaronBrooks)
  {
  }

  lemma KevinMorrisBundled()
    ensures Bundled(KevinMorris)
  {
  }

  lemma TerrenceWrightBundled()
    ensures Bundled(TerrenceWright)
  {
  }

  lemma DavidParkerBundled()
    ensures Bundled(DavidParker)
  {
  }

  lemma ChrisEvansBundled()
    ensures Bundled(ChrisEvans)
  {
  }

  lemma RyanFosterBundled()
    ensures Bundled(RyanFoster)
  {
  }

  lemma NathanBellBundled()
    ensures Bundled(NathanBell)
  {
  }

  lemma TylerGreenBundled()
    ensures Bundled(TylerGreen)
  {
  }

  lemma JasonLeeBundled()
    ensures Bundled(JasonLee)
  {
  }

  lemma MichaelSandersBundled()
    ensures Bundled(MichaelSanders)
  {
  }

  lemma DatabaseBundled0To5()
    ensures |PlayerDatabase| == 20
    ensures forall i :: 0 <= i < 5 ==> Bundled(PlayerDatabase[i])
  {
    forall i | 0 <= i < 5
      ensures Bundled(PlayerDatabase[i])
    {
      if i == 0 { assert PlayerDatabase[i] == MarcusWilliams; MarcusWilliamsBundled(); }
      else if i == 1 { assert PlayerDatabase[i] == JaylenCarter; JaylenCarterBundled(); }
      else if i == 2 { assert PlayerDatabase[i] == TylerAdams; TylerAdamsBundled(); }
      else if i == 3 { assert PlayerDatabase[i] == EmmanuelOkeke; EmmanuelOkekeBundled(); }
      else { assert PlayerDatabase[i] == DerekJohnson; DerekJohnsonBundled(); }
    }
  }

  lemma DatabaseBundled5To10()
    ensures |PlayerDatabase| == 20
    ensures forall i :: 5 <= i < 10 ==> Bundled(PlayerDatabase[i])
  {
    forall i | 5 <= i < 10
      ensures Bundled(PlayerDatabase[i])
    {
      if i == 5 { assert PlayerDatabase[i] == JamesMitchell; JamesMitchellBundled(); }
      else if i == 6 { assert PlayerDatabase[i] == BrandonHayes; BrandonHayesBundled(); }
      else if i == 7 { assert PlayerDatabase[i] == IsaiahColeman; IsaiahColemanBundled(); }
      else if i == 8 { assert PlayerDatabase[i] == MarcusThompson; MarcusThompsonBundled(); }
      else { assert PlayerDatabase[i] == JordanRivers; JordanRiversBundled(); }
    }
  }

  lemma DatabaseBundled10To15()
    ensures |PlayerDatabase| == 20
    ensures forall i :: 10 <= i < 15 ==> Bundled(PlayerDatabase[i])
  {
    forall i | 10 <= i < 15
      ensures Bundled(PlayerDatabase[i])
    {
      if i == 10 { assert PlayerDatabase[i] == AaronBrooks; AaronBrooksBundled(); }
      else if i == 11 { assert PlayerDatabase[i] == KevinMorris; KevinMorrisBundled(); }
      else if i == 12 { assert PlayerDatabase[i] == TerrenceWright; TerrenceWrightBundled(); }
      else if i == 13 { assert PlayerDatabase[i] == DavidParker; DavidParkerBundled(); }
      else { assert PlayerDatabase[i] == ChrisEvans; ChrisEvansBundled(); }
    }
  }

  lemma DatabaseBundled15To20()
    ensures |PlayerDatabase| == 20
    ensures forall i :: 15 <= i < 20 ==> Bundled(PlayerDatabase[i])
  {
    forall i | 15 <= i < 20
      ensures Bundled(PlayerDatabase[i])
    {
      if i == 15 { assert PlayerDatabase[i] == RyanFoster; RyanFosterBundled(); }
      else if i == 16 { assert PlayerDatabase[i] == NathanBell; NathanBellBundled(); }
      else if i == 17 { assert PlayerDatabase[i] == TylerGreen; TylerGreenBundled(); }
      else if i == 18 { assert PlayerDatabase[i] == JasonLee; JasonLeeBundled(); }
      else { assert PlayerDatabase[i] == MichaelSanders; MichaelSandersBundled(); }
    }
  }

  /** Every bundled entry satisfies `Bundled`. */
  lemma DatabaseBundled()
    ensures |PlayerDatabase| == 20
    ensures forall p :: p in PlayerDatabase ==> Bundled(p)
  {
    DatabaseBundled0To5();
    DatabaseBundled5To10();
    DatabaseBundled10To15();
    DatabaseBundled15To20();
  }

  /** The ids of the bundled entries, in collection order. */
  const BundledIds: seq<string> := [
    "marcus-williams", "jaylen-carter", "tyler-adams", "emmanuel-okeke",
    "derek-johnson", "james-mitchell", "brandon-hayes", "isaiah-coleman",
    "marcus-thompson", "jordan-rivers", "aaron-brooks", "kevin-morris",
    "terrence-wright", "david-parker", "chris-evans", "ryan-foster",
    "nathan-bell", "tyler-green", "jason-lee", "michael-sanders"
  ]

  lemma DatabaseIds()
    ensures |PlayerDatabase| == |BundledIds|
    ensures forall i :: 0 <= i < |PlayerDatabase| ==> PlayerDatabase[i].id == BundledIds[i]
  {
  }

  lemma BundledIdsDistinct()
    ensures forall i, j :: 0 <= i < j < |BundledIds| ==> BundledIds[i] != BundledIds[j]
  {
  }

  lemma DatabaseDistinctIds()
    ensures DistinctIds(PlayerDatabase)
  {
    DatabaseIds();
    BundledIdsDistinct();
  }

  /** The draftability scores of the bundled entries, in collection order. */
  const BundledScores: seq<real> := [78.0, 85.0, 82.0, 72.0, 68.0, 74.0, 76.0, 75.0, 71.0, 73.0, 69.0, 70.0, 67.0, 66.0, 65.0, 64.0, 62.0, 61.0, 59.0, 55.0]

  lemma DatabaseScores()
    ensures |PlayerDatabase| == |BundledScores|
    ensures forall i :: 0 <= i < |PlayerDatabase| ==> PlayerDatabase[i].draftabilityScore == BundledScores[i]
  {
  }

  lemma BundledScoresDistinct()
    ensures forall i, j :: 0 <= i < j < |BundledScores| ==> BundledScores[i] != BundledScores[j]
  {
  }

  lemma DatabaseDistinctScores()
    ensures DistinctScores(PlayerDatabase)
  {
    DatabaseScores();
    BundledScoresDistinct();
  }
  /** Bundled entry 1 (playerData.ts line 74). */
  const MarcusWilliams: Player := Player(
    "marcus-williams", "Marcus Williams",
    "https://api.dicebear.com/7.x/avataaars/png?seed=marcus-williams&backgroundColor=1e3a5f&radius=50",
    "Duke", "Junior", "PG", "6'3\"", "185 lbs", "Point Guard Playmaker", 87.0, "Malcolm Brogdon",
    [
      NbaComparison("Malcolm Brogdon", "Washington Wizards", "PG", 87.0,
        "https://cdn.nba.com/headshots/nba/latest/1040x760/1627763.png",
        ["High basketball IQ", "Efficient mid-range game", "Strong free throw shooting", "Solid playmaking ability"],
        ["Brogdon is more physical defender", "Williams has quicker first step", "Brogdon more experienced in pick-and-roll"],
        ComparisonStats(15.7, 4.5, 5.8)),
      NbaComparison("Tyrese Haliburton", "Indiana Pacers", "PG", 82.0,
        "https://cdn.nba.com/headshots/nba/latest/1040x760/1630169.png",
        ["Elite court vision", "Smart decision maker", "Efficient shooter", "Pass-first mentality"],
        ["Haliburton has longer wingspan", "Williams more aggressive scorer", "Haliburton better in transition"],
        ComparisonStats(20.1, 3.9, 10.9)),
      NbaComparison("Jalen Brunson", "New York Knicks", "PG", 78.0,
        "https://cdn.nba.com/headshots/nba/latest/1040x760/1628973.png",
        ["Tough shot maker", "Strong in clutch", "Mid-range specialist", "High motor player"],
        ["Brunson more physical", "Williams taller", "Brunson more proven playoff performer"],
        ComparisonStats(28.7, 3.6, 6.7)),
      NbaComparison("Fred VanVleet", "Houston Rockets", "PG", 74.0,
        "https://cdn.nba.com/headshots/nba/latest/1040x760/1627832.png",
        ["Defensive effort", "Three-point shooting", "Leadership qualities", "Competitive spirit"],
        ["VanVleet more tenacious defender", "Williams better finisher", "VanVleet more experienced"],
        ComparisonStats(17.1, 3.8, 7.2)),
      NbaComparison("Derrick White", "Boston Celtics", "PG/SG", 71.0,
        "https://cdn.nba.com/headshots/nba/latest/1040x760/1628401.png",
        ["Two-way potential", "Smart defender", "Team-first mentality", "Solid shooter"],
        ["White is elite shot blocker for guard", "Williams better passer", "White more versatile defensively"],
        ComparisonStats(15.2, 4.2, 5.2))
    ],
    PlayerStats(18.5, 3.8, 7.2, 1.4, 0.2, 46.3, 38.7, 84.2, 2.1, 34.6),
    [
      CareerOutcome("All-Star", 12.0, "Multiple All-Star selections, franchise cornerstone"),
      CareerOutcome("Quality Starter", 34.0, "Consistent starter averaging 14+ PPG for 8+ seasons"),
      CareerOutcome("Solid Rotation", 28.0, "Reliable rotation player with 7+ year career"),
      CareerOutcome("Role Player", 18.0, "Bench contributor with specific skill set"),
      CareerOutcome("Out of League", 8.0, "Exits NBA within 3 seasons")
    ],
    Some(CareerProjections(2.4, 1.8, 16.2, 2100.0)),
    [
      SeasonLog("2022-23", 10.2, 2.8, 4.5, 42.1),
      SeasonLog("2023-24", 14.8, 3.3, 5.9, 44.0),
      SeasonLog("2024-25", 18.5, 3.8, 7.2, 46.3)
    ],
    ["Court vision", "Mid-range shooting", "Pick & roll management", "Free throw shooting"],
    ["Lateral quickness", "Finishing through contact", "Defensive consistency"],
    78.0)

  /** Bundled entry 2 (playerData.ts line 167). */
  const JaylenCarter: Player := Player(
    "jaylen-carter", "Jaylen Carter",
    "https://api.dicebear.com/7.x/avataaars/png?seed=jaylen-carter&backgroundColor=1e3a5f&radius=50",
    "Kentucky", "Sophomore", "SG", "6'5\"", "205 lbs", "Two-Way Wing", 91.0, "Mikal Bridges",
    [
      NbaComparison("Mikal Bridges", "New York Knicks", "SF", 91.0,
        "https://cdn.nba.com/headshots/nba/latest/1040x760/1628969.png",
        ["Elite perimeter defender", "High motor", "Excellent wingspan", "Consistent three-point shooter"],
        ["Bridges more polished", "Carter more explosive athlete", "Bridges better off-ball movement"],
        ComparisonStats(19.6, 4.5, 3.6)),
      NbaComparison("Herb Jones", "New Orleans Pelicans", "SF", 86.0,
        "https://cdn.nba.com/headshots/nba/latest/1040x760/1630537.png",
        ["Lockdown defender", "Versatile on both ends", "High effort player", "Team-first attitude"],
        ["Jones more physical", "Carter better shooter", "Jones more switchable"],
        ComparisonStats(11.2, 3.8, 2.1)),
      NbaComparison("OG Anunoby", "New York Knicks", "SF", 83.0,
        "https://cdn.nba.com/headshots/nba/latest/1040x760/1628384.png",
        ["Elite wing defender", "Strong build", "Improving offensive game", "Reliable three-point shot"],
        ["Anunoby stronger", "Carter quicker laterally", "Anunoby more experienced"],
        ComparisonStats(14.1, 4.4, 2.1)),
      NbaComparison("Jalen Williams", "Oklahoma City Thunder", "SG/SF", 79.0,
        "https://cdn.nba.com/headshots/nba/latest/1040x760/1631114.png",
        ["Two-way versatility", "Long wingspan", "Improving playmaker", "Smart defender"],
        ["Williams better ball handler", "Carter more athletic", "Williams more creative scorer"],
        ComparisonStats(19.1, 4.5, 5.1)),
      NbaComparison("Cam Johnson", "Brooklyn Nets", "SF", 75.0,
        "https://cdn.nba.com/headshots/nba/latest/1040x760/1629661.png",
        ["Knockdown shooter", "Solid defender", "Good size", "Low turnover player"],
        ["Johnson better shooter", "Carter more athletic", "Johnson more off-ball oriented"],
        ComparisonStats(13.4, 4.3, 2.4))
    ],
    PlayerStats(16.8, 5.1, 2.9, 1.8, 0.6, 47.8, 36.2, 79.5, 1.6, 33.2),
    [
      CareerOutcome("All-Star", 18.0, "Elite two-way player, defensive anchor"),
      CareerOutcome("Quality Starter", 38.0, "Starting-caliber wing on a playoff team"),
      CareerOutcome("Solid Rotation", 25.0, "Switchable defender off the bench"),
      CareerOutcome("Role Player", 14.0, "3&D specialist"),
      CareerOutcome("Out of League", 5.0, "Exits NBA within 3 seasons")
    ],
    None,
    [
      SeasonLog("2023-24", 12.3, 4.2, 1.8, 44.5),
      SeasonLog("2024-25", 16.8, 5.1, 2.9, 47.8)
    ],
    ["Perimeter defense", "Transition offense", "Athleticism", "Wingspan"],
    ["Ball handling", "Off-dribble creation", "Free throw shooting"],
    85.0)

  /** Bundled entry 3 (playerData.ts line 258). */
  const TylerAdams: Player := Player(
    "tyler-adams", "Tyler Adams",
    "https://api.dicebear.com/7.x/avataaars/png?seed=tyler-adams&backgroundColor=1e3a5f&radius=50",
    "Duke", "Freshman", "PF", "6'9\"", "235 lbs", "Stretch Four", 79.0, "Pascal Siakam",
    [
      NbaComparison("Pascal Siakam", "Indiana Pacers", "PF", 79.0,
        "https://cdn.nba.com/headshots/nba/latest/1040x760/1627783.png",
        ["Versatile scoring", "Face-up game"],
        ["Siakam more polished"],
        ComparisonStats(22.1, 7.2, 4.8)),
      NbaComparison("Scottie Barnes", "Toronto Raptors", "PF", 75.0,
        "https://cdn.nba.com/headshots/nba/latest/1040x760/1630567.png",
        ["Ball handling", "Passing"],
        ["Barnes stronger"],
        ComparisonStats(19.9, 8.2, 6.1)),
      NbaComparison("Evan Mobley", "Cleveland Cavaliers", "C", 72.0,
        "https://cdn.nba.com/headshots/nba/latest/1040x760/1630596.png",
        ["Rim protection", "Mobility"],
        ["Mobley taller"],
        ComparisonStats(16.2, 9.4, 3.2)),
      NbaComparison("Jabari Smith Jr.", "Houston Rockets", "PF", 70.0,
        "https://cdn.nba.com/headshots/nba/latest/1040x760/1631096.png",
        ["Shooting", "Defense"],
        ["Smith better shooter"],
        ComparisonStats(13.7, 8.1, 1.5)),
      NbaComparison("Paolo Banchero", "Orlando Magic", "PF", 68.0,
        "https://cdn.nba.com/headshots/nba/latest/1040x760/1631094.png",
        ["Scoring versatility"],
        ["Banchero stronger"],
        ComparisonStats(22.6, 6.9, 5.4))
    ],
    PlayerStats(15.2, 8.1, 2.4, 0.9, 1.2, 48.2, 34.1, 72.5, 1.8, 28.4),
    [
      CareerOutcome("All-Star", 8.0, "Elite stretch big"),
      CareerOutcome("Quality Starter", 35.0, "Starting-caliber power forward"),
      CareerOutcome("Solid Rotation", 32.0, "Reliable rotation big"),
      CareerOutcome("Role Player", 20.0, "Stretch four off bench"),
      CareerOutcome("Out of League", 5.0, "Exits NBA within 3 seasons")
    ],
    None,
    [
      SeasonLog("2024-25", 15.2, 8.1, 2.4, 48.2)
    ],
    ["Shooting from mid-range", "Rebounding", "Switchability"],
    ["Post defense", "Free throw consistency"],
    82.0)

  /** Bundled entry 4 (playerData.ts line 290). */
  const EmmanuelOkeke: Player := Player(
    "emmanuel-okeke", "Emmanuel Okeke",
    "https://api.dicebear.com/7.x/avataaars/png?seed=emmanuel-okeke&backgroundColor=1e3a5f&radius=50",
    "Kansas", "Senior", "C", "7'0\"", "250 lbs", "Rim Runner", 85.0, "Walker Kessler",
    [
      NbaComparison("Walker Kessler", "Utah Jazz", "C", 85.0,
        "https://cdn.nba.com/headshots/nba/latest/1040x760/1631117.png",
        ["Rim protection", "P&R finishing"],
        ["Kessler more refined"],
        ComparisonStats(9.2, 8.4, 1.1)),
      NbaComparison("Clint Capela", "Atlanta Hawks", "C", 80.0,
        "https://cdn.nba.com/headshots/nba/latest/1040x760/203991.png",
        ["Lob threat", "Shot blocking"],
        ["Capela more athletic"],
        ComparisonStats(11.5, 10.6, 1.2)),
      NbaComparison("Daniel Gafford", "Dallas Mavericks", "C", 78.0,
        "https://cdn.nba.com/headshots/nba/latest/1040x760/1629655.png",
        ["Energy", "Finishing"],
        ["Gafford quicker"],
        ComparisonStats(10.9, 6.0, 1.4)),
      NbaComparison("Ivica Zubac", "Los Angeles Clippers", "C", 74.0,
        "https://cdn.nba.com/headshots/nba/latest/1040x760/1627826.png",
        ["Size", "Rebounding"],
        ["Zubac stronger"],
        ComparisonStats(11.7, 9.2, 1.3)),
      NbaComparison("Jarrett Allen", "Cleveland Cavaliers", "C", 71.0,
        "https://cdn.nba.com/headshots/nba/latest/1040x760/1628386.png",
        ["Rim running"],
        ["Allen more skilled"],
        ComparisonStats(16.5, 10.9, 1.7))
    ],
    PlayerStats(12.1, 9.8, 1.2, 0.5, 2.4, 64.2, 0.0, 58.3, 1.4, 26.2),
    [
      CareerOutcome("All-Star", 5.0, "Elite rim protector"),
      CareerOutcome("Quality Starter", 28.0, "Starting center"),
      CareerOutcome("Solid Rotation", 38.0, "Backup big"),
      CareerOutcome("Role Player", 22.0, "Rim runner specialist"),
      CareerOutcome("Out of League", 7.0, "Exits NBA within 3 seasons")
    ],
    None,
    [
      SeasonLog("2021-22", 6.2, 5.1, 0.8, 58.2),
      SeasonLog("2022-23", 8.4, 6.8, 1.0, 61.5),
      SeasonLog("2023-24", 10.2, 8.2, 1.1, 62.8),
      SeasonLog("2024-25", 12.1, 9.8, 1.2, 64.2)
    ],
    ["Shot blocking", "Rim running", "Rebounding", "Size"],
    ["Shooting range", "Free throw shooting", "Ball handling"],
    72.0)

  /** Bundled entry 5 (playerData.ts line 327). */
  const DerekJohnson: Player := Player(
    "derek-johnson", "Derek Johnson",
    "https://api.dicebear.com/7.x/avataaars/png?seed=derek-johnson&backgroundColor=1e3a5f&radius=50",
    "Duke", "Sophomore", "SG", "6'4\"", "198 lbs", "3&D Wing", 82.0, "Gary Trent Jr.",
    [
      NbaComparison("Gary Trent Jr.", "Toronto Raptors", "SG", 82.0,
        "https://cdn.nba.com/headshots/nba/latest/1040x760/1629018.png",
        ["Three-point shooting", "Defensive effort"],
        ["Trent more experienced"],
        ComparisonStats(13.3, 2.4, 1.5)),
      NbaComparison("Kentavious Caldwell-Pope", "Denver Nuggets", "SG", 78.0,
        "https://cdn.nba.com/headshots/nba/latest/1040x760/203484.png",
        ["3&D role", "Reliability"],
        ["KCP stronger"],
        ComparisonStats(10.1, 2.4, 2.1)),
      NbaComparison("Duncan Robinson", "Miami Heat", "SF", 74.0,
        "https://cdn.nba.com/headshots/nba/latest/1040x760/1629130.png",
        ["Shooting"],
        ["Robinson purer shooter"],
        ComparisonStats(12.9, 2.6, 2.2)),
      NbaComparison("Luke Kennard", "Memphis Grizzlies", "SG", 71.0,
        "https://cdn.nba.com/headshots/nba/latest/1040x760/1628379.png",
        ["Elite shooting"],
        ["Kennard better creator"],
        ComparisonStats(11.0, 2.5, 2.9)),
      NbaComparison("Max Strus", "Cleveland Cavaliers", "SG", 69.0,
        "https://cdn.nba.com/headshots/nba/latest/1040x760/1629312.png",
        ["Catch-and-shoot"],
        ["Strus more movement"],
        ComparisonStats(12.2, 2.8, 2.1))
    ],
    PlayerStats(11.4, 3.2, 1.8, 1.2, 0.3, 43.5, 39.2, 81.2, 1.2, 27.8),
    [
      CareerOutcome("All-Star", 4.0, "Elite 3&D"),
      CareerOutcome("Quality Starter", 25.0, "Starting wing"),
      CareerOutcome("Solid Rotation", 35.0, "Bench shooter"),
      CareerOutcome("Role Player", 28.0, "Specialist"),
      CareerOutcome("Out of League", 8.0, "Exits NBA within 3 seasons")
    ],
    None,
    [
      SeasonLog("2023-24", 7.8, 2.4, 1.2, 40.2),
      SeasonLog("2024-25", 11.4, 3.2, 1.8, 43.5)
    ],
    ["Three-point shooting", "Defensive effort", "Off-ball movement"],
    ["Ball handling", "Creating offense", "Finishing"],
    68.0)

  /** Bundled entry 6 (playerData.ts line 362). */
  const JamesMitchell: Player := Player(
    "james-mitchell", "James Mitchell",
    "https://api.dicebear.com/7.x/avataaars/png?seed=james-mitchell&backgroundColor=1e3a5f&radius=50",
    "North Carolina", "Junior", "SF", "6'7\"", "215 lbs", "Combo Forward", 76.0, "Trey Murphy III",
    [
      NbaComparison("Trey Murphy III", "New Orleans Pelicans", "SF", 76.0,
        "https://cdn.nba.com/headshots/nba/latest/1040x760/1630530.png",
        ["Size", "Shooting", "Athleticism"],
        ["Murphy more explosive"],
        ComparisonStats(14.8, 4.9, 2.2)),
      NbaComparison("Franz Wagner", "Orlando Magic", "SF", 73.0,
        "https://cdn.nba.com/headshots/nba/latest/1040x760/1630532.png",
        ["Versatility", "Size"],
        ["Wagner better creator"],
        ComparisonStats(19.1, 5.6, 3.9)),
      NbaComparison("Bojan Bogdanovic", "New York Knicks", "SF", 70.0,
        "https://cdn.nba.com/headshots/nba/latest/1040x760/202711.png",
        ["Scoring"],
        ["Bogdanovic purer shooter"],
        ComparisonStats(12.8, 3.2, 1.8)),
      NbaComparison("Harrison Barnes", "Sacramento Kings", "SF", 67.0,
        "https://cdn.nba.com/headshots/nba/latest/1040x760/203084.png",
        ["Reliability"],
        ["Barnes more experienced"],
        ComparisonStats(12.2, 3.0, 1.8)),
      NbaComparison("Kevin Huerter", "Sacramento Kings", "SG", 65.0,
        "https://cdn.nba.com/headshots/nba/latest/1040x760/1628983.png",
        ["Shooting", "Passing"],
        ["Huerter better passer"],
        ComparisonStats(10.2, 3.5, 2.6))
    ],
    PlayerStats(14.2, 5.4, 2.8, 1.0, 0.4, 45.8, 36.5, 77.8, 1.6, 30.2),
    [
      CareerOutcome("All-Star", 6.0, "Elite versatile forward"),
      CareerOutcome("Quality Starter", 30.0, "Starting forward"),
      CareerOutcome("Solid Rotation", 32.0, "Versatile bench piece"),
      CareerOutcome("Role Player", 26.0, "Role player"),
      CareerOutcome("Out of League", 6.0, "Exits NBA within 3 seasons")
    ],
    None,
    [
      SeasonLog("2022-23", 8.2, 3.4, 1.5, 42.1),
      SeasonLog("2023-24", 11.5, 4.5, 2.2, 44.2),
      SeasonLog("2024-25", 14.2, 5.4, 2.8, 45.8)
    ],
    ["Versatility", "Mid-range game", "Defensive switchability"],
    ["Explosiveness", "Three-point volume", "Playmaking"],
    74.0)

  /** Bundled entry 7 (playerData.ts line 399). */
  const BrandonHayes: Player := Player(
    "brandon-hayes", "Brandon Hayes",
    "https://api.dicebear.com/7.x/avataaars/png?seed=brandon-hayes&backgroundColor=1e3a5f&radius=50",
    "UCLA", "Junior", "PG", "6'2\"", "190 lbs", "Score-First Guard", 81.0, "Collin Sexton",
    [
      NbaComparison("Collin Sexton", "Utah Jazz", "PG", 81.0,
        "https://cdn.nba.com/headshots/nba/latest/1040x760/1629012.png",
        ["Aggressive scorer", "Speed"],
        ["Sexton more polished"],
        ComparisonStats(18.7, 2.6, 4.9)),
      NbaComparison("Anfernee Simons", "Portland Trail Blazers", "SG", 77.0,
        "https://cdn.nba.com/headshots/nba/latest/1040x760/1629014.png",
        ["Shooting", "Athleticism"],
        ["Simons better shooter"],
        ComparisonStats(22.9, 3.5, 5.8))
    ],
    PlayerStats(17.2, 3.1, 5.4, 1.3, 0.1, 44.8, 35.2, 82.1, 2.4, 32.1),
    [
      CareerOutcome("All-Star", 10.0, "Elite scorer"),
      CareerOutcome("Quality Starter", 32.0, "Starting guard"),
      CareerOutcome("Solid Rotation", 30.0, "Bench scorer"),
      CareerOutcome("Role Player", 20.0, "Scoring specialist"),
      CareerOutcome("Out of League", 8.0, "Exits NBA within 3 seasons")
    ],
    None,
    [
      SeasonLog("2022-23", 9.1, 2.2, 3.2, 41.2),
      SeasonLog("2023-24", 13.4, 2.8, 4.5, 43.1),
      SeasonLog("2024-25", 17.2, 3.1, 5.4, 44.8)
    ],
    ["Scoring", "Speed", "Free throw shooting"],
    ["Playmaking", "Defense", "Efficiency"],
    76.0)

  /** Bundled entry 8 (playerData.ts line 432). */
  const IsaiahColeman: Player := Player(
    "isaiah-coleman", "Isaiah Coleman",
    "https://api.dicebear.com/7.x/avataaars/png?seed=isaiah-coleman&backgroundColor=1e3a5f&radius=50",
    "Villanova", "Sophomore", "SG", "6'6\"", "210 lbs", "Wing Scorer", 78.0, "Devin Vassell",
    [
      NbaComparison("Devin Vassell", "San Antonio Spurs", "SG", 78.0,
        "https://cdn.nba.com/headshots/nba/latest/1040x760/1630170.png",
        ["Length", "Shooting"],
        ["Vassell more polished"],
        ComparisonStats(19.5, 3.8, 3.6))
    ],
    PlayerStats(15.6, 4.2, 2.6, 1.4, 0.5, 46.2, 37.8, 80.5, 1.5, 31.4),
    [
      CareerOutcome("All-Star", 8.0, "Elite wing"),
      CareerOutcome("Quality Starter", 35.0, "Starting wing"),
      CareerOutcome("Solid Rotation", 30.0, "Bench wing"),
      CareerOutcome("Role Player", 20.0, "Wing specialist"),
      CareerOutcome("Out of League", 7.0, "Exits NBA within 3 seasons")
    ],
    None,
    [
      SeasonLog("2023-24", 10.2, 3.1, 1.8, 43.2),
      SeasonLog("2024-25", 15.6, 4.2, 2.6, 46.2)
    ],
    ["Shooting", "Length", "Defensive potential"],
    ["Ball handling", "Creating for others"],
    75.0)

  /** Bundled entry 9 (playerData.ts line 463). */
  const MarcusThompson: Player := Player(
    "marcus-thompson", "Marcus Thompson",
    "https://api.dicebear.com/7.x/avataaars/png?seed=marcus-thompson&backgroundColor=1e3a5f&radius=50",
    "Michigan State", "Senior", "PF", "6'8\"", "228 lbs", "Energy Big", 74.0, "Jeremiah Robinson-Earl",
    [
      NbaComparison("Jeremiah Robinson-Earl", "New Orleans Pelicans", "PF", 74.0,
        "https://cdn.nba.com/headshots/nba/latest/1040x760/1630526.png",
        ["Motor", "Rebounding"],
        ["JRE more skilled"],
        ComparisonStats(7.2, 5.1, 1.4))
    ],
    PlayerStats(11.8, 7.4, 1.9, 0.8, 0.9, 52.1, 31.2, 69.4, 1.3, 26.8),
    [
      CareerOutcome("All-Star", 3.0, "Elite energy big"),
      CareerOutcome("Quality Starter", 22.0, "Starting forward"),
      CareerOutcome("Solid Rotation", 40.0, "Bench big"),
      CareerOutcome("Role Player", 28.0, "Energy specialist"),
      CareerOutcome("Out of League", 7.0, "Exits NBA within 3 seasons")
    ],
    None,
    [
      SeasonLog("2021-22", 4.2, 3.2, 0.8, 48.2),
      SeasonLog("2022-23", 7.1, 5.1, 1.2, 50.1),
      SeasonLog("2023-24", 9.5, 6.2, 1.5, 51.2),
      SeasonLog("2024-25", 11.8, 7.4, 1.9, 52.1)
    ],
    ["Rebounding", "Motor", "Screen setting"],
    ["Shooting", "Post game", "Shot creation"],
    71.0)

  /** Bundled entry 10 (playerData.ts line 496). */
  const JordanRivers: Player := Player(
    "jordan-rivers", "Jordan Rivers",
    "https://api.dicebear.com/7.x/avataaars/png?seed=jordan-rivers&backgroundColor=1e3a5f&radius=50",
    "Arizona", "Freshman", "SF", "6'7\"", "218 lbs", "Slasher", 77.0, "Jalen Johnson",
    [
      NbaComparison("Jalen Johnson", "Atlanta Hawks", "SF", 77.0,
        "https://cdn.nba.com/headshots/nba/latest/1040x760/1630552.png",
        ["Athleticism", "Finishing"],
        ["Johnson more polished"],
        ComparisonStats(16.1, 8.7, 3.6))
    ],
    PlayerStats(13.4, 5.8, 2.2, 1.1, 0.6, 48.5, 32.1, 74.2, 1.7, 28.2),
    [
      CareerOutcome("All-Star", 7.0, "Elite wing"),
      CareerOutcome("Quality Starter", 32.0, "Starting forward"),
      CareerOutcome("Solid Rotation", 33.0, "Bench wing"),
      CareerOutcome("Role Player", 21.0, "Athletic specialist"),
      CareerOutcome("Out of League", 7.0, "Exits NBA within 3 seasons")
    ],
    None,
    [
      SeasonLog("2024-25", 13.4, 5.8, 2.2, 48.5)
    ],
    ["Athleticism", "Finishing", "Transition"],
    ["Shooting", "Half-court creation"],
    73.0)

  /** Bundled entry 11 (playerData.ts line 524). */
  const AaronBrooks: Player := Player(
    "aaron-brooks", "Aaron Brooks",
    "https://api.dicebear.com/7.x/avataaars/png?seed=aaron-brooks-2&backgroundColor=1e3a5f&radius=50",
    "Gonzaga", "Junior", "C", "6'11\"", "245 lbs", "Traditional Big", 72.0, "Drew Eubanks",
    [
      NbaComparison("Drew Eubanks", "Phoenix Suns", "C", 72.0,
        "https://cdn.nba.com/headshots/nba/latest/1040x760/1629234.png",
        ["Size", "Rim running"],
        ["Eubanks more mobile"],
        ComparisonStats(5.8, 4.2, 1.0))
    ],
    PlayerStats(10.2, 8.6, 1.4, 0.4, 1.8, 58.2, 0.0, 62.1, 1.2, 24.1),
    [
      CareerOutcome("All-Star", 2.0, "Elite center"),
      CareerOutcome("Quality Starter", 18.0, "Starting center"),
      CareerOutcome("Solid Rotation", 42.0, "Backup big"),
      CareerOutcome("Role Player", 30.0, "Depth big"),
      CareerOutcome("Out of League", 8.0, "Exits NBA within 3 seasons")
    ],
    None,
    [
      SeasonLog("2022-23", 4.1, 4.2, 0.6, 54.2),
      SeasonLog("2023-24", 7.2, 6.1, 1.0, 56.1),
      SeasonLog("2024-25", 10.2, 8.6, 1.4, 58.2)
    ],
    ["Size", "Rebounding", "Rim protection"],
    ["Shooting", "Speed", "Free throws"],
    69.0)

  /** Bundled entry 12 (playerData.ts line 556). */
  const KevinMorris: Player := Player(
    "kevin-morris", "Kevin Morris",
    "https://api.dicebear.com/7.x/avataaars/png?seed=kevin-morris&backgroundColor=1e3a5f&radius=50",
    "Connecticut", "Sophomore", "PG", "6'1\"", "178 lbs", "Pass-First Guard", 75.0, "Andrew Nembhard",
    [
      NbaComparison("Andrew Nembhard", "Indiana Pacers", "PG", 75.0,
        "https://cdn.nba.com/headshots/nba/latest/1040x760/1630614.png",
        ["Playmaking", "Poise"],
        ["Nembhard more experienced"],
        ComparisonStats(9.2, 2.4, 4.9))
    ],
    PlayerStats(9.8, 2.6, 6.2, 1.0, 0.1, 42.1, 34.5, 78.9, 1.8, 28.4),
    [
      CareerOutcome("All-Star", 5.0, "Elite playmaker"),
      CareerOutcome("Quality Starter", 28.0, "Starting point guard"),
      CareerOutcome("Solid Rotation", 35.0, "Backup point guard"),
      CareerOutcome("Role Player", 25.0, "Rotation guard"),
      CareerOutcome("Out of League", 7.0, "Exits NBA within 3 seasons")
    ],
    None,
    [
      SeasonLog("2023-24", 5.2, 1.8, 3.4, 39.2),
      SeasonLog("2024-25", 9.8, 2.6, 6.2, 42.1)
    ],
    ["Court vision", "Assist rate", "Low turnovers"],
    ["Scoring", "Size", "Athleticism"],
    70.0)

  /** Bundled entry 13 (playerData.ts line 587). */
  const TerrenceWright: Player := Player(
    "terrence-wright", "Terrence Wright",
    "https://api.dicebear.com/7.x/avataaars/png?seed=terrence-wright&backgroundColor=1e3a5f&radius=50",
    "Baylor", "Senior", "SG", "6'5\"", "202 lbs", "3&D Wing", 73.0, "Josh Green",
    [
      NbaComparison("Josh Green", "Dallas Mavericks", "SG", 73.0,
        "https://cdn.nba.com/headshots/nba/latest/1040x760/1630182.png",
        ["Defense", "Athleticism"],
        ["Green more explosive"],
        ComparisonStats(8.2, 2.8, 2.1))
    ],
    PlayerStats(10.8, 3.6, 2.0, 1.3, 0.3, 44.2, 37.1, 76.8, 1.1, 26.2),
    [
      CareerOutcome("All-Star", 3.0, "Elite 3&D"),
      CareerOutcome("Quality Starter", 24.0, "Starting wing"),
      CareerOutcome("Solid Rotation", 38.0, "Bench wing"),
      CareerOutcome("Role Player", 28.0, "Specialist"),
      CareerOutcome("Out of League", 7.0, "Exits NBA within 3 seasons")
    ],
    None,
    [
      SeasonLog("2021-22", 3.2, 1.4, 0.8, 38.2),
      SeasonLog("2022-23", 5.8, 2.2, 1.2, 40.1),
      SeasonLog("2023-24", 8.1, 2.9, 1.6, 42.5),
      SeasonLog("2024-25", 10.8, 3.6, 2.0, 44.2)
    ],
    ["Defense", "Three-point shooting", "Versatility"],
    ["Creation", "Finishing", "Playmaking"],
    67.0)

  /** Bundled entry 14 (playerData.ts line 620). */
  const DavidParker: Player := Player(
    "david-parker", "David Parker",
    "https://api.dicebear.com/7.x/avataaars/png?seed=david-parker&backgroundColor=1e3a5f&radius=50",
    "Ohio State", "Junior", "PF", "6'9\"", "232 lbs", "Stretch Four", 70.0, "Jalen Smith",
    [
      NbaComparison("Jalen Smith", "Chicago Bulls", "PF", 70.0,
        "https://cdn.nba.com/headshots/nba/latest/1040x760/1630188.png",
        ["Shooting", "Length"],
        ["Smith more polished"],
        ComparisonStats(9.9, 6.8, 1.2))
    ],
    PlayerStats(12.4, 6.2, 1.8, 0.7, 0.8, 46.8, 35.2, 71.2, 1.4, 27.1),
    [
      CareerOutcome("All-Star", 4.0, "Elite stretch big"),
      CareerOutcome("Quality Starter", 26.0, "Starting forward"),
      CareerOutcome("Solid Rotation", 36.0, "Bench stretch four"),
      CareerOutcome("Role Player", 27.0, "Shooting specialist"),
      CareerOutcome("Out of League", 7.0, "Exits NBA within 3 seasons")
    ],
    None,
    [
      SeasonLog("2022-23", 6.2, 3.8, 1.0, 43.2),
      SeasonLog("2023-24", 9.4, 5.0, 1.4, 45.1),
      SeasonLog("2024-25", 12.4, 6.2, 1.8, 46.8)
    ],
    ["Shooting", "Size", "Rebounding"],
    ["Defense", "Post game", "Athleticism"],
    66.0)

  /** Bundled entry 15 (playerData.ts line 652). */
  const ChrisEvans: Player := Player(
    "chris-evans", "Chris Evans",
    "https://api.dicebear.com/7.x/avataaars/png?seed=chris-evans-2&backgroundColor=1e3a5f&radius=50",
    "Texas", "Freshman", "SG", "6'4\"", "195 lbs", "Combo Guard", 72.0, "Nick Smith Jr.",
    [
      NbaComparison("Nick Smith Jr.", "Charlotte Hornets", "SG", 72.0,
        "https://cdn.nba.com/headshots/nba/latest/1040x760/1631107.png",
        ["Scoring", "Handle"],
        ["Smith more explosive"],
        ComparisonStats(8.7, 2.1, 2.4))
    ],
    PlayerStats(11.2, 2.8, 3.2, 1.0, 0.2, 42.8, 33.5, 79.2, 1.6, 25.4),
    [
      CareerOutcome("All-Star", 6.0, "Elite combo guard"),
      CareerOutcome("Quality Starter", 28.0, "Starting guard"),
      CareerOutcome("Solid Rotation", 34.0, "Bench guard"),
      CareerOutcome("Role Player", 25.0, "Scoring guard"),
      CareerOutcome("Out of League", 7.0, "Exits NBA within 3 seasons")
    ],
    None,
    [
      SeasonLog("2024-25", 11.2, 2.8, 3.2, 42.8)
    ],
    ["Scoring", "Ball handling", "Free throws"],
    ["Defense", "Consistency", "Playmaking"],
    65.0)

  /** Bundled entry 16 (playerData.ts line 680). */
  const RyanFoster: Player := Player(
    "ryan-foster", "Ryan Foster",
    "https://api.dicebear.com/7.x/avataaars/png?seed=ryan-foster&backgroundColor=1e3a5f&radius=50",
    "Purdue", "Senior", "C", "7'1\"", "265 lbs", "Back to Basket Big", 71.0, "Zach Edey",
    [
      NbaComparison("Zach Edey", "Memphis Grizzlies", "C", 71.0,
        "https://cdn.nba.com/headshots/nba/latest/1040x760/1641792.png",
        ["Size", "Post game"],
        ["Edey more dominant"],
        ComparisonStats(12.2, 9.8, 1.2))
    ],
    PlayerStats(11.6, 9.2, 1.1, 0.3, 2.1, 56.8, 0.0, 65.2, 1.5, 25.8),
    [
      CareerOutcome("All-Star", 3.0, "Elite center"),
      CareerOutcome("Quality Starter", 22.0, "Starting center"),
      CareerOutcome("Solid Rotation", 38.0, "Backup big"),
      CareerOutcome("Role Player", 28.0, "Depth big"),
      CareerOutcome("Out of League", 9.0, "Exits NBA within 3 seasons")
    ],
    None,
    [
      SeasonLog("2021-22", 3.8, 3.2, 0.4, 52.1),
      SeasonLog("2022-23", 6.2, 5.4, 0.6, 54.2),
      SeasonLog("2023-24", 8.8, 7.2, 0.9, 55.5),
      SeasonLog("2024-25", 11.6, 9.2, 1.1, 56.8)
    ],
    ["Size", "Post scoring", "Shot blocking"],
    ["Mobility", "Shooting", "Switchability"],
    64.0)

  /** Bundled entry 17 (playerData.ts line 713). */
  const NathanBell: Player := Player(
    "nathan-bell", "Nathan Bell",
    "https://api.dicebear.com/7.x/avataaars/png?seed=nathan-bell&backgroundColor=1e3a5f&radius=50",
    "Florida", "Sophomore", "SF", "6'6\"", "208 lbs", "Wing Defender", 69.0, "Dalen Terry",
    [
      NbaComparison("Dalen Terry", "Chicago Bulls", "SF", 69.0,
        "https://cdn.nba.com/headshots/nba/latest/1040x760/1631120.png",
        ["Length", "Defense"],
        ["Terry more athletic"],
        ComparisonStats(4.2, 2.4, 1.8))
    ],
    PlayerStats(8.4, 4.2, 2.0, 1.2, 0.5, 43.2, 32.8, 72.1, 1.2, 24.2),
    [
      CareerOutcome("All-Star", 2.0, "Elite defender"),
      CareerOutcome("Quality Starter", 18.0, "Starting wing"),
      CareerOutcome("Solid Rotation", 40.0, "Defensive wing"),
      CareerOutcome("Role Player", 32.0, "Defense specialist"),
      CareerOutcome("Out of League", 8.0, "Exits NBA within 3 seasons")
    ],
    None,
    [
      SeasonLog("2023-24", 4.8, 2.6, 1.2, 40.2),
      SeasonLog("2024-25", 8.4, 4.2, 2.0, 43.2)
    ],
    ["Defense", "Length", "Motor"],
    ["Scoring", "Shooting", "Creation"],
    62.0)

  /** Bundled entry 18 (playerData.ts line 744). */
  const TylerGreen: Player := Player(
    "tyler-green", "Tyler Green",
    "https://api.dicebear.com/7.x/avataaars/png?seed=tyler-green-2&backgroundColor=1e3a5f&radius=50",
    "Marquette", "Junior", "PG", "6'0\"", "172 lbs", "Floor General", 68.0, "Tyus Jones",
    [
      NbaComparison("Tyus Jones", "Minnesota Timberwolves", "PG", 68.0,
        "https://cdn.nba.com/headshots/nba/latest/1040x760/1626145.png",
        ["Assist-to-turnover", "Poise"],
        ["Jones more proven"],
        ComparisonStats(10.0, 2.5, 7.3))
    ],
    PlayerStats(8.2, 2.2, 5.8, 0.9, 0.0, 41.2, 35.1, 85.2, 1.2, 26.8),
    [
      CareerOutcome("All-Star", 2.0, "Elite floor general"),
      CareerOutcome("Quality Starter", 20.0, "Starting point guard"),
      CareerOutcome("Solid Rotation", 38.0, "Backup point guard"),
      CareerOutcome("Role Player", 32.0, "Rotation guard"),
      CareerOutcome("Out of League", 8.0, "Exits NBA within 3 seasons")
    ],
    None,
    [
      SeasonLog("2022-23", 3.2, 1.2, 2.4, 38.2),
      SeasonLog("2023-24", 5.8, 1.8, 4.2, 39.8),
      SeasonLog("2024-25", 8.2, 2.2, 5.8, 41.2)
    ],
    ["Assist-to-turnover", "Free throw shooting", "Poise"],
    ["Size", "Scoring", "Athleticism"],
    61.0)

  /** Bundled entry 19 (playerData.ts line 776). */
  const JasonLee: Player := Player(
    "jason-lee", "Jason Lee",
    "https://api.dicebear.com/7.x/avataaars/png?seed=jason-lee&backgroundColor=1e3a5f&radius=50",
    "Creighton", "Senior", "SG", "6'3\"", "188 lbs", "Shooter", 67.0, "Sam Hauser",
    [
      NbaComparison("Sam Hauser", "Boston Celtics", "SF", 67.0,
        "https://cdn.nba.com/headshots/nba/latest/1040x760/1630573.png",
        ["Shooting", "Off-ball"],
        ["Hauser taller"],
        ComparisonStats(9.0, 3.8, 1.4))
    ],
    PlayerStats(9.8, 2.6, 1.4, 0.6, 0.2, 44.2, 40.1, 88.2, 0.9, 22.4),
    [
      CareerOutcome("All-Star", 1.0, "Elite shooter"),
      CareerOutcome("Quality Starter", 14.0, "Starting shooter"),
      CareerOutcome("Solid Rotation", 36.0, "Bench shooter"),
      CareerOutcome("Role Player", 40.0, "Shooting specialist"),
      CareerOutcome("Out of League", 9.0, "Exits NBA within 3 seasons")
    ],
    None,
    [
      SeasonLog("2021-22", 2.8, 1.2, 0.4, 38.2),
      SeasonLog("2022-23", 5.2, 1.8, 0.8, 40.1),
      SeasonLog("2023-24", 7.4, 2.2, 1.0, 42.2),
      SeasonLog("2024-25", 9.8, 2.6, 1.4, 44.2)
    ],
    ["Three-point shooting", "Free throw shooting", "Efficiency"],
    ["Defense", "Creation", "Athleticism"],
    59.0)

  /** Bundled entry 20 (playerData.ts line 809). */
  const MichaelSanders: Player := Player(
    "michael-sanders", "Michael Sanders",
    "https://api.dicebear.com/7.x/avataaars/png?seed=michael-sanders&backgroundColor=1e3a5f&radius=50",
    "Virginia", "Freshman", "PF", "6'8\"", "225 lbs", "Project Big", 64.0, "Trayce Jackson-Davis",
    [
      NbaComparison("Trayce Jackson-Davis", "Golden State Warriors", "PF", 64.0,
        "https://cdn.nba.com/headshots/nba/latest/1040x760/1641926.png",
        ["Motor", "Finishing"],
        ["TJD more polished"],
        ComparisonStats(7.2, 4.8, 1.8))
    ],
    PlayerStats(6.8, 5.2, 1.2, 0.5, 1.0, 50.2, 28.1, 68.2, 1.4, 18.2),
    [
      CareerOutcome("All-Star", 2.0, "Elite big"),
      CareerOutcome("Quality Starter", 12.0, "Starting forward"),
      CareerOutcome("Solid Rotation", 34.0, "Bench big"),
      CareerOutcome("Role Player", 36.0, "Depth big"),
      CareerOutcome("Out of League", 16.0, "Exits NBA within 3 seasons")
    ],
    None,
    [
      SeasonLog("2024-25", 6.8, 5.2, 1.2, 50.2)
    ],
    ["Motor", "Rebounding", "Finishing"],
    ["Shooting", "Skill", "Experience"],
    55.0)

  /** `playerDatabase`: the bundled fallback collection, in source order. */
  const PlayerDatabase: seq<Player> := [
    MarcusWilliams, JaylenCarter, TylerAdams, EmmanuelOkeke,
    DerekJohnson, JamesMitchell, BrandonHayes, IsaiahColeman,
    MarcusThompson, JordanRivers, AaronBrooks, KevinMorris,
    TerrenceWright, DavidParker, ChrisEvans, RyanFoster,
    NathanBell, TylerGreen, JasonLee, MichaelSanders
  ]
}
