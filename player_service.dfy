/**
  * The client's player repository (Frontend/src/services/playerService.ts): the normaliser from a
  * backend JSON record to a player, the cache-once `fetchPlayers`, and the lookups
  * `fetchPlayerById` and `getPlayerById`. The backend is an oracle from endpoint to response.
  */
module PlayerService {
  import opened Wrappers
  import opened Text
  import opened Json
  import opened Seqs
  import opened PlayerData

  /** What a call of the API client yields: the decoded body, or a thrown error. */
  datatype ApiResult = Ok(body: Json) | Fail

  /** A career outcome after normalisation; `outcome` is copied as is, `undefined` being `None`. */
  datatype OutcomeRecord = OutcomeRecord(outcome: Option<Json>, probability: real, description: Json)

  /**
    * A player as the repository hands it out. Array and record fields that the code only casts
    * keep the JSON they arrived as; `careerProjections` is `None` when absent.
    */
  datatype PlayerRecord = PlayerRecord(
    id: string, name: string, headshotUrl: string, school: string, year: string,
    position: string, height: string, weight: string, archetype: string,
    archetypeConfidence: real, nbaComp: string, nbaComparisons: seq<Json>, stats: Json,
    careerOutcomes: seq<OutcomeRecord>, careerProjections: Option<Json>, seasonLog: seq<Json>,
    strengths: seq<Json>, weaknesses: seq<Json>, draftabilityScore: JsNumber)

  // ---------------------------------------------------------------------------
  // slugToName
  // ---------------------------------------------------------------------------

  /** `slugToName`: every hyphen becomes a space (URI decoding is the identity on ASCII slugs). */
  function SlugToName(slug: string): (r: string)
    ensures |r| == |slug|
    ensures '-' !in r
    ensures forall i :: 0 <= i < |slug| ==> r[i] == (if slug[i] == '-' then ' ' else slug[i])
  {
    var r := ReplaceChar(slug, '-', ' ');
    assert forall i :: 0 <= i < |r| ==> r[i] != '-';
    r
  }

  /** The name-to-path rule `name.replace(/\s+/g, "-")`: each run of whitespace becomes one hyphen. */
  function PathName(name: string): string {
    CollapseSpace(name, '-')
  }

  function PlayerEndpoint(name: string): string {
    "player/" + PathName(name)
  }

  predicate NoDoubleHyphen(s: string) {
    forall i :: 0 <= i < |s| - 1 ==> !(s[i] == '-' && s[i + 1] == '-')
  }

  predicate NoSpace(s: string) {
    forall i :: 0 <= i < |s| ==> !IsSpace(s[i])
  }

  /**
    * A slug without whitespace and without two hyphens in a row comes back from
    * `slugToName` followed by the path rule unchanged, so `fetchPlayerById("marcus-williams")`
    * requests `player/marcus-williams`.
    */
  lemma {:induction false} SlugRoundTrip(slug: string)
    requires NoSpace(slug) && NoDoubleHyphen(slug)
    ensures PathName(SlugToName(slug)) == slug
  {
    if slug != [] {
      var n := SlugToName(slug);
      assert n[1..] == SlugToName(slug[1..]);
      SlugRoundTrip(slug[1..]);
      if slug[0] == '-' {
        assert IsSpace(n[0]);
        if |slug| > 1 {
          assert slug[1] != '-';
          assert !IsSpace(n[1..][0]);
        }
        assert TrimStart(n[1..]) == n[1..];
      } else {
        assert !IsSpace(n[0]);
      }
    }
  }

  // ---------------------------------------------------------------------------
  // normalizePlayer
  // ---------------------------------------------------------------------------

  /** The confidence scale rule: a number at most 1 is a fraction and is turned into a percentage. */
  function ScaleConfidence(v: Option<Json>): (r: real)
    ensures v.Some? && v.value.JNum? && v.value.n <= 1.0 ==> r == v.value.n * 100.0
    ensures v.Some? && v.value.JNum? && v.value.n > 1.0 ==> r == v.value.n
    ensures !(v.Some? && v.value.JNum?) ==> r == 0.0
  {
    match v
    case Some(JNum(n)) => if n <= 1.0 then n * 100.0 else n
    case _ => 0.0
  }

  /** A confidence on either scale (a fraction in [0, 1] or a percentage in (1, 100]) lands in [0, 100]. */
  lemma ScaleConfidenceRange(n: real)
    requires 0.0 <= n <= 100.0
    ensures 0.0 <= ScaleConfidence(Some(JNum(n))) <= 100.0
    ensures n > 1.0 ==> ScaleConfidence(Some(JNum(n))) == n
  {
  }

  /** `String(p.key ?? "")`. */
  function StringField(p: Json, key: string): (r: string)
    ensures Get(p, key).None? || Get(p, key) == Some(JNull) ==> r == ""
    ensures Get(p, key).Some? && Get(p, key).value.JStr? ==> r == Get(p, key).value.s
  {
    JsString(GetOrDefault(p, key, JStr("")))
  }

  /** `Array.isArray(p.key) ? p.key : []`. */
  function ArrayField(p: Json, key: string): (r: seq<Json>)
    ensures Get(p, key).Some? && Get(p, key).value.JArr? ==> r == Get(p, key).value.items
    ensures !(Get(p, key).Some? && Get(p, key).value.JArr?) ==> r == []
  {
    match Get(p, key)
    case Some(JArr(items)) => items
    case _ => []
  }

  /** The all-zero stats record used when `stats` is missing. */
  const ZeroStats: Json := JObj(map[
    "ppg" := JNum(0.0), "rpg" := JNum(0.0), "apg" := JNum(0.0), "spg" := JNum(0.0),
    "bpg" := JNum(0.0), "fgPct" := JNum(0.0), "threePct" := JNum(0.0), "ftPct" := JNum(0.0),
    "topg" := JNum(0.0), "mpg" := JNum(0.0)])

  /** One element of `outcomes.map(...)`; reading a property of `null` throws. */
  function NormalizeOutcome(o: Json): (r: Option<OutcomeRecord>)
    ensures r.None? <==> o.JNull?
    ensures r.Some? ==> r.value.outcome == Get(o, "outcome")
    ensures r.Some? ==> r.value.probability == ScaleConfidence(Get(o, "probability"))
    ensures r.Some? ==> r.value.description == GetOrDefault(o, "description", JStr(""))
  {
    if o.JNull? then None
    else Some(OutcomeRecord(Get(o, "outcome"), ScaleConfidence(Get(o, "probability")),
                            GetOrDefault(o, "description", JStr(""))))
  }

  /** `outcomes.map(...)`: defined when no element is null; keeps the length and the order. */
  function NormalizeOutcomes(items: seq<Json>): (r: Option<seq<OutcomeRecord>>)
    ensures r.Some? <==> JNull !in items
    ensures r.Some? ==> |r.value| == |items|
    ensures r.Some? ==> forall i :: 0 <= i < |items| ==> NormalizeOutcome(items[i]) == Some(r.value[i])
  {
    if items == [] then Some([])
    else
      match (NormalizeOutcome(items[0]), NormalizeOutcomes(items[1..]))
      case (Some(o), Some(rest)) =>
        assert items == [items[0]] + items[1..];
        Some([o] + rest)
      case (None, _) => None
      case (_, None) =>
        assert items == [items[0]] + items[1..];
        None
  }

  /**
    * `(p.careerOutcomes || [])`: a falsy value reads as no outcomes; a truthy value that is not an
    * array has no `map` method, so the normaliser throws.
    */
  function OutcomeItems(p: Json): (r: Option<seq<Json>>)
    ensures Get(p, "careerOutcomes").None? ==> r == Some([])
    ensures Get(p, "careerOutcomes").Some? && Get(p, "careerOutcomes").value.JArr?
            ==> r == Some(Get(p, "careerOutcomes").value.items)
  {
    match Get(p, "careerOutcomes")
    case None => Some([])
    case Some(v) => if !JsTruthy(v) then Some([]) else if v.JArr? then Some(v.items) else None
  }

  /** The inputs on which `normalizePlayer` throws. */
  predicate NormalizeThrows(p: Json) {
    var v := Get(p, "careerOutcomes");
    v.Some? && JsTruthy(v.value) && (!v.value.JArr? || JNull in v.value.items)
  }

  /** The record `normalizePlayer` builds once the outcome list has been mapped. */
  function NormalizeFields(p: Json, outcomes: seq<OutcomeRecord>): (r: PlayerRecord)
    ensures r.careerOutcomes == outcomes && r.careerProjections.None?
  {
    PlayerRecord(
      StringField(p, "id"), StringField(p, "name"), StringField(p, "headshotUrl"),
      StringField(p, "school"), StringField(p, "year"), StringField(p, "position"),
      StringField(p, "height"), StringField(p, "weight"), StringField(p, "archetype"),
      ScaleConfidence(Get(p, "archetypeConfidence")), StringField(p, "nbaComp"),
      ArrayField(p, "nbaComparisons"), GetOrDefault(p, "stats", ZeroStats), outcomes, None,
      ArrayField(p, "seasonLog"), ArrayField(p, "strengths"), ArrayField(p, "weaknesses"),
      JsToNumber(GetOrDefault(p, "draftabilityScore", JNum(0.0))))
  }

  /** `normalizePlayer`; `None` is the `TypeError` it throws on a malformed `careerOutcomes`. */
  function NormalizePlayer(p: Json): (r: Option<PlayerRecord>)
    ensures r.None? <==> NormalizeThrows(p)
    ensures r.Some? ==> r.value == NormalizeFields(p, NormalizeOutcomes(OutcomeItems(p).value).value)
  {
    match OutcomeItems(p)
    case None => None
    case Some(items) =>
      match NormalizeOutcomes(items)
      case None => None
      case Some(outcomes) => Some(NormalizeFields(p, outcomes))
  }

  /**
    * The defaults of `normalizePlayer`: missing or null strings become "", non-array lists become
    * [], a missing `stats` becomes the zero record and a present one passes through, a missing
    * score becomes 0, and each outcome is scaled in place.
    */
  lemma NormalizePlayerDefaults(p: Json)
    requires !NormalizeThrows(p)
    ensures var r := NormalizePlayer(p).value;
      && (Get(p, "id").None? ==> r.id == "")
      && (Get(p, "name").None? || Get(p, "name") == Some(JNull) ==> r.name == "")
      && (Get(p, "school").None? ==> r.school == "")
      && (Get(p, "stats").None? ==> r.stats == ZeroStats)
      && (Get(p, "stats").Some? && !Get(p, "stats").value.JNull? ==> r.stats == Get(p, "stats").value)
      && (Get(p, "draftabilityScore").None? ==> r.draftabilityScore == Finite(0.0))
      && (!(Get(p, "seasonLog").Some? && Get(p, "seasonLog").value.JArr?) ==> r.seasonLog == [])
      && (Get(p, "careerOutcomes").None? ==> r.careerOutcomes == [])
      && r.careerProjections.None?
      && (forall i :: 0 <= i < |r.careerOutcomes| ==>
            r.careerOutcomes[i].probability == ScaleConfidence(Get(OutcomeItems(p).value[i], "probability")))
  {
    var items := OutcomeItems(p).value;
    var outs := NormalizeOutcomes(items).value;
    assert NormalizePlayer(p).value.careerOutcomes == outs;
    forall i | 0 <= i < |outs|
      ensures outs[i].probability == ScaleConfidence(Get(items[i], "probability"))
    {
      assert NormalizeOutcome(items[i]) == Some(outs[i]);
    }
  }

  // ---------------------------------------------------------------------------
  // The bundled collection as handed out by the repository
  // ---------------------------------------------------------------------------

  function StatsJson(s: PlayerStats): Json {
    JObj(map[
      "ppg" := JNum(s.ppg), "rpg" := JNum(s.rpg), "apg" := JNum(s.apg), "spg" := JNum(s.spg),
      "bpg" := JNum(s.bpg), "fgPct" := JNum(s.fgPct), "threePct" := JNum(s.threePct),
      "ftPct" := JNum(s.ftPct), "topg" := JNum(s.topg), "mpg" := JNum(s.mpg)])
  }

  function StringsJson(ss: seq<string>): seq<Json> {
    seq(|ss|, i requires 0 <= i < |ss| => JStr(ss[i]))
  }

  function ComparisonJson(c: NbaComparison): Json {
    JObj(map[
      "name" := JStr(c.name), "team" := JStr(c.team), "position" := JStr(c.position),
      "matchScore" := JNum(c.matchScore), "headshotUrl" := JStr(c.headshotUrl),
      "similarities" := JArr(StringsJson(c.similarities)),
      "differences" := JArr(StringsJson(c.differences)),
      "stats" := JObj(map["ppg" := JNum(c.stats.ppg), "rpg" := JNum(c.stats.rpg), "apg" := JNum(c.stats.apg)])])
  }

  function SeasonJson(l: SeasonLog): Json {
    JObj(map[
      "season" := JStr(l.season), "ppg" := JNum(l.ppg), "rpg" := JNum(l.rpg),
      "apg" := JNum(l.apg), "fgPct" := JNum(l.fgPct)])
  }

  function ProjectionsJson(c: CareerProjections): Json {
    JObj(map[
      "peak_bpm" := JNum(c.peak_bpm), "peak_vorp" := JNum(c.peak_vorp),
      "peak_pts" := JNum(c.peak_pts), "peak_mp" := JNum(c.peak_mp)])
  }

  /** A bundled entry as a repository record; the typed fields become their JSON form. */
  function FromBundled(p: Player): (r: PlayerRecord)
    ensures r.id == p.id && r.name == p.name && r.school == p.school && r.position == p.position
    ensures r.draftabilityScore == Finite(p.draftabilityScore)
    ensures |r.careerOutcomes| == |p.careerOutcomes|
  {
    PlayerRecord(
      p.id, p.name, p.headshotUrl, p.school, p.year, p.position, p.height, p.weight, p.archetype,
      p.archetypeConfidence, p.nbaComp,
      seq(|p.nbaComparisons|, i requires 0 <= i < |p.nbaComparisons| => ComparisonJson(p.nbaComparisons[i])),
      StatsJson(p.stats),
      seq(|p.careerOutcomes|, i requires 0 <= i < |p.careerOutcomes| =>
        OutcomeRecord(Some(JStr(p.careerOutcomes[i].outcome)), p.careerOutcomes[i].probability,
                      JStr(p.careerOutcomes[i].description))),
      match p.careerProjections { case Some(c) => Some(ProjectionsJson(c)) case None => None },
      seq(|p.seasonLog|, i requires 0 <= i < |p.seasonLog| => SeasonJson(p.seasonLog[i])),
      StringsJson(p.strengths), StringsJson(p.weaknesses), Finite(p.draftabilityScore))
  }

  /** The bundled collection as the repository's fallback result. */
  function BundledRecords(bundled: seq<Player>): (r: seq<PlayerRecord>)
    ensures |r| == |bundled|
    ensures forall i :: 0 <= i < |r| ==> r[i] == FromBundled(bundled[i])
  {
    seq(|bundled|, i requires 0 <= i < |bundled| => FromBundled(bundled[i]))
  }

  // ---------------------------------------------------------------------------
  // fetchPlayers
  // ---------------------------------------------------------------------------

  /**
    * The names `for (const name of names)` walks once `names?.length` is truthy: the elements of
    * an array, or the characters of a string. `None` is a fallback to the bundled collection:
    * a failed request, an index without a truthy `length`, or one that is not iterable.
    */
  function IndexNames(index: ApiResult): (r: Option<seq<Json>>)
    ensures r.Some? ==> r.value != []
    ensures index.Ok? && index.body.JArr? && index.body.items != [] ==> r == Some(index.body.items)
    ensures index.Fail? ==> r.None?
  {
    match index
    case Fail => None
    case Ok(JArr(items)) => if items == [] then None else Some(items)
    case Ok(JStr(s)) => if s == "" then None else Some(seq(|s|, i requires 0 <= i < |s| => JStr([s[i]])))
    case Ok(_) => None
  }

  /** The endpoint requested for one entry of the index. */
  function NameEndpoint(name: Json): string {
    PlayerEndpoint(JsString(name))
  }

  /** `res && res.id`, then `normalizePlayer(res)`; `None` when the player is skipped. */
  function AcceptPlayer(res: ApiResult): (r: Option<PlayerRecord>)
    ensures r.Some? ==> res.Ok? && JsTruthy(res.body) && Get(res.body, "id").Some?
                        && JsTruthy(Get(res.body, "id").value) && NormalizePlayer(res.body) == r
    ensures res.Fail? ==> r.None?
  {
    match res
    case Fail => None
    case Ok(body) =>
      if JsTruthy(body) && Get(body, "id").Some? && JsTruthy(Get(body, "id").value)
      then NormalizePlayer(body) else None
  }

  /** The players the loop collects, in index order, skipping those whose fetch or check failed. */
  function Collected(names: seq<Json>, api: string -> ApiResult): (r: seq<PlayerRecord>)
    ensures |r| <= |names|
  {
    FilterMap(names, (n: Json) => AcceptPlayer(api(NameEndpoint(n))))
  }

  /**
    * Every collected player is the accepted response for some entry of the index; when every
    * request fails nothing is collected, and when every response is accepted all are.
    */
  lemma CollectedFacts(names: seq<Json>, api: string -> ApiResult)
    ensures forall p :: p in Collected(names, api) ==>
      exists i :: 0 <= i < |names| && AcceptPlayer(api(NameEndpoint(names[i]))) == Some(p)
    ensures (forall i :: 0 <= i < |names| ==> api(NameEndpoint(names[i])).Fail?) ==> Collected(names, api) == []
    ensures (forall i :: 0 <= i < |names| ==> AcceptPlayer(api(NameEndpoint(names[i]))).Some?)
            ==> |Collected(names, api)| == |names|
  {
    FilterMapFacts(names, (n: Json) => AcceptPlayer(api(NameEndpoint(n))));
  }

  /** A player accepted or not, as the zero or one players pushed. */
  function AsSeq(r: Option<PlayerRecord>): seq<PlayerRecord> {
    if r.Some? then [r.value] else []
  }

  /** One round of the loop: the next name's accepted player, if any, is appended. */
  lemma CollectedStep(names: seq<Json>, k: nat, api: string -> ApiResult)
    requires k < |names|
    ensures Collected(names[..k + 1], api) == Collected(names[..k], api) + AsSeq(AcceptPlayer(api(NameEndpoint(names[k]))))
    ensures Map(names[..k + 1], NameEndpoint) == Map(names[..k], NameEndpoint) + [NameEndpoint(names[k])]
  {
    var f := (n: Json) => AcceptPlayer(api(NameEndpoint(n)));
    assert names[..k + 1] == names[..k] + [names[k]];
    FilterMapAppend(names[..k], [names[k]], f);
    FilterMapSingle(names[k], f);
    MapAppend(names[..k], [names[k]], NameEndpoint);
  }

  /**
    * The loop of `fetchPlayers`: each name is requested in turn, and a player whose request
    * fails, whose response has no truthy `id`, or whose normalisation throws is skipped.
    */
  method FetchEach(names: seq<Json>, api: string -> ApiResult) returns (collected: seq<PlayerRecord>, requests: seq<string>)
    ensures collected == Collected(names, api)
    ensures requests == Map(names, NameEndpoint)
  {
    collected, requests := [], [];
    var k := 0;
    while k < |names|
      invariant 0 <= k <= |names|
      invariant collected == Collected(names[..k], api)
      invariant requests == Map(names[..k], NameEndpoint)
    {
      var res := api(NameEndpoint(names[k]));
      requests := requests + [NameEndpoint(names[k])];
      collected := collected + AsSeq(AcceptPlayer(res));
      CollectedStep(names, k, api);
      k := k + 1;
    }
    assert names[..k] == names;
  }

  /**
    * The module-level state of the repository: the `cachedPlayers` variable, and the imported
    * `playerDatabase` it falls back to (`PlayerData.PlayerDatabase`, which the constructor
    * demands; kept as a field so that the proofs about the repository do not depend on the
    * bundled entries' contents).
    */
  class PlayerRepository {
    var cachedPlayers: Option<seq<PlayerRecord>>
    const bundled: seq<Player>

    constructor(bundled: seq<Player>)
      requires bundled == PlayerDatabase
      ensures cachedPlayers == None && this.bundled == bundled
    {
      cachedPlayers := None;
      this.bundled := bundled;
    }

    /**
      * `fetchPlayers`. Returns the players and, in order, the endpoints it requested.
      * A cached list is returned without a request. Otherwise the index is fetched; a failed or
      * empty index gives the bundled collection, leaving the cache unset. Otherwise each name is
      * fetched in turn, and a non-empty result is cached and returned; an empty one falls back.
      */
    method FetchPlayers(api: string -> ApiResult) returns (players: seq<PlayerRecord>, requests: seq<string>)
      modifies this
      ensures old(cachedPlayers).Some? ==>
        players == old(cachedPlayers).value && requests == [] && cachedPlayers == old(cachedPlayers)
      ensures old(cachedPlayers).None? && IndexNames(api("players")).None? ==>
        players == BundledRecords(bundled) && requests == ["players"] && cachedPlayers.None?
      ensures old(cachedPlayers).None? && IndexNames(api("players")).Some? ==>
        var names := IndexNames(api("players")).value;
        var got := Collected(names, api);
        && requests == ["players"] + Map(names, NameEndpoint)
        && (got != [] ==> players == got && cachedPlayers == Some(got))
        && (got == [] ==> players == BundledRecords(bundled) && cachedPlayers.None?)
    {
      if cachedPlayers.Some? {
        return cachedPlayers.value, [];
      }
      requests := ["players"];
      var index := IndexNames(api("players"));
      if index.None? {
        return BundledRecords(bundled), requests;
      }
      var names := index.value;
      var collected, endpoints := FetchEach(names, api);
      requests := requests + endpoints;
      if collected != [] {
        cachedPlayers := Some(collected);
        return collected, requests;
      }
      return BundledRecords(bundled), requests;
    }
  }

  // ---------------------------------------------------------------------------
  // fetchPlayerById and getPlayerById
  // ---------------------------------------------------------------------------

  /** `playerDatabase.find((p) => p.id === id)`. */
  function BundledById(bundled: seq<Player>, id: string): (r: Option<Player>)
    ensures r.Some? ==> r.value in bundled && r.value.id == id
    ensures r.None? ==> forall p :: p in bundled ==> p.id != id
  {
    FindFirst(bundled, (p: Player) => p.id == id)
  }

  /** The endpoint `fetchPlayerById` requests for a slug. */
  function IdEndpoint(id: string): string {
    PlayerEndpoint(SlugToName(id))
  }

  /**
    * `fetchPlayerById`: the normalised backend record if the response is accepted, else the
    * bundled entry with that id, else null (`None`). The module cache is not consulted.
    */
  function FetchPlayerById(bundled: seq<Player>, id: string, api: string -> ApiResult): (r: Option<PlayerRecord>)
    ensures AcceptPlayer(api(IdEndpoint(id))).Some? ==> r == AcceptPlayer(api(IdEndpoint(id)))
    ensures AcceptPlayer(api(IdEndpoint(id))).None? && BundledById(bundled, id).Some? ==>
      r == Some(FromBundled(BundledById(bundled, id).value))
    ensures AcceptPlayer(api(IdEndpoint(id))).None? && BundledById(bundled, id).None? ==> r.None?
  {
    match AcceptPlayer(api(IdEndpoint(id)))
    case Some(p) => Some(p)
    case None =>
      match BundledById(bundled, id)
      case Some(m) => Some(FromBundled(m))
      case None => None
  }

  /** A bundled id always resolves: to the backend's accepted record, or to the bundled entry. */
  lemma FetchPlayerByIdBundled(bundled: seq<Player>, id: string, api: string -> ApiResult)
    requires exists p :: p in bundled && p.id == id
    ensures FetchPlayerById(bundled, id, api).Some?
    ensures api(IdEndpoint(id)).Fail? ==> FetchPlayerById(bundled, id, api).value.id == id
  {
  }

  /**
    * `getPlayerById` (and the list-first lookup of `usePlayer`): a match in `fromList` is
    * returned, otherwise the single fetch. `fromList` absent is `None`.
    */
  function GetPlayerById(bundled: seq<Player>, id: string, fromList: Option<seq<PlayerRecord>>, api: string -> ApiResult): (r: Option<PlayerRecord>)
    ensures fromList.Some? && FindFirst(fromList.value, (p: PlayerRecord) => p.id == id).Some? ==>
      r == FindFirst(fromList.value, (p: PlayerRecord) => p.id == id)
    ensures (fromList.None? || FindFirst(fromList.value, (p: PlayerRecord) => p.id == id).None?) ==>
      r == FetchPlayerById(bundled, id, api)
  {
    if fromList.Some? then
      match FindFirst(fromList.value, (p: PlayerRecord) => p.id == id)
      case Some(found) => Some(found)
      case None => FetchPlayerById(bundled, id, api)
    else FetchPlayerById(bundled, id, api)
  }

  /** A player found in the list is returned whatever the backend would have answered. */
  lemma GetPlayerByIdListFirst(bundled: seq<Player>, id: string, list: seq<PlayerRecord>, api1: string -> ApiResult, api2: string -> ApiResult)
    requires exists p :: p in list && p.id == id
    ensures GetPlayerById(bundled, id, Some(list), api1) == GetPlayerById(bundled, id, Some(list), api2)
    ensures GetPlayerById(bundled, id, Some(list), api1).Some? && GetPlayerById(bundled, id, Some(list), api1).value.id == id
  {
    var p :| p in list && p.id == id;
    assert !(forall x :: x in list ==> !((x: PlayerRecord) => x.id == id)(x));
  }
}
