/**
 * The canonical match record of the popup and the per-provider mappings that
 * build it from raw feed records (OpenLigaDB, TheSportsDB, CricAPI).
 *
 * A raw JSON field that may be missing is an `Option`; TheSportsDB's score
 * fields are a `Field`, because the mapping tells `null` from a missing key.
 * Dates are handled by collaborators passed in as parameters: a `Clock` gives
 * the `toLocaleTimeString` rendering of a date text (or `None` when the text
 * is not a valid date), and the current time as ISO text is an argument.
 */
module Normalizer {
  import opened Wrappers
  import opened Text
  import opened ScoreParser

  datatype Sport = Football | Cricket

  datatype Status = Live | Finished | Upcoming

  /** A side's score: a goal count, the `'-'` placeholder, or a cricket innings. */
  datatype Score = Goals(n: int) | NoGoals | Innings(innings: CricketScore)

  /**
   * The popup's match record. `progress` is the football `minute` or the
   * cricket `overs` text; `matchDateTime` is the date text as the provider
   * gave it.
   */
  datatype Match = Match(
    id: string,
    sport: Sport,
    league: string,
    leagueIcon: string,
    homeTeam: string,
    awayTeam: string,
    homeScore: Score,
    awayScore: Score,
    status: Status,
    time: string,
    venue: string,
    matchDateTime: string,
    isLive: bool,
    progress: string)

  /** `toLocaleTimeString('en-US', {hour, minute})` of a date text; `None` for an invalid date. */
  type Clock = string -> Option<string>

  const FootballIcon := "\U{26BD}"
  const CricketIcon := "\U{1F3CF}"

  /** What `toLocaleTimeString` prints for an invalid date. */
  const InvalidDate := "Invalid Date"

  // ---------------------------------------------------------------- OpenLigaDB

  /** One entry of `matchResults` (half-time, then full-time or current). */
  datatype MatchResult = MatchResult(pointsTeam1: Option<int>, pointsTeam2: Option<int>, resultName: Option<string>)

  datatype OpenLigaMatch = OpenLigaMatch(
    matchID: nat,
    team1: string,
    team2: string,
    matchResults: Option<seq<MatchResult>>,
    matchIsRunning: Option<bool>,
    locationCity: Option<string>,
    matchDateTime: Option<string>,
    leagueName: Option<string>)

  /** `getFootballMatchStatus`: running, else finished once any result exists, else upcoming. */
  function GetFootballMatchStatus(m: OpenLigaMatch): (r: Status)
    ensures r == Live <==> m.matchIsRunning == Some(true)
    ensures r == Finished <==> m.matchIsRunning != Some(true) && m.matchResults.Some? && |m.matchResults.value| > 0
  {
    if m.matchIsRunning == Some(true) then Live
    else if m.matchResults.Some? && |m.matchResults.value| > 0 then Finished
    else Upcoming
  }

  /** `matchResults?.[i]?.pointsTeam1` (or `pointsTeam2` when `home` is false). */
  function Points(m: OpenLigaMatch, i: nat, home: bool): Option<int>
  {
    match At(m.matchResults, i)
    case None => None
    case Some(res) => if home then res.pointsTeam1 else res.pointsTeam2
  }

  /** `results?.[1]?.points ?? results?.[0]?.points ?? d`. */
  function LatestPoints(m: OpenLigaMatch, home: bool, d: int): (r: int)
    ensures Points(m, 1, home).Some? ==> r == Points(m, 1, home).value
    ensures Points(m, 1, home).None? && Points(m, 0, home).Some? ==> r == Points(m, 0, home).value
    ensures Points(m, 1, home).None? && Points(m, 0, home).None? ==> r == d
  {
    Points(m, 1, home).GetOr(Points(m, 0, home).GetOr(d))
  }

  /** The popup's score: the latest points, or `'-'` when neither result has them. */
  function OpenLigaScore(m: OpenLigaMatch, home: bool): (r: Score)
    ensures r == NoGoals <==> Points(m, 1, home).None? && Points(m, 0, home).None?
    ensures r != NoGoals ==> r == Goals(LatestPoints(m, home, 0))
  {
    if Points(m, 1, home).Some? || Points(m, 0, home).Some? then Goals(LatestPoints(m, home, 0))
    else NoGoals
  }

  /** `matchResults?.[1]?.resultName || ''`. */
  function OpenLigaMinute(m: OpenLigaMatch): string
  {
    match At(m.matchResults, 1)
    case None => ""
    case Some(res) => OrElse(res.resultName, "")
  }

  /** `formatMatchTime`: `'TBD'` for a missing or empty date, else the clock reading. */
  function FormatMatchTime(clock: Clock, d: Option<string>): (r: string)
    ensures d.None? || d == Some("") ==> r == "TBD"
    ensures d.Some? && d.value != "" && clock(d.value).None? ==> r == InvalidDate
    ensures d.Some? && d.value != "" && clock(d.value).Some? ==> r == clock(d.value).value
  {
    if d.None? || d.value == "" then "TBD" else clock(d.value).GetOr(InvalidDate)
  }

  /** The record `loadOpenLigaDBMatches` builds for one match of league `leagueName`. */
  function MapOpenLigaDB(m: OpenLigaMatch, leagueName: string, clock: Clock): (r: Match)
    ensures r.id == "ol_" + Show(m.matchID)
    ensures r.sport == Football && r.league == leagueName && r.leagueIcon == FootballIcon
    ensures r.homeTeam == m.team1 && r.awayTeam == m.team2
    ensures r.isLive <==> m.matchIsRunning == Some(true)
    ensures r.status == GetFootballMatchStatus(m)
    ensures r.homeScore == OpenLigaScore(m, true) && r.awayScore == OpenLigaScore(m, false)
    ensures r.venue == OrElse(m.locationCity, "")
    ensures r.time == FormatMatchTime(clock, m.matchDateTime)
    ensures r.matchDateTime == m.matchDateTime.GetOr("")
    ensures r.progress == OpenLigaMinute(m)
  {
    Match(
      id := "ol_" + Show(m.matchID),
      sport := Football,
      league := leagueName,
      leagueIcon := FootballIcon,
      homeTeam := m.team1,
      awayTeam := m.team2,
      homeScore := OpenLigaScore(m, true),
      awayScore := OpenLigaScore(m, false),
      status := GetFootballMatchStatus(m),
      time := FormatMatchTime(clock, m.matchDateTime),
      venue := OrElse(m.locationCity, ""),
      matchDateTime := m.matchDateTime.GetOr(""),
      isLive := m.matchIsRunning.GetOr(false),
      progress := OpenLigaMinute(m))
  }

  /** An OpenLigaDB match is live exactly when its status says so. */
  lemma OpenLigaLiveIffStatus(m: OpenLigaMatch, leagueName: string, clock: Clock)
    ensures MapOpenLigaDB(m, leagueName, clock).status == Live <==> MapOpenLigaDB(m, leagueName, clock).isLive
  {
  }

  /** A match that is not running is finished exactly when it has results. */
  lemma OpenLigaFinishedIffResults(m: OpenLigaMatch, leagueName: string, clock: Clock)
    ensures !MapOpenLigaDB(m, leagueName, clock).isLive ==>
      (MapOpenLigaDB(m, leagueName, clock).status == Finished <==> m.matchResults.Some? && m.matchResults.value != [])
    ensures MapOpenLigaDB(m, leagueName, clock).status == Upcoming <==>
      !MapOpenLigaDB(m, leagueName, clock).isLive && (m.matchResults.None? || m.matchResults.value == [])
  {
  }

  /**
   * The score fallback chain: the second result wins, then the first, and the
   * placeholder `'-'` appears only when neither carries the side's points.
   */
  lemma OpenLigaScoreFallback(m: OpenLigaMatch, home: bool)
    ensures Points(m, 1, home).Some? ==> OpenLigaScore(m, home) == Goals(Points(m, 1, home).value)
    ensures Points(m, 1, home).None? && Points(m, 0, home).Some? ==> OpenLigaScore(m, home) == Goals(Points(m, 0, home).value)
    ensures OpenLigaScore(m, home) == NoGoals <==> Points(m, 1, home).None? && Points(m, 0, home).None?
    ensures m.matchResults.None? || m.matchResults.value == [] ==> OpenLigaScore(m, home) == NoGoals
  {
  }

  // ---------------------------------------------------------------- TheSportsDB

  /** A JSON field that may be missing, `null`, or hold a value. */
  datatype Field<T> = Absent | Null | Present(v: T)

  datatype SportsDBEvent = SportsDBEvent(
    idEvent: string,
    strTimestamp: Option<string>,
    dateEvent: Option<string>,
    strTime: Option<string>,
    strProgress: Option<string>,
    strStatus: Option<string>,
    strLeague: Option<string>,
    strHomeTeam: string,
    strAwayTeam: string,
    intHomeScore: Field<int>,
    intAwayScore: Field<int>,
    strVenue: Option<string>)

  /** `strTimestamp || `${dateEvent || ''}T${strTime || '00:00:00'}``. */
  function SportsDBDateTime(e: SportsDBEvent): (r: string)
    ensures e.strTimestamp.Some? && e.strTimestamp.value != "" ==> r == e.strTimestamp.value
    ensures e.strTimestamp.None? || e.strTimestamp.value == "" ==>
      r == OrElse(e.dateEvent, "") + "T" + OrElse(e.strTime, "00:00:00")
  {
    OrElse(e.strTimestamp, OrElse(e.dateEvent, "") + "T" + OrElse(e.strTime, "00:00:00"))
  }

  /** `(strProgress || '').toUpperCase()` */
  function Progress(e: SportsDBEvent): string
  {
    Upper(OrElse(e.strProgress, ""))
  }

  /** `(strStatus || '').toLowerCase()` */
  function StatusText(e: SportsDBEvent): string
  {
    Lower(OrElse(e.strStatus, ""))
  }

  /** A minute mark (an apostrophe), half time, or a status mentioning "live". */
  predicate SportsDBIsLive(e: SportsDBEvent)
  {
    Contains(Progress(e), "'") || Progress(e) == "HT" || Contains(StatusText(e), "live")
  }

  /** Full time, a status mentioning "finished", or both scores not `null`. */
  predicate SportsDBIsFinished(e: SportsDBEvent)
  {
    Progress(e) == "FT" || Contains(StatusText(e), "finished") || (e.intHomeScore != Null && e.intAwayScore != Null)
  }

  /** `score ?? '-'`: a missing key and `null` both give the placeholder. */
  function SportsDBScore(f: Field<int>): (r: Score)
    ensures r == NoGoals <==> !f.Present?
    ensures f.Present? ==> r == Goals(f.v)
  {
    if f.Present? then Goals(f.v) else NoGoals
  }

  /** `mapSportsDBFootballMatch(match, fallbackLeagueName)` */
  function MapSportsDBFootballMatch(e: SportsDBEvent, fallbackLeagueName: string, clock: Clock): (r: Match)
    ensures r.id == "sdb_" + e.idEvent
    ensures r.sport == Football && r.leagueIcon == FootballIcon
    ensures r.league == OrElse(e.strLeague, fallbackLeagueName)
    ensures r.homeTeam == e.strHomeTeam && r.awayTeam == e.strAwayTeam
    ensures r.isLive == SportsDBIsLive(e)
    ensures r.status == Live <==> r.isLive
    ensures r.status == Finished <==> !SportsDBIsLive(e) && SportsDBIsFinished(e)
    ensures r.homeScore == SportsDBScore(e.intHomeScore) && r.awayScore == SportsDBScore(e.intAwayScore)
    ensures r.matchDateTime == SportsDBDateTime(e)
    ensures clock(r.matchDateTime).None? ==> r.time == "TBD"
    ensures clock(r.matchDateTime).Some? ==> r.time == clock(r.matchDateTime).value
    ensures r.venue == OrElse(e.strVenue, "") && r.progress == Progress(e)
  {
    var dateTime := SportsDBDateTime(e);
    var isLive := SportsDBIsLive(e);
    Match(
      id := "sdb_" + e.idEvent,
      sport := Football,
      league := OrElse(e.strLeague, fallbackLeagueName),
      leagueIcon := FootballIcon,
      homeTeam := e.strHomeTeam,
      awayTeam := e.strAwayTeam,
      homeScore := SportsDBScore(e.intHomeScore),
      awayScore := SportsDBScore(e.intAwayScore),
      status := if isLive then Live else if SportsDBIsFinished(e) then Finished else Upcoming,
      time := clock(dateTime).GetOr("TBD"),
      venue := OrElse(e.strVenue, ""),
      matchDateTime := dateTime,
      isLive := isLive,
      progress := Progress(e))
  }

  /**
   * `!== null` and `??` disagree on a missing key: an event without score
   * keys shows `'-'` for both sides and yet counts as finished unless it is
   * live, while `null` scores leave it upcoming.
   */
  lemma SportsDBAbsentScores(e: SportsDBEvent, fallbackLeagueName: string, clock: Clock)
    requires e.intHomeScore == Absent && e.intAwayScore == Absent
    ensures var r := MapSportsDBFootballMatch(e, fallbackLeagueName, clock);
      r.homeScore == NoGoals && r.awayScore == NoGoals && (r.isLive || r.status == Finished)
  {
  }

  lemma SportsDBNullScores(e: SportsDBEvent, fallbackLeagueName: string, clock: Clock)
    requires e.intHomeScore == Null && e.intAwayScore == Null
    requires Progress(e) != "FT" && !Contains(StatusText(e), "finished")
    ensures var r := MapSportsDBFootballMatch(e, fallbackLeagueName, clock);
      r.homeScore == NoGoals && r.awayScore == NoGoals && (r.isLive || r.status == Upcoming)
  {
  }

  /** Half time is live whatever the status text says. */
  lemma SportsDBHalfTimeIsLive(e: SportsDBEvent, fallbackLeagueName: string, clock: Clock)
    requires e.strProgress == Some("HT")
    ensures MapSportsDBFootballMatch(e, fallbackLeagueName, clock).status == Live
  {
    assert Progress(e) == "HT";
  }

  // ---------------------------------------------------------------- CricAPI

  datatype CricAPIMatch = CricAPIMatch(
    id: Option<string>,
    name: Option<string>,
    series_id: Option<string>,
    teams: Option<seq<string>>,
    score: Option<seq<string>>,
    status: Option<string>,
    venue: Option<string>,
    dateTimeGMT: Option<string>)

  /** `s.split(',')[0]`: the text before the first comma (all of it without one). */
  function BeforeComma(s: string): (r: string)
    ensures r <= s
    ensures forall i :: 0 <= i < |r| ==> r[i] != ','
    ensures |r| < |s| ==> s[|r|] == ','
  {
    if s == [] || s[0] == ',' then [] else [s[0]] + BeforeComma(s[1..])
  }

  /** `name?.split(',')[0] || series_id || 'International'` */
  function CricketLeague(m: CricAPIMatch): (r: string)
    ensures m.name.Some? && BeforeComma(m.name.value) != "" ==> r == BeforeComma(m.name.value)
    ensures (m.name.None? || BeforeComma(m.name.value) == "") ==> r == OrElse(m.series_id, "International")
  {
    var first := if m.name.Some? then Some(BeforeComma(m.name.value)) else None;
    OrElse(first, OrElse(m.series_id, "International"))
  }

  /** `(status || '').toLowerCase()` */
  function MatchStatus(m: CricAPIMatch): string
  {
    Lower(OrElse(m.status, ""))
  }

  /** The current-matches vocabulary for a live match: "live", "in progress", "innings". */
  predicate CurrentIsLive(m: CricAPIMatch)
  {
    Contains(MatchStatus(m), "live") || Contains(MatchStatus(m), "in progress") || Contains(MatchStatus(m), "innings")
  }

  /** The upcoming-matches vocabulary for a live match, which has no "innings". */
  predicate UpcomingIsLive(m: CricAPIMatch)
  {
    Contains(MatchStatus(m), "live") || Contains(MatchStatus(m), "in progress")
  }

  /** "won", "draw", "tied" or "result" in the status. */
  predicate CricketIsFinished(m: CricAPIMatch)
  {
    Contains(MatchStatus(m), "won") || Contains(MatchStatus(m), "draw") ||
    Contains(MatchStatus(m), "tied") || Contains(MatchStatus(m), "result")
  }

  /** `dateTimeGMT ? toLocaleTimeString(...) : 'TBD'` */
  function CricketTime(m: CricAPIMatch, clock: Clock): (r: string)
    ensures m.dateTimeGMT.None? || m.dateTimeGMT == Some("") ==> r == "TBD"
  {
    FormatMatchTime(clock, m.dateTimeGMT)
  }

  /** `score?.[i] || ''` read by the score parser. */
  function CricketSide(m: CricAPIMatch, i: nat): (r: CricketScore)
    ensures At(m.score, i).None? ==> r == NoScore
  {
    ParseCricAPIScore(OrElse(At(m.score, i), ""))
  }

  /** The record `loadCricapiCurrentMatches` builds; `fallbackId` stands for the `Date.now()`/`Math.random()` id. */
  function MapCricapiCurrent(m: CricAPIMatch, fallbackId: string, nowIso: string, clock: Clock): (r: Match)
    ensures r.id == OrElse(m.id, fallbackId)
    ensures r.sport == Cricket && r.leagueIcon == CricketIcon && r.league == CricketLeague(m)
    ensures r.homeTeam == OrElse(At(m.teams, 0), "Team A") && r.awayTeam == OrElse(At(m.teams, 1), "Team B")
    ensures r.homeScore == Innings(CricketSide(m, 0)) && r.awayScore == Innings(CricketSide(m, 1))
    ensures r.isLive == CurrentIsLive(m)
    ensures r.status == Live <==> r.isLive
    ensures r.status == Finished <==> !CurrentIsLive(m) && CricketIsFinished(m)
    ensures r.time == CricketTime(m, clock) && r.venue == OrElse(m.venue, "")
    ensures r.matchDateTime == OrElse(m.dateTimeGMT, nowIso)
    ensures r.progress == OrElse(Some(CricketSide(m, 0).overs), OrElse(Some(CricketSide(m, 1).overs), ""))
  {
    var home := CricketSide(m, 0);
    var away := CricketSide(m, 1);
    var isLive := CurrentIsLive(m);
    Match(
      id := OrElse(m.id, fallbackId),
      sport := Cricket,
      league := CricketLeague(m),
      leagueIcon := CricketIcon,
      homeTeam := OrElse(At(m.teams, 0), "Team A"),
      awayTeam := OrElse(At(m.teams, 1), "Team B"),
      homeScore := Innings(home),
      awayScore := Innings(away),
      status := if isLive then Live else if CricketIsFinished(m) then Finished else Upcoming,
      time := CricketTime(m, clock),
      venue := OrElse(m.venue, ""),
      matchDateTime := OrElse(m.dateTimeGMT, nowIso),
      isLive := isLive,
      progress := OrElse(Some(home.overs), OrElse(Some(away.overs), "")))
  }

  /** The record `loadCricapiUpcomingMatches` builds: zero scores and no overs. */
  function MapCricapiUpcoming(m: CricAPIMatch, fallbackId: string, nowIso: string, clock: Clock): (r: Match)
    ensures r.id == OrElse(m.id, fallbackId)
    ensures r.sport == Cricket && r.leagueIcon == CricketIcon && r.league == CricketLeague(m)
    ensures r.homeTeam == OrElse(At(m.teams, 0), "Team A") && r.awayTeam == OrElse(At(m.teams, 1), "Team B")
    ensures r.homeScore == Innings(NoScore) && r.awayScore == Innings(NoScore) && r.progress == ""
    ensures r.isLive == UpcomingIsLive(m)
    ensures r.status == Live <==> r.isLive
    ensures r.status == Finished <==> !UpcomingIsLive(m) && CricketIsFinished(m)
    ensures r.time == CricketTime(m, clock) && r.venue == OrElse(m.venue, "")
    ensures r.matchDateTime == OrElse(m.dateTimeGMT, nowIso)
  {
    var isLive := UpcomingIsLive(m);
    Match(
      id := OrElse(m.id, fallbackId),
      sport := Cricket,
      league := CricketLeague(m),
      leagueIcon := CricketIcon,
      homeTeam := OrElse(At(m.teams, 0), "Team A"),
      awayTeam := OrElse(At(m.teams, 1), "Team B"),
      homeScore := Innings(NoScore),
      awayScore := Innings(NoScore),
      status := if isLive then Live else if CricketIsFinished(m) then Finished else Upcoming,
      time := CricketTime(m, clock),
      venue := OrElse(m.venue, ""),
      matchDateTime := OrElse(m.dateTimeGMT, nowIso),
      isLive := isLive,
      progress := "")
  }

  /** Missing team names become the placeholders, in both CricAPI mappings. */
  lemma CricketTeamPlaceholders(m: CricAPIMatch, fallbackId: string, nowIso: string, clock: Clock)
    requires m.teams.None? || m.teams == Some([])
    ensures MapCricapiCurrent(m, fallbackId, nowIso, clock).homeTeam == "Team A"
    ensures MapCricapiCurrent(m, fallbackId, nowIso, clock).awayTeam == "Team B"
    ensures MapCricapiUpcoming(m, fallbackId, nowIso, clock).homeTeam == "Team A"
    ensures MapCricapiUpcoming(m, fallbackId, nowIso, clock).awayTeam == "Team B"
  {
  }

  /**
   * The two mappings agree on everything but the scores, unless the status
   * mentions "innings" without "live" or "in progress": then only the current
   * feed calls the match live.
   */
  lemma CricketMappingsAgree(m: CricAPIMatch, fallbackId: string, nowIso: string, clock: Clock)
    ensures var c, u := MapCricapiCurrent(m, fallbackId, nowIso, clock), MapCricapiUpcoming(m, fallbackId, nowIso, clock);
      c.id == u.id && c.sport == u.sport && c.leagueIcon == u.leagueIcon && c.league == u.league &&
      c.homeTeam == u.homeTeam && c.awayTeam == u.awayTeam &&
      c.time == u.time && c.venue == u.venue && c.matchDateTime == u.matchDateTime &&
      (c.isLive == u.isLive ==> c.status == u.status) &&
      (c.isLive != u.isLive <==> c.isLive && !u.isLive) &&
      (c.isLive != u.isLive <==> Contains(MatchStatus(m), "innings") && !UpcomingIsLive(m))
  {
  }

  /** Live takes precedence: a status that says both "live" and "won" is live. */
  lemma CricketLivePrecedence(m: CricAPIMatch, fallbackId: string, nowIso: string, clock: Clock)
    requires UpcomingIsLive(m) && CricketIsFinished(m)
    ensures MapCricapiCurrent(m, fallbackId, nowIso, clock).status == Live
    ensures MapCricapiUpcoming(m, fallbackId, nowIso, clock).status == Live
  {
  }

  // ---------------------------------------------------------------- fixtures

  /** A finished Bundesliga record: full-time points win over the half-time ones. */
  lemma OpenLigaFixture(clock: Clock)
    ensures var m := OpenLigaMatch(
        61234, "FC Bayern", "BVB",
        Some([MatchResult(Some(1), Some(0), Some("Halbzeit")), MatchResult(Some(2), Some(1), Some("Endergebnis"))]),
        Some(false), None, Some(""), None);
      var r := MapOpenLigaDB(m, "Bundesliga", clock);
      r.status == Finished && !r.isLive && r.homeScore == Goals(2) && r.awayScore == Goals(1) &&
      r.progress == "Endergebnis" && r.venue == "" && r.time == "TBD"
  {
  }

  /** A SportsDB record in the 67th minute with `null` scores is live and shows placeholders. */
  lemma SportsDBFixture(clock: Clock)
    ensures var e := SportsDBEvent(
        "99", None, Some("2024-05-01"), None, Some("67'"), Some("2H"), None,
        "Mohun Bagan", "Bengaluru", Null, Null, Some("Salt Lake"));
      var r := MapSportsDBFootballMatch(e, "Indian Super League", clock);
      r.id == "sdb_99" && r.status == Live && r.isLive && r.league == "Indian Super League" &&
      r.homeScore == NoGoals && r.matchDateTime == "2024-05-01T00:00:00" && r.progress == "67'"
  {
    var e := SportsDBEvent(
        "99", None, Some("2024-05-01"), None, Some("67'"), Some("2H"), None,
        "Mohun Bagan", "Bengaluru", Null, Null, Some("Salt Lake"));
    assert Progress(e) == "67'";
    assert Contains(Progress(e), "'") by {
      assert Progress(e)[2..] == "'";
    }
  }

  /** A CricAPI result: the status says "won", and the scores are read by the score parser. */
  lemma CricketFixture(clock: Clock)
    ensures var m := CricAPIMatch(
        Some("c-17"), Some("IND v AUS, T20I"), None, Some(["India", "Australia"]),
        Some(["186/4 (20 Ov)", "142/10"]), Some("won"), None, None);
      var r := MapCricapiCurrent(m, "unused", "2024-05-01T10:00:00Z", clock);
      r.status == Finished && !r.isLive && r.league == "IND v AUS" &&
      r.homeScore == Innings(CricketScore(186, 4, "20")) && r.awayScore == Innings(CricketScore(142, 10, "")) &&
      r.progress == "20" && r.time == "TBD" && r.matchDateTime == "2024-05-01T10:00:00Z"
  {
    var m := CricAPIMatch(
        Some("c-17"), Some("IND v AUS, T20I"), None, Some(["India", "Australia"]),
        Some(["186/4 (20 Ov)", "142/10"]), Some("won"), None, None);
    Example186For4();
    Example142For10();
    WonIsFinished(m);
    LeagueBeforeComma();
  }

  lemma LeagueBeforeComma()
    ensures BeforeComma("IND v AUS, T20I") == "IND v AUS"
  {
    BeforeCommaAt("IND v AUS", " T20I");
    assert "IND v AUS" + "," + " T20I" == "IND v AUS, T20I";
  }

  /** `"won"` is in the finished vocabulary and in neither live one. */
  lemma WonIsFinished(m: CricAPIMatch)
    requires m.status == Some("won")
    ensures !CurrentIsLive(m) && CricketIsFinished(m)
  {
    assert MatchStatus(m) == "won";
    assert Contains("won", "won");
    assert !Contains("won", "live") && !Contains("won", "in progress") && !Contains("won", "innings");
  }

  /** The league name is the text before the first comma. */
  lemma {:induction false} BeforeCommaAt(a: string, b: string)
    requires forall i :: 0 <= i < |a| ==> a[i] != ','
    ensures BeforeComma(a + "," + b) == a
  {
    if a != [] {
      assert (a + "," + b)[1..] == a[1..] + "," + b;
      BeforeCommaAt(a[1..], b);
    }
  }
}
