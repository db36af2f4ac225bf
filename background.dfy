/**
 * The background worker: the tracked-match store (one map per sport from
 * match id to the last snapshot), the favourite-team test, and the change
 * detector that turns a new OpenLigaDB or CricAPI record into at most one
 * goal or wicket notification.
 *
 * Notifications are returned as a sequence of events instead of being handed
 * to the browser; `Date.now()` is the parameter `now`; the records of a poll
 * are parameters instead of network responses.
 */
module Background {
  import opened Wrappers
  import opened Text
  import opened ScoreParser
  import opened Normalizer

  /**
   * A tracked record. A score or wicket field is `Some(n)` when it holds the
   * number `n`, and `None` when it is missing or holds something that is not
   * a number (the popup's `'-'`, a cricket score object): `!==` against a
   * number is true for all of those.
   */
  datatype Snapshot = Snapshot(
    id: string,
    sport: string,
    league: string,
    homeTeam: string,
    awayTeam: string,
    homeScore: Option<int>,
    awayScore: Option<int>,
    homeWickets: Option<int>,
    awayWickets: Option<int>,
    progress: string,
    lastUpdated: Option<int>)

  /** A notification: `sendGoalNotification` or `sendWicketNotification`. */
  datatype Event =
    | Goal(snapshot: Snapshot, scoringTeam: string, score: int)
    | Wicket(snapshot: Snapshot, team: string, wickets: int)

  /** The store of one sport after a step, and the notifications the step sent. */
  datatype Outcome = Outcome(tracked: map<string, Snapshot>, events: seq<Event>)

  /** `Map.get`: the snapshot stored under `id`, if any. */
  function Lookup(tracked: map<string, Snapshot>, id: string): (r: Option<Snapshot>)
    ensures r.Some? <==> id in tracked
    ensures r.Some? ==> r.value == tracked[id]
  {
    if id in tracked then Some(tracked[id]) else None
  }

  // ---------------------------------------------------------------- favourites

  /** One favourite and a team name contain one another, ignoring case. */
  predicate NamesOverlap(teamName: string, team: string)
  {
    Contains(Lower(teamName), Lower(team)) || Contains(Lower(team), Lower(teamName))
  }

  /** `isFavoriteTeam(teamName)`: `favoriteTeams.some(...)`, scanning the list in order. */
  predicate IsFavoriteTeam(favoriteTeams: seq<string>, teamName: string)
  {
    favoriteTeams != [] &&
    (NamesOverlap(teamName, favoriteTeams[0]) || IsFavoriteTeam(favoriteTeams[1..], teamName))
  }

  /** The scan finds a favourite exactly when one overlaps the name. */
  lemma {:induction false} IsFavoriteTeamIff(favoriteTeams: seq<string>, teamName: string)
    ensures IsFavoriteTeam(favoriteTeams, teamName) <==>
      exists i :: 0 <= i < |favoriteTeams| && NamesOverlap(teamName, favoriteTeams[i])
  {
    if favoriteTeams != [] {
      IsFavoriteTeamIff(favoriteTeams[1..], teamName);
      if NamesOverlap(teamName, favoriteTeams[0]) {
        assert 0 < |favoriteTeams|;
      } else if exists i :: 0 <= i < |favoriteTeams| && NamesOverlap(teamName, favoriteTeams[i]) {
        var i :| 0 <= i < |favoriteTeams| && NamesOverlap(teamName, favoriteTeams[i]);
        assert favoriteTeams[1..][i - 1] == favoriteTeams[i];
      }
    }
  }

  /** No favourites: no team is a favourite; an empty favourite: every team is. */
  lemma FavoriteEdgeCases(favoriteTeams: seq<string>, teamName: string)
    ensures !IsFavoriteTeam([], teamName)
    ensures "" in favoriteTeams ==> IsFavoriteTeam(favoriteTeams, teamName)
  {
    if "" in favoriteTeams {
      var i :| 0 <= i < |favoriteTeams| && favoriteTeams[i] == "";
      assert Lower(favoriteTeams[i]) == "";
      assert NamesOverlap(teamName, favoriteTeams[i]);
      IsFavoriteTeamIff(favoriteTeams, teamName);
    }
  }

  /** With "India" the only favourite, "India A" and "Team India" are favourites and "Australia" is not. */
  lemma FavoriteExamples()
    ensures IsFavoriteTeam(["India"], "India A")
    ensures IsFavoriteTeam(["India"], "Team India")
    ensures !IsFavoriteTeam(["India"], "Australia")
  {
    IndiaA();
    TeamIndia();
    NotAustralia();
  }

  lemma IndiaA()
    ensures IsFavoriteTeam(["India"], "India A")
  {
    assert Lower("India") == "india";
    assert Lower("India A") == "india a";
    assert "india" <= "india a";
  }

  lemma TeamIndia()
    ensures IsFavoriteTeam(["India"], "Team India")
  {
    assert Lower("India") == "india";
    assert Lower("Team India") == "team india";
    assert "team india"[5..10] == "india";
    ContainsAt("team india", "india", 5);
  }

  lemma NotAustralia()
    ensures !IsFavoriteTeam(["India"], "Australia")
  {
    assert Lower("India") == "india";
    assert Lower("Australia") == "australia";
    ContainsLonger("india", "australia");
    assert forall j :: 0 <= j < |"australia"| ==> "australia"[j] != "india"[2];
    MissingChar("australia", "india", 2);
    assert ["India"][1..] == [];
  }

  // ---------------------------------------------------------------- notifications

  /** The `notificationEnabled` guard of `sendGoalNotification` / `sendWicketNotification`. */
  function Send(enabled: bool, e: Event): (r: seq<Event>)
    ensures enabled <==> r == [e]
    ensures !enabled <==> r == []
  {
    if enabled then [e] else []
  }

  // ---------------------------------------------------------------- football

  /** The snapshot `processFootballMatch` builds: the latest points of either side, 0 when none. */
  function FootballSnapshot(m: OpenLigaMatch, now: int): (r: Snapshot)
    ensures r.id == Show(m.matchID) && r.sport == "football"
    ensures r.homeTeam == m.team1 && r.awayTeam == m.team2
    ensures r.homeScore == Some(LatestPoints(m, true, 0)) && r.awayScore == Some(LatestPoints(m, false, 0))
    ensures r.league == OrElse(m.leagueName, "Unknown League")
  {
    Snapshot(
      id := Show(m.matchID),
      sport := "football",
      league := OrElse(m.leagueName, "Unknown League"),
      homeTeam := m.team1,
      awayTeam := m.team2,
      homeScore := Some(LatestPoints(m, true, 0)),
      awayScore := Some(LatestPoints(m, false, 0)),
      homeWickets := None,
      awayWickets := None,
      progress := OpenLigaMinute(m),
      lastUpdated := Some(now))
  }

  /** The goal a new snapshot reports against the previous one: the home side when its score moved, else the away side. */
  function GoalOf(previous: Snapshot, current: Snapshot): Event
    requires current.homeScore.Some? && current.awayScore.Some?
  {
    if previous.homeScore != current.homeScore then Goal(current, current.homeTeam, current.homeScore.value)
    else Goal(current, current.awayTeam, current.awayScore.value)
  }

  /** The store keeps a snapshot only when a favourite plays in it. */
  function Retain(tracked: map<string, Snapshot>, favoriteTeams: seq<string>, current: Snapshot): (r: map<string, Snapshot>)
    ensures IsFavoriteTeam(favoriteTeams, current.homeTeam) || IsFavoriteTeam(favoriteTeams, current.awayTeam) ==>
      r == tracked[current.id := current]
    ensures !IsFavoriteTeam(favoriteTeams, current.homeTeam) && !IsFavoriteTeam(favoriteTeams, current.awayTeam) ==>
      r == tracked
  {
    if IsFavoriteTeam(favoriteTeams, current.homeTeam) || IsFavoriteTeam(favoriteTeams, current.awayTeam)
    then tracked[current.id := current]
    else tracked
  }

  /**
   * `processFootballMatch(match)`: without a stored snapshot, or with both
   * scores as stored, nothing is sent; otherwise exactly one goal is sent,
   * for the home side whenever its score moved. The new snapshot is stored
   * under the match id only when a favourite plays; no other id is touched.
   */
  function ProcessFootball(tracked: map<string, Snapshot>, favoriteTeams: seq<string>, enabled: bool,
                           m: OpenLigaMatch, now: int): (r: Outcome)
    ensures var id, home, away := Show(m.matchID), LatestPoints(m, true, 0), LatestPoints(m, false, 0);
      (id !in tracked ==> r.events == []) &&
      (id in tracked && tracked[id].homeScore == Some(home) && tracked[id].awayScore == Some(away) ==> r.events == []) &&
      (enabled && id in tracked && (tracked[id].homeScore != Some(home) || tracked[id].awayScore != Some(away)) ==>
        |r.events| == 1 && r.events[0].Goal? && r.events[0].snapshot == FootballSnapshot(m, now) &&
        (tracked[id].homeScore != Some(home) ==> r.events[0].scoringTeam == m.team1 && r.events[0].score == home) &&
        (tracked[id].homeScore == Some(home) ==> r.events[0].scoringTeam == m.team2 && r.events[0].score == away))
    ensures !enabled ==> r.events == []
    ensures IsFavoriteTeam(favoriteTeams, m.team1) || IsFavoriteTeam(favoriteTeams, m.team2) ==>
      r.tracked == tracked[Show(m.matchID) := FootballSnapshot(m, now)]
    ensures !IsFavoriteTeam(favoriteTeams, m.team1) && !IsFavoriteTeam(favoriteTeams, m.team2) ==> r.tracked == tracked
  {
    var current := FootballSnapshot(m, now);
    var events :=
      match Lookup(tracked, current.id)
      case None => []
      case Some(previous) =>
        if previous.homeScore != current.homeScore || previous.awayScore != current.awayScore
        then Send(enabled, GoalOf(previous, current))
        else [];
    Outcome(Retain(tracked, favoriteTeams, current), events)
  }

  /** Polling the same record twice in a row: once a favourite's match is stored, the repeat sends nothing. */
  lemma ProcessFootballRepeat(tracked: map<string, Snapshot>, favoriteTeams: seq<string>, enabled: bool,
                              m: OpenLigaMatch, now: int, later: int)
    requires IsFavoriteTeam(favoriteTeams, m.team1) || IsFavoriteTeam(favoriteTeams, m.team2)
    ensures var first := ProcessFootball(tracked, favoriteTeams, enabled, m, now);
      ProcessFootball(first.tracked, favoriteTeams, enabled, m, later).events == []
  {
    var first := ProcessFootball(tracked, favoriteTeams, enabled, m, now);
    assert first.tracked[Show(m.matchID)] == FootballSnapshot(m, now);
  }

  /** A stored 1-0 followed by a 2-0 sends one goal for the home side, with score 2. */
  lemma HomeGoalExample(m: OpenLigaMatch, previous: Snapshot, now: int)
    requires previous.homeScore == Some(1) && previous.awayScore == Some(0)
    requires LatestPoints(m, true, 0) == 2 && LatestPoints(m, false, 0) == 0
    ensures ProcessFootball(map[Show(m.matchID) := previous], [], true, m, now).events ==
      [Goal(FootballSnapshot(m, now), m.team1, 2)]
  {
  }

  /** `fetchFootballScores` with the records of every league in turn: only running matches are processed. */
  function FootballPass(tracked: map<string, Snapshot>, favoriteTeams: seq<string>, enabled: bool,
                        ms: seq<OpenLigaMatch>, now: int): Outcome
  {
    if ms == [] then Outcome(tracked, [])
    else
      var before := FootballPass(tracked, favoriteTeams, enabled, ms[..|ms| - 1], now);
      var m := ms[|ms| - 1];
      if m.matchIsRunning == Some(true) then
        var step := ProcessFootball(before.tracked, favoriteTeams, enabled, m, now);
        Outcome(step.tracked, before.events + step.events)
      else before
  }

  /**
   * A poll never removes a tracked id, never changes an id that no running
   * record carries, stores nothing without favourites, and sends nothing when
   * notifications are off.
   */
  lemma {:induction false} FootballPassFrame(tracked: map<string, Snapshot>, favoriteTeams: seq<string>, enabled: bool,
                                            ms: seq<OpenLigaMatch>, now: int, id: string)
    ensures var r := FootballPass(tracked, favoriteTeams, enabled, ms, now);
      tracked.Keys <= r.tracked.Keys &&
      ((forall i :: 0 <= i < |ms| && ms[i].matchIsRunning == Some(true) ==> Show(ms[i].matchID) != id) ==>
        (id in r.tracked <==> id in tracked) && (id in tracked ==> r.tracked[id] == tracked[id])) &&
      (favoriteTeams == [] ==> r.tracked == tracked) &&
      (!enabled ==> r.events == [])
  {
    if ms != [] {
      FootballPassFrame(tracked, favoriteTeams, enabled, ms[..|ms| - 1], now, id);
      assert forall i :: 0 <= i < |ms| - 1 ==> ms[..|ms| - 1][i] == ms[i];
    }
  }

  // ---------------------------------------------------------------- cricket

  /** The snapshot `processCricketMatch` builds from the parsed scores of both sides. */
  function CricketSnapshot(m: CricAPIMatch, id: string, now: int): (r: Snapshot)
    ensures r.id == id && r.sport == "cricket"
    ensures r.homeWickets == Some(CricketSide(m, 0).wickets) && r.awayWickets == Some(CricketSide(m, 1).wickets)
    ensures r.homeScore == Some(CricketSide(m, 0).runs) && r.awayScore == Some(CricketSide(m, 1).runs)
    ensures r.homeTeam == OrElse(At(m.teams, 0), "Team A") && r.awayTeam == OrElse(At(m.teams, 1), "Team B")
  {
    var home := CricketSide(m, 0);
    var away := CricketSide(m, 1);
    Snapshot(
      id := id,
      sport := "cricket",
      league := OrElse(m.series_id, "International"),
      homeTeam := OrElse(At(m.teams, 0), "Team A"),
      awayTeam := OrElse(At(m.teams, 1), "Team B"),
      homeScore := Some(home.runs),
      awayScore := Some(away.runs),
      homeWickets := Some(home.wickets),
      awayWickets := Some(away.wickets),
      progress := OrElse(Some(home.overs), OrElse(Some(away.overs), "")),
      lastUpdated := Some(now))
  }

  /** The wicket a new snapshot reports: the home side when its count moved, else the away side. */
  function WicketOf(previous: Snapshot, current: Snapshot): Event
    requires current.homeWickets.Some? && current.awayWickets.Some?
  {
    if previous.homeWickets != current.homeWickets then Wicket(current, current.homeTeam, current.homeWickets.value)
    else Wicket(current, current.awayTeam, current.awayWickets.value)
  }

  /**
   * `processCricketMatch(match)`: a record without an id (or with an empty
   * one) changes nothing and sends nothing; otherwise, as for football, one
   * wicket is sent when a side's wicket count moved, home first, and the
   * snapshot is stored only when a favourite plays.
   */
  function ProcessCricket(tracked: map<string, Snapshot>, favoriteTeams: seq<string>, enabled: bool,
                          m: CricAPIMatch, now: int): (r: Outcome)
    ensures m.id.None? || m.id == Some("") ==> r == Outcome(tracked, [])
    ensures !enabled ==> r.events == []
    ensures m.id.Some? && m.id.value != "" ==>
      var id, current := m.id.value, CricketSnapshot(m, m.id.value, now);
      (id !in tracked ==> r.events == []) &&
      (id in tracked && tracked[id].homeWickets == current.homeWickets && tracked[id].awayWickets == current.awayWickets ==>
        r.events == []) &&
      (enabled && id in tracked && (tracked[id].homeWickets != current.homeWickets || tracked[id].awayWickets != current.awayWickets) ==>
        |r.events| == 1 && r.events[0].Wicket? && r.events[0].snapshot == current &&
        (tracked[id].homeWickets != current.homeWickets ==>
          r.events[0].team == current.homeTeam && r.events[0].wickets == CricketSide(m, 0).wickets) &&
        (tracked[id].homeWickets == current.homeWickets ==>
          r.events[0].team == current.awayTeam && r.events[0].wickets == CricketSide(m, 1).wickets)) &&
      r.tracked == Retain(tracked, favoriteTeams, current)
  {
    if m.id.None? || m.id.value == "" then Outcome(tracked, [])
    else
      var current := CricketSnapshot(m, m.id.value, now);
      var events :=
        match Lookup(tracked, current.id)
        case None => []
        case Some(previous) =>
          if previous.homeWickets != current.homeWickets || previous.awayWickets != current.awayWickets
          then Send(enabled, WicketOf(previous, current))
          else [];
      Outcome(Retain(tracked, favoriteTeams, current), events)
  }

  /** `fetchCricketScores` with the current-matches records: every record is processed. */
  function CricketPass(tracked: map<string, Snapshot>, favoriteTeams: seq<string>, enabled: bool,
                       ms: seq<CricAPIMatch>, now: int): Outcome
  {
    if ms == [] then Outcome(tracked, [])
    else
      var before := CricketPass(tracked, favoriteTeams, enabled, ms[..|ms| - 1], now);
      var step := ProcessCricket(before.tracked, favoriteTeams, enabled, ms[|ms| - 1], now);
      Outcome(step.tracked, before.events + step.events)
  }

  /** The cricket poll keeps every tracked id, touches only ids its records carry, and sends at most one event per record. */
  lemma {:induction false} CricketPassFrame(tracked: map<string, Snapshot>, favoriteTeams: seq<string>, enabled: bool,
                                           ms: seq<CricAPIMatch>, now: int, id: string)
    ensures var r := CricketPass(tracked, favoriteTeams, enabled, ms, now);
      tracked.Keys <= r.tracked.Keys &&
      ((forall i :: 0 <= i < |ms| ==> ms[i].id != Some(id)) ==>
        (id in r.tracked <==> id in tracked) && (id in tracked ==> r.tracked[id] == tracked[id])) &&
      |r.events| <= |ms| &&
      (!enabled ==> r.events == [])
  {
    if ms != [] {
      CricketPassFrame(tracked, favoriteTeams, enabled, ms[..|ms| - 1], now, id);
      assert forall i :: 0 <= i < |ms| - 1 ==> ms[..|ms| - 1][i] == ms[i];
    }
  }

  // ---------------------------------------------------------------- the service

  /** The fields `updatePreferences` copies when they are present. */
  datatype Preferences = Preferences(favoriteTeams: Option<seq<string>>, notificationEnabled: Option<bool>, updateInterval: Option<int>)

  class BackgroundService {
    var footballMatches: map<string, Snapshot>
    var cricketMatches: map<string, Snapshot>
    var favoriteTeams: seq<string>
    var notificationEnabled: bool
    var updateInterval: int

    constructor()
      ensures footballMatches == map[] && cricketMatches == map[]
      ensures favoriteTeams == [] && notificationEnabled && updateInterval == 60
    {
      footballMatches := map[];
      cricketMatches := map[];
      favoriteTeams := [];
      notificationEnabled := true;
      updateInterval := 60;
    }

    /** `processFootballMatch` */
    method ProcessFootballMatch(m: OpenLigaMatch, now: int) returns (events: seq<Event>)
      modifies this`footballMatches
      ensures Outcome(footballMatches, events) == ProcessFootball(old(footballMatches), favoriteTeams, notificationEnabled, m, now)
    {
      var matchId := Show(m.matchID);
      var previousMatch := Lookup(footballMatches, matchId);
      var currentMatch := FootballSnapshot(m, now);
      events := [];
      if previousMatch.Some? {
        var homeScoreChanged := previousMatch.value.homeScore != currentMatch.homeScore;
        var awayScoreChanged := previousMatch.value.awayScore != currentMatch.awayScore;
        if homeScoreChanged || awayScoreChanged {
          var scoringTeam := if homeScoreChanged then currentMatch.homeTeam else currentMatch.awayTeam;
          var newScore := if homeScoreChanged then currentMatch.homeScore.value else currentMatch.awayScore.value;
          events := Send(notificationEnabled, Goal(currentMatch, scoringTeam, newScore));
        }
      }
      if IsFavoriteTeam(favoriteTeams, currentMatch.homeTeam) || IsFavoriteTeam(favoriteTeams, currentMatch.awayTeam) {
        footballMatches := footballMatches[matchId := currentMatch];
      }
    }

    /** `processCricketMatch` */
    method ProcessCricketMatch(m: CricAPIMatch, now: int) returns (events: seq<Event>)
      modifies this`cricketMatches
      ensures Outcome(cricketMatches, events) == ProcessCricket(old(cricketMatches), favoriteTeams, notificationEnabled, m, now)
    {
      events := [];
      if m.id.None? || m.id.value == "" {
        return;
      }
      var matchId := m.id.value;
      var previousMatch := Lookup(cricketMatches, matchId);
      var currentMatch := CricketSnapshot(m, matchId, now);
      if previousMatch.Some? {
        var homeWicketChange := previousMatch.value.homeWickets != currentMatch.homeWickets;
        var awayWicketChange := previousMatch.value.awayWickets != currentMatch.awayWickets;
        if homeWicketChange || awayWicketChange {
          var wicketTeam := if homeWicketChange then currentMatch.homeTeam else currentMatch.awayTeam;
          var wickets := if homeWicketChange then currentMatch.homeWickets.value else currentMatch.awayWickets.value;
          events := Send(notificationEnabled, Wicket(currentMatch, wicketTeam, wickets));
        }
      }
      if IsFavoriteTeam(favoriteTeams, currentMatch.homeTeam) || IsFavoriteTeam(favoriteTeams, currentMatch.awayTeam) {
        cricketMatches := cricketMatches[matchId := currentMatch];
      }
    }

    /**
     * `checkForUpdates` with this poll's records: nothing at all when
     * notifications are off; otherwise the running football matches, then
     * the cricket matches, each diffed against the store in turn.
     */
    method CheckForUpdates(football: seq<OpenLigaMatch>, cricket: seq<CricAPIMatch>, now: int) returns (events: seq<Event>)
      modifies this`footballMatches, this`cricketMatches
      ensures !notificationEnabled ==>
        events == [] && footballMatches == old(footballMatches) && cricketMatches == old(cricketMatches)
      ensures notificationEnabled ==>
        var f := FootballPass(old(footballMatches), favoriteTeams, true, football, now);
        var c := CricketPass(old(cricketMatches), favoriteTeams, true, cricket, now);
        footballMatches == f.tracked && cricketMatches == c.tracked && events == f.events + c.events
    {
      events := [];
      if !notificationEnabled {
        return;
      }
      for i := 0 to |football|
        invariant footballMatches == FootballPass(old(footballMatches), favoriteTeams, true, football[..i], now).tracked
        invariant events == FootballPass(old(footballMatches), favoriteTeams, true, football[..i], now).events
        invariant cricketMatches == old(cricketMatches)
      {
        assert football[..i + 1][..i] == football[..i];
        if football[i].matchIsRunning == Some(true) {
          var sent := ProcessFootballMatch(football[i], now);
          events := events + sent;
        }
      }
      assert football[..|football|] == football;
      var footballEvents, footballState := events, footballMatches;
      for i := 0 to |cricket|
        invariant footballMatches == footballState
        invariant cricketMatches == CricketPass(old(cricketMatches), favoriteTeams, true, cricket[..i], now).tracked
        invariant events == footballEvents + CricketPass(old(cricketMatches), favoriteTeams, true, cricket[..i], now).events
      {
        assert cricket[..i + 1][..i] == cricket[..i];
        var sent := ProcessCricketMatch(cricket[i], now);
        events := events + sent;
      }
      assert cricket[..|cricket|] == cricket;
    }

    /** `trackMatch`: stored in the football map exactly when its sport is "football", else in the cricket map. */
    method TrackMatch(m: Snapshot)
      modifies this`footballMatches, this`cricketMatches
      ensures m.sport == "football" ==> footballMatches == old(footballMatches)[m.id := m] && cricketMatches == old(cricketMatches)
      ensures m.sport != "football" ==> cricketMatches == old(cricketMatches)[m.id := m] && footballMatches == old(footballMatches)
    {
      if m.sport == "football" {
        footballMatches := footballMatches[m.id := m];
      } else {
        cricketMatches := cricketMatches[m.id := m];
      }
    }

    /** `untrackMatch`: removes only that id, only from that sport's map. */
    method UntrackMatch(matchId: string, sport: string)
      modifies this`footballMatches, this`cricketMatches
      ensures sport == "football" ==> footballMatches == old(footballMatches) - {matchId} && cricketMatches == old(cricketMatches)
      ensures sport != "football" ==> cricketMatches == old(cricketMatches) - {matchId} && footballMatches == old(footballMatches)
    {
      if sport == "football" {
        footballMatches := footballMatches - {matchId};
      } else {
        cricketMatches := cricketMatches - {matchId};
      }
    }

    /** `updatePreferences`: each field that the argument carries is overwritten; the others and both maps stay. */
    method UpdatePreferences(preferences: Preferences)
      modifies this`favoriteTeams, this`notificationEnabled, this`updateInterval
      ensures favoriteTeams == preferences.favoriteTeams.GetOr(old(favoriteTeams))
      ensures notificationEnabled == preferences.notificationEnabled.GetOr(old(notificationEnabled))
      ensures updateInterval == preferences.updateInterval.GetOr(old(updateInterval))
    {
      if preferences.favoriteTeams.Some? {
        favoriteTeams := preferences.favoriteTeams.value;
      }
      if preferences.notificationEnabled.Some? {
        notificationEnabled := preferences.notificationEnabled.value;
      }
      if preferences.updateInterval.Some? {
        updateInterval := preferences.updateInterval.value;
      }
    }
  }

  /** Tracking a record and untracking its id leaves the map as if the id had never been there. */
  lemma TrackThenUntrack(tracked: map<string, Snapshot>, m: Snapshot)
    ensures tracked[m.id := m] - {m.id} == tracked - {m.id}
    ensures m.id !in tracked ==> tracked[m.id := m] - {m.id} == tracked
  {
  }
}
