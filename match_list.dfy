/**
 * The popup's match list: collecting the normalised records of the feeds,
 * `filterMatches` (one of four criteria, then live first and by time) and
 * `removeDuplicateMatches` (the first record of each fixture wins).
 *
 * `new Date(text).getTime()` is a parameter `at`, and the three reference
 * times `filterMatches` derives from the wall clock are a `Moment`.
 */
module MatchList {
  import opened Wrappers
  import opened Text
  import opened Sequences
  import opened Normalizer

  /** `new Date(text).getTime()` */
  type Timestamps = string -> int

  /** `now`, local midnight `today`, and the following midnight `tomorrow`. */
  datatype Moment = Moment(now: int, today: int, tomorrow: int)

  // ---------------------------------------------------------------- duplicates

  /** A team name as the key compares it: `name.toLowerCase().trim()`. */
  function KeyName(name: string): string
  {
    Trim(Lower(name))
  }

  /** The key of the source: both names joined by an underscore. */
  function KeyAsWritten(m: Match): string
  {
    KeyName(m.homeTeam) + "_" + KeyName(m.awayTeam)
  }

  /** The fixture itself: the pair of normalised names. */
  function FixtureKey(m: Match): (string, string)
  {
    (KeyName(m.homeTeam), KeyName(m.awayTeam))
  }

  /** A record that differs from another only in its team names. */
  function Named(home: string, away: string): Match
  {
    Match("m", Football, "", FootballIcon, home, away, NoGoals, NoGoals, Upcoming, "TBD", "", "", false, "")
  }

  /**
   * Two different fixtures, "a_b" against "c" and "a" against "b_c", get the
   * same joined key, so the source drops the second; the pair key keeps both.
   */
  lemma KeyAsWrittenCollides()
    ensures KeyAsWritten(Named("a_b", "c")) == KeyAsWritten(Named("a", "b_c"))
    ensures FixtureKey(Named("a_b", "c")) != FixtureKey(Named("a", "b_c"))
    ensures Dedupe([Named("a_b", "c"), Named("a", "b_c")], KeyAsWritten, {}) == [Named("a_b", "c")]
    ensures Dedupe([Named("a_b", "c"), Named("a", "b_c")], FixtureKey, {}) == [Named("a_b", "c"), Named("a", "b_c")]
  {
    CollidingKeys();
    DedupePair(Named("a_b", "c"), Named("a", "b_c"), KeyAsWritten);
    DedupePair(Named("a_b", "c"), Named("a", "b_c"), FixtureKey);
  }

  lemma CollidingKeys()
    ensures KeyAsWritten(Named("a_b", "c")) == KeyAsWritten(Named("a", "b_c"))
    ensures FixtureKey(Named("a_b", "c")) != FixtureKey(Named("a", "b_c"))
  {
    JoinedKey("a_b", "c");
    JoinedKey("a", "b_c");
    assert "a_b" + "_" + "c" == "a" + "_" + "b_c";
    assert "a_b"[1] != "a"[0];
  }

  lemma JoinedKey(home: string, away: string)
    requires forall i :: 0 <= i < |home| ==> 'a' <= home[i] <= 'z' || home[i] == '_'
    requires forall i :: 0 <= i < |away| ==> 'a' <= away[i] <= 'z' || away[i] == '_'
    ensures KeyAsWritten(Named(home, away)) == home + "_" + away
    ensures FixtureKey(Named(home, away)) == (home, away)
  {
    KeyNameUnchanged(home);
    KeyNameUnchanged(away);
  }

  /** A name without capitals and without white space is its own key. */
  lemma KeyNameUnchanged(s: string)
    requires forall i :: 0 <= i < |s| ==> !('A' <= s[i] <= 'Z') && !IsSpace(s[i])
    ensures KeyName(s) == s
  {
    assert Lower(s) == s;
    assert TrimStart(s) == s;
  }

  /** Without underscores in the names the joined key tells fixtures apart exactly as the pair key does. */
  lemma {:induction false} KeyAsWrittenSafeWithoutUnderscore(a: Match, b: Match)
    requires forall i :: 0 <= i < |KeyName(a.homeTeam)| ==> KeyName(a.homeTeam)[i] != '_'
    requires forall i :: 0 <= i < |KeyName(b.homeTeam)| ==> KeyName(b.homeTeam)[i] != '_'
    ensures KeyAsWritten(a) == KeyAsWritten(b) <==> FixtureKey(a) == FixtureKey(b)
  {
    if KeyAsWritten(a) == KeyAsWritten(b) {
      SplitAtUnderscore(KeyName(a.homeTeam), KeyName(a.awayTeam), KeyName(b.homeTeam), KeyName(b.awayTeam));
    }
  }

  lemma {:induction false} SplitAtUnderscore(h1: string, a1: string, h2: string, a2: string)
    requires forall i :: 0 <= i < |h1| ==> h1[i] != '_'
    requires forall i :: 0 <= i < |h2| ==> h2[i] != '_'
    requires h1 + "_" + a1 == h2 + "_" + a2
    ensures h1 == h2 && a1 == a2
  {
    var s := h1 + "_" + a1;
    assert forall i :: 0 <= i < |h1| ==> s[i] == h1[i];
    assert forall i :: 0 <= i < |h2| ==> s[i] == h2[i];
    assert s[|h1|] == '_' && s[|h2|] == '_';
    assert |h1| == |h2|;
    assert h1 == s[..|h1|] == h2;
    assert a1 == s[|h1| + 1..] == a2;
  }

  /** The key ignores ASCII case. */
  lemma KeyNameIgnoresCase(s: string)
    ensures KeyName(Upper(s)) == KeyName(s)
  {
    LowerUpper(s);
  }

  /** The key ignores white space before and after the name. */
  lemma KeyNameIgnoresPadding(p: string, s: string, q: string)
    requires forall i :: 0 <= i < |p| ==> IsSpace(p[i])
    requires forall i :: 0 <= i < |q| ==> IsSpace(q[i])
    ensures KeyName(p + s + q) == KeyName(s)
  {
    LowerPadded(p, s, q);
    TrimPadded(p, Lower(s), q);
  }

  /**
   * Records of one fixture spelled differently by two feeds share a key, and
   * only the first is kept.
   */
  lemma SpellingsOfOneFixture()
    ensures FixtureKey(Named("India", "Australia")) == FixtureKey(Named("INDIA", " Australia\t"))
    ensures Dedupe([Named("India", "Australia"), Named("INDIA", " Australia\t")], FixtureKey, {}) == [Named("India", "Australia")]
  {
    CapitalsIgnored();
    PaddingIgnored();
    DedupePair(Named("India", "Australia"), Named("INDIA", " Australia\t"), FixtureKey);
  }

  lemma CapitalsIgnored()
    ensures KeyName("INDIA") == KeyName("India")
  {
    assert Upper("India") == "INDIA";
    KeyNameIgnoresCase("India");
  }

  lemma PaddingIgnored()
    ensures KeyName(" Australia\t") == KeyName("Australia")
  {
    assert " " + "Australia" + "\t" == " Australia\t";
    KeyNameIgnoresPadding(" ", "Australia", "\t");
  }

  /** The home team's key holds no underscore, so the joined key can be split again. */
  predicate PlainHome(m: Match)
  {
    forall i :: 0 <= i < |KeyName(m.homeTeam)| ==> KeyName(m.homeTeam)[i] != '_'
  }

  /**
   * When no home team's key holds an underscore, dropping duplicates by the
   * joined key of the source and by the pair key keeps the same records.
   */
  lemma JoinedKeyDedupe(ms: seq<Match>)
    requires forall i :: 0 <= i < |ms| ==> PlainHome(ms[i])
    ensures Dedupe(ms, KeyAsWritten, {}) == Dedupe(ms, FixtureKey, {})
  {
    forall i, j | 0 <= i < |ms| && 0 <= j < |ms|
      ensures KeyAsWritten(ms[i]) == KeyAsWritten(ms[j]) <==> FixtureKey(ms[i]) == FixtureKey(ms[j])
    {
      KeyAsWrittenSafeWithoutUnderscore(ms[i], ms[j]);
    }
    DedupeSameClasses(ms, 0, KeyAsWritten, FixtureKey);
    assert ms[0..] == ms;
    assert Keys(ms[..0], KeyAsWritten) == {} && Keys(ms[..0], FixtureKey) == {};
  }

  /**
   * `removeDuplicateMatches` with the pair key: the survivors are an
   * order-preserving subsequence, no two are the same fixture, every fixture
   * of the input survives, and each survivor is the first record of its
   * fixture.
   */
  lemma RemoveDuplicatesSpec(ms: seq<Match>)
    ensures var r := Dedupe(ms, FixtureKey, {});
      IsSubseq(r, ms) &&
      (forall i, j :: 0 <= i < j < |r| ==> FixtureKey(r[i]) != FixtureKey(r[j])) &&
      Keys(r, FixtureKey) == Keys(ms, FixtureKey) &&
      (forall i :: 0 <= i < |r| ==>
        (IndexOfKey(ms, FixtureKey, FixtureKey(r[i])) < |ms| && r[i] == ms[IndexOfKey(ms, FixtureKey, FixtureKey(r[i]))]))
  {
    DedupeDistinct(ms, FixtureKey, {});
    DedupeFirst(ms, FixtureKey, {});
  }

  // ---------------------------------------------------------------- filter

  /** The criterion of `filterMatches` for `currentFilter == filter`. */
  predicate Passes(m: Match, filter: string, at: Timestamps, w: Moment)
  {
    if filter == "live" then m.isLive
    else if filter == "today" then w.today <= at(m.matchDateTime) < w.tomorrow
    else if filter == "upcoming" then at(m.matchDateTime) > w.now && !m.isLive
    else if filter == "finished" then m.status == Finished
    else true
  }

  function Criterion(filter: string, at: Timestamps, w: Moment): Match -> bool
  {
    (m: Match) => Passes(m, filter, at, w)
  }

  /** The `switch` of `filterMatches`. */
  function Select(ms: seq<Match>, filter: string, at: Timestamps, w: Moment): seq<Match>
  {
    Filter(ms, Criterion(filter, at, w))
  }

  /** Each criterion keeps exactly the records it names, in order; any other filter value keeps all. */
  lemma SelectExact(ms: seq<Match>, filter: string, at: Timestamps, w: Moment)
    ensures var r := Select(ms, filter, at, w);
      IsSubseq(r, ms) &&
      (forall x :: multiset(r)[x] == if Passes(x, filter, at, w) then multiset(ms)[x] else 0)
    ensures filter == "live" ==> forall x :: x in Select(ms, filter, at, w) <==> x in ms && x.isLive
    ensures filter == "today" ==> forall x :: x in Select(ms, filter, at, w) <==>
      x in ms && w.today <= at(x.matchDateTime) < w.tomorrow
    ensures filter == "upcoming" ==> forall x :: x in Select(ms, filter, at, w) <==>
      x in ms && at(x.matchDateTime) > w.now && !x.isLive
    ensures filter == "finished" ==> forall x :: x in Select(ms, filter, at, w) <==> x in ms && x.status == Finished
    ensures filter !in {"live", "today", "upcoming", "finished"} ==> Select(ms, filter, at, w) == ms
  {
    var p := Criterion(filter, at, w);
    FilterExact(ms, p);
    forall x ensures x in Select(ms, filter, at, w) <==> x in ms && Passes(x, filter, at, w) {
      assert x in Select(ms, filter, at, w) <==> multiset(Select(ms, filter, at, w))[x] > 0;
      assert x in ms <==> multiset(ms)[x] > 0;
    }
    if filter !in {"live", "today", "upcoming", "finished"} {
      FilterAll(ms, p);
    }
  }

  // ---------------------------------------------------------------- sort

  /** The comparator of `filterMatches`: live first, then by time. */
  function Compare(at: Timestamps, a: Match, b: Match): int
  {
    if a.isLive && !b.isLive then -1
    else if !a.isLive && b.isLive then 1
    else at(a.matchDateTime) - at(b.matchDateTime)
  }

  /** The rank the comparator orders by. */
  function Rank(at: Timestamps): Match -> (int, int)
  {
    (m: Match) => (if m.isLive then 0 else 1, at(m.matchDateTime))
  }

  /** The comparator puts `a` no later than `b` exactly when `a`'s rank is no greater. */
  lemma CompareIsRank(at: Timestamps, a: Match, b: Match)
    ensures Compare(at, a, b) <= 0 <==> NoLater(Rank(at), a, b)
    ensures Compare(at, a, b) == 0 <==> Rank(at)(a) == Rank(at)(b)
  {
  }

  /** `matches.sort(compare)`, stable. */
  function Arrange(at: Timestamps, ms: seq<Match>): seq<Match>
  {
    SortBy(Rank(at), ms)
  }

  /**
   * The sorted list is a permutation of its input; every live record comes
   * before every other; within each group times do not decrease; records the
   * comparator calls equal keep their input order.
   */
  lemma ArrangeSpec(at: Timestamps, ms: seq<Match>)
    ensures multiset(Arrange(at, ms)) == multiset(ms)
    ensures var r := Arrange(at, ms);
      forall i, j :: 0 <= i < j < |r| ==>
        (r[j].isLive ==> r[i].isLive) &&
        (r[i].isLive == r[j].isLive ==> at(r[i].matchDateTime) <= at(r[j].matchDateTime))
    ensures forall c :: OfRank(Rank(at), c, Arrange(at, ms)) == OfRank(Rank(at), c, ms)
  {
    SortSorted(Rank(at), ms);
    forall c ensures OfRank(Rank(at), c, Arrange(at, ms)) == OfRank(Rank(at), c, ms) {
      SortStable(Rank(at), ms, c);
    }
  }

  // ---------------------------------------------------------------- loading

  /** One league's records as its request returned them (none when the request failed). */
  datatype League<T> = League(name: string, records: seq<T>)

  /** The records `loadOpenLigaDBMatches` pushes for one league. */
  function OpenLigaLeague(l: League<OpenLigaMatch>, clock: Clock): seq<Match>
  {
    seq(|l.records|, i requires 0 <= i < |l.records| => MapOpenLigaDB(l.records[i], l.name, clock))
  }

  /** The records TheSportsDB loader pushes for one league and endpoint. */
  function SportsDBLeague(l: League<SportsDBEvent>, clock: Clock): seq<Match>
  {
    seq(|l.records|, i requires 0 <= i < |l.records| => MapSportsDBFootballMatch(l.records[i], l.name, clock))
  }

  /** What `loadOpenLigaDBMatches` pushes, league after league. */
  function OpenLigaLoaded(ls: seq<League<OpenLigaMatch>>, clock: Clock): seq<Match>
  {
    if ls == [] then [] else OpenLigaLoaded(ls[..|ls| - 1], clock) + OpenLigaLeague(ls[|ls| - 1], clock)
  }

  /** What `loadSportsDBMatches` pushes, league after league and endpoint after endpoint. */
  function SportsDBLoaded(ls: seq<League<SportsDBEvent>>, clock: Clock): seq<Match>
  {
    if ls == [] then [] else SportsDBLoaded(ls[..|ls| - 1], clock) + SportsDBLeague(ls[|ls| - 1], clock)
  }

  /** What the two football loaders push, OpenLigaDB first. */
  function FootballRecords(openLiga: seq<League<OpenLigaMatch>>, sportsDB: seq<League<SportsDBEvent>>, clock: Clock): seq<Match>
  {
    OpenLigaLoaded(openLiga, clock) + SportsDBLoaded(sportsDB, clock)
  }

  /** What `loadCricapiCurrentMatches` pushes. */
  function CurrentRecords(current: seq<CricAPIMatch>, ids: Ids, nowIso: string, clock: Clock): seq<Match>
  {
    seq(|current|, i requires 0 <= i < |current| => MapCricapiCurrent(current[i], ids.current(i), nowIso, clock))
  }

  /** What `loadCricapiUpcomingMatches` pushes. */
  function UpcomingRecords(upcoming: seq<CricAPIMatch>, ids: Ids, nowIso: string, clock: Clock): seq<Match>
  {
    seq(|upcoming|, i requires 0 <= i < |upcoming| => MapCricapiUpcoming(upcoming[i], ids.upcoming(i), nowIso, clock))
  }

  /** What the two cricket loaders push: the current matches, then the upcoming ones. */
  function CricketRecords(current: seq<CricAPIMatch>, upcoming: seq<CricAPIMatch>, ids: Ids, nowIso: string, clock: Clock): seq<Match>
  {
    CurrentRecords(current, ids, nowIso, clock) + UpcomingRecords(upcoming, ids, nowIso, clock)
  }

  /** The `Date.now()`/`Math.random()` ids a record without `id` gets, by position in its feed. */
  datatype Ids = Ids(current: nat -> string, upcoming: nat -> string)

  /** `loadMatches`: filter and sort what was loaded, then drop later records of a fixture. */
  function Pipeline(loaded: seq<Match>, filter: string, at: Timestamps, w: Moment): seq<Match>
  {
    Dedupe(Arrange(at, Select(loaded, filter, at, w)), FixtureKey, {})
  }

  /**
   * Two providers report the same fixture with different casing and spacing
   * and the same kick-off: one record is shown, the one loaded first.
   */
  lemma SameFixtureShownOnce(a: Match, b: Match, at: Timestamps, w: Moment)
    requires FixtureKey(a) == FixtureKey(b) && a.isLive == b.isLive && at(a.matchDateTime) == at(b.matchDateTime)
    requires w.today <= at(a.matchDateTime) < w.tomorrow
    ensures Pipeline([a, b], "today", at, w) == [a]
  {
    var p := Criterion("today", at, w);
    assert p(a) && p(b);
    assert [a, b][1..] == [b] && [b][1..] == [];
    assert Filter([b], p) == [b];
    assert Select([a, b], "today", at, w) == [a, b];
    assert Arrange(at, [a, b]) == [a, b] by {
      assert SortBy(Rank(at), [b]) == [b];
      assert NoLater(Rank(at), a, b);
    }
    DedupePair(a, b, FixtureKey);
  }

  /** The live filter over a live, a finished and a live record keeps the two live ones in order. */
  lemma LiveFilterExample(x: Match, y: Match, z: Match, at: Timestamps, w: Moment)
    requires x.isLive && !y.isLive && z.isLive
    ensures Select([x, y, z], "live", at, w) == [x, z]
  {
    var p := Criterion("live", at, w);
    assert p(x) && !p(y) && p(z);
    assert [x, y, z][1..] == [y, z] && [y, z][1..] == [z] && [z][1..] == [];
    assert Filter([z], p) == [z];
    assert Filter([y, z], p) == [z];
  }

  /** A later live record is sorted ahead of two earlier others, which keep time order. */
  lemma SortExample(x: Match, y: Match, z: Match, at: Timestamps)
    requires !x.isLive && y.isLive && !z.isLive
    requires at(z.matchDateTime) < at(x.matchDateTime) < at(y.matchDateTime)
    ensures Arrange(at, [x, y, z]) == [y, z, x]
  {
    var rank := Rank(at);
    assert [x, y, z][1..] == [y, z];
    assert [y, z][1..] == [z];
    assert SortBy(rank, [z]) == [z];
    assert SortBy(rank, [y, z]) == Insert(rank, y, [z]) == [y, z];
    assert Insert(rank, x, [y, z]) == [y] + Insert(rank, x, [z]);
    assert Insert(rank, x, [z]) == [z] + Insert(rank, x, []);
  }

  // ---------------------------------------------------------------- the popup's state

  class LiveScoresPopup {
    var matches: seq<Match>
    var currentSport: Sport
    var currentFilter: string

    constructor(sport: Sport, filter: string)
      ensures matches == [] && currentSport == sport && currentFilter == filter
    {
      matches := [];
      currentSport := sport;
      currentFilter := filter;
    }

    /** `removeDuplicateMatches`, with the pair key. */
    method RemoveDuplicateMatches()
      modifies this`matches
      ensures matches == Dedupe(old(matches), FixtureKey, {})
      ensures (forall i :: 0 <= i < |old(matches)| ==> PlainHome(old(matches)[i])) ==>
        matches == Dedupe(old(matches), KeyAsWritten, {})
      ensures currentSport == old(currentSport) && currentFilter == old(currentFilter)
    {
      var ms := matches;
      var seen: set<(string, string)> := {};
      var kept: seq<Match> := [];
      var i := 0;
      while i < |ms|
        invariant 0 <= i <= |ms|
        invariant kept + Dedupe(ms[i..], FixtureKey, seen) == Dedupe(ms, FixtureKey, {})
      {
        var key := FixtureKey(ms[i]);
        DedupeStep(ms, i, FixtureKey, seen);
        if key !in seen {
          assert kept + Dedupe(ms[i..], FixtureKey, seen) == (kept + [ms[i]]) + Dedupe(ms[i + 1..], FixtureKey, seen + {key});
          seen := seen + {key};
          kept := kept + [ms[i]];
        }
        i := i + 1;
      }
      assert ms[|ms|..] == [];
      if forall i :: 0 <= i < |ms| ==> PlainHome(ms[i]) {
        JoinedKeyDedupe(ms);
      }
      matches := kept;
    }

    /** `filterMatches` */
    method FilterMatches(at: Timestamps, w: Moment)
      modifies this`matches
      ensures matches == Arrange(at, Select(old(matches), currentFilter, at, w))
      ensures currentSport == old(currentSport) && currentFilter == old(currentFilter)
    {
      matches := Select(matches, currentFilter, at, w);
      matches := Arrange(at, matches);
    }

    /** `loadFootballMatches`: OpenLigaDB's leagues, then TheSportsDB's, then the filter. */
    method LoadFootballMatches(openLiga: seq<League<OpenLigaMatch>>, sportsDB: seq<League<SportsDBEvent>>,
                               clock: Clock, at: Timestamps, w: Moment)
      modifies this`matches
      ensures matches == Arrange(at, Select(FootballRecords(openLiga, sportsDB, clock), currentFilter, at, w))
      ensures currentSport == old(currentSport) && currentFilter == old(currentFilter)
    {
      matches := [];
      for i := 0 to |openLiga|
        invariant matches == OpenLigaLoaded(openLiga[..i], clock)
      {
        assert openLiga[..i + 1][..i] == openLiga[..i];
        matches := matches + OpenLigaLeague(openLiga[i], clock);
      }
      assert openLiga[..|openLiga|] == openLiga;
      var first := matches;
      for i := 0 to |sportsDB|
        invariant matches == first + SportsDBLoaded(sportsDB[..i], clock)
      {
        assert sportsDB[..i + 1][..i] == sportsDB[..i];
        matches := matches + SportsDBLeague(sportsDB[i], clock);
      }
      assert sportsDB[..|sportsDB|] == sportsDB;
      FilterMatches(at, w);
    }

    /** `loadCricketMatches` once an API key is set: current matches, upcoming matches, then the filter. */
    method LoadCricketMatches(current: seq<CricAPIMatch>, upcoming: seq<CricAPIMatch>, ids: Ids, nowIso: string,
                              clock: Clock, at: Timestamps, w: Moment)
      modifies this`matches
      ensures matches == Arrange(at, Select(CricketRecords(current, upcoming, ids, nowIso, clock), currentFilter, at, w))
      ensures currentSport == old(currentSport) && currentFilter == old(currentFilter)
    {
      matches := [];
      var c := CurrentRecords(current, ids, nowIso, clock);
      matches := matches + c;
      assert matches == c;
      matches := matches + UpcomingRecords(upcoming, ids, nowIso, clock);
      FilterMatches(at, w);
    }

    /** `loadMatches`: the current sport's loader, then the duplicates removed. */
    method LoadMatches(openLiga: seq<League<OpenLigaMatch>>, sportsDB: seq<League<SportsDBEvent>>,
                       current: seq<CricAPIMatch>, upcoming: seq<CricAPIMatch>, ids: Ids, nowIso: string,
                       clock: Clock, at: Timestamps, w: Moment)
      modifies this`matches
      ensures old(currentSport) == Football ==>
        matches == Pipeline(FootballRecords(openLiga, sportsDB, clock), currentFilter, at, w)
      ensures old(currentSport) == Cricket ==>
        matches == Pipeline(CricketRecords(current, upcoming, ids, nowIso, clock), currentFilter, at, w)
      ensures currentSport == old(currentSport) && currentFilter == old(currentFilter)
    {
      if currentSport == Football {
        LoadFootballMatches(openLiga, sportsDB, clock, at, w);
      } else {
        LoadCricketMatches(current, upcoming, ids, nowIso, clock, at, w);
      }
      RemoveDuplicateMatches();
    }
  }

  /**
   * `loadMatches` as written, with the joined key, shows the same list as
   * `Pipeline` whenever no loaded home team's key holds an underscore.
   */
  lemma PipelineAsWritten(loaded: seq<Match>, filter: string, at: Timestamps, w: Moment)
    requires forall i :: 0 <= i < |loaded| ==> PlainHome(loaded[i])
    ensures Dedupe(Arrange(at, Select(loaded, filter, at, w)), KeyAsWritten, {}) == Pipeline(loaded, filter, at, w)
  {
    var s := Select(loaded, filter, at, w);
    var a := Arrange(at, s);
    SelectExact(loaded, filter, at, w);
    ArrangeSpec(at, s);
    forall k | 0 <= k < |a| ensures PlainHome(a[k]) {
      assert a[k] in multiset(s);
      assert multiset(loaded)[a[k]] > 0;
      var t :| 0 <= t < |loaded| && loaded[t] == a[k];
    }
    JoinedKeyDedupe(a);
  }

  /** The list shows only loaded records that pass the filter. */
  lemma PipelineSelected(loaded: seq<Match>, filter: string, at: Timestamps, w: Moment)
    ensures var r := Pipeline(loaded, filter, at, w);
      forall i :: 0 <= i < |r| ==> r[i] in loaded && Passes(r[i], filter, at, w)
  {
    var s := Select(loaded, filter, at, w);
    var a := Arrange(at, s);
    var r := Dedupe(a, FixtureKey, {});
    SelectExact(loaded, filter, at, w);
    ArrangeSpec(at, s);
    DedupeDistinct(a, FixtureKey, {});
    forall i | 0 <= i < |r| ensures r[i] in loaded && Passes(r[i], filter, at, w) {
      SubseqIn(r, a, i);
      assert r[i] in multiset(a);
      assert r[i] in multiset(s);
    }
  }

  /** No fixture is shown twice, and every fixture that passes the filter is shown. */
  lemma PipelineFixtures(loaded: seq<Match>, filter: string, at: Timestamps, w: Moment)
    ensures var r := Pipeline(loaded, filter, at, w);
      forall i, j :: 0 <= i < j < |r| ==> FixtureKey(r[i]) != FixtureKey(r[j])
    ensures Keys(Pipeline(loaded, filter, at, w), FixtureKey) == Keys(Select(loaded, filter, at, w), FixtureKey)
  {
    var s := Select(loaded, filter, at, w);
    var a := Arrange(at, s);
    ArrangeSpec(at, s);
    DedupeDistinct(a, FixtureKey, {});
    KeysPermutation(a, s);
  }

  /** Live records come first, and times do not decrease within each group. */
  lemma PipelineOrdered(loaded: seq<Match>, filter: string, at: Timestamps, w: Moment)
    ensures var r := Pipeline(loaded, filter, at, w);
      forall i, j :: 0 <= i < j < |r| ==>
        ((r[j].isLive ==> r[i].isLive) && (r[i].isLive == r[j].isLive ==> at(r[i].matchDateTime) <= at(r[j].matchDateTime)))
  {
    var s := Select(loaded, filter, at, w);
    var a := Arrange(at, s);
    var r := Dedupe(a, FixtureKey, {});
    SortSorted(Rank(at), s);
    DedupeDistinct(a, FixtureKey, {});
    SortedSubseq(at, r, a);
    forall i, j | 0 <= i < j < |r|
      ensures (r[j].isLive ==> r[i].isLive) && (r[i].isLive == r[j].isLive ==> at(r[i].matchDateTime) <= at(r[j].matchDateTime))
    {
      assert NoLater(Rank(at), r[i], r[j]);
    }
  }

  /** An element of a subsequence is an element of the whole. */
  lemma {:induction false} SubseqIn<T>(a: seq<T>, b: seq<T>, i: nat)
    requires IsSubseq(a, b) && i < |a|
    ensures a[i] in b
    decreases |b|
  {
    if a[0] == b[0] {
      if i > 0 {
        SubseqIn(a[1..], b[1..], i - 1);
      }
    } else {
      SubseqIn(a, b[1..], i);
    }
  }

  /** A subsequence of a list in live-first, time order is in that order too. */
  lemma {:induction false} SortedSubseq(at: Timestamps, a: seq<Match>, b: seq<Match>)
    requires IsSubseq(a, b) && Sorted(Rank(at), b)
    ensures Sorted(Rank(at), a)
    decreases |b|
  {
    if a != [] {
      assert Sorted(Rank(at), b[1..]) by {
        assert forall i :: 0 <= i < |b[1..]| ==> b[1..][i] == b[i + 1];
      }
      if a[0] == b[0] {
        SortedSubseq(at, a[1..], b[1..]);
        forall j | 0 < j < |a| ensures NoLater(Rank(at), a[0], a[j]) {
          SubseqIndex(a[1..], b[1..], j - 1);
        }
        assert forall i, j :: 0 < i < j < |a| ==> a[i] == a[1..][i - 1] && a[j] == a[1..][j - 1];
      } else {
        SortedSubseq(at, a, b[1..]);
      }
    }
  }

  /** An element of a subsequence sits at some position of the whole. */
  lemma {:induction false} SubseqIndex<T>(a: seq<T>, b: seq<T>, i: nat)
    requires IsSubseq(a, b) && i < |a|
    ensures exists t :: 0 <= t < |b| && b[t] == a[i]
    decreases |b|
  {
    if a[0] == b[0] {
      if i == 0 {
        assert b[0] == a[0];
      } else {
        SubseqIndex(a[1..], b[1..], i - 1);
        var t :| 0 <= t < |b[1..]| && b[1..][t] == a[1..][i - 1];
        assert b[t + 1] == a[i];
      }
    } else {
      SubseqIndex(a, b[1..], i);
      var t :| 0 <= t < |b[1..]| && b[1..][t] == a[i];
      assert b[t + 1] == a[i];
    }
  }

  /** A permutation has the same keys. */
  lemma KeysPermutation(a: seq<Match>, b: seq<Match>)
    requires multiset(a) == multiset(b)
    ensures Keys(a, FixtureKey) == Keys(b, FixtureKey)
  {
    forall k | k in Keys(a, FixtureKey) ensures k in Keys(b, FixtureKey) {
      var i :| 0 <= i < |a| && FixtureKey(a[i]) == k;
      assert a[i] in multiset(b);
      var j :| 0 <= j < |b| && b[j] == a[i];
    }
    forall k | k in Keys(b, FixtureKey) ensures k in Keys(a, FixtureKey) {
      var j :| 0 <= j < |b| && FixtureKey(b[j]) == k;
      assert b[j] in multiset(a);
      var i :| 0 <= i < |a| && a[i] == b[j];
    }
  }
}
