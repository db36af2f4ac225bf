/**
 * The options page's list of favourite teams: adding the team typed into the
 * text box (trimmed, refused when blank or already listed under any
 * capitalisation, its sport guessed from the name) and removing a team by
 * its id. Storage, the message to the background worker and the rendering
 * of the list are not part of this model; the two clock readings taken for
 * a new team, one for its id and one for its time, are parameters.
 */
module Options {
  import opened Text
  import opened Sequences

  /** One entry of `favoriteTeams`. */
  datatype FavoriteTeam = FavoriteTeam(id: string, name: string, sport: string, addedAt: nat)

  // ---------------------------------------------------------------- sport detection

  /** The words that mark a cricket side, in the order they are tried. */
  const CricketKeywords: seq<string> :=
    ["india", "australia", "england", "pakistan", "srilanka", "bangladesh",
     "newzealand", "southafrica", "westindies", "mumbai", "chennai", "delhi", "bangalore",
     "kolkata", "hyderabad", "punjab", "rajasthan", "gujarat", "lucknow", "ipl", "bbl", "psl"]

  /** The name as the keywords are matched against it: lower case, no white space. */
  function Squeezed(teamName: string): string
  {
    StripSpaces(Lower(teamName))
  }

  /** `detectSport`: cricket exactly when the squeezed name includes a keyword. */
  function DetectSport(teamName: string): (r: string)
    ensures r == "cricket" || r == "football"
    ensures r == "cricket" <==>
      exists i :: 0 <= i < |CricketKeywords| && Contains(Squeezed(teamName), CricketKeywords[i])
  {
    IncludesAnyIff(Squeezed(teamName), CricketKeywords);
    if IncludesAny(Squeezed(teamName), CricketKeywords) then "cricket" else "football"
  }

  /** White space inside a name is dropped before matching. */
  lemma StripSriLanka()
    ensures StripSpaces("sri lanka") == "srilanka"
  {
    SpaceDropped("sri", "lanka");
    assert "sri" + " " + "lanka" == "sri lanka";
  }

  /** "Sri Lanka" is matched as "srilanka". */
  lemma SqueezedSriLanka()
    ensures Squeezed("Sri Lanka") == "srilanka"
  {
    var lowered := Lower("Sri Lanka");
    assert lowered == "sri lanka";
    StripSriLanka();
  }

  /** Spaces between the words of a country do not hide it. */
  lemma SriLankaIsCricket()
    ensures DetectSport("Sri Lanka") == "cricket"
  {
    SqueezedSriLanka();
    assert CricketKeywords[4] == "srilanka";
    ContainsAt("srilanka", "srilanka", 0);
  }

  /** A name that matches no keyword is taken for a football club. */
  lemma AjaxIsFootball()
    ensures DetectSport("Ajax") == "football"
  {
    assert Lower("Ajax") == "ajax";
    assert Squeezed("Ajax") == "ajax";
    forall i | 0 <= i < |CricketKeywords|
      ensures !Contains("ajax", CricketKeywords[i])
    {
      if |CricketKeywords[i]| > 4 {
        ContainsLonger("ajax", CricketKeywords[i]);
      } else {
        assert CricketKeywords[i] in ["ipl", "bbl", "psl"];
        assert CricketKeywords[i][2] == 'l';
        MissingChar("ajax", CricketKeywords[i], 2);
      }
    }
  }

  /** Upper-casing a name does not change the sport guessed for it. */
  lemma {:induction false} DetectSportIgnoresCase(teamName: string)
    ensures DetectSport(Upper(teamName)) == DetectSport(teamName)
  {
    LowerUpper(teamName);
  }

  // ---------------------------------------------------------------- the list

  /** `teams.some(t => t.name.toLowerCase() === name.toLowerCase())` */
  predicate HasName(teams: seq<FavoriteTeam>, name: string)
  {
    exists i :: 0 <= i < |teams| && Lower(teams[i].name) == Lower(name)
  }

  /** No two teams of the list share a name, ignoring case. */
  predicate NamesDistinct(teams: seq<FavoriteTeam>)
  {
    forall i, j :: 0 <= i < j < |teams| ==> Lower(teams[i].name) != Lower(teams[j].name)
  }

  /**
   * The list after `addTeam` with `input` in the text box, where the clock
   * reads `idNow` when the id is made and `addedNow` when the time is stored.
   */
  function AddTeamTo(teams: seq<FavoriteTeam>, input: string, idNow: nat, addedNow: nat): (r: seq<FavoriteTeam>)
    ensures teams <= r && |r| <= |teams| + 1
  {
    var teamName := Trim(input);
    if teamName == "" || HasName(teams, teamName) then teams
    else teams + [FavoriteTeam(Show(idNow), teamName, DetectSport(teamName), addedNow)]
  }

  /** A box holding only white space adds nothing. */
  lemma {:induction false} BlankInputIgnored(teams: seq<FavoriteTeam>, input: string, idNow: nat, addedNow: nat)
    requires forall i :: 0 <= i < |input| ==> IsSpace(input[i])
    ensures AddTeamTo(teams, input, idNow, addedNow) == teams
  {
    TrimEmptyIff(input);
  }

  /**
   * A team is added exactly when the trimmed input is not blank and no listed
   * team has that name under any capitalisation; the new entry comes last,
   * under the trimmed name, with the first clock reading as its id and the
   * second as its time.
   */
  lemma AddTeamCases(teams: seq<FavoriteTeam>, input: string, idNow: nat, addedNow: nat)
    ensures |AddTeamTo(teams, input, idNow, addedNow)| == |teams| + 1 <==>
      !(forall i :: 0 <= i < |input| ==> IsSpace(input[i])) && !HasName(teams, Trim(input))
    ensures |AddTeamTo(teams, input, idNow, addedNow)| == |teams| + 1 ==>
      var t := AddTeamTo(teams, input, idNow, addedNow)[|teams|];
      t.name == Trim(input) && t.name != "" && !IsSpace(t.name[0]) && !IsSpace(t.name[|t.name| - 1])
      && t.id == Show(idNow) && t.addedAt == addedNow && t.sport == DetectSport(t.name)
  {
    TrimEmptyIff(input);
  }

  /** Adding keeps the names distinct. */
  lemma AddTeamKeepsNamesDistinct(teams: seq<FavoriteTeam>, input: string, idNow: nat, addedNow: nat)
    requires NamesDistinct(teams)
    ensures NamesDistinct(AddTeamTo(teams, input, idNow, addedNow))
  {
  }

  /** A second add of the same name, in any capitalisation, is refused. */
  lemma {:induction false} AddTeamTwice(teams: seq<FavoriteTeam>, input: string, again: string,
                                       idNow: nat, addedNow: nat, idLater: nat, addedLater: nat)
    requires Lower(Trim(again)) == Lower(Trim(input))
    ensures AddTeamTo(AddTeamTo(teams, input, idNow, addedNow), again, idLater, addedLater) ==
      AddTeamTo(teams, input, idNow, addedNow)
  {
    var once := AddTeamTo(teams, input, idNow, addedNow);
    if Trim(input) == "" {
      assert Lower(Trim(again)) == "";
    } else if HasName(teams, Trim(input)) {
      var i :| 0 <= i < |teams| && Lower(teams[i].name) == Lower(Trim(input));
      assert Lower(once[i].name) == Lower(Trim(again));
    } else {
      assert Lower(once[|teams|].name) == Lower(Trim(again));
    }
  }

  /** The list after `removeTeam(teamId)`. */
  function WithoutId(teams: seq<FavoriteTeam>, teamId: string): seq<FavoriteTeam>
  {
    Filter(teams, (t: FavoriteTeam) => t.id != teamId)
  }

  /** `filter` keeps the names distinct. */
  lemma {:induction false} FilterKeepsNamesDistinct(teams: seq<FavoriteTeam>, p: FavoriteTeam -> bool)
    requires NamesDistinct(teams)
    ensures NamesDistinct(Filter(teams, p))
  {
    if teams != [] {
      var rest := teams[1..];
      FilterKeepsNamesDistinct(rest, p);
      if p(teams[0]) {
        var r := Filter(rest, p);
        FilterExact(rest, p);
        forall j | 0 <= j < |r|
          ensures Lower(teams[0].name) != Lower(r[j].name)
        {
          assert r[j] in multiset(r);
          assert r[j] in multiset(rest);
          var k :| 0 <= k < |rest| && rest[k] == r[j];
          assert teams[k + 1] == r[j];
        }
      }
    }
  }

  /**
   * Removing drops every team with that id and keeps every other entry, as
   * often as it occurred and in its order; distinct names stay distinct.
   */
  lemma RemoveTeamSpec(teams: seq<FavoriteTeam>, teamId: string)
    ensures forall t :: t in WithoutId(teams, teamId) ==> t.id != teamId
    ensures forall t: FavoriteTeam :: t.id != teamId ==> multiset(WithoutId(teams, teamId))[t] == multiset(teams)[t]
    ensures IsSubseq(WithoutId(teams, teamId), teams)
    ensures NamesDistinct(teams) ==> NamesDistinct(WithoutId(teams, teamId))
  {
    var p := (t: FavoriteTeam) => t.id != teamId;
    FilterExact(teams, p);
    if NamesDistinct(teams) {
      FilterKeepsNamesDistinct(teams, p);
    }
  }

  /** Two teams whose ids are read within the same millisecond share an id, and one removal drops both. */
  lemma SameMillisecondIds(teams: seq<FavoriteTeam>, first: string, second: string, now: nat, added1: nat, added2: nat)
    requires NamesDistinct(teams) && forall i :: 0 <= i < |teams| ==> teams[i].id != Show(now)
    requires Trim(first) != "" && Trim(second) != "" && Lower(Trim(first)) != Lower(Trim(second))
    requires !HasName(teams, Trim(first)) && !HasName(teams, Trim(second))
    ensures var both := AddTeamTo(AddTeamTo(teams, first, now, added1), second, now, added2);
      |both| == |teams| + 2 && both[|teams|].id == both[|teams| + 1].id
      && WithoutId(both, Show(now)) == teams
  {
    var both := AddTeamTo(AddTeamTo(teams, first, now, added1), second, now, added2);
    BothAdded(teams, first, second, now, added1, added2);
    var p := (t: FavoriteTeam) => t.id != Show(now);
    var added := both[|teams|..];
    assert both == teams + added;
    FilterAppend(teams, added, p);
    FilterAll(teams, p);
    assert !p(added[0]) && !p(added[1]);
    assert added[1..][1..] == [];
  }

  /** Both adds succeed, each appending an entry whose id is the clock reading. */
  lemma BothAdded(teams: seq<FavoriteTeam>, first: string, second: string, now: nat, added1: nat, added2: nat)
    requires Trim(first) != "" && Trim(second) != "" && Lower(Trim(first)) != Lower(Trim(second))
    requires !HasName(teams, Trim(first)) && !HasName(teams, Trim(second))
    ensures var both := AddTeamTo(AddTeamTo(teams, first, now, added1), second, now, added2);
      |both| == |teams| + 2 && both[..|teams|] == teams
      && both[|teams|].id == Show(now) && both[|teams| + 1].id == Show(now)
  {
    var once := AddTeamTo(teams, first, now, added1);
    assert once == teams + [FavoriteTeam(Show(now), Trim(first), DetectSport(Trim(first)), added1)];
    assert !HasName(once, Trim(second)) by {
      assert Lower(once[|teams|].name) != Lower(Trim(second));
    }
  }

  // ---------------------------------------------------------------- the page

  /** The options page with the favourite teams it shows. */
  class OptionsPage {
    var favoriteTeams: seq<FavoriteTeam>

    constructor (teams: seq<FavoriteTeam>)
      ensures favoriteTeams == teams
    {
      favoriteTeams := teams;
    }

    /** `addTeam`, with the clock readings for the id and the time: answers whether the input was accepted. */
    method AddTeam(input: string, idNow: nat, addedNow: nat) returns (added: bool)
      modifies this`favoriteTeams
      ensures favoriteTeams == AddTeamTo(old(favoriteTeams), input, idNow, addedNow)
      ensures added <==> |favoriteTeams| == |old(favoriteTeams)| + 1
    {
      var teamName := Trim(input);
      if teamName == "" {
        return false;
      }
      if HasName(favoriteTeams, teamName) {
        return false;
      }
      var team := FavoriteTeam(Show(idNow), teamName, DetectSport(teamName), addedNow);
      favoriteTeams := favoriteTeams + [team];
      added := true;
    }

    /** `removeTeam` */
    method RemoveTeam(teamId: string)
      modifies this`favoriteTeams
      ensures favoriteTeams == WithoutId(old(favoriteTeams), teamId)
    {
      favoriteTeams := Filter(favoriteTeams, (t: FavoriteTeam) => t.id != teamId);
    }
  }
}
