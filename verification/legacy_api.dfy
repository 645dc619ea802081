/**
 * The older path table of cocapi/api.py: one builder per endpoint that
 * pastes its keyword arguments into a fixed path.
 */
module LegacyApi {
  import opened Text

  /**
   * An endpoint together with the arguments given to its builder. Each
   * argument is already rendered the way an f-string renders it.
   */
  datatype Route =
    | Clans
    | Clan(clantag: string)
    | ClanWarlog(clantag: string)
    | ClanMembers(clantag: string)
    | ClanCurrentWar(clantag: string)
    | ClanCurrentWarLeaguegroup(clantag: string)
    | ClanCurrentLeagueWar(wartag: string)
    | Player(playertag: string)
    | PlayerVerifyApiToken(playertag: string)
    | Leagues
    | LeagueInfo(leagueId: string)
    | LeagueSeasons(leagueId: string)
    | LeagueSeasonsRankings(leagueId: string, seasonId: string)
    | Warleagues
    | WarleagueInformation(leagueId: string)
    | Locations
    | Location(locationId: string)
    | ClanRankings(locationId: string)
    | PlayerRankings(locationId: string)
    | ClanVersusRankings(locationId: string)
    | PlayerVersusRankings(locationId: string)
    | Goldpass
    | ClanLabels
    | PlayerLabels

  const ClansPath := "/v1/clans"
  const LeaguesPath := "/v1/leagues"
  const LocationsPath := "/v1/locations"
  const WarleaguesPath := "warleagues"
  const RankingsPath := "/rankings/"

  /** The builders with exactly one argument. */
  predicate SingleArgument(r: Route) {
    !(r.Clans? || r.Leagues? || r.Warleagues? || r.Locations? || r.Goldpass? || r.ClanLabels? || r.PlayerLabels?
      || r.LeagueSeasonsRankings?)
  }

  /** The one argument of a single-argument builder. */
  function Argument(r: Route): string
    requires SingleArgument(r)
  {
    match r
    case Clan(t) => t
    case ClanWarlog(t) => t
    case ClanMembers(t) => t
    case ClanCurrentWar(t) => t
    case ClanCurrentWarLeaguegroup(t) => t
    case ClanCurrentLeagueWar(t) => t
    case Player(t) => t
    case PlayerVerifyApiToken(t) => t
    case LeagueInfo(i) => i
    case LeagueSeasons(i) => i
    case WarleagueInformation(i) => i
    case Location(i) => i
    case ClanRankings(i) => i
    case PlayerRankings(i) => i
    case ClanVersusRankings(i) => i
    case PlayerVersusRankings(i) => i
  }

  /** The fixed text before and after the argument of a single-argument builder. */
  function Frame(r: Route): (string, string)
    requires SingleArgument(r)
  {
    match r
    case Clan(_) => (ClansPath + "/", "")
    case ClanWarlog(_) => (ClansPath + "/", "/warlog")
    case ClanMembers(_) => (ClansPath + "/", "/members")
    case ClanCurrentWar(_) => (ClansPath + "/", "/currentwar")
    case ClanCurrentWarLeaguegroup(_) => (ClansPath + "/", "/currentwar" + "/leaguegroup")
    case ClanCurrentLeagueWar(_) => ("/v1/clanwarleagues" + "/wars/", "")
    case Player(_) => ("/v1/players/", "")
    case PlayerVerifyApiToken(_) => ("/v1/players/", "/verifytoken")
    case LeagueInfo(_) => (LeaguesPath + "/", "")
    case LeagueSeasons(_) => (LeaguesPath + "/", "/seasons")
    case WarleagueInformation(_) => (WarleaguesPath + "/", "")
    case Location(_) => (LocationsPath + "/", "")
    case ClanRankings(_) => (LocationsPath + "/", RankingsPath + "clans")
    case PlayerRankings(_) => (LocationsPath + "/", RankingsPath + "players")
    case ClanVersusRankings(_) => (LocationsPath + "/", RankingsPath + "clans-versus")
    case PlayerVersusRankings(_) => (LocationsPath + "/", RankingsPath + "players-versus")
  }

  /** The path a builder returns. */
  function PathOf(r: Route): string {
    match r
    case Clans => ClansPath
    case Leagues => LeaguesPath
    case Warleagues => WarleaguesPath
    case Locations => LocationsPath
    case Goldpass => "/v1/goldpass" + "/seasons/current"
    case ClanLabels => "/v1/labels/clans"
    case PlayerLabels => "/v1/labels/players"
    case LeagueSeasonsRankings(l, s) => LeaguesPath + "/" + l + "/seasons/" + s
    case _ => Frame(r).0 + Argument(r) + Frame(r).1
  }

  /** The war-log and current-war paths extend the clan path. */
  lemma ClanSubpaths(tag: string)
    ensures PathOf(Clan(tag)) == "/v1/clans/" + tag
    ensures PathOf(ClanWarlog(tag)) == PathOf(Clan(tag)) + "/warlog"
    ensures PathOf(ClanCurrentWar(tag)) == PathOf(Clan(tag)) + "/currentwar"
    ensures PathOf(ClanCurrentWarLeaguegroup(tag)) == PathOf(ClanCurrentWar(tag)) + "/leaguegroup"
  {
  }

  predicate IsRanking(r: Route) {
    r.ClanRankings? || r.PlayerRankings? || r.ClanVersusRankings? || r.PlayerVersusRankings?
  }

  /** The last segment of a rankings path. */
  function RankingKind(r: Route): string
    requires IsRanking(r)
  {
    match r
    case ClanRankings(_) => "clans"
    case PlayerRankings(_) => "players"
    case ClanVersusRankings(_) => "clans-versus"
    case PlayerVersusRankings(_) => "players-versus"
  }

  /** The four rankings share the location path and differ only in the last segment. */
  lemma RankingsPaths(r: Route)
    requires IsRanking(r)
    ensures PathOf(r) == PathOf(Location(r.locationId)) + RankingsPath + RankingKind(r)
  {
  }

  /** A season ranking path names the league first and the season after it. */
  lemma SeasonRankingsOrder(league: string, season: string)
    ensures PathOf(LeagueSeasonsRankings(league, season)) == PathOf(LeagueSeasons(league)) + "/" + season
  {
  }

  predicate StartsWith(s: string, prefix: string) {
    |prefix| <= |s| && s[..|prefix|] == prefix
  }

  /** Every path is absolute under "/v1/" except the two war league paths. */
  lemma VersionPrefix(r: Route)
    ensures StartsWith(PathOf(r), "/v1/") <==> !(r.Warleagues? || r.WarleagueInformation?)
  {
    if r.Warleagues? || r.WarleagueInformation? {
      assert PathOf(r)[0] == 'w';
    } else {
      var p := PathOf(r);
      assert p == "/v1/" + p[4..];
    }
  }

  /** A single-argument path is its frame around the argument. */
  lemma SingleArgumentPath(r: Route)
    requires SingleArgument(r)
    ensures PathOf(r) == Frame(r).0 + Argument(r) + Frame(r).1
  {
  }

  /** Each single-argument builder is injective in its argument. */
  lemma SingleArgumentInjective(r1: Route, r2: Route)
    requires SingleArgument(r1) && SingleArgument(r2)
    requires Frame(r1) == Frame(r2)
    requires PathOf(r1) == PathOf(r2)
    ensures Argument(r1) == Argument(r2)
  {
    SingleArgumentPath(r1);
    SingleArgumentPath(r2);
    CancelAround(Frame(r1).0, Argument(r1), Argument(r2), Frame(r1).1);
  }

  /** Two different league and season pairs can build the same path when an id holds a '/'. */
  lemma SeasonRankingsAmbiguous()
    ensures PathOf(LeagueSeasonsRankings("1/seasons/2", "3")) == PathOf(LeagueSeasonsRankings("1", "2/seasons/3"))
  {
  }

  /** With ids free of '/', the season ranking path determines both ids. */
  lemma SeasonRankingsInjective(l1: string, s1: string, l2: string, s2: string)
    requires '/' !in l1 && '/' !in l2
    requires PathOf(LeagueSeasonsRankings(l1, s1)) == PathOf(LeagueSeasonsRankings(l2, s2))
    ensures l1 == l2 && s1 == s2
  {
    var head := LeaguesPath + "/";
    assert PathOf(LeagueSeasonsRankings(l1, s1)) == head + (l1 + ['/'] + ("seasons/" + s1));
    assert PathOf(LeagueSeasonsRankings(l2, s2)) == head + (l2 + ['/'] + ("seasons/" + s2));
    CancelAround(head, l1 + ['/'] + ("seasons/" + s1), l2 + ['/'] + ("seasons/" + s2), "");
    CancelAtSeparator(l1, "seasons/" + s1, l2, "seasons/" + s2, '/');
    CancelAround("seasons/", s1, s2, "");
  }
}
