/**
 * The endpoint registry of cocapi/client/api.py. Every endpoint is one
 * shared object created when the class body runs; calling it fills the
 * placeholders of its url and stores the result back into that same object,
 * so the template is gone after the first successful call.
 */
module Endpoints {
  import opened Wrappers
  import opened Text
  import opened StrFormat

  /** The class-level configuration of a `BaseMethod` subclass. */
  datatype MethodClass = MethodClass(baseUrl: Option<string>, defaultHttpMethod: Option<string>)

  const ApiBase: seq<PathChar> := "https://" + "api.clashofclans.com" + "/v1"
  const ServiceBase: seq<PathChar> := "https://" + "developer." + "clashofclans.com" + "/api"

  /** `BaseMethod` itself: nothing configured. */
  const Unconfigured := MethodClass(None, None)
  /** `Methods.Method` */
  const ApiClass := MethodClass(Some(ApiBase), Some("GET"))
  /** `ServiceMethods.Method` */
  const ServiceClass := MethodClass(Some(ServiceBase), Some("POST"))

  /** A constructed method object. */
  datatype BoundMethod = BoundMethod(path: string, httpMethod: string, url: string)

  datatype ConfigError = BaseUrlMissing | HttpMethodMissing

  predicate Truthy(s: Option<string>) {
    s.Some? && |s.value| > 0
  }

  /**
   * `__post_init__`: refuse a class without a base url, then one with
   * neither an explicit nor a default method; keep an explicit method
   * unless it is `None`, and prefix the path with the base url.
   */
  function NewMethod(cls: MethodClass, path: string, httpMethod: Option<string>): (r: Result<BoundMethod, ConfigError>)
    ensures r.Success? <==> Truthy(cls.baseUrl) && (Truthy(httpMethod) || Truthy(cls.defaultHttpMethod))
    ensures !Truthy(cls.baseUrl) ==> r == Failure(BaseUrlMissing)
    ensures r.Success? ==> r.value.path == path && r.value.url == cls.baseUrl.value + path
    ensures r.Success? && httpMethod.Some? ==> r.value.httpMethod == httpMethod.value
    ensures r.Success? && httpMethod.None? ==> r.value.httpMethod == cls.defaultHttpMethod.value
  {
    if !Truthy(cls.baseUrl) then Failure(BaseUrlMissing)
    else if !Truthy(httpMethod) && !Truthy(cls.defaultHttpMethod) then Failure(HttpMethodMissing)
    else
      var m := if httpMethod.None? then cls.defaultHttpMethod.value else httpMethod.value;
      Success(BoundMethod(path, m, cls.baseUrl.value + path))
  }

  datatype CallError =
    | MissingField(name: string, message: string)  // the re-raised KeyError
    | BadTemplate(error: FormatError)              // any other error of `str.format`, passed through

  /**
   * `__call__(**kw)`: the formatted url replaces the stored one and the
   * object itself is returned; a missing field leaves the object as it was.
   */
  function Call(m: BoundMethod, kw: map<string, string>): (r: Result<BoundMethod, CallError>)
    ensures r.Success? <==> Format(m.url, kw).Success?
    ensures r.Success? ==> r.value == m.(url := Format(m.url, kw).value)
    ensures Format(m.url, kw).Failure? && Format(m.url, kw).error.MissingKey? ==>
      var name := Format(m.url, kw).error.name;
      r == Failure(MissingField(name, "Missing field: '" + name + "' when formatting " + m.url))
    ensures Format(m.url, kw).Failure? && !Format(m.url, kw).error.MissingKey? ==>
      r == Failure(BadTemplate(Format(m.url, kw).error))
  {
    match Format(m.url, kw)
    case Success(u) => Success(m.(url := u))
    case Failure(MissingKey(name)) => Failure(MissingField(name, "Missing field: '" + name + "' when formatting " + m.url))
    case Failure(e) => Failure(BadTemplate(e))
  }

  /** The entries of `Methods` and of `ServiceMethods`. */
  datatype Endpoint =
    | Clans | Clan | ClanWarlog | ClanMembers | ClanCurrentWar | ClanCurrentWarLeaguegroup
    | ClanCurrentLeagueWar | Player | PlayerVerifyApiToken | Leagues | LeagueInfo
    | LeagueSeasons | LeagueSeasonsRankings | Warleagues | WarleagueInformation
    | Locations | Location | ClanRankings | PlayerRankings | ClanVersusRankings
    | PlayerVersusRankings | Goldpass | ClanLabels | PlayerLabels
    | Login | ListKey | CreateKey | RevokeKey

  predicate IsService(e: Endpoint) {
    e == Login || e == ListKey || e == CreateKey || e == RevokeKey
  }

  function ClassOf(e: Endpoint): MethodClass {
    if IsService(e) then ServiceClass else ApiClass
  }

  /** The method passed explicitly to the constructor. */
  function ExplicitMethod(e: Endpoint): Option<string> {
    if e == PlayerVerifyApiToken then Some("POST") else None
  }

  /** A character that may appear in the literal text of a path. */
  type PathChar = c: char | c != '{' && c != '}'

  /** A character of a placeholder name. */
  type NameChar = c: char | 'a' <= c <= 'z' || c == '_' witness 'a'

  /** Literal path text. */
  function T(text: seq<PathChar>): (p: Piece)
    ensures p.Lit? && BraceFree(p.text)
  {
    assert forall i :: 0 <= i < |text| ==> text[i] != '{' && text[i] != '}';
    Lit(text)
  }

  /** A placeholder. */
  function P(name: seq<NameChar>): (p: Piece)
    requires |name| > 0
    ensures p.Field? && KeywordName(p.name)
  {
    assert !IsDigitChar(name[0]);
    assert forall i :: 0 <= i < |name| ==> name[i] !in "{}:!.[";
    Field(name)
  }

  /** The path template of an endpoint, written as literal text and named fields. */
  /** The literal path texts, each checked once against `PathChar`. */
  const ClansRoot: seq<PathChar> := "/clans"
  const ClansSlash: seq<PathChar> := "/clans/"
  const Warlog: seq<PathChar> := "/warlog"
  const Members: seq<PathChar> := "/members"
  const CurrentWar: seq<PathChar> := "/currentwar"
  const LeagueGroup: seq<PathChar> := "/currentwar/" + "leaguegroup"
  const WarLeagueWars: seq<PathChar> := "/clanwarleagues/" + "wars/"
  const PlayersSlash: seq<PathChar> := "/players/"
  const VerifyToken: seq<PathChar> := "/verifytoken"
  const LeaguesRoot: seq<PathChar> := "/leagues"
  const LeaguesSlash: seq<PathChar> := "/leagues/"
  const SeasonsRoot: seq<PathChar> := "/seasons"
  const SeasonsSlash: seq<PathChar> := "/seasons/"
  const WarLeaguesRoot: seq<PathChar> := "/warleagues"
  const WarLeaguesSlash: seq<PathChar> := "/warleagues/"
  const LocationsRoot: seq<PathChar> := "/locations"
  const LocationsSlash: seq<PathChar> := "/locations/"
  const ClanRanks: seq<PathChar> := "/rankings/" + "clans"
  const PlayerRanks: seq<PathChar> := "/rankings/" + "players"
  const ClanVersusRanks: seq<PathChar> := "/rankings/" + "clans-versus"
  const PlayerVersusRanks: seq<PathChar> := "/rankings/" + "players-versus"
  const CurrentSeason: seq<PathChar> := "/goldpass/" + "seasons/current"
  const ClanLabelsRoot: seq<PathChar> := "/labels/clans"
  const PlayerLabelsRoot: seq<PathChar> := "/labels/players"
  const LoginRoot: seq<PathChar> := "/login"
  const KeyList: seq<PathChar> := "/apikey/list"
  const KeyCreate: seq<PathChar> := "/apikey/create"
  const KeyRevoke: seq<PathChar> := "/apikey/revoke"

  /** The placeholders. */
  const ClanTagField := P("clantag")
  const WarTagField := P("wartag")
  const PlayerTagField := P("playertag")
  const LeagueIdField := P("league_id")
  const SeasonIdField := P("season_id")
  const LocationIdField := P("location_id")

  function PathPieces(e: Endpoint): (ps: seq<Piece>)
    ensures LiteralsBraceFree(ps) && KeywordFields(ps)
  {
    match e
    case Clans => [T(ClansRoot)]
    case Clan => [T(ClansSlash), ClanTagField]
    case ClanWarlog => [T(ClansSlash), ClanTagField, T(Warlog)]
    case ClanMembers => [T(ClansSlash), ClanTagField, T(Members)]
    case ClanCurrentWar => [T(ClansSlash), ClanTagField, T(CurrentWar)]
    case ClanCurrentWarLeaguegroup => [T(ClansSlash), ClanTagField, T(LeagueGroup)]
    case ClanCurrentLeagueWar => [T(WarLeagueWars), WarTagField]
    case Player => [T(PlayersSlash), PlayerTagField]
    case PlayerVerifyApiToken => [T(PlayersSlash), PlayerTagField, T(VerifyToken)]
    case Leagues => [T(LeaguesRoot)]
    case LeagueInfo => [T(LeaguesSlash), LeagueIdField]
    case LeagueSeasons => [T(LeaguesSlash), LeagueIdField, T(SeasonsRoot)]
    case LeagueSeasonsRankings => [T(LeaguesSlash), LeagueIdField, T(SeasonsSlash), SeasonIdField]
    case Warleagues => [T(WarLeaguesRoot)]
    case WarleagueInformation => [T(WarLeaguesSlash), LeagueIdField]
    case Locations => [T(LocationsRoot)]
    case Location => [T(LocationsSlash), LocationIdField]
    case ClanRankings => [T(LocationsSlash), LocationIdField, T(ClanRanks)]
    case PlayerRankings => [T(LocationsSlash), LocationIdField, T(PlayerRanks)]
    case ClanVersusRankings => [T(LocationsSlash), LocationIdField, T(ClanVersusRanks)]
    case PlayerVersusRankings => [T(LocationsSlash), LocationIdField, T(PlayerVersusRanks)]
    case Goldpass => [T(CurrentSeason)]
    case ClanLabels => [T(ClanLabelsRoot)]
    case PlayerLabels => [T(PlayerLabelsRoot)]
    case Login => [T(LoginRoot)]
    case ListKey => [T(KeyList)]
    case CreateKey => [T(KeyCreate)]
    case RevokeKey => [T(KeyRevoke)]
  }

  /** The path string passed to the constructor. */
  function Path(e: Endpoint): string {
    Print(PathPieces(e))
  }

  lemma BasesBraceFree(e: Endpoint)
    ensures BraceFree(BaseOf(e))
  {
    var b: seq<PathChar> := BaseOf(e);
    assert forall i :: 0 <= i < |b| ==> b[i] != '{' && b[i] != '}';
  }

  /** The object stored in the class attribute when the module is loaded. */
  function InitialMethod(e: Endpoint): (m: BoundMethod)
    ensures m.path == Path(e)
    ensures m.url == BaseOf(e) + Path(e)
    ensures m.httpMethod == (if IsService(e) || e == PlayerVerifyApiToken then "POST" else "GET")
  {
    var r := NewMethod(ClassOf(e), Path(e), ExplicitMethod(e));
    r.value
  }

  function BaseOf(e: Endpoint): string {
    if IsService(e) then ServiceBase else ApiBase
  }

  /** The shared objects, one per endpoint. */
  type Registry = map<Endpoint, BoundMethod>

  predicate Complete(reg: Registry) {
    forall e: Endpoint :: e in reg
  }

  function InitialRegistry(): (reg: Registry)
    ensures Complete(reg)
    ensures forall e :: reg[e] == InitialMethod(e)
  {
    var reg := map e: Endpoint | e in AllEndpoints() :: InitialMethod(e);
    assert forall e: Endpoint :: e in reg by {
      forall e: Endpoint
        ensures e in reg
      {
        EveryEndpointListed(e);
      }
    }
    reg
  }

  lemma EveryEndpointListed(e: Endpoint)
    ensures e in AllEndpoints()
  {
    match e
    case Clans =>
    case Clan =>
    case ClanWarlog =>
    case ClanMembers =>
    case ClanCurrentWar =>
    case ClanCurrentWarLeaguegroup =>
    case ClanCurrentLeagueWar =>
    case Player =>
    case PlayerVerifyApiToken =>
    case Leagues =>
    case LeagueInfo =>
    case LeagueSeasons =>
    case LeagueSeasonsRankings =>
    case Warleagues =>
    case WarleagueInformation =>
    case Locations =>
    case Location =>
    case ClanRankings =>
    case PlayerRankings =>
    case ClanVersusRankings =>
    case PlayerVersusRankings =>
    case Goldpass =>
    case ClanLabels =>
    case PlayerLabels =>
    case Login =>
    case ListKey =>
    case CreateKey =>
    case RevokeKey =>
  }

  function AllEndpoints(): set<Endpoint> {
    { Clans, Clan, ClanWarlog, ClanMembers, ClanCurrentWar, ClanCurrentWarLeaguegroup,
      ClanCurrentLeagueWar, Player, PlayerVerifyApiToken, Leagues, LeagueInfo,
      LeagueSeasons, LeagueSeasonsRankings, Warleagues, WarleagueInformation,
      Locations, Location, ClanRankings, PlayerRankings, ClanVersusRankings,
      PlayerVersusRankings, Goldpass, ClanLabels, PlayerLabels,
      Login, ListKey, CreateKey, RevokeKey }
  }

  /** The outcome of calling a shared object, and the registry afterwards. */
  datatype Invocation = Invocation(result: Result<BoundMethod, CallError>, registry: Registry)

  /** `Methods.X(**kw)`: calls the shared object and writes the change back into it. */
  function Invoke(reg: Registry, e: Endpoint, kw: map<string, string>): (inv: Invocation)
    requires e in reg
    ensures inv.result == Call(reg[e], kw)
    ensures inv.result.Success? ==> inv.registry == reg[e := inv.result.value]
    ensures inv.result.Failure? ==> inv.registry == reg
  {
    var r := Call(reg[e], kw);
    Invocation(r, if r.Success? then reg[e := r.value] else reg)
  }

  /** The url of a method whose stored url is `base` followed by a printed template. */
  predicate HoldsTemplate(m: BoundMethod, ps: seq<Piece>, base: string) {
    m.url == base + Print(ps)
  }

  /**
   * On an object still holding `base` plus a printed template, a call
   * substitutes every field by its keyword value and reports the first
   * field that has none.
   */
  lemma CallOnTemplate(m: BoundMethod, base: string, ps: seq<Piece>, kw: map<string, string>)
    requires HoldsTemplate(m, ps, base) && BraceFree(base) && KeywordFields(ps)
    ensures Call(m, kw).Success? <==> Render(ps, kw).Success?
    ensures Call(m, kw).Success? ==> Call(m, kw).value.url == base + Render(ps, kw).value
    ensures Render(ps, kw).Failure? ==>
      var n := Render(ps, kw).error.name;
      Call(m, kw) == Failure(MissingField(n, "Missing field: '" + n + "' when formatting " + base + Print(ps)))
  {
    FormatPlainPrefix(base, Print(ps), kw);
    FormatPrint(ps, kw);
    var n := if Render(ps, kw).Failure? then Render(ps, kw).error.name else "";
    assert "Missing field: '" + n + "' when formatting " + m.url
        == "Missing field: '" + n + "' when formatting " + base + Print(ps);
  }

  /** A fresh endpoint object holds its base url followed by its path template. */
  lemma InitialHoldsTemplate(e: Endpoint)
    ensures HoldsTemplate(InitialMethod(e), PathPieces(e), BaseOf(e))
    ensures BraceFree(BaseOf(e)) && KeywordFields(PathPieces(e)) && LiteralsBraceFree(PathPieces(e))
  {
    BasesBraceFree(e);
  }

  /**
   * The shared-object quirk: once a call has succeeded, the stored url has
   * no placeholder left, so every later call on that endpoint, whatever
   * its arguments, returns that same url.
   */
  lemma StaleAfterFirstCall(reg: Registry, e: Endpoint, kw: map<string, string>, later: map<string, string>)
    requires e in reg && reg[e] == InitialMethod(e)
    requires ValuesBraceFree(kw)
    requires Invoke(reg, e, kw).result.Success?
    ensures var inv := Invoke(reg, e, kw);
      var again := Invoke(inv.registry, e, later);
      again.result.Success? && again.result.value.url == inv.result.value.url
      && again.registry == inv.registry
  {
    InitialHoldsTemplate(e);
    StaleAfterCall(reg, e, BaseOf(e), PathPieces(e), kw, later);
  }

  /** The same, for any object still holding a template with plain literal text. */
  lemma StaleAfterCall(reg: Registry, e: Endpoint, base: string, ps: seq<Piece>, kw: map<string, string>, later: map<string, string>)
    requires e in reg && HoldsTemplate(reg[e], ps, base)
    requires BraceFree(base) && KeywordFields(ps) && LiteralsBraceFree(ps)
    requires ValuesBraceFree(kw)
    requires Invoke(reg, e, kw).result.Success?
    ensures var inv := Invoke(reg, e, kw);
      var again := Invoke(inv.registry, e, later);
      again.result.Success? && again.result.value.url == inv.result.value.url
      && again.registry == inv.registry
  {
    var inv := Invoke(reg, e, kw);
    CallOnTemplate(reg[e], base, ps, kw);
    RenderBraceFree(ps, kw);
    var u := inv.result.value.url;
    assert u == base + Render(ps, kw).value;
    assert BraceFree(u);
    FormatBraceFree(u, later);
  }

  /** A fresh object called with brace-free values holds a url with no braces left. */
  lemma FirstCallBraceFree(e: Endpoint, kw: map<string, string>)
    requires ValuesBraceFree(kw) && Call(InitialMethod(e), kw).Success?
    ensures BraceFree(Call(InitialMethod(e), kw).value.url)
  {
    InitialHoldsTemplate(e);
    CallOnTemplate(InitialMethod(e), BaseOf(e), PathPieces(e), kw);
    RenderBraceFree(PathPieces(e), kw);
  }

  /** An object whose url has no braces left answers every call with itself. */
  lemma CallBraceFree(m: BoundMethod, kw: map<string, string>)
    requires BraceFree(m.url)
    ensures Call(m, kw) == Success(m)
  {
    FormatBraceFree(m.url, kw);
  }

  /** A fresh `CLAN` object called with a tag holds "/clans/" followed by that tag. */
  lemma FirstClanCall(m: BoundMethod, kw: map<string, string>)
    requires m == InitialMethod(Clan) && ClanTagField.name in kw
    ensures Call(m, kw).Success? && Call(m, kw).value.url == ApiBase + ClansSlash + kw[ClanTagField.name]
  {
    var ps := PathPieces(Clan);
    InitialHoldsTemplate(Clan);
    CallOnTemplate(m, BaseOf(Clan), ps, kw);
    assert Render(ps[1..], kw) == Success(kw[ClanTagField.name] + "") by {
      assert ps[1..][1..] == [];
    }
  }

  /** A call depends on the called endpoint's object alone. */
  lemma InvokeLocal(reg: Registry, reg': Registry, e: Endpoint, kw: map<string, string>)
    requires e in reg && e in reg' && reg[e] == reg'[e]
    ensures Invoke(reg, e, kw).result == Invoke(reg', e, kw).result
    ensures Invoke(reg, e, kw).registry[e] == Invoke(reg', e, kw).registry[e]
  {
  }

  /** Calls on one endpoint leave every other endpoint's object as it was. */
  lemma InvokeIsolated(reg: Registry, e: Endpoint, other: Endpoint, kw: map<string, string>)
    requires e in reg && other in reg && other != e
    ensures other in Invoke(reg, e, kw).registry && Invoke(reg, e, kw).registry[other] == reg[other]
  {
  }
}
