/**
 * The `Client` of cocapi/client/client.py with every remote call made
 * explicit. The shared endpoint registry and the five lazily filled
 * reference tables are threaded through each operation as a
 * `ClientState`; the HTTP exchange is a `Transport` parameter; each
 * operation reports what it returned, the state it left behind and the
 * requests it sent, in order.
 */
module Client {
  import opened Wrappers
  import opened Text
  import opened Utils
  import opened Json
  import opened Exceptions
  import E = Endpoints
  import opened Request
  import opened Models
  import opened Types
  import opened Tables
  import StrFormat

  /** The session: a response for a request, `None` when the session raised. */
  type Transport = Outgoing -> Option<Response>

  /** The `_locations`, `_clan_labels`, … attributes; `None` until first fetched. */
  datatype Cache = Cache(
    locations: Option<map<string, Location>>,
    clanLabels: Option<map<string, Label>>,
    clanLeagues: Option<map<string, League>>,
    playerLabels: Option<map<string, Label>>,
    playerLeagues: Option<map<string, League>>)

  const EmptyCache := Cache(None, None, None, None, None)

  /** A client together with the class-level endpoint objects it calls. */
  datatype ClientState = ClientState(registry: E.Registry, cache: Cache)

  predicate Valid(c: ClientState) {
    E.Complete(c.registry)
  }

  /** The caches of `c'` keep every table `c` had. */
  predicate Keeps(c: ClientState, c': ClientState) {
    && (c.cache.locations.Some? ==> c'.cache.locations == c.cache.locations)
    && (c.cache.clanLabels.Some? ==> c'.cache.clanLabels == c.cache.clanLabels)
    && (c.cache.clanLeagues.Some? ==> c'.cache.clanLeagues == c.cache.clanLeagues)
    && (c.cache.playerLabels.Some? ==> c'.cache.playerLabels == c.cache.playerLabels)
    && (c.cache.playerLeagues.Some? ==> c'.cache.playerLeagues == c.cache.playerLeagues)
  }

  /** A client as constructed: fresh endpoint objects, nothing cached. */
  function NewClient(): (c: ClientState)
    ensures Valid(c) && c.cache == EmptyCache
    ensures forall e: E.Endpoint :: c.registry[e] == E.InitialMethod(e)
  {
    ClientState(E.InitialRegistry(), EmptyCache)
  }

  /** Why an operation raised. */
  datatype ClientError =
    | BadCall(call: E.CallError)            // `BaseMethod.__call__` raised `KeyError`
    | Failed(failure: RequestFailure)       // `make_request` raised
    | BadPayload(payload: PayloadError)     // indexing the decoded body raised
    | Invalid(validation: ValidationError)  // a model rejected the data
    | BadTime(time: TimeError)              // `strptime` raised
    | Unknown(unknown: DataError)           // an `Unknown…Error` of the lookups

  datatype Outcome<T> = Outcome(result: Result<T, ClientError>, client: ClientState, sent: seq<Outgoing>)

  function OfPayload<T>(r: Result<T, PayloadError>): (r': Result<T, ClientError>)
    ensures r.Success? <==> r'.Success?
    ensures r.Success? ==> r'.value == r.value
    ensures r.Failure? ==> r'.error == BadPayload(r.error)
  {
    match r
    case Success(v) => Success(v)
    case Failure(e) => Failure(BadPayload(e))
  }

  /** The reply to `out` was a success status with the decoded `body`. */
  predicate Answered(send: Transport, out: Outgoing, body: Json) {
    send(out).Some? && IsOk(send(out).value) && send(out).value.body == Some(body)
  }

  /** The reply to `out` was a success status with a decoded body. */
  predicate Replied(send: Transport, out: Outgoing) {
    send(out).Some? && IsOk(send(out).value) && send(out).value.body.Some?
  }

  /**
   * `await self.request(api.Methods.X(**kw), params=...)` and then
   * `response.json()`: the endpoint object is called first, and what the
   * call writes into it stays even when the request then fails.
   */
  method Fetch(send: Transport, c: ClientState, e: E.Endpoint, kw: map<string, string>,
               params: Option<map<string, Json>>) returns (o: Outcome<Json>)
    requires Valid(c)
    ensures Valid(o.client) && o.client.cache == c.cache
    ensures o.client.registry == E.Invoke(c.registry, e, kw).registry
    ensures E.Invoke(c.registry, e, kw).result.Failure? ==>
      o.sent == [] && o.result == Failure(BadCall(E.Invoke(c.registry, e, kw).result.error))
    ensures E.Invoke(c.registry, e, kw).result.Success? ==>
      var x := MakeRequest(send, E.Invoke(c.registry, e, kw).result.value, params);
      && o.sent == [x.sent]
      && o.sent[0].url == E.Invoke(c.registry, e, kw).result.value.url
      && (x.result.Failure? ==> o.result == Failure(Failed(x.result.error)))
      && (o.result.Success? <==> Replied(send, o.sent[0]))
    ensures o.result.Success? ==> |o.sent| == 1 && Answered(send, o.sent[0], o.result.value)
    ensures o.result.Failure? ==> !o.result.error.Unknown?
  {
    var inv := E.Invoke(c.registry, e, kw);
    var c' := c.(registry := inv.registry);
    if inv.result.Failure? {
      return Outcome(Failure(BadCall(inv.result.error)), c', []);
    }
    var x := MakeRequest(send, inv.result.value, params);
    if x.result.Failure? {
      return Outcome(Failure(Failed(x.result.error)), c', [x.sent]);
    }
    o := Outcome(Success(x.result.value.body.value), c', [x.sent]);
  }

  /** `[Model(**data) for data in items]`: the first item the model rejects aborts. */
  function ReadAll<T>(items: seq<Json>, read: Json -> Result<T, ValidationError>): (r: Result<seq<T>, ValidationError>)
    ensures r.Success? <==> forall i :: 0 <= i < |items| ==> read(items[i]).Success?
    ensures r.Success? ==> |r.value| == |items| && forall i :: 0 <= i < |items| ==> read(items[i]) == Success(r.value[i])
  {
    if |items| == 0 then Success([])
    else
      var first :- read(items[0]);
      var rest :- ReadAll(items[1..], read);
      Success([first] + rest)
  }

  /** The items of a list response. */
  function Items(body: Json): (r: Result<seq<Json>, ClientError>)
    ensures r.Success? <==> body.JObj? && "items" in body.fields && body.fields["items"].JArr?
    ensures r.Success? ==> r.value == body.fields["items"].items
    ensures r.Failure? ==> r.error.BadPayload?
  {
    OfPayload(ListMember(body, "items"))
  }

  /** `[item["tag"] for item in body["items"]]`, in server order. */
  function ItemTags(body: Json): (r: Result<seq<Json>, ClientError>)
    ensures r.Success? <==> Items(body).Success? && forall i :: 0 <= i < |Items(body).value| ==>
      Items(body).value[i].JObj? && "tag" in Items(body).value[i].fields
    ensures r.Success? ==>
      && |r.value| == |Items(body).value|
      && forall i :: 0 <= i < |r.value| ==> r.value[i] == Items(body).value[i].fields["tag"]
  {
    var items :- Items(body);
    OfPayload(Tags(items))
  }

  /** The reply to `out` listed items that all read, and `table` files them under their keys. */
  predicate Loaded<T(==)>(send: Transport, out: Outgoing, read: Json -> Result<T, ValidationError>,
                      keysOf: T -> seq<string>, table: map<string, T>) {
    && send(out).Some? && IsOk(send(out).value) && send(out).value.body.Some?
    && var items := Items(send(out).value.body.value);
    && items.Success? && ReadAll(items.value, read).Success?
    && table == BuildTable(ReadAll(items.value, read).value, keysOf)
  }

  /**
   * The `_get_…` builders: fetch the list endpoint, read every item, and
   * file it under each of its keys, later items overwriting earlier ones.
   */
  method LoadTable<T(==)>(send: Transport, c: ClientState, e: E.Endpoint,
                      read: Json -> Result<T, ValidationError>, keysOf: T -> seq<string>)
    returns (o: Outcome<map<string, T>>)
    requires Valid(c)
    ensures Valid(o.client) && o.client.cache == c.cache
    ensures forall x :: x != e ==> o.client.registry[x] == c.registry[x]
    ensures |o.sent| <= 1
    ensures o.result.Failure? ==> !o.result.error.Unknown?
    ensures o.result.Success? ==> |o.sent| == 1 && Loaded(send, o.sent[0], read, keysOf, o.result.value)
  {
    var f := Fetch(send, c, e, map[], None);
    forall x | x != e
      ensures f.client.registry[x] == c.registry[x]
    {
      E.InvokeIsolated(c.registry, e, x, map[]);
    }
    if f.result.Failure? {
      return Outcome(Failure(f.result.error), f.client, f.sent);
    }
    var items := Items(f.result.value);
    if items.Failure? {
      return Outcome(Failure(items.error), f.client, f.sent);
    }
    var values := ReadAll(items.value, read);
    if values.Failure? {
      return Outcome(Failure(Invalid(values.error)), f.client, f.sent);
    }
    o := Outcome(Success(BuildTable(values.value, keysOf)), f.client, f.sent);
  }

  /*
   * The `all_*` accessors: fetch only when the attribute is absent, and
   * keep the table once fetched. A failed fetch leaves the attribute
   * absent, so the next call fetches again.
   */

  method AllLocations(send: Transport, c: ClientState) returns (o: Outcome<map<string, Location>>)
    requires Valid(c)
    ensures Valid(o.client) && Keeps(c, o.client)
    ensures o.client.cache.(locations := c.cache.locations) == c.cache
    ensures forall x :: x != E.Locations ==> o.client.registry[x] == c.registry[x]
    ensures c.cache.locations.Some? ==> o == Outcome(Success(c.cache.locations.value), c, [])
    ensures c.cache.locations.None? && o.result.Success? ==>
      |o.sent| == 1 && Loaded(send, o.sent[0], ReadLocation, LocationKeys, o.result.value)
    ensures o.result.Success? ==> o.client.cache.locations == Some(o.result.value)
    ensures o.result.Failure? ==> !o.result.error.Unknown? && o.client.cache == c.cache
  {
    if c.cache.locations.Some? {
      return Outcome(Success(c.cache.locations.value), c, []);
    }
    var l := LoadTable(send, c, E.Locations, ReadLocation, LocationKeys);
    if l.result.Failure? {
      return l;
    }
    o := Outcome(l.result, l.client.(cache := c.cache.(locations := Some(l.result.value))), l.sent);
  }

  method AllClanLabels(send: Transport, c: ClientState) returns (o: Outcome<map<string, Label>>)
    requires Valid(c)
    ensures Valid(o.client) && Keeps(c, o.client)
    ensures o.client.cache.(clanLabels := c.cache.clanLabels) == c.cache
    ensures forall x :: x != E.ClanLabels ==> o.client.registry[x] == c.registry[x]
    ensures c.cache.clanLabels.Some? ==> o == Outcome(Success(c.cache.clanLabels.value), c, [])
    ensures c.cache.clanLabels.None? && o.result.Success? ==>
      |o.sent| == 1 && Loaded(send, o.sent[0], ReadLabel, LabelKeys, o.result.value)
    ensures o.result.Success? ==> o.client.cache.clanLabels == Some(o.result.value)
    ensures o.result.Failure? ==> !o.result.error.Unknown? && o.client.cache == c.cache
  {
    if c.cache.clanLabels.Some? {
      return Outcome(Success(c.cache.clanLabels.value), c, []);
    }
    var l := LoadTable(send, c, E.ClanLabels, ReadLabel, LabelKeys);
    if l.result.Failure? {
      return l;
    }
    o := Outcome(l.result, l.client.(cache := c.cache.(clanLabels := Some(l.result.value))), l.sent);
  }

  method AllClanLeagues(send: Transport, c: ClientState) returns (o: Outcome<map<string, League>>)
    requires Valid(c)
    ensures Valid(o.client) && Keeps(c, o.client)
    ensures o.client.cache.(clanLeagues := c.cache.clanLeagues) == c.cache
    ensures forall x :: x != E.Warleagues ==> o.client.registry[x] == c.registry[x]
    ensures c.cache.clanLeagues.Some? ==> o == Outcome(Success(c.cache.clanLeagues.value), c, [])
    ensures c.cache.clanLeagues.None? && o.result.Success? ==>
      |o.sent| == 1 && Loaded(send, o.sent[0], ReadLeague, LeagueKeys, o.result.value)
    ensures o.result.Success? ==> o.client.cache.clanLeagues == Some(o.result.value)
    ensures o.result.Failure? ==> !o.result.error.Unknown? && o.client.cache == c.cache
  {
    if c.cache.clanLeagues.Some? {
      return Outcome(Success(c.cache.clanLeagues.value), c, []);
    }
    var l := LoadTable(send, c, E.Warleagues, ReadLeague, LeagueKeys);
    if l.result.Failure? {
      return l;
    }
    o := Outcome(l.result, l.client.(cache := c.cache.(clanLeagues := Some(l.result.value))), l.sent);
  }

  /** Player labels, loaded from the war-leagues endpoint as the source does. */
  method AllPlayerLabels(send: Transport, c: ClientState) returns (o: Outcome<map<string, Label>>)
    requires Valid(c)
    ensures Valid(o.client) && Keeps(c, o.client)
    ensures o.client.cache.(playerLabels := c.cache.playerLabels) == c.cache
    ensures forall x :: x != E.Warleagues ==> o.client.registry[x] == c.registry[x]
    ensures c.cache.playerLabels.Some? ==> o == Outcome(Success(c.cache.playerLabels.value), c, [])
    ensures c.cache.playerLabels.None? && o.result.Success? ==>
      |o.sent| == 1 && Loaded(send, o.sent[0], ReadLabel, LabelKeys, o.result.value)
    ensures o.result.Success? ==> o.client.cache.playerLabels == Some(o.result.value)
    ensures o.result.Failure? ==> !o.result.error.Unknown? && o.client.cache == c.cache
  {
    if c.cache.playerLabels.Some? {
      return Outcome(Success(c.cache.playerLabels.value), c, []);
    }
    var l := LoadTable(send, c, E.Warleagues, ReadLabel, LabelKeys);
    if l.result.Failure? {
      return l;
    }
    o := Outcome(l.result, l.client.(cache := c.cache.(playerLabels := Some(l.result.value))), l.sent);
  }

  /** Player leagues, also loaded from the war-leagues endpoint. */
  method AllPlayerLeagues(send: Transport, c: ClientState) returns (o: Outcome<map<string, League>>)
    requires Valid(c)
    ensures Valid(o.client) && Keeps(c, o.client)
    ensures o.client.cache.(playerLeagues := c.cache.playerLeagues) == c.cache
    ensures forall x :: x != E.Warleagues ==> o.client.registry[x] == c.registry[x]
    ensures c.cache.playerLeagues.Some? ==> o == Outcome(Success(c.cache.playerLeagues.value), c, [])
    ensures c.cache.playerLeagues.None? && o.result.Success? ==>
      |o.sent| == 1 && Loaded(send, o.sent[0], ReadLeague, LeagueKeys, o.result.value)
    ensures o.result.Success? ==> o.client.cache.playerLeagues == Some(o.result.value)
    ensures o.result.Failure? ==> !o.result.error.Unknown? && o.client.cache == c.cache
  {
    if c.cache.playerLeagues.Some? {
      return Outcome(Success(c.cache.playerLeagues.value), c, []);
    }
    var l := LoadTable(send, c, E.Warleagues, ReadLeague, LeagueKeys);
    if l.result.Failure? {
      return l;
    }
    o := Outcome(l.result, l.client.(cache := c.cache.(playerLeagues := Some(l.result.value))), l.sent);
  }

  /**
   * The `get_*` lookups: the lower-cased input looked up in the table; a
   * miss raises the matching `Unknown…Error` carrying the input as given.
   */
  function Resolve<T>(o: Outcome<map<string, T>>, input: string, cls: DataErrorClass): (r: Outcome<T>)
    ensures r.client == o.client && r.sent == o.sent
    ensures o.result.Failure? ==> r.result == Failure(o.result.error)
    ensures o.result.Success? ==> (r.result.Success? <==> Lower(input) in o.result.value)
    ensures o.result.Success? && r.result.Success? ==> r.result.value == o.result.value[Lower(input)]
    ensures o.result.Success? && r.result.Failure? ==> r.result.error == Unknown(NewDataError(cls, input))
  {
    match o.result
    case Failure(err) => Outcome(Failure(err), o.client, o.sent)
    case Success(table) =>
      match Lookup(table, input)
      case Some(v) => Outcome(Success(v), o.client, o.sent)
      case None => Outcome(Failure(Unknown(NewDataError(cls, input))), o.client, o.sent)
  }

  /** The lookups are case-blind: inputs equal up to case find the same entry. */
  lemma ResolveIgnoresCase<T>(o: Outcome<map<string, T>>, a: string, b: string, cls: DataErrorClass)
    requires Lower(a) == Lower(b)
    ensures Resolve(o, a, cls).result.Success? <==> Resolve(o, b, cls).result.Success?
    ensures Resolve(o, a, cls).result.Success? ==> Resolve(o, a, cls).result == Resolve(o, b, cls).result
  {
  }

  method GetLocation(send: Transport, c: ClientState, name: string) returns (o: Outcome<Location>)
    requires Valid(c)
    ensures Valid(o.client) && Keeps(c, o.client)
    ensures o.client.cache.(locations := c.cache.locations) == c.cache
    ensures forall x :: x != E.Locations ==> o.client.registry[x] == c.registry[x]
    ensures o.result.Success? ==> var t := o.client.cache.locations;
      t.Some? && Lower(name) in t.value && o.result.value == t.value[Lower(name)]
    ensures o.result.Failure? ==> (o.result.error.Unknown? <==> o.client.cache.locations.Some?)
    ensures o.result.Failure? && o.result.error.Unknown? ==>
      Lower(name) !in o.client.cache.locations.value && o.result.error == Unknown(NewDataError(UnknownLocationError, name))
  {
    var all := AllLocations(send, c);
    o := Resolve(all, name, UnknownLocationError);
  }

  method GetClanLabel(send: Transport, c: ClientState, name: string) returns (o: Outcome<Label>)
    requires Valid(c)
    ensures Valid(o.client) && Keeps(c, o.client)
    ensures o.client.cache.(clanLabels := c.cache.clanLabels) == c.cache
    ensures forall x :: x != E.ClanLabels ==> o.client.registry[x] == c.registry[x]
    ensures o.result.Success? ==> var t := o.client.cache.clanLabels;
      t.Some? && Lower(name) in t.value && o.result.value == t.value[Lower(name)]
    ensures o.result.Failure? ==> (o.result.error.Unknown? <==> o.client.cache.clanLabels.Some?)
    ensures o.result.Failure? && o.result.error.Unknown? ==>
      Lower(name) !in o.client.cache.clanLabels.value && o.result.error == Unknown(NewDataError(UnknownClanLabelError, name))
  {
    var all := AllClanLabels(send, c);
    o := Resolve(all, name, UnknownClanLabelError);
  }

  method GetClanLeague(send: Transport, c: ClientState, name: string) returns (o: Outcome<League>)
    requires Valid(c)
    ensures Valid(o.client) && Keeps(c, o.client)
    ensures o.client.cache.(clanLeagues := c.cache.clanLeagues) == c.cache
    ensures forall x :: x != E.Warleagues ==> o.client.registry[x] == c.registry[x]
    ensures o.result.Success? ==> var t := o.client.cache.clanLeagues;
      t.Some? && Lower(name) in t.value && o.result.value == t.value[Lower(name)]
    ensures o.result.Failure? ==> (o.result.error.Unknown? <==> o.client.cache.clanLeagues.Some?)
    ensures o.result.Failure? && o.result.error.Unknown? ==>
      Lower(name) !in o.client.cache.clanLeagues.value && o.result.error == Unknown(NewDataError(UnknownClanLeagueError, name))
  {
    var all := AllClanLeagues(send, c);
    o := Resolve(all, name, UnknownClanLeagueError);
  }

  method GetPlayerLabel(send: Transport, c: ClientState, name: string) returns (o: Outcome<Label>)
    requires Valid(c)
    ensures Valid(o.client) && Keeps(c, o.client)
    ensures o.client.cache.(playerLabels := c.cache.playerLabels) == c.cache
    ensures forall x :: x != E.Warleagues ==> o.client.registry[x] == c.registry[x]
    ensures o.result.Success? ==> var t := o.client.cache.playerLabels;
      t.Some? && Lower(name) in t.value && o.result.value == t.value[Lower(name)]
    ensures o.result.Failure? ==> (o.result.error.Unknown? <==> o.client.cache.playerLabels.Some?)
    ensures o.result.Failure? && o.result.error.Unknown? ==>
      Lower(name) !in o.client.cache.playerLabels.value && o.result.error == Unknown(NewDataError(UnknownPlayerLabelError, name))
  {
    var all := AllPlayerLabels(send, c);
    o := Resolve(all, name, UnknownPlayerLabelError);
  }

  method GetPlayerLeague(send: Transport, c: ClientState, name: string) returns (o: Outcome<League>)
    requires Valid(c)
    ensures Valid(o.client) && Keeps(c, o.client)
    ensures o.client.cache.(playerLeagues := c.cache.playerLeagues) == c.cache
    ensures forall x :: x != E.Warleagues ==> o.client.registry[x] == c.registry[x]
    ensures o.result.Success? ==> var t := o.client.cache.playerLeagues;
      t.Some? && Lower(name) in t.value && o.result.value == t.value[Lower(name)]
    ensures o.result.Failure? ==> (o.result.error.Unknown? <==> o.client.cache.playerLeagues.Some?)
    ensures o.result.Failure? && o.result.error.Unknown? ==>
      Lower(name) !in o.client.cache.playerLeagues.value && o.result.error == Unknown(NewDataError(UnknownPlayerLeagueError, name))
  {
    var all := AllPlayerLeagues(send, c);
    o := Resolve(all, name, UnknownPlayerLeagueError);
  }

  /*
   * `clans`: the search filters, each sent only when truthy, the location
   * and the labels resolved through the tables first.
   */

  /** `labels`: one label or a list of them. */
  datatype Labels = OneLabel(one: string) | LabelList(many: seq<string>)

  datatype ClanSearch = ClanSearch(
    name: Option<string>,
    minMembers: Option<int>,
    maxMembers: Option<int>,
    minClanPoints: Option<int>,
    minClanLevel: Option<int>,
    warFrequency: Option<string>,
    location: Option<string>,
    labels: Option<Labels>)

  predicate TruthyText(s: Option<string>) {
    s.Some? && |s.value| > 0
  }

  predicate TruthyNumber(n: Option<int>) {
    n.Some? && n.value != 0
  }

  predicate TruthyLabels(l: Option<Labels>) {
    l.Some? && match l.value
      case OneLabel(s) => |s| > 0
      case LabelList(ls) => |ls| > 0
  }

  /** `if not isinstance(labels, list): labels = [labels]` */
  function LabelNames(l: Labels): (names: seq<string>)
    ensures l.OneLabel? ==> names == [l.one]
    ensures l.LabelList? ==> names == l.many
  {
    match l
    case OneLabel(s) => [s]
    case LabelList(ls) => ls
  }

  /** `map(str, ids)` */
  function IdStrings(ids: seq<int>): (r: seq<string>)
    ensures |r| == |ids| && forall i :: 0 <= i < |ids| ==> r[i] == IntToString(ids[i])
  {
    seq(|ids|, i requires 0 <= i < |ids| => IntToString(ids[i]))
  }

  /** `",".join(map(str, ids))` */
  function IdList(ids: seq<int>): string {
    Join(IdStrings(ids), ",")
  }

  /** The joined ids can be split back into exactly the ids' decimal forms, in order. */
  lemma IdListSplits(ids: seq<int>)
    requires |ids| >= 1
    ensures Split(IdList(ids), ',') == IdStrings(ids)
  {
    forall i | 0 <= i < |ids|
      ensures ',' !in IdStrings(ids)[i]
    {
      IntToStringFree(ids[i], ',');
    }
    SplitJoin(IdStrings(ids), ',');
  }

  const SearchKeys: set<string> :=
    {"name", "minMembers", "maxMembers", "minClanPoints", "minClanLevel", "warFrequency", "locationId", "labelIds"}

  /** The `params` dict `clans` builds, given the resolved location and label ids. */
  function SearchParams(q: ClanSearch, locationId: Option<int>, labelIds: Option<seq<int>>): (p: map<string, Json>)
    ensures p.Keys <= SearchKeys
    ensures forall k :: k in p ==> p[k] != JNull
    ensures forall k :: k in SearchKeys ==>
      && (k in p <==> SearchValue(q, locationId, labelIds, k).Some?)
      && (k in p ==> p[k] == SearchValue(q, locationId, labelIds, k).value)
  {
    map k | k in SearchKeys && SearchValue(q, locationId, labelIds, k).Some? :: SearchValue(q, locationId, labelIds, k).value
  }

  /** The value `clans` would put under one search key, `None` when it is falsy. */
  function SearchValue(q: ClanSearch, locationId: Option<int>, labelIds: Option<seq<int>>, k: string): Option<Json> {
    if k == "name" then (if TruthyText(q.name) then Some(JStr(q.name.value)) else None)
    else if k == "minMembers" then (if TruthyNumber(q.minMembers) then Some(JInt(q.minMembers.value)) else None)
    else if k == "maxMembers" then (if TruthyNumber(q.maxMembers) then Some(JInt(q.maxMembers.value)) else None)
    else if k == "minClanPoints" then (if TruthyNumber(q.minClanPoints) then Some(JInt(q.minClanPoints.value)) else None)
    else if k == "minClanLevel" then (if TruthyNumber(q.minClanLevel) then Some(JInt(q.minClanLevel.value)) else None)
    else if k == "warFrequency" then (if TruthyText(q.warFrequency) then Some(JStr(q.warFrequency.value)) else None)
    else if k == "locationId" then (if locationId.Some? then Some(JInt(locationId.value)) else None)
    else if k == "labelIds" then (if labelIds.Some? then Some(JStr(IdList(labelIds.value))) else None)
    else None
  }

  /** Whether the caller gave the filter sent under key `k` a truthy value. */
  predicate FilterGiven(q: ClanSearch, k: string) {
    if k == "name" then TruthyText(q.name)
    else if k == "minMembers" then TruthyNumber(q.minMembers)
    else if k == "maxMembers" then TruthyNumber(q.maxMembers)
    else if k == "minClanPoints" then TruthyNumber(q.minClanPoints)
    else if k == "minClanLevel" then TruthyNumber(q.minClanLevel)
    else if k == "warFrequency" then TruthyText(q.warFrequency)
    else if k == "locationId" then TruthyText(q.location)
    else k == "labelIds" && TruthyLabels(q.labels)
  }

  /**
   * With the location resolved exactly when one was given, and the labels
   * likewise, the parameters hold a key exactly when its filter was given.
   */
  lemma SearchKeysGiven(q: ClanSearch, locationId: Option<int>, labelIds: Option<seq<int>>)
    requires TruthyText(q.location) <==> locationId.Some?
    requires TruthyLabels(q.labels) <==> labelIds.Some?
    ensures forall k :: k in SearchParams(q, locationId, labelIds) <==> FilterGiven(q, k)
  {
    var p := SearchParams(q, locationId, labelIds);
    forall k
      ensures k in p <==> FilterGiven(q, k)
    {
      if k !in SearchKeys {
        assert !FilterGiven(q, k);
      }
    }
  }

  /** Parameters without `None` values pass `make_request`'s filter unchanged. */
  lemma FilterKeepsPresent(p: map<string, Json>)
    requires forall k :: k in p ==> p[k] != JNull
    ensures FilterParams(p) == p
  {
  }

  /** The error for a label no table entry matches, naming the label lower-cased. */
  predicate LabelMiss(labels: seq<string>, err: ClientError) {
    exists i :: 0 <= i < |labels| && err == Unknown(NewDataError(UnknownClanLabelError, Lower(labels[i])))
  }

  /**
   * `for lab in labels: lab = lab.lower(); get_clan_label(lab)`: each label
   * lower-cased before the lookup, so a miss reports the lower-cased label.
   */
  method ResolveLabels(send: Transport, c: ClientState, labels: seq<string>) returns (o: Outcome<seq<int>>)
    requires Valid(c)
    ensures Valid(o.client) && Keeps(c, o.client)
    ensures o.client.cache.(clanLabels := c.cache.clanLabels) == c.cache
    ensures forall x :: x != E.ClanLabels ==> o.client.registry[x] == c.registry[x]
    ensures o.result.Success? ==> |o.result.value| == |labels|
    ensures o.result.Success? && |labels| > 0 ==> var t := o.client.cache.clanLabels;
      t.Some? && forall i :: 0 <= i < |labels| ==> Lower(labels[i]) in t.value && o.result.value[i] == t.value[Lower(labels[i])].id
    ensures o.result.Failure? && o.result.error.Unknown? ==> LabelMiss(labels, o.result.error)
    decreases |labels|
  {
    if |labels| == 0 {
      return Outcome(Success([]), c, []);
    }
    var first := GetClanLabel(send, c, Lower(labels[0]));
    if first.result.Failure? {
      return Outcome(Failure(first.result.error), first.client, first.sent);
    }
    LowerIdempotent(labels[0]);
    var rest := ResolveLabels(send, first.client, labels[1..]);
    if rest.result.Failure? {
      if rest.result.error.Unknown? {
        var i :| 0 <= i < |labels[1..]| && rest.result.error == Unknown(NewDataError(UnknownClanLabelError, Lower(labels[1..][i])));
        assert labels[1..][i] == labels[i + 1];
      }
      return Outcome(Failure(rest.result.error), rest.client, first.sent + rest.sent);
    }
    var ids := [first.result.value.id] + rest.result.value;
    o := Outcome(Success(ids), rest.client, first.sent + rest.sent);
    forall i | 1 <= i < |labels|
      ensures labels[i] == labels[1..][i - 1]
    {
    }
  }

  /** The location id a successful `clans` resolved, read back from the cache it left behind. */
  function LocationIdIn(c: ClientState, q: ClanSearch): Option<int> {
    if TruthyText(q.location) && c.cache.locations.Some? && Lower(q.location.value) in c.cache.locations.value
    then Some(c.cache.locations.value[Lower(q.location.value)].id)
    else None
  }

  /** The label ids a successful `clans` resolved, read back from the cache it left behind. */
  function LabelIdsIn(c: ClientState, q: ClanSearch): Option<seq<int>> {
    if TruthyLabels(q.labels) && c.cache.clanLabels.Some?
      && forall i :: 0 <= i < |LabelNames(q.labels.value)| ==> Lower(LabelNames(q.labels.value)[i]) in c.cache.clanLabels.value
    then
      var names := LabelNames(q.labels.value);
      Some(seq(|names|, i requires 0 <= i < |names| => c.cache.clanLabels.value[Lower(names[i])].id))
    else None
  }

  /** A location id read from the cache stays the same while the cache is kept. */
  lemma LocationIdKept(c: ClientState, c': ClientState, q: ClanSearch)
    requires Keeps(c, c')
    ensures LocationIdIn(c, q).Some? ==> LocationIdIn(c', q) == LocationIdIn(c, q)
  {
  }

  /** Label ids read from the cache stay the same while the cache is kept. */
  lemma LabelIdsKept(c: ClientState, c': ClientState, q: ClanSearch)
    requires Keeps(c, c')
    ensures LabelIdsIn(c, q).Some? ==> LabelIdsIn(c', q) == LabelIdsIn(c, q)
  {
  }

  /** The `if location:` step of `clans`. */
  method LocationStep(send: Transport, c: ClientState, q: ClanSearch) returns (o: Outcome<Option<int>>)
    requires Valid(c)
    ensures Valid(o.client) && Keeps(c, o.client)
    ensures o.client.cache.(locations := c.cache.locations) == c.cache
    ensures forall x :: x != E.Locations ==> o.client.registry[x] == c.registry[x]
    ensures o.result.Success? ==> o.result.value == LocationIdIn(o.client, q)
    ensures o.result.Success? ==> (TruthyText(q.location) <==> o.result.value.Some?)
    ensures !TruthyText(q.location) ==> o == Outcome(Success(None), c, [])
    ensures o.result.Failure? && o.result.error.Unknown? ==>
      o.result.error == Unknown(NewDataError(UnknownLocationError, q.location.value))
  {
    if !TruthyText(q.location) {
      return Outcome(Success(None), c, []);
    }
    var g := GetLocation(send, c, q.location.value);
    o := Outcome(if g.result.Success? then Success(Some(g.result.value.id)) else Failure(g.result.error), g.client, g.sent);
  }

  /** The `if labels:` step of `clans`. */
  method LabelStep(send: Transport, c: ClientState, q: ClanSearch) returns (o: Outcome<Option<seq<int>>>)
    requires Valid(c)
    ensures Valid(o.client) && Keeps(c, o.client)
    ensures o.client.cache.(clanLabels := c.cache.clanLabels) == c.cache
    ensures forall x :: x != E.ClanLabels ==> o.client.registry[x] == c.registry[x]
    ensures o.result.Success? ==> o.result.value == LabelIdsIn(o.client, q)
    ensures o.result.Success? ==> (TruthyLabels(q.labels) <==> o.result.value.Some?)
    ensures !TruthyLabels(q.labels) ==> o == Outcome(Success(None), c, [])
    ensures o.result.Failure? && o.result.error.Unknown? ==> LabelMiss(LabelNames(q.labels.value), o.result.error)
  {
    if !TruthyLabels(q.labels) {
      return Outcome(Success(None), c, []);
    }
    var names := LabelNames(q.labels.value);
    var r := ResolveLabels(send, c, names);
    if r.result.Failure? {
      return Outcome(Failure(r.result.error), r.client, r.sent);
    }
    assert |names| > 0;
    assert r.result.value == LabelIdsIn(r.client, q).value;
    o := Outcome(Success(Some(r.result.value)), r.client, r.sent);
  }

  /**
   * One request whose reply lists clans or players under "items",
   * answered with their tags: `[clan["tag"] for clan in data["items"]]`.
   */
  method FetchTags(send: Transport, c: ClientState, e: E.Endpoint, kw: map<string, string>,
                   params: Option<map<string, Json>>) returns (o: Outcome<seq<Json>>)
    requires Valid(c)
    ensures Valid(o.client) && o.client.cache == c.cache
    ensures o.client.registry == E.Invoke(c.registry, e, kw).registry
    ensures o.result.Failure? ==> !o.result.error.Unknown?
    ensures o.result.Success? ==>
      && |o.sent| == 1
      && o.sent[0].params == (if params.Some? then Some(FilterParams(params.value)) else None)
      && E.Invoke(c.registry, e, kw).result.Success?
      && o.sent[0].url == E.Invoke(c.registry, e, kw).result.value.url
      && send(o.sent[0]).Some? && IsOk(send(o.sent[0]).value) && send(o.sent[0]).value.body.Some?
      && o.result == ItemTags(send(o.sent[0]).value.body.value)
  {
    var f := Fetch(send, c, e, kw, params);
    if f.result.Failure? {
      return Outcome(Failure(f.result.error), f.client, f.sent);
    }
    o := Outcome(ItemTags(f.result.value), f.client, f.sent);
  }

  /** The search request itself, once the location and the labels are resolved. */
  method Search(send: Transport, c: ClientState, q: ClanSearch, locationId: Option<int>, labelIds: Option<seq<int>>)
    returns (o: Outcome<seq<Json>>)
    requires Valid(c)
    requires TruthyText(q.location) <==> locationId.Some?
    requires TruthyLabels(q.labels) <==> labelIds.Some?
    ensures Valid(o.client) && o.client.cache == c.cache
    ensures forall x :: x != E.Clans ==> o.client.registry[x] == c.registry[x]
    ensures o.result.Failure? ==> !o.result.error.Unknown?
    ensures o.result.Success? ==>
      && |o.sent| == 1 && o.sent[0].params == Some(SearchParams(q, locationId, labelIds))
      && E.Invoke(c.registry, E.Clans, map[]).result.Success?
      && o.sent[0].url == E.Invoke(c.registry, E.Clans, map[]).result.value.url
      && forall k :: k in o.sent[0].params.value <==> FilterGiven(q, k)
  {
    var params := SearchParams(q, locationId, labelIds);
    FilterKeepsPresent(params);
    SearchKeysGiven(q, locationId, labelIds);
    o := FetchTags(send, c, E.Clans, map[], Some(params));
    forall x | x != E.Clans
      ensures o.client.registry[x] == c.registry[x]
    {
      E.InvokeIsolated(c.registry, E.Clans, x, map[]);
    }
  }

  /** `clans`: the tags of the clans the search returns. */
  /**
   * The last request of a successful `clans`: the url the `CLANS` object of
   * `reg` formats to, and exactly the filters given, with the location and
   * label ids read back from the cache of `c'`.
   */
  ghost predicate SearchedLast(sent: seq<Outgoing>, c': ClientState, reg: E.Registry, q: ClanSearch) {
    && |sent| >= 1
    && var last := sent[|sent| - 1];
    && last.params.Some?
    && (forall k :: k in last.params.value <==> FilterGiven(q, k))
    && last.params.value == SearchParams(q, LocationIdIn(c', q), LabelIdsIn(c', q))
    && E.Clans in reg && E.Call(reg[E.Clans], map[]).Success?
    && last.url == E.Call(reg[E.Clans], map[]).value.url
  }

  method Clans(send: Transport, c: ClientState, q: ClanSearch) returns (o: Outcome<seq<Json>>)
    requires Valid(c)
    ensures Valid(o.client) && Keeps(c, o.client)
    ensures o.client.cache.(locations := c.cache.locations, clanLabels := c.cache.clanLabels) == c.cache
    ensures o.result.Success? ==> SearchedLast(o.sent, o.client, c.registry, q)
    ensures o.result.Failure? && o.result.error.Unknown? ==>
      || (q.location.Some? && o.result.error == Unknown(NewDataError(UnknownLocationError, q.location.value)))
      || (q.labels.Some? && LabelMiss(LabelNames(q.labels.value), o.result.error))
  {
    var loc := LocationStep(send, c, q);
    if loc.result.Failure? {
      return Outcome(Failure(loc.result.error), loc.client, loc.sent);
    }
    var labs := LabelStep(send, loc.client, q);
    if labs.result.Failure? {
      return Outcome(Failure(labs.result.error), labs.client, loc.sent + labs.sent);
    }
    LocationIdKept(loc.client, labs.client, q);
    o := ClansAt(send, c, labs.client, loc.sent + labs.sent, q, loc.result.value, labs.result.value);
  }

  /** The search request of `clans`, once the location and label ids are resolved in `g`. */
  method ClansAt(send: Transport, c: ClientState, g: ClientState, prior: seq<Outgoing>, q: ClanSearch,
                 locationId: Option<int>, labelIds: Option<seq<int>>) returns (o: Outcome<seq<Json>>)
    requires Valid(g) && E.Clans in c.registry && g.registry[E.Clans] == c.registry[E.Clans]
    requires locationId == LocationIdIn(g, q) && labelIds == LabelIdsIn(g, q)
    requires TruthyText(q.location) <==> locationId.Some?
    requires TruthyLabels(q.labels) <==> labelIds.Some?
    ensures Valid(o.client) && o.client.cache == g.cache
    ensures o.result.Failure? ==> !o.result.error.Unknown?
    ensures o.result.Success? ==> SearchedLast(o.sent, o.client, c.registry, q)
  {
    var f := Search(send, g, q, locationId, labelIds);
    o := Outcome(f.result, f.client, prior + f.sent);
    if f.result.Success? {
      assert o.sent[|o.sent| - 1] == f.sent[0];
      assert LocationIdIn(o.client, q) == locationId && LabelIdsIn(o.client, q) == labelIds;
      assert E.Invoke(g.registry, E.Clans, map[]).result == E.Call(c.registry[E.Clans], map[]);
    }
  }

  /*
   * `clan`: the clan object, its member list reduced to tags, and its war
   * record gathered from the clan's own keys and, when the war log is
   * public, two further requests.
   */

  function ClanKw(tag: string): map<string, string> {
    map[E.ClanTagField.name := ShapeTag(tag)]
  }

  /** The clan keys copied into the war record. */
  const WarKeys: set<string> :=
    {"warWins", "warLosses", "warTies", "warWinStreak", "warFrequency", "warLeague", "isWarLogPublic"}

  /** The keys the war requests add are none of the clan's own war keys. */
  lemma WarKeysApart()
    ensures "warState" !in WarKeys && "warLog" !in WarKeys && "warCurrentwar" !in WarKeys
  {
    assert |"warState"| == 8 && |"warLog"| == 6 && |"warCurrentwar"| == 13;
    assert forall k :: k in WarKeys ==> |k| in {7, 9, 12, 14};
  }

  /**
   * The keys `clan` writes under "war" are `ClanWar` aliases: the whitelist
   * is exactly the aliases of the required fields, and the three keys the
   * war requests add are the aliases of the optional ones.
   */
  lemma WarKeysAreAliases()
    ensures forall f: WarField :: Alias(f) in WarKeys <==> !IsOptional(f)
    ensures forall k :: k in WarKeys ==> exists f: WarField :: Alias(f) == k
    ensures Alias(State) == "warState" && Alias(Log) == "warLog" && Alias(Currentwar) == "warCurrentwar"
  {
    forall f: WarField
      ensures Alias(f) == AliasTable(f)
    {
      AliasSpelling(f);
    }
    WarKeysTabled();
  }

  /** The same, for the spelled-out aliases. */
  lemma WarKeysTabled()
    ensures forall f: WarField :: AliasTable(f) in WarKeys <==> !IsOptional(f)
    ensures forall k :: k in WarKeys ==> exists f: WarField :: AliasTable(f) == k
  {
    WarKeysApart();
    forall k | k in WarKeys
      ensures exists f: WarField :: AliasTable(f) == k
    {
      var f: WarField :=
        if k == "warWins" then Wins else if k == "warLosses" then Losses else if k == "warTies" then Ties
        else if k == "warWinStreak" then WinStreak else if k == "warFrequency" then Frequency
        else if k == "warLeague" then WarField.League else IsWarLogPublic;
      assert AliasTable(f) == k;
    }
  }

  const NotInWar := "notInWar"

  /** `clan_data["memberList"] = [member["tag"] for member in clan_data["memberList"]]` */
  function ReshapeMembers(body: Json): (r: Result<map<string, Json>, PayloadError>)
    ensures r.Success? <==> ListMember(body, "memberList").Success? && Tags(ListMember(body, "memberList").value).Success?
    ensures r.Success? ==>
      && r.value.Keys == body.fields.Keys
      && (forall k :: k in body.fields && k != "memberList" ==> r.value[k] == body.fields[k])
      && var members := body.fields["memberList"].items;
      && r.value["memberList"].JArr? && |r.value["memberList"].items| == |members|
      && forall i :: 0 <= i < |members| ==> r.value["memberList"].items[i] == members[i].fields["tag"]
  {
    var members :- ListMember(body, "memberList");
    var tags :- Tags(members);
    Success(body.fields["memberList" := JArr(tags)])
  }

  /** The war record: the whitelisted keys of the clan, with their values. */
  function WarSection(fields: map<string, Json>): (war: map<string, Json>)
    ensures war.Keys == fields.Keys * WarKeys
    ensures forall k :: k in war ==> war[k] == fields[k]
  {
    map k | k in fields && k in WarKeys :: fields[k]
  }

  /**
   * The war record completed from the current war and the war log: the
   * state and the log always, the current war itself only when the clan
   * is at war.
   */
  function AttachWar(war: map<string, Json>, warData: Json, warLog: Json): (r: Result<map<string, Json>, PayloadError>)
    ensures r.Success? <==> Member(warData, "state").Success? && Member(warLog, "items").Success?
    ensures r.Success? ==>
      var state := warData.fields["state"];
      && r.value.Keys == war.Keys + {"warState", "warLog"} + (if state != JStr(NotInWar) then {"warCurrentwar"} else {})
      && "warState" in r.value && "warLog" in r.value
      && ("warCurrentwar" in r.value <==> "warCurrentwar" in war || state != JStr(NotInWar))
      && r.value["warState"] == state
      && r.value["warLog"] == warLog.fields["items"]
      && (state != JStr(NotInWar) ==> r.value["warCurrentwar"] == warData)
      && forall k :: k in war && k != "warState" && k != "warLog" && k != "warCurrentwar" ==> r.value[k] == war[k]
  {
    var state :- Member(warData, "state");
    var log :- Member(warLog, "items");
    var w := war["warState" := state]["warLog" := log];
    Success(if state != JStr(NotInWar) then w["warCurrentwar" := warData] else w)
  }


  /**
   * The war record `clan` builds from the clan's war keys `section`, given
   * how many further requests it made: none when the war log is private,
   * the current war and the war log when it is public.
   */
  predicate WarShape(section: map<string, Json>, war: map<string, Json>, requests: nat) {
    && "isWarLogPublic" in section
    && (requests == 0 || requests == 2)
    && (requests == 2 <==> Truthy(section["isWarLogPublic"]))
    && (requests == 0 ==> war == section)
    && (requests == 2 ==> "warState" in war && "warLog" in war
                          && ("warCurrentwar" in war <==> war["warState"] != JStr(NotInWar)))
    && (requests == 2 ==> section.Keys <= war.Keys <= section.Keys + {"warState", "warLog", "warCurrentwar"})
    && (requests == 2 ==> forall k :: k in section ==> war[k] == section[k])
  }

  /**
   * `ClanWar` has an alias for every key of a war record `clan` builds,
   * and finds all its required fields there exactly when the clan payload
   * carried every whitelisted key.
   */
  lemma WarRecordAccepted(fields: map<string, Json>, war: map<string, Json>, requests: nat)
    requires WarShape(WarSection(fields), war, requests)
    ensures forall k :: k in war ==> exists f: WarField :: Alias(f) == k
    ensures AcceptsWarKeys(war.Keys) <==> WarKeys <= fields.Keys
  {
    WarRecordKeys(fields, war, requests);
    WarKeysAreAliases();
    AcceptsIffWhitelist(war.Keys);
    forall k | k in war
      ensures exists f: WarField :: Alias(f) == k
    {
      KeyIsAlias(k);
    }
  }

  /** Each key `clan` may write under "war" is the alias of some `ClanWar` field. */
  lemma KeyIsAlias(k: string)
    requires k in WarKeys + {"warState", "warLog", "warCurrentwar"}
    ensures exists f: WarField :: Alias(f) == k
  {
    var f := TabledField(k);
    AliasSpelling(f);
  }

  /** The field whose spelled-out alias is `k`. */
  lemma TabledField(k: string) returns (f: WarField)
    requires k in WarKeys + {"warState", "warLog", "warCurrentwar"}
    ensures AliasTable(f) == k
  {
    f := if k == "warWins" then Wins else if k == "warLosses" then Losses else if k == "warTies" then Ties
      else if k == "warWinStreak" then WinStreak else if k == "warFrequency" then Frequency
      else if k == "warLeague" then WarField.League else if k == "isWarLogPublic" then IsWarLogPublic
      else if k == "warState" then State else if k == "warLog" then Log else Currentwar;
  }

  /** The keys of such a record: the clan's whitelisted keys and at most the three the war requests add. */
  lemma WarRecordKeys(fields: map<string, Json>, war: map<string, Json>, requests: nat)
    requires WarShape(WarSection(fields), war, requests)
    ensures war.Keys <= WarKeys + {"warState", "warLog", "warCurrentwar"}
    ensures WarKeys <= war.Keys <==> WarKeys <= fields.Keys
  {
    WarKeysApart();
    assert war.Keys * WarKeys == fields.Keys * WarKeys;
  }

  /** `ClanWar` finds all its required fields among `keys` exactly when they hold the whole whitelist. */
  lemma AcceptsIffWhitelist(keys: set<string>)
    ensures AcceptsWarKeys(keys) <==> WarKeys <= keys
  {
    WarKeysAreAliases();
    if AcceptsWarKeys(keys) {
      forall k | k in WarKeys
        ensures k in keys
      {
        var f: WarField :| Alias(f) == k;
        assert !IsOptional(f);
      }
    }
  }

  /** The clan payload `out` is `fields` with a war record of that shape under "war". */
  predicate ClanShape(out: Json, fields: map<string, Json>, requests: nat) {
    && out.JObj? && "war" in out.fields && out.fields["war"].JObj?
    && out.fields == fields["war" := out.fields["war"]]
    && WarShape(WarSection(fields), out.fields["war"].fields, requests)
  }

  /** Both war requests were answered with a body, and the two bodies complete `section`. */
  predicate RepliesComplete(send: Transport, sent: seq<Outgoing>, section: map<string, Json>) {
    && |sent| == 2 && Replied(send, sent[0]) && Replied(send, sent[1])
    && AttachWar(section, send(sent[0]).value.body.value, send(sent[1]).value.body.value).Success?
  }

  /** `war` is the record the current war's and the war log's replies complete `section` to. */
  predicate WarReplies(send: Transport, sent: seq<Outgoing>, section: map<string, Json>, war: map<string, Json>) {
    && RepliesComplete(send, sent, section)
    && AttachWar(section, send(sent[0]).value.body.value, send(sent[1]).value.body.value).value == war
  }

  /**
   * The two war requests went to the urls the current-war object `war`
   * and the war-log object `log` format to, and `reg'` holds both
   * formatted objects.
   */
  predicate WarSent(war: E.BoundMethod, log: E.BoundMethod, reg': E.Registry, kw: map<string, string>, sent: seq<Outgoing>) {
    && E.Complete(reg')
    && E.Call(war, kw).Success? && E.Call(log, kw).Success?
    && |sent| == 2
    && sent[0].url == E.Call(war, kw).value.url
    && sent[1].url == E.Call(log, kw).value.url
    && reg'[E.ClanCurrentWar] == E.Call(war, kw).value
    && reg'[E.ClanWarlog] == E.Call(log, kw).value
  }

  /**
   * What calling the two war objects did to the registry: with nothing
   * sent, one of the calls failed, the current-war object was written
   * back if its own call succeeded, and the war-log object is as it was.
   */
  predicate WarCalls(reg: E.Registry, reg': E.Registry, kw: map<string, string>, sent: seq<Outgoing>) {
    && E.Complete(reg) && E.Complete(reg')
    && if sent == [] then
         && (E.Call(reg[E.ClanCurrentWar], kw).Failure? || E.Call(reg[E.ClanWarlog], kw).Failure?)
         && reg'[E.ClanCurrentWar] == (if E.Call(reg[E.ClanCurrentWar], kw).Success?
                                       then E.Call(reg[E.ClanCurrentWar], kw).value else reg[E.ClanCurrentWar])
         && reg'[E.ClanWarlog] == reg[E.ClanWarlog]
       else WarSent(reg[E.ClanCurrentWar], reg[E.ClanWarlog], reg', kw, sent)
  }

  /**
   * The two requests gathered when the war log is public: both endpoint
   * objects are called first, then both requests go out; a failure of
   * the current-war request is reported before one of the war log.
   */
  method FetchWar(send: Transport, c: ClientState, kw: map<string, string>) returns (o: Outcome<(Json, Json)>)
    requires Valid(c)
    ensures Valid(o.client) && o.client.cache == c.cache
    ensures forall x :: x != E.ClanCurrentWar && x != E.ClanWarlog ==> o.client.registry[x] == c.registry[x]
    ensures WarCalls(c.registry, o.client.registry, kw, o.sent)
    ensures o.result.Failure? ==> !o.result.error.Unknown?
    ensures o.sent == [] <==> o.result.Failure? && o.result.error.BadCall?
    ensures o.sent != [] ==> (o.result.Success? <==> Replied(send, o.sent[0]) && Replied(send, o.sent[1]))
    ensures o.result.Success? ==> Answered(send, o.sent[0], o.result.value.0) && Answered(send, o.sent[1], o.result.value.1)
  {
    var inv1 := E.Invoke(c.registry, E.ClanCurrentWar, kw);
    E.InvokeIsolated(c.registry, E.ClanCurrentWar, E.ClanWarlog, kw);
    if inv1.result.Failure? {
      return Outcome(Failure(BadCall(inv1.result.error)), c.(registry := inv1.registry), []);
    }
    var inv2 := E.Invoke(inv1.registry, E.ClanWarlog, kw);
    forall x | x != E.ClanCurrentWar && x != E.ClanWarlog
      ensures inv2.registry[x] == c.registry[x]
    {
      E.InvokeIsolated(c.registry, E.ClanCurrentWar, x, kw);
      E.InvokeIsolated(inv1.registry, E.ClanWarlog, x, kw);
    }
    E.InvokeIsolated(inv1.registry, E.ClanWarlog, E.ClanCurrentWar, kw);
    var client := c.(registry := inv2.registry);
    if inv2.result.Failure? {
      o := Outcome(Failure(BadCall(inv2.result.error)), client, []);
    } else {
      var sent, r := SendBoth(send, inv1.result.value, inv2.result.value);
      o := Outcome(r, client, sent);
    }
  }

  /** Both requests go out; a failure of the first is reported before one of the second. */
  method SendBoth(send: Transport, m1: E.BoundMethod, m2: E.BoundMethod) returns (sent: seq<Outgoing>, r: Result<(Json, Json), ClientError>)
    ensures |sent| == 2 && sent[0].url == m1.url && sent[1].url == m2.url
    ensures r.Failure? ==> r.error.Failed?
    ensures r.Success? <==> Replied(send, sent[0]) && Replied(send, sent[1])
    ensures r.Success? ==> Answered(send, sent[0], r.value.0) && Answered(send, sent[1], r.value.1)
  {
    var x1 := MakeRequest(send, m1, None);
    var x2 := MakeRequest(send, m2, None);
    sent := [x1.sent, x2.sent];
    r := if x1.result.Failure? then Failure(Failed(x1.result.error))
      else if x2.result.Failure? then Failure(Failed(x2.result.error))
      else Success((x1.result.value.body.value, x2.result.value.body.value));
  }

  /** The public-war-log branch: the two gathered requests and the record their replies complete. */
  method PublicWar(send: Transport, c: ClientState, kw: map<string, string>, section: map<string, Json>)
    returns (o: Outcome<map<string, Json>>)
    requires Valid(c)
    requires section.Keys <= WarKeys
    requires "isWarLogPublic" in section && Truthy(section["isWarLogPublic"])
    ensures Valid(o.client) && o.client.cache == c.cache
    ensures forall x :: x != E.ClanCurrentWar && x != E.ClanWarlog ==> o.client.registry[x] == c.registry[x]
    ensures WarCalls(c.registry, o.client.registry, kw, o.sent)
    ensures o.result.Failure? ==> !o.result.error.Unknown?
    ensures o.result.Success? <==> RepliesComplete(send, o.sent, section)
    ensures o.result.Success? ==> WarReplies(send, o.sent, section, o.result.value) && WarShape(section, o.result.value, |o.sent|)
  {
    WarKeysApart();
    var pair := FetchWar(send, c, kw);
    if pair.result.Failure? {
      o := Outcome(Failure(pair.result.error), pair.client, pair.sent);
    } else {
      var full := AttachWar(section, pair.result.value.0, pair.result.value.1);
      o := Outcome(if full.Failure? then Failure(BadPayload(full.error)) else Success(full.value), pair.client, pair.sent);
    }
  }

  /** Whether the clan payload `fields` asks for the war requests: its war log is public. */
  predicate PublicLog(fields: map<string, Json>) {
    "isWarLogPublic" in WarSection(fields) && Truthy(WarSection(fields)["isWarLogPublic"])
  }

  /** The war record of a clan whose member list is already reshaped, with the requests it needs. */
  method CompleteWar(send: Transport, c: ClientState, kw: map<string, string>, fields: map<string, Json>)
    returns (o: Outcome<Json>)
    requires Valid(c)
    ensures Valid(o.client) && o.client.cache == c.cache
    ensures forall x :: x != E.ClanCurrentWar && x != E.ClanWarlog ==> o.client.registry[x] == c.registry[x]
    ensures PublicLog(fields) ==> WarCalls(c.registry, o.client.registry, kw, o.sent)
    ensures !PublicLog(fields) ==> o.client == c && o.sent == []
    ensures "isWarLogPublic" !in fields ==> o.result == Failure(BadPayload(MissingKey("isWarLogPublic")))
    ensures o.result.Failure? ==> !o.result.error.Unknown?
    ensures o.result.Success? ==>
      && ClanShape(o.result.value, fields, |o.sent|)
      && (o.sent != [] ==> WarReplies(send, o.sent, WarSection(fields), o.result.value.fields["war"].fields))
  {
    var section := WarSection(fields);
    if "isWarLogPublic" !in section {
      return Outcome(Failure(BadPayload(MissingKey("isWarLogPublic"))), c, []);
    }
    if !Truthy(section["isWarLogPublic"]) {
      return Outcome(Success(JObj(fields["war" := JObj(section)])), c, []);
    }
    var w := PublicWar(send, c, kw, section);
    if w.result.Failure? {
      return Outcome(Failure(w.result.error), w.client, w.sent);
    }
    o := Outcome(Success(JObj(fields["war" := JObj(w.result.value)])), w.client, w.sent);
  }

  /**
   * The clan payload `out` built from the replies to `sent`: the clan's
   * own reply with its members reshaped, and under "war" the record the
   * war requests' replies complete, if they were made.
   */
  predicate ClanBuilt(send: Transport, sent: seq<Outgoing>, out: Json) {
    && |sent| >= 1 && Replied(send, sent[0])
    && var fields := ReshapeMembers(send(sent[0]).value.body.value);
    && fields.Success? && ClanShape(out, fields.value, |sent| - 1)
    && (|sent| > 1 ==> WarReplies(send, sent[1..], WarSection(fields.value), out.fields["war"].fields))
  }

  /**
   * The rest of `clan` once the clan's own request is made: a failure
   * stands, otherwise the members of the reply are reshaped and its war
   * record is completed.
   */
  method ClanFromReply(send: Transport, first: Outcome<Json>, kw: map<string, string>) returns (o: Outcome<Json>)
    requires Valid(first.client)
    requires first.result.Success? ==> |first.sent| == 1 && Answered(send, first.sent[0], first.result.value)
    ensures first.result.Failure? ==> o == first
    ensures Valid(o.client) && o.client.cache == first.client.cache
    ensures forall x :: x != E.ClanCurrentWar && x != E.ClanWarlog ==> o.client.registry[x] == first.client.registry[x]
    ensures |first.sent| <= |o.sent| && o.sent[..|first.sent|] == first.sent
    ensures |o.sent| > |first.sent| ==>
      WarSent(first.client.registry[E.ClanCurrentWar], first.client.registry[E.ClanWarlog], o.client.registry, kw, o.sent[|first.sent|..])
    ensures first.result.Success? && o.result.Failure? ==> !o.result.error.Unknown?
    ensures o.result.Success? ==> ClanBuilt(send, o.sent, o.result.value)
    ensures o.result.Success? ==>
      && |o.sent| >= 1 && Replied(send, o.sent[0]) && send(o.sent[0]).value.body.value.JObj?
      && var war := o.result.value.fields["war"].fields;
      && (forall k :: k in war ==> exists f: WarField :: Alias(f) == k)
      && (AcceptsWarKeys(war.Keys) <==> WarKeys <= send(o.sent[0]).value.body.value.fields.Keys)
  {
    if first.result.Failure? {
      return first;
    }
    var fields := ReshapeMembers(first.result.value);
    if fields.Failure? {
      return Outcome(Failure(BadPayload(fields.error)), first.client, first.sent);
    }
    var rest := CompleteWar(send, first.client, kw, fields.value);
    o := Outcome(rest.result, rest.client, first.sent + rest.sent);
    assert o.sent[1..] == rest.sent;
    if rest.result.Success? {
      WarRecordAccepted(fields.value, rest.result.value.fields["war"].fields, |rest.sent|);
    }
  }

  /** The clan's own request: only the clan endpoint object changes, and at most one request goes out. */
  method FetchClan(send: Transport, c: ClientState, tag: string) returns (o: Outcome<Json>)
    requires Valid(c)
    ensures Valid(o.client) && o.client.cache == c.cache
    ensures var inv := E.Invoke(c.registry, E.Clan, ClanKw(tag));
      inv.result.Success? ==>
        && |o.sent| >= 1 && o.sent[0].url == inv.result.value.url
        && o.client.registry[E.Clan] == inv.registry[E.Clan]
    ensures o.client.registry[E.ClanCurrentWar] == c.registry[E.ClanCurrentWar]
    ensures o.client.registry[E.ClanWarlog] == c.registry[E.ClanWarlog]
    ensures |o.sent| <= 1
    ensures o.result.Success? ==> |o.sent| == 1 && Answered(send, o.sent[0], o.result.value)
    ensures o.result.Failure? ==> !o.result.error.Unknown?
  {
    o := Fetch(send, c, E.Clan, ClanKw(tag), None);
    E.InvokeIsolated(c.registry, E.Clan, E.ClanCurrentWar, ClanKw(tag));
    E.InvokeIsolated(c.registry, E.Clan, E.ClanWarlog, ClanKw(tag));
  }

  /** `clan`: the reshaped clan payload, before the `Clan` model validates it. */
  method Clan(send: Transport, c: ClientState, tag: string) returns (o: Outcome<Json>)
    requires Valid(c)
    ensures Valid(o.client) && o.client.cache == c.cache
    ensures var inv := E.Invoke(c.registry, E.Clan, ClanKw(tag));
      inv.result.Success? ==>
        && |o.sent| >= 1 && o.sent[0].url == inv.result.value.url
        && o.client.registry[E.Clan] == inv.registry[E.Clan]
    ensures |o.sent| > 1 ==>
      WarSent(c.registry[E.ClanCurrentWar], c.registry[E.ClanWarlog], o.client.registry, ClanKw(tag), o.sent[1..])
    ensures o.result.Failure? ==> !o.result.error.Unknown?
    ensures o.result.Success? ==> ClanBuilt(send, o.sent, o.result.value)
    ensures o.result.Success? ==>
      && |o.sent| >= 1 && Replied(send, o.sent[0]) && send(o.sent[0]).value.body.value.JObj?
      && var war := o.result.value.fields["war"].fields;
      && (forall k :: k in war ==> exists f: WarField :: Alias(f) == k)
      && (AcceptsWarKeys(war.Keys) <==> WarKeys <= send(o.sent[0]).value.body.value.fields.Keys)
  {
    var first := FetchClan(send, c, tag);
    o := ClanFromReply(send, first, ClanKw(tag));
  }

  /**
   * The shared-object quirk seen from `clan`: the first call on a fresh
   * endpoint object requests "/clans/" followed by the shaped tag, and a
   * second call, for any tag at all, requests that same url again.
   */
  method ClanTwice(send: Transport, c: ClientState, a: string, b: string) returns (first: Outcome<Json>, second: Outcome<Json>)
    requires Valid(c) && c.registry[E.Clan] == E.InitialMethod(E.Clan)
    requires StrFormat.BraceFree(ShapeTag(a))
    ensures |first.sent| >= 1 && first.sent[0].url == E.ApiBase + E.ClansSlash + ShapeTag(a)
    ensures |second.sent| >= 1 && second.sent[0].url == first.sent[0].url
  {
    E.FirstClanCall(c.registry[E.Clan], ClanKw(a));
    E.StaleAfterFirstCall(c.registry, E.Clan, ClanKw(a), ClanKw(b));
    first := Clan(send, c, a);
    second := Clan(send, first.client, b);
  }

  /*
   * `player`: the player payload with its clan reduced to the clan's tag.
   */

  function PlayerKw(tag: string): map<string, string> {
    map[E.PlayerTagField.name := ShapeTag(tag)]
  }

  /**
   * `player_data["clan"] = player_data["clan"]["tag"]` as written: a
   * payload without a "clan" key, a player in no clan, is rejected.
   */
  function ReshapePlayerAsWritten(body: Json): (r: Result<map<string, Json>, PayloadError>)
    ensures r.Success? <==> Member(body, "clan").Success? && Member(body.fields["clan"], "tag").Success?
    ensures body.JObj? && "clan" !in body.fields ==> r == Failure(MissingKey("clan"))
    ensures r.Success? ==>
      && r.value.Keys == body.fields.Keys
      && r.value["clan"] == body.fields["clan"].fields["tag"]
      && forall k :: k in body.fields && k != "clan" ==> r.value[k] == body.fields[k]
  {
    var clan :- Member(body, "clan");
    var tag :- Member(clan, "tag");
    Success(body.fields["clan" := tag])
  }

  /**
   * The reshaping the `Player` model's optional clan asks for: a player
   * in no clan keeps its payload as it is, and the model's clan is `None`.
   */
  function ReshapePlayer(body: Json): (r: Result<map<string, Json>, PayloadError>)
    ensures r.Success? <==> body.JObj? && ("clan" in body.fields ==> Member(body.fields["clan"], "tag").Success?)
    ensures r.Success? ==>
      && r.value.Keys == body.fields.Keys
      && ("clan" in r.value ==> r.value["clan"] == body.fields["clan"].fields["tag"])
      && forall k :: k in body.fields && k != "clan" ==> r.value[k] == body.fields[k]
  {
    if body.JObj? && "clan" !in body.fields then Success(body.fields)
    else ReshapePlayerAsWritten(body)
  }

  /** The two agree on every player that is in a clan. */
  lemma ReshapePlayerAgrees(body: Json)
    requires body.JObj? && "clan" in body.fields
    ensures ReshapePlayer(body) == ReshapePlayerAsWritten(body)
  {
  }

  /** A player in no clan: the code as written raises, the corrected reshaping keeps the payload. */
  lemma ClanlessPlayer()
    ensures var body := JObj(map["tag" := JStr("#P")]);
      && ReshapePlayerAsWritten(body) == Failure(MissingKey("clan"))
      && ReshapePlayer(body) == Success(body.fields)
  {
    var body := JObj(map["tag" := JStr("#P")]);
    assert "clan" !in body.fields;
  }

  /** The player request, its reply reshaped by `reshape`. */
  method FetchPlayer(send: Transport, c: ClientState, tag: string, reshape: Json -> Result<map<string, Json>, PayloadError>)
    returns (o: Outcome<map<string, Json>>)
    requires Valid(c)
    ensures Valid(o.client) && o.client.cache == c.cache
    ensures o.client.registry == E.Invoke(c.registry, E.Player, PlayerKw(tag)).registry
    ensures o.result.Failure? ==> !o.result.error.Unknown?
    ensures E.Invoke(c.registry, E.Player, PlayerKw(tag)).result.Success? ==>
      && |o.sent| == 1 && o.sent[0].url == E.Invoke(c.registry, E.Player, PlayerKw(tag)).result.value.url
      && (o.result.Success? <==> Replied(send, o.sent[0]) && reshape(send(o.sent[0]).value.body.value).Success?)
      && (Replied(send, o.sent[0]) && reshape(send(o.sent[0]).value.body.value).Failure? ==>
            o.result == Failure(BadPayload(reshape(send(o.sent[0]).value.body.value).error)))
    ensures o.result.Success? ==>
      |o.sent| == 1 && Replied(send, o.sent[0]) && reshape(send(o.sent[0]).value.body.value) == Success(o.result.value)
  {
    var f := Fetch(send, c, E.Player, PlayerKw(tag), None);
    if f.result.Failure? {
      return Outcome(Failure(f.result.error), f.client, f.sent);
    }
    var shaped := reshape(f.result.value);
    if shaped.Failure? {
      return Outcome(Failure(BadPayload(shaped.error)), f.client, f.sent);
    }
    o := Outcome(Success(shaped.value), f.client, f.sent);
  }

  /**
   * `player` as written: the reply reshaped by `player_data["clan"]["tag"]`,
   * so a reply for a player in no clan fails.
   */
  method PlayerAsWritten(send: Transport, c: ClientState, tag: string) returns (o: Outcome<map<string, Json>>)
    requires Valid(c)
    ensures Valid(o.client) && o.client.cache == c.cache
    ensures o.client.registry == E.Invoke(c.registry, E.Player, PlayerKw(tag)).registry
    ensures E.Invoke(c.registry, E.Player, PlayerKw(tag)).result.Success? ==>
      && |o.sent| == 1 && o.sent[0].url == E.Invoke(c.registry, E.Player, PlayerKw(tag)).result.value.url
      && (o.result.Success? <==> Replied(send, o.sent[0]) && ReshapePlayerAsWritten(send(o.sent[0]).value.body.value).Success?)
      && (Replied(send, o.sent[0]) && send(o.sent[0]).value.body.value.JObj? && "clan" !in send(o.sent[0]).value.body.value.fields ==>
            o.result == Failure(BadPayload(MissingKey("clan"))))
    ensures o.result.Success? ==>
      |o.sent| == 1 && Replied(send, o.sent[0]) && ReshapePlayerAsWritten(send(o.sent[0]).value.body.value) == Success(o.result.value)
  {
    o := FetchPlayer(send, c, tag, ReshapePlayerAsWritten);
  }

  /**
   * `player` with the clan optional, as the `Player` model declares it: a
   * reply for a player in no clan is kept as it came.
   */
  method Player(send: Transport, c: ClientState, tag: string) returns (o: Outcome<map<string, Json>>)
    requires Valid(c)
    ensures Valid(o.client) && o.client.cache == c.cache
    ensures o.client.registry == E.Invoke(c.registry, E.Player, PlayerKw(tag)).registry
    ensures o.result.Failure? ==> !o.result.error.Unknown?
    ensures E.Invoke(c.registry, E.Player, PlayerKw(tag)).result.Success? ==>
      && |o.sent| == 1 && o.sent[0].url == E.Invoke(c.registry, E.Player, PlayerKw(tag)).result.value.url
      && (o.result.Success? <==> Replied(send, o.sent[0]) && ReshapePlayer(send(o.sent[0]).value.body.value).Success?)
      && (Replied(send, o.sent[0]) && send(o.sent[0]).value.body.value.JObj? && "clan" !in send(o.sent[0]).value.body.value.fields ==>
            o.result == Success(send(o.sent[0]).value.body.value.fields))
    ensures o.result.Success? ==>
      |o.sent| == 1 && Replied(send, o.sent[0]) && ReshapePlayer(send(o.sent[0]).value.body.value) == Success(o.result.value)
  {
    o := FetchPlayer(send, c, tag, ReshapePlayer);
  }

  /*
   * The four rankings: the location resolved through the table, then the
   * tags listed for its id.
   */

  predicate IsRanking(e: E.Endpoint) {
    e == E.ClanRankings || e == E.PlayerRankings || e == E.ClanVersusRankings || e == E.PlayerVersusRankings
  }

  /** `location_id=loc.id`: the id formatted as `str.format` formats an `int`. */
  function RankingKw(id: int): map<string, string> {
    map[E.LocationIdField.name := IntToString(id)]
  }

  /** The reply to `req` was a success whose item tags are `r`. */
  predicate TagsReply(send: Transport, req: Outgoing, r: Result<seq<Json>, ClientError>) {
    send(req).Some? && IsOk(send(req).value) && send(req).value.body.Some?
    && r == ItemTags(send(req).value.body.value)
  }

  /** `location` names a location of the cached table, and `id` is its id. */
  predicate LocatedAt(c: ClientState, location: string, id: int) {
    c.cache.locations.Some? && Lower(location) in c.cache.locations.value
    && c.cache.locations.value[Lower(location)].id == id
  }

  /**
   * The last request of a successful ranking: the url the object of `reg`
   * formats to for the location id `id`, answered by a success whose item
   * tags are `r`; the object of `c'` is the one that call left behind.
   */
  ghost predicate RankingSent(send: Transport, reg: E.Registry, c': ClientState, sent: seq<Outgoing>, e: E.Endpoint,
                              id: int, r: Result<seq<Json>, ClientError>) {
    && e in reg && e in c'.registry
    && E.Invoke(reg, e, RankingKw(id)).result.Success?
    && c'.registry[e] == E.Invoke(reg, e, RankingKw(id)).registry[e]
    && |sent| >= 1 && TagsReply(send, sent[|sent| - 1], r)
    && sent[|sent| - 1].url == E.Invoke(reg, e, RankingKw(id)).result.value.url
  }

  /** What a ranking call promises of its final client `c'`, given the client `c` it started from. */
  predicate RankedFrom(c: ClientState, c': ClientState) {
    Valid(c') && Keeps(c, c') && c'.cache.(locations := c.cache.locations) == c.cache
  }

  /** The ranking request for a resolved location id, after the requests already `prior`. */
  method RankingsAt(send: Transport, c: ClientState, g: ClientState, prior: seq<Outgoing>,
                    location: string, id: int, e: E.Endpoint) returns (o: Outcome<seq<Json>>)
    requires Valid(c) && RankedFrom(c, g) && g.registry[e] == c.registry[e] && LocatedAt(g, location, id)
    ensures RankedFrom(c, o.client) && LocatedAt(o.client, location, id)
    ensures o.result.Failure? ==> !o.result.error.Unknown?
    ensures o.result.Success? ==> RankingSent(send, c.registry, o.client, o.sent, e, id, o.result)
  {
    E.InvokeLocal(g.registry, c.registry, e, RankingKw(id));
    var f := FetchTags(send, g, e, RankingKw(id), None);
    o := Outcome(f.result, f.client, prior + f.sent);
    if f.result.Success? {
      assert o.sent[|o.sent| - 1] == f.sent[0];
    }
  }

  /** `clan_rankings`, `player_rankings`, `clan_versus_rankings`, `player_versus_rankings`. */
  method Rankings(send: Transport, c: ClientState, location: string, e: E.Endpoint) returns (o: Outcome<seq<Json>>)
    requires Valid(c) && IsRanking(e)
    ensures RankedFrom(c, o.client)
    ensures o.result.Failure? && o.result.error.Unknown? ==>
      o.result.error == Unknown(NewDataError(UnknownLocationError, location))
    ensures o.result.Success? ==>
      && o.client.cache.locations.Some? && Lower(location) in o.client.cache.locations.value
      && RankingSent(send, c.registry, o.client, o.sent, e, o.client.cache.locations.value[Lower(location)].id, o.result)
  {
    var g := GetLocation(send, c, location);
    if g.result.Failure? {
      return Outcome(Failure(g.result.error), g.client, g.sent);
    }
    o := RankingsAt(send, c, g.client, g.sent, location, g.result.value.id, e);
  }

  /**
   * A ranking seen through its endpoint object: the object keeps the url
   * the request went to, and that url has no braces left when the object
   * was fresh; an object whose url has no braces left sends that url
   * whatever the location.
   */
  method RankingThroughObject(send: Transport, c: ClientState, location: string, e: E.Endpoint)
    returns (o: Outcome<seq<Json>>)
    requires Valid(c) && IsRanking(e)
    ensures Valid(o.client)
    ensures o.result.Success? ==> |o.sent| >= 1 && o.client.registry[e].url == o.sent[|o.sent| - 1].url
    ensures o.result.Success? && c.registry[e] == E.InitialMethod(e) ==> StrFormat.BraceFree(o.sent[|o.sent| - 1].url)
    ensures o.result.Success? && StrFormat.BraceFree(c.registry[e].url) ==> o.sent[|o.sent| - 1].url == c.registry[e].url
  {
    o := Rankings(send, c, location, e);
    if o.result.Success? {
      var kw := RankingKw(o.client.cache.locations.value[Lower(location)].id);
      if c.registry[e] == E.InitialMethod(e) {
        IntToStringFree(o.client.cache.locations.value[Lower(location)].id, '{');
        IntToStringFree(o.client.cache.locations.value[Lower(location)].id, '}');
        E.FirstCallBraceFree(e, kw);
      }
      if StrFormat.BraceFree(c.registry[e].url) {
        E.CallBraceFree(c.registry[e], kw);
      }
    }
  }

  /**
   * The shared-object quirk seen from the rankings: once a ranking has been
   * fetched through a fresh endpoint object, a later ranking of the same
   * kind, for any location at all, requests the first location's url again.
   */
  method RankingsTwice(send: Transport, c: ClientState, a: string, b: string, e: E.Endpoint)
    returns (first: Outcome<seq<Json>>, second: Outcome<seq<Json>>)
    requires Valid(c) && IsRanking(e) && c.registry[e] == E.InitialMethod(e)
    ensures first.result.Success? && second.result.Success? ==>
      && |first.sent| >= 1 && |second.sent| >= 1
      && second.sent[|second.sent| - 1].url == first.sent[|first.sent| - 1].url
  {
    first := RankingThroughObject(send, c, a, e);
    second := RankingThroughObject(send, first.client, b, e);
  }

  /*
   * `goldpass`: the season's two times, through the pre-validator that
   * parses strings and passes anything else on unchanged.
   */

  /** The `start_time` and `end_time` inputs of `GoldPass`, pre-validated in field order. */
  function GoldPassTimes(parse: string -> Option<Instant>, body: Json): (r: Result<(TimeInput, TimeInput), ClientError>)
    ensures r.Success? ==> body.JObj? && "startTime" in body.fields && "endTime" in body.fields
    ensures r.Success? ==>
      && PreValidateTime(parse, body.fields["startTime"]) == Success(r.value.0)
      && PreValidateTime(parse, body.fields["endTime"]) == Success(r.value.1)
    ensures (&& body.JObj? && "startTime" in body.fields && "endTime" in body.fields
             && PreValidateTime(parse, body.fields["startTime"]).Success?
             && PreValidateTime(parse, body.fields["endTime"]).Success?) ==> r.Success?
  {
    if !body.JObj? then Failure(BadPayload(NotAnObject))
    else if "startTime" !in body.fields then Failure(Invalid(ValidationError("start_time")))
    else if "endTime" !in body.fields then Failure(Invalid(ValidationError("end_time")))
    else
      match PreValidateTime(parse, body.fields["startTime"])
      case Failure(err) => Failure(BadTime(err))
      case Success(start) =>
        match PreValidateTime(parse, body.fields["endTime"])
        case Failure(err) => Failure(BadTime(err))
        case Success(end) => Success((start, end))
  }

  /**
   * On string times the pre-validated inputs are exactly the times the
   * attrs `GoldPass` of src/models.py converts, and both reject the same.
   */
  lemma GoldPassTimesAgree(parse: string -> Option<Instant>, start: string, end: string)
    ensures var r := GoldPassTimes(parse, JObj(map["startTime" := JStr(start), "endTime" := JStr(end)]));
      && (r.Success? <==> NewGoldPass(parse, start, end).Success?)
      && (r.Success? ==> r.value == (Parsed(NewGoldPass(parse, start, end).value.startTime),
                                     Parsed(NewGoldPass(parse, start, end).value.endTime)))
      && (r.Failure? ==> r.error == BadTime(NewGoldPass(parse, start, end).error))
  {
    var body := JObj(map["startTime" := JStr(start), "endTime" := JStr(end)]);
    assert body.fields["startTime"] == JStr(start);
    assert body.fields["endTime"] == JStr(end);
    PreValidateAgreesWithConverter(parse, start);
    PreValidateAgreesWithConverter(parse, end);
  }

  /** `goldpass`: the pre-validated times of the current season. */
  method Goldpass(send: Transport, c: ClientState, parse: string -> Option<Instant>)
    returns (o: Outcome<(TimeInput, TimeInput)>)
    requires Valid(c)
    ensures Valid(o.client) && o.client.cache == c.cache
    ensures o.client.registry == E.Invoke(c.registry, E.Goldpass, map[]).registry
    ensures o.result.Failure? ==> !o.result.error.Unknown?
    ensures o.result.Success? ==>
      && |o.sent| == 1 && send(o.sent[0]).Some? && IsOk(send(o.sent[0]).value) && send(o.sent[0]).value.body.Some?
      && GoldPassTimes(parse, send(o.sent[0]).value.body.value) == Success(o.result.value)
  {
    var f := Fetch(send, c, E.Goldpass, map[], None);
    if f.result.Failure? {
      return Outcome(Failure(f.result.error), f.client, f.sent);
    }
    o := Outcome(GoldPassTimes(parse, f.result.value), f.client, f.sent);
  }
}
