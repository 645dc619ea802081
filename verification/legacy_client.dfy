/**
 * The older client of cocapi/client.py: the same server, reached by
 * relative paths under a fixed base url, with the location and clan label
 * lists fetched once and searched linearly, and the clan and player
 * payloads reshaped before they are structured into models.
 */
module LegacyClient {
  import opened Wrappers
  import opened Text
  import opened Utils
  import opened Json
  import opened Request
  import opened Models
  import opened Types
  import opened Tables
  import opened LegacyExceptions
  import C = Client

  const Uri := "https://" + "api.clashofclans.com"
  const LocationsPath := "/v1/locations"
  const ClanLabelsPath := "/v1/labels/clans"
  const ClansPath := "/v1/clans"
  const PlayersPath := "/v1/players/"
  const CurrentWarSuffix := "/currentwar"
  const WarLogSuffix := "/warlog"

  /** The two lazily filled lists, `None` until first needed. */
  datatype LegacyState = LegacyState(locations: Option<seq<Location>>, clanLabels: Option<seq<Label>>)

  const Fresh := LegacyState(None, None)

  /** A list, once fetched, is never fetched again nor replaced. */
  predicate Holds(s: LegacyState, s': LegacyState) {
    && (s.locations.Some? ==> s'.locations == s.locations)
    && (s.clanLabels.Some? ==> s'.clanLabels == s.clanLabels)
  }

  /** Why a call raised. */
  datatype LegacyFailure =
    | NoReply
      /** The `aiohttp.ClientError` of a rejected request, before its message is rendered. */
    | Refused(status: int, reason: Json, message: Json, url: string)
    | Undecodable(status: int)
    | Malformed(payload: PayloadError)
    | Unstructured(invalid: ValidationError)
    | Unknown(lookup: LegacyError)

  datatype Outcome<T> = Outcome(result: Result<T, LegacyFailure>, state: LegacyState, sent: seq<Outgoing>)

  function OfPayload<T>(r: Result<T, PayloadError>): (r': Result<T, LegacyFailure>)
    ensures r.Success? <==> r'.Success?
    ensures r.Success? ==> r'.value == r.value
    ensures r.Failure? ==> r'.error == Malformed(r.error)
  {
    match r
    case Success(v) => Success(v)
    case Failure(e) => Failure(Malformed(e))
  }

  /**
   * `_fetch` with `_validate_response`: a GET of the base url followed by
   * the path. A rejected reply raises with the status, the reply's
   * "reason" and "message" (`None` when absent) and the url; a reply that
   * is not JSON fails to decode.
   */
  method Fetch(send: C.Transport, path: string, params: Option<map<string, Json>>) returns (out: Outgoing, r: Result<Json, LegacyFailure>)
    ensures out == Outgoing("GET", Uri + path, params)
    ensures r.Success? <==> send(out).Some? && IsOk(send(out).value) && send(out).value.body.Some?
    ensures r.Success? ==> r.value == send(out).value.body.value
    ensures send(out).None? ==> r == Failure(NoReply)
    ensures send(out).Some? && send(out).value.body.None? ==> r == Failure(Undecodable(send(out).value.status))
    ensures send(out).Some? && !IsOk(send(out).value) && send(out).value.body.Some? ==>
      var resp := send(out).value;
      r == if resp.body.value.JObj?
           then Failure(Refused(resp.status, Get(resp.body.value.fields, "reason"), Get(resp.body.value.fields, "message"), resp.url))
           else Failure(Malformed(NotAnObject))
  {
    out := Outgoing("GET", Uri + path, params);
    var reply := send(out);
    if reply.None? {
      return out, Failure(NoReply);
    }
    var resp := reply.value;
    if resp.body.None? {
      return out, Failure(Undecodable(resp.status));
    }
    var body := resp.body.value;
    if IsOk(resp) {
      return out, Success(body);
    }
    if body.JObj? {
      r := Failure(Refused(resp.status, Get(body.fields, "reason"), Get(body.fields, "message"), resp.url));
    } else {
      r := Failure(Malformed(NotAnObject));
    }
  }

  /*
   * The models of cocapi/models.py keep what the server sent: no field is
   * lower-cased on the way in.
   */

  /** `structure(data, Location)`: the fields as sent. */
  function ReadStoredLocation(j: Json): (r: Result<Location, ValidationError>)
    ensures r.Success? <==> ReadLocation(j).Success?
    ensures r.Success? ==>
      && StrField(j.fields, "name") == Success(r.value.name)
      && OptStrField(j.fields, "countryCode") == Success(r.value.countryCode)
    ensures r.Success? ==> NewLocation(r.value.id, r.value.isCountry, r.value.name, r.value.countryCode) == ReadLocation(j).value
  {
    if !j.JObj? then Failure(ValidationError(""))
    else
      var id :- IntField(j.fields, "id");
      var isCountry :- BoolField(j.fields, "isCountry");
      var name :- StrField(j.fields, "name");
      var cc :- OptStrField(j.fields, "countryCode");
      Success(Location(id, isCountry, name, cc))
  }

  /** `structure(data, ClanLabel)`: the fields as sent. */
  function ReadStoredLabel(j: Json): (r: Result<Label, ValidationError>)
    ensures r.Success? <==> ReadLabel(j).Success?
    ensures r.Success? ==> StrField(j.fields, "name") == Success(r.value.name)
    ensures r.Success? ==> NewLabel(r.value.id, r.value.name, r.value.iconUrls) == ReadLabel(j).value
  {
    if !j.JObj? then Failure(ValidationError(""))
    else
      var id :- IntField(j.fields, "id");
      var name :- StrField(j.fields, "name");
      var icons :- ReadBadgeUrls(Get(j.fields, "iconUrls"));
      Success(Label(id, name, icons))
  }

  /*
   * As written, the dataclasses of cocapi/models.py name their fields in
   * snake case (`is_country`, `country_code`, `icon_urls`), and
   * `structure` looks every field up under that name, a nullable one
   * included. The server's keys are in camel case, so its payloads are
   * refused; `ReadStoredLocation` and `ReadStoredLabel` read the keys the
   * server sends.
   */

  /** `structure(data, Location)` as written. */
  function ReadStoredLocationAsWritten(j: Json): (r: Result<Location, ValidationError>)
    ensures r.Success? <==>
      && j.JObj? && IntField(j.fields, "id").Success? && BoolField(j.fields, "is_country").Success?
      && StrField(j.fields, "name").Success?
      && "country_code" in j.fields && OptStrField(j.fields, "country_code").Success?
    ensures r.Success? ==>
      && IntField(j.fields, "id") == Success(r.value.id)
      && BoolField(j.fields, "is_country") == Success(r.value.isCountry)
      && StrField(j.fields, "name") == Success(r.value.name)
      && OptStrField(j.fields, "country_code") == Success(r.value.countryCode)
  {
    if !j.JObj? then Failure(ValidationError(""))
    else
      var id :- IntField(j.fields, "id");
      var isCountry :- BoolField(j.fields, "is_country");
      var name :- StrField(j.fields, "name");
      if "country_code" !in j.fields then Failure(ValidationError("country_code"))
      else
        var cc :- OptStrField(j.fields, "country_code");
        Success(Location(id, isCountry, name, cc))
  }

  /** `structure(data, BadgeURLs)` as written: `large` may be null but must be there. */
  function ReadStoredBadgeUrlsAsWritten(j: Json): (r: Result<BadgeUrls, ValidationError>)
    ensures r.Success? <==> ReadBadgeUrls(j).Success? && "large" in j.fields
    ensures r.Success? ==> r == ReadBadgeUrls(j)
  {
    if j.JObj? && "large" !in j.fields then Failure(ValidationError("large")) else ReadBadgeUrls(j)
  }

  /** `structure(data, ClanLabel)` as written. */
  function ReadStoredLabelAsWritten(j: Json): (r: Result<Label, ValidationError>)
    ensures r.Success? <==>
      && j.JObj? && IntField(j.fields, "id").Success? && StrField(j.fields, "name").Success?
      && "icon_urls" in j.fields && ReadStoredBadgeUrlsAsWritten(j.fields["icon_urls"]).Success?
    ensures r.Success? ==>
      && IntField(j.fields, "id") == Success(r.value.id)
      && StrField(j.fields, "name") == Success(r.value.name)
      && ReadStoredBadgeUrlsAsWritten(j.fields["icon_urls"]) == Success(r.value.iconUrls)
  {
    if !j.JObj? then Failure(ValidationError(""))
    else
      var id :- IntField(j.fields, "id");
      var name :- StrField(j.fields, "name");
      if "icon_urls" !in j.fields then Failure(ValidationError("icon_urls"))
      else
        var icons :- ReadStoredBadgeUrlsAsWritten(j.fields["icon_urls"]);
        Success(Label(id, name, icons))
  }

  /** A location as the server sends it is refused as written and kept by `ReadStoredLocation`. */
  lemma WireLocationRefused()
    ensures var j := JObj(map["id" := JInt(32000086), "name" := JStr("Finland"),
                              "isCountry" := JBool(true), "countryCode" := JStr("FI")]);
      && ReadStoredLocationAsWritten(j) == Failure(ValidationError("is_country"))
      && ReadStoredLocation(j) == Success(Location(32000086, true, "Finland", Some("FI")))
  {
    var j := JObj(map["id" := JInt(32000086), "name" := JStr("Finland"),
                      "isCountry" := JBool(true), "countryCode" := JStr("FI")]);
    assert "is_country" !in j.fields;
  }

  /** A clan label as the server sends it is refused as written and kept by `ReadStoredLabel`. */
  lemma WireLabelRefused()
    ensures var icons := JObj(map["small" := JStr("s"), "medium" := JStr("m")]);
      var j := JObj(map["id" := JInt(56000000), "name" := JStr("Clan Wars"), "iconUrls" := icons]);
      && ReadStoredLabelAsWritten(j) == Failure(ValidationError("icon_urls"))
      && ReadStoredLabel(j) == Success(Label(56000000, "Clan Wars", BadgeUrls(Some("s"), Some("m"), None)))
  {
    var icons := JObj(map["small" := JStr("s"), "medium" := JStr("m")]);
    var j := JObj(map["id" := JInt(56000000), "name" := JStr("Clan Wars"), "iconUrls" := icons]);
    assert "icon_urls" !in j.fields && "large" !in icons.fields;
  }

  /** On lower-case data the stored location is exactly what the lower-casing model builds. */
  lemma StoredLocationLowerCase(j: Json)
    requires ReadStoredLocation(j).Success?
    requires var l := ReadStoredLocation(j).value;
      IsLowerCase(l.name) && (l.countryCode.Some? ==> IsLowerCase(l.countryCode.value))
    ensures ReadStoredLocation(j) == ReadLocation(j)
  {
    var l := ReadStoredLocation(j).value;
    LowerCaseFixed(l.name);
    if l.countryCode.Some? {
      LowerCaseFixed(l.countryCode.value);
    }
  }

  lemma StoredLabelLowerCase(j: Json)
    requires ReadStoredLabel(j).Success? && IsLowerCase(ReadStoredLabel(j).value.name)
    ensures ReadStoredLabel(j) == ReadLabel(j)
  {
    LowerCaseFixed(ReadStoredLabel(j).value.name);
  }

  /** The reply to `out` was a success whose "items" list every item of which `read` accepts, giving `list`. */
  predicate Listed<T(==)>(send: C.Transport, out: Outgoing, read: Json -> Result<T, ValidationError>, list: seq<T>) {
    && send(out).Some? && IsOk(send(out).value) && send(out).value.body.Some?
    && var items := ListMember(send(out).value.body.value, "items");
    && items.Success? && C.ReadAll(items.value, read) == Success(list)
  }

  /** `[structure(data, Model) for data in self._fetch(path)["items"]]` */
  method LoadList<T(==)>(send: C.Transport, path: string, read: Json -> Result<T, ValidationError>)
    returns (out: Outgoing, r: Result<seq<T>, LegacyFailure>)
    ensures out == Outgoing("GET", Uri + path, None)
    ensures r.Success? ==> Listed(send, out, read, r.value)
    ensures r.Failure? ==> !r.error.Unknown?
  {
    var body;
    out, body := Fetch(send, path, None);
    if body.Failure? {
      return out, Failure(body.error);
    }
    var items := ListMember(body.value, "items");
    if items.Failure? {
      return out, Failure(Malformed(items.error));
    }
    var all := C.ReadAll(items.value, read);
    if all.Failure? {
      return out, Failure(Unstructured(all.error));
    }
    r := Success(all.value);
  }

  /** `_init_location_list`: fetch the locations only when they are not there yet. */
  method InitLocations(send: C.Transport, s: LegacyState) returns (o: Outcome<seq<Location>>)
    ensures s.locations.Some? ==> o == Outcome(Success(s.locations.value), s, [])
    ensures s.locations.None? ==> o.sent == [Outgoing("GET", Uri + LocationsPath, None)]
    ensures s.locations.None? && o.result.Success? ==> Listed(send, o.sent[0], ReadStoredLocation, o.result.value)
    ensures o.result.Success? ==> o.state == s.(locations := Some(o.result.value))
    ensures o.result.Failure? ==> o.state == s && !o.result.error.Unknown?
  {
    if s.locations.Some? {
      return Outcome(Success(s.locations.value), s, []);
    }
    var out, r := LoadList(send, LocationsPath, ReadStoredLocation);
    if r.Failure? {
      return Outcome(Failure(r.error), s, [out]);
    }
    o := Outcome(r, s.(locations := Some(r.value)), [out]);
  }

  /** `_init_clan_labels_list` */
  method InitClanLabels(send: C.Transport, s: LegacyState) returns (o: Outcome<seq<Label>>)
    ensures s.clanLabels.Some? ==> o == Outcome(Success(s.clanLabels.value), s, [])
    ensures s.clanLabels.None? ==> o.sent == [Outgoing("GET", Uri + ClanLabelsPath, None)]
    ensures s.clanLabels.None? && o.result.Success? ==> Listed(send, o.sent[0], ReadStoredLabel, o.result.value)
    ensures o.result.Success? ==> o.state == s.(clanLabels := Some(o.result.value))
    ensures o.result.Failure? ==> o.state == s && !o.result.error.Unknown?
  {
    if s.clanLabels.Some? {
      return Outcome(Success(s.clanLabels.value), s, []);
    }
    var out, r := LoadList(send, ClanLabelsPath, ReadStoredLabel);
    if r.Failure? {
      return Outcome(Failure(r.error), s, [out]);
    }
    o := Outcome(r, s.(clanLabels := Some(r.value)), [out]);
  }

  /**
   * `_get_location_id`: the id of the first location, in list order, whose
   * stored country code or name equals the lower-cased input. A miss
   * raises `UnknownLocationError` with the lower-cased input and the
   * default message.
   */
  method LocationId(send: C.Transport, s: LegacyState, location: string) returns (o: Outcome<int>)
    ensures Holds(s, o.state) && o.state.clanLabels == s.clanLabels
    ensures s.locations.Some? ==> o.state == s && o.sent == []
    ensures |o.sent| <= 1
    ensures o.result.Success? ==>
      && o.state.locations.Some?
      && var found := FirstLocation(o.state.locations.value, Lower(location));
      && found.Some? && o.result.value == found.value.id
    ensures o.result.Failure? ==>
      (o.result.error.Unknown? <==> o.state.locations.Some? && FirstLocation(o.state.locations.value, Lower(location)).None?)
    ensures o.result.Failure? && o.result.error.Unknown? ==>
      o.result.error.lookup == NewLegacyError(Cocapi, UnknownLocation, Lower(location), None)
  {
    var init := InitLocations(send, s);
    if init.result.Failure? {
      return Outcome(Failure(init.result.error), init.state, init.sent);
    }
    var found := FirstLocation(init.result.value, Lower(location));
    if found.None? {
      return Outcome(Failure(Unknown(NewLegacyError(Cocapi, UnknownLocation, Lower(location), None))), init.state, init.sent);
    }
    o := Outcome(Success(found.value.id), init.state, init.sent);
  }

  /** `_get_clan_label_id`: the id of the first label whose stored name equals the lower-cased input. */
  method ClanLabelId(send: C.Transport, s: LegacyState, name: string) returns (o: Outcome<int>)
    ensures Holds(s, o.state) && o.state.locations == s.locations
    ensures s.clanLabels.Some? ==> o.state == s && o.sent == []
    ensures |o.sent| <= 1
    ensures o.result.Success? ==>
      && o.state.clanLabels.Some?
      && var found := FirstLabel(o.state.clanLabels.value, Lower(name));
      && found.Some? && o.result.value == found.value.id
    ensures o.result.Failure? ==>
      (o.result.error.Unknown? <==> o.state.clanLabels.Some? && FirstLabel(o.state.clanLabels.value, Lower(name)).None?)
    ensures o.result.Failure? && o.result.error.Unknown? ==>
      o.result.error.lookup == NewLegacyError(Cocapi, UnknownClanLabel, Lower(name), None)
  {
    var init := InitClanLabels(send, s);
    if init.result.Failure? {
      return Outcome(Failure(init.result.error), init.state, init.sent);
    }
    var found := FirstLabel(init.result.value, Lower(name));
    if found.None? {
      return Outcome(Failure(Unknown(NewLegacyError(Cocapi, UnknownClanLabel, Lower(name), None))), init.state, init.sent);
    }
    o := Outcome(Success(found.value.id), init.state, init.sent);
  }

  /**
   * The search compares against the stored values as they are: a location
   * whose stored name is not lower case is never found by that name,
   * whatever the letter case of the input.
   */
  lemma StoredCaseMatters(l: Location, input: string)
    requires !IsLowerCase(l.name)
    ensures Lower(input) != l.name
  {
    LowerIsLowerCase(input);
  }

  /**
   * On a list whose names and codes are lower case and belong to one
   * location each, the older search finds what the newer dictionary holds
   * under the lower-cased input.
   */
  lemma SearchAgreesWithTable(locations: seq<Location>, input: string)
    requires KeysUnique(locations, LocationKeys)
    requires |input| > 0
    ensures var t := BuildTable(locations, LocationKeys);
      FirstLocation(locations, Lower(input)) == Lookup(t, input)
  {
    FirstMatchAgreesWithTable(locations, Lower(input));
  }

  /*
   * `clans`: every filter that is not `None` is sent, whatever its value;
   * the location and the labels are resolved by the linear searches.
   */

  /** The value `clans` puts under one search key, `None` when the caller left the filter out. */
  function ParamValue(q: C.ClanSearch, locationId: Option<int>, labelIds: Option<seq<int>>, k: string): Option<Json> {
    if k == "name" then (if q.name.Some? then Some(JStr(q.name.value)) else None)
    else if k == "minMembers" then (if q.minMembers.Some? then Some(JInt(q.minMembers.value)) else None)
    else if k == "maxMembers" then (if q.maxMembers.Some? then Some(JInt(q.maxMembers.value)) else None)
    else if k == "minClanPoints" then (if q.minClanPoints.Some? then Some(JInt(q.minClanPoints.value)) else None)
    else if k == "minClanLevel" then (if q.minClanLevel.Some? then Some(JInt(q.minClanLevel.value)) else None)
    else if k == "warFrequency" then (if q.warFrequency.Some? then Some(JStr(q.warFrequency.value)) else None)
    else if k == "locationId" then (if locationId.Some? then Some(JInt(locationId.value)) else None)
    else if k == "labelIds" then (if labelIds.Some? then Some(JStr(C.IdList(labelIds.value))) else None)
    else None
  }

  /** The `params` dict of `clans`, given the resolved location and label ids. */
  function Params(q: C.ClanSearch, locationId: Option<int>, labelIds: Option<seq<int>>): (p: map<string, Json>)
    ensures p.Keys <= C.SearchKeys
    ensures forall k :: k in C.SearchKeys ==>
      && (k in p <==> ParamValue(q, locationId, labelIds, k).Some?)
      && (k in p ==> p[k] == ParamValue(q, locationId, labelIds, k).value)
  {
    map k | k in C.SearchKeys && ParamValue(q, locationId, labelIds, k).Some? :: ParamValue(q, locationId, labelIds, k).value
  }

  /** Whether the caller gave the filter sent under key `k` at all. */
  predicate Given(q: C.ClanSearch, k: string) {
    if k == "name" then q.name.Some?
    else if k == "minMembers" then q.minMembers.Some?
    else if k == "maxMembers" then q.maxMembers.Some?
    else if k == "minClanPoints" then q.minClanPoints.Some?
    else if k == "minClanLevel" then q.minClanLevel.Some?
    else if k == "warFrequency" then q.warFrequency.Some?
    else if k == "locationId" then q.location.Some?
    else k == "labelIds" && q.labels.Some?
  }

  /** With the location and the labels resolved exactly when given, a key is sent exactly when its filter was given. */
  lemma ParamsGiven(q: C.ClanSearch, locationId: Option<int>, labelIds: Option<seq<int>>)
    requires q.location.Some? <==> locationId.Some?
    requires q.labels.Some? <==> labelIds.Some?
    ensures forall k :: k in Params(q, locationId, labelIds) <==> Given(q, k)
  {
    var p := Params(q, locationId, labelIds);
    forall k
      ensures k in p <==> Given(q, k)
    {
      if k !in C.SearchKeys {
        assert !Given(q, k);
      }
    }
  }

  /**
   * The two clients send the same search when every filter given is
   * truthy; they differ only on filters given as 0 or "".
   */
  lemma ParamsAgreeOnTruthyFilters(q: C.ClanSearch, locationId: Option<int>, labelIds: Option<seq<int>>)
    requires TruthyWhenGiven(q)
    ensures Params(q, locationId, labelIds) == C.SearchParams(q, locationId, labelIds)
  {
    forall k | k in C.SearchKeys
      ensures ParamValue(q, locationId, labelIds, k) == C.SearchValue(q, locationId, labelIds, k)
    {
      ValueAgrees(q, locationId, labelIds, k);
    }
  }

  /** Every filter other than the location and the labels is either left out or truthy. */
  predicate TruthyWhenGiven(q: C.ClanSearch) {
    && (q.name.Some? ==> C.TruthyText(q.name))
    && (q.minMembers.Some? ==> C.TruthyNumber(q.minMembers))
    && (q.maxMembers.Some? ==> C.TruthyNumber(q.maxMembers))
    && (q.minClanPoints.Some? ==> C.TruthyNumber(q.minClanPoints))
    && (q.minClanLevel.Some? ==> C.TruthyNumber(q.minClanLevel))
    && (q.warFrequency.Some? ==> C.TruthyText(q.warFrequency))
  }

  lemma ValueAgrees(q: C.ClanSearch, locationId: Option<int>, labelIds: Option<seq<int>>, k: string)
    requires TruthyWhenGiven(q)
    ensures ParamValue(q, locationId, labelIds, k) == C.SearchValue(q, locationId, labelIds, k)
  {
  }

  /** A minimum of zero members is sent by this client and dropped by the newer one. */
  lemma ZeroFilterSentHere()
    ensures var q := C.ClanSearch(None, Some(0), None, None, None, None, None, None);
      "minMembers" in Params(q, None, None) && "minMembers" !in C.SearchParams(q, None, None)
  {
    var q := C.ClanSearch(None, Some(0), None, None, None, None, None, None);
    assert ParamValue(q, None, None, "minMembers").Some?;
    assert C.SearchValue(q, None, None, "minMembers").None?;
  }

  /** `label` resolves, in the labels `s` holds, to `id`. */
  predicate LabelResolved(s: LegacyState, name: string, id: int) {
    s.clanLabels.Some? && FirstLabel(s.clanLabels.value, Lower(name)).Some?
    && FirstLabel(s.clanLabels.value, Lower(name)).value.id == id
  }

  /** The error for a label the search misses, naming the label lower-cased. */
  predicate LabelMiss(labels: seq<string>, err: LegacyFailure) {
    exists i :: 0 <= i < |labels| && err == Unknown(NewLegacyError(Cocapi, UnknownClanLabel, Lower(labels[i]), None))
  }

  /** A miss among the later labels is a miss among all of them. */
  lemma LabelMissLater(labels: seq<string>, err: LegacyFailure)
    requires |labels| > 0 && LabelMiss(labels[1..], err)
    ensures LabelMiss(labels, err)
  {
    var i :| 0 <= i < |labels[1..]| && err == Unknown(NewLegacyError(Cocapi, UnknownClanLabel, Lower(labels[1..][i]), None));
    assert labels[1..][i] == labels[i + 1];
  }

  /** The first label's id in front of the rest's ids resolves every label, in order. */
  lemma LabelsResolvedCons(s: LegacyState, labels: seq<string>, first: int, rest: seq<int>)
    requires |labels| > 0 && |rest| == |labels| - 1 && LabelResolved(s, labels[0], first)
    requires forall i :: 0 <= i < |rest| ==> LabelResolved(s, labels[1..][i], rest[i])
    ensures forall i :: 0 <= i < |labels| ==> LabelResolved(s, labels[i], ([first] + rest)[i])
  {
    forall i | 1 <= i < |labels|
      ensures LabelResolved(s, labels[i], ([first] + rest)[i])
    {
      assert labels[i] == labels[1..][i - 1];
    }
  }

  /** `[await self._get_clan_label_id(label) for label in labels]`, in caller order. */
  method ResolveLabels(send: C.Transport, s: LegacyState, labels: seq<string>) returns (o: Outcome<seq<int>>)
    ensures Holds(s, o.state) && o.state.locations == s.locations
    ensures |labels| == 0 ==> o == Outcome(Success([]), s, [])
    ensures o.result.Success? ==> |o.result.value| == |labels|
    ensures o.result.Success? ==> forall i :: 0 <= i < |labels| ==> LabelResolved(o.state, labels[i], o.result.value[i])
    ensures o.result.Failure? && o.result.error.Unknown? ==> LabelMiss(labels, o.result.error)
    decreases |labels|
  {
    if |labels| == 0 {
      return Outcome(Success([]), s, []);
    }
    var first := ClanLabelId(send, s, labels[0]);
    if first.result.Failure? {
      if first.result.error.Unknown? {
        assert labels[0] == labels[0];
      }
      return Outcome(Failure(first.result.error), first.state, first.sent);
    }
    var rest := ResolveLabels(send, first.state, labels[1..]);
    if rest.result.Failure? {
      if rest.result.error.Unknown? {
        LabelMissLater(labels, rest.result.error);
      }
      return Outcome(Failure(rest.result.error), rest.state, first.sent + rest.sent);
    }
    LabelsResolvedCons(rest.state, labels, first.result.value, rest.result.value);
    o := Outcome(Success([first.result.value] + rest.result.value), rest.state, first.sent + rest.sent);
  }

  /** The location id a successful `clans` resolved, read back from the list it left behind. */
  function LocationIdIn(s: LegacyState, q: C.ClanSearch): Option<int> {
    if q.location.Some? && s.locations.Some? && FirstLocation(s.locations.value, Lower(q.location.value)).Some?
    then Some(FirstLocation(s.locations.value, Lower(q.location.value)).value.id)
    else None
  }

  /** The label ids a successful `clans` resolved, read back from the list it left behind. */
  function LabelIdsIn(s: LegacyState, q: C.ClanSearch): Option<seq<int>> {
    if q.labels.Some? then
      var names := C.LabelNames(q.labels.value);
      if |names| == 0 then Some([])
      else if s.clanLabels.Some? && forall i :: 0 <= i < |names| ==> FirstLabel(s.clanLabels.value, Lower(names[i])).Some?
      then Some(seq(|names|, i requires 0 <= i < |names| => FirstLabel(s.clanLabels.value, Lower(names[i])).value.id))
      else None
    else None
  }

  /** The `if location is not None:` step of `clans`. */
  method LocationStep(send: C.Transport, s: LegacyState, q: C.ClanSearch) returns (o: Outcome<Option<int>>)
    ensures Holds(s, o.state) && o.state.clanLabels == s.clanLabels
    ensures o.result.Success? ==> o.result.value == LocationIdIn(o.state, q)
    ensures o.result.Success? ==> (q.location.Some? <==> o.result.value.Some?)
    ensures q.location.None? ==> o == Outcome(Success(None), s, [])
    ensures o.result.Failure? && o.result.error.Unknown? ==>
      o.result.error == Unknown(NewLegacyError(Cocapi, UnknownLocation, Lower(q.location.value), None))
  {
    if q.location.None? {
      return Outcome(Success(None), s, []);
    }
    var g := LocationId(send, s, q.location.value);
    o := Outcome(if g.result.Success? then Success(Some(g.result.value)) else Failure(g.result.error), g.state, g.sent);
  }

  /** The `if labels is not None:` step of `clans`. */
  method LabelStep(send: C.Transport, s: LegacyState, q: C.ClanSearch) returns (o: Outcome<Option<seq<int>>>)
    ensures Holds(s, o.state) && o.state.locations == s.locations
    ensures o.result.Success? ==> o.result.value == LabelIdsIn(o.state, q)
    ensures o.result.Success? ==> (q.labels.Some? <==> o.result.value.Some?)
    ensures q.labels.None? ==> o == Outcome(Success(None), s, [])
    ensures o.result.Failure? && o.result.error.Unknown? ==> LabelMiss(C.LabelNames(q.labels.value), o.result.error)
  {
    if q.labels.None? {
      return Outcome(Success(None), s, []);
    }
    var names := C.LabelNames(q.labels.value);
    var r := ResolveLabels(send, s, names);
    if r.result.Failure? {
      return Outcome(Failure(r.result.error), r.state, r.sent);
    }
    if |names| > 0 {
      assert LabelResolved(r.state, names[0], r.result.value[0]);
      var t := r.state.clanLabels.value;
      assert r.result.value == seq(|names|, i requires 0 <= i < |names| => FirstLabel(t, Lower(names[i])).value.id);
    }
    o := Outcome(Success(Some(r.result.value)), r.state, r.sent);
  }

  /** `[item["tag"] for item in data["items"]]` */
  function ItemTags(body: Json): (r: Result<seq<Json>, LegacyFailure>)
    ensures r.Success? <==> C.ItemTags(body).Success?
    ensures r.Success? ==> r.value == C.ItemTags(body).value
    ensures r.Failure? ==> r.error.Malformed?
  {
    match ListMember(body, "items")
    case Failure(e) => Failure(Malformed(e))
    case Success(items) => OfPayload(Tags(items))
  }

  /** The search request itself, once the location and the labels are resolved. */
  method Search(send: C.Transport, s: LegacyState, q: C.ClanSearch, locationId: Option<int>, labelIds: Option<seq<int>>)
    returns (o: Outcome<seq<Json>>)
    requires q.location.Some? <==> locationId.Some?
    requires q.labels.Some? <==> labelIds.Some?
    ensures o.state == s && |o.sent| == 1
    ensures o.sent[0] == Outgoing("GET", Uri + ClansPath, Some(Params(q, locationId, labelIds)))
    ensures forall k :: k in o.sent[0].params.value <==> Given(q, k)
    ensures o.result.Failure? ==> !o.result.error.Unknown?
    ensures o.result.Success? ==>
      send(o.sent[0]).Some? && send(o.sent[0]).value.body.Some? && o.result == ItemTags(send(o.sent[0]).value.body.value)
  {
    ParamsGiven(q, locationId, labelIds);
    var out, body := Fetch(send, ClansPath, Some(Params(q, locationId, labelIds)));
    if body.Failure? {
      return Outcome(Failure(body.error), s, [out]);
    }
    o := Outcome(ItemTags(body.value), s, [out]);
  }

  /**
   * The last request of `sent` is the search, with the ids read back from
   * the lists of `s`, and it carries exactly the filters given.
   */
  ghost predicate SearchedLast(sent: seq<Outgoing>, s: LegacyState, q: C.ClanSearch) {
    && |sent| >= 1
    && var last := sent[|sent| - 1];
    && last == Outgoing("GET", Uri + ClansPath, Some(Params(q, LocationIdIn(s, q), LabelIdsIn(s, q))))
    && (forall k :: k in last.params.value <==> Given(q, k))
  }

  /** `clans` once the location is resolved: the labels, then the search. */
  method ClansAt(send: C.Transport, s: LegacyState, q: C.ClanSearch, locationId: Option<int>, prior: seq<Outgoing>)
    returns (o: Outcome<seq<Json>>)
    requires locationId == LocationIdIn(s, q) && (q.location.Some? <==> locationId.Some?)
    ensures Holds(s, o.state) && o.state.locations == s.locations
    ensures o.result.Success? ==> SearchedLast(o.sent, o.state, q)
    ensures o.result.Failure? && o.result.error.Unknown? ==> q.labels.Some? && LabelMiss(C.LabelNames(q.labels.value), o.result.error)
  {
    var labs := LabelStep(send, s, q);
    if labs.result.Failure? {
      return Outcome(Failure(labs.result.error), labs.state, prior + labs.sent);
    }
    var f := Search(send, labs.state, q, locationId, labs.result.value);
    var sent := prior + labs.sent + f.sent;
    o := Outcome(f.result, f.state, sent);
    if f.result.Success? {
      assert sent[|sent| - 1] == f.sent[0];
    }
  }

  /** `clans`: the tags of the clans the search returns. */
  method Clans(send: C.Transport, s: LegacyState, q: C.ClanSearch) returns (o: Outcome<seq<Json>>)
    ensures Holds(s, o.state)
    ensures o.result.Success? ==> SearchedLast(o.sent, o.state, q)
    ensures o.result.Failure? && o.result.error.Unknown? ==>
      || (q.location.Some? && o.result.error == Unknown(NewLegacyError(Cocapi, UnknownLocation, Lower(q.location.value), None)))
      || (q.labels.Some? && LabelMiss(C.LabelNames(q.labels.value), o.result.error))
  {
    var loc := LocationStep(send, s, q);
    if loc.result.Failure? {
      return Outcome(Failure(loc.result.error), loc.state, loc.sent);
    }
    o := ClansAt(send, loc.state, q, loc.result.value, loc.sent);
  }

  /*
   * `clan`: the clan object with its member list reduced to tags and a war
   * record gathered from every key that starts with "war", filed under
   * the rest of the key in lower case. A decoded object does not remember
   * the order of its keys, so that order is given as `order`: two keys
   * that agree after "war" up to case land on one name, and the later
   * one wins.
   */

  function ClanPath(tag: string): string {
    ClansPath + "/" + ShapeTag(tag)
  }

  /** The two requests made when the war log is public, in the order they are gathered. */
  function WarRequests(tag: string): seq<Outgoing> {
    [Outgoing("GET", Uri + (ClanPath(tag) + CurrentWarSuffix), None), Outgoing("GET", Uri + (ClanPath(tag) + WarLogSuffix), None)]
  }

  /** `key.startswith("war")` */
  predicate IsWarKey(key: string) {
    |key| >= 3 && key[..3] == "war"
  }

  /** `key[3:].lower()` */
  function ShortName(key: string): string
    requires IsWarKey(key)
  {
    Lower(key[3..])
  }

  /** A key of the payload, in the given order, with its value when the payload has it. */
  type Entry = (string, Option<Json>)

  function Entries(fields: map<string, Json>, order: seq<string>): seq<Entry> {
    seq(|order|, i requires 0 <= i < |order| => (order[i], if order[i] in fields then Some(fields[order[i]]) else None))
  }

  /** The name a present war key is filed under; other entries are not filed. */
  function EntryNames(e: Entry): seq<string> {
    if e.1.Some? && IsWarKey(e.0) then [ShortName(e.0)] else []
  }

  /** `{key[3:].lower(): value for key, value in clan_data.items() if key.startswith("war")}` */
  function WarSection(fields: map<string, Json>, order: seq<string>): map<string, Json> {
    var t := BuildTable(Entries(fields, order), EntryNames);
    map n | n in t :: if t[n].1.Some? then t[n].1.value else JNull
  }

  /** The `i`-th key in the order is a war key of the payload filed under `n`. */
  predicate FiledAt(fields: map<string, Json>, order: seq<string>, i: int, n: string) {
    0 <= i < |order| && order[i] in fields && IsWarKey(order[i]) && ShortName(order[i]) == n
  }

  /** An entry is filed under `n` iff its key is a war key of the payload with that name. */
  lemma EntryFiled(fields: map<string, Json>, order: seq<string>, i: int, n: string)
    requires 0 <= i < |order|
    ensures n in EntryNames(Entries(fields, order)[i]) <==> FiledAt(fields, order, i, n)
  {
  }

  /** A name is in the war record iff some war key of the payload is filed under it. */
  lemma WarSectionNames(fields: map<string, Json>, order: seq<string>, n: string)
    ensures n in WarSection(fields, order) <==> exists i :: FiledAt(fields, order, i, n)
  {
    forall i | 0 <= i < |order| {
      EntryFiled(fields, order, i, n);
    }
  }

  /** Each name holds the value of the last war key filed under it. */
  lemma WarSectionLastWins(fields: map<string, Json>, order: seq<string>, n: string)
    requires n in WarSection(fields, order)
    ensures exists i :: FiledAt(fields, order, i, n) && WarSection(fields, order)[n] == fields[order[i]] &&
                        forall j :: i < j < |order| ==> !FiledAt(fields, order, j, n)
  {
    var i := LastFiler(Entries(fields, order), EntryNames, n);
    EntryFiled(fields, order, i, n);
    forall j | i < j < |order|
      ensures !FiledAt(fields, order, j, n)
    {
      EntryFiled(fields, order, j, n);
    }
  }

  /**
   * Without a clash of names, the record is the war keys renamed: a war
   * key of the payload that comes in the order, and that no other war key
   * shares a name with, keeps its value under its name.
   */
  lemma WarSectionRenames(fields: map<string, Json>, order: seq<string>, k: string)
    requires k in fields && k in order && IsWarKey(k)
    requires forall k' :: k' in fields && IsWarKey(k') && ShortName(k') == ShortName(k) ==> k' == k
    ensures ShortName(k) in WarSection(fields, order) && WarSection(fields, order)[ShortName(k)] == fields[k]
  {
    var i :| 0 <= i < |order| && order[i] == k;
    WarSectionNames(fields, order, ShortName(k));
    assert FiledAt(fields, order, i, ShortName(k));
    WarSectionLastWins(fields, order, ShortName(k));
  }

  lemma WinsNames()
    ensures IsWarKey("warWins") && ShortName("warWins") == "wins"
    ensures IsWarKey("warwins") && ShortName("warwins") == "wins"
  {
    assert "warWins"[..3] == "war" && "warWins"[3..] == "Wins";
    assert "warwins"[..3] == "war" && "warwins"[3..] == "wins";
    assert Lower("Wins") == "wins" by {
      assert LowerChar('W') == 'w';
    }
    LowerCaseFixed("wins");
  }

  /** A payload with two spellings of one war key, "warWins" sent first. */
  const Spellings := map["warWins" := JInt(1), "warwins" := JInt(2)]
  const SpellingsOrder := ["warWins", "warwins"]

  lemma SpellingsNames(n: string)
    ensures n in WarSection(Spellings, SpellingsOrder) <==> n == "wins"
  {
    WinsNames();
    WarSectionNames(Spellings, SpellingsOrder, n);
    if n == "wins" {
      assert FiledAt(Spellings, SpellingsOrder, 1, n);
    }
  }

  lemma SpellingsValue()
    requires "wins" in WarSection(Spellings, SpellingsOrder)
    ensures WarSection(Spellings, SpellingsOrder)["wins"] == JInt(2)
  {
    WinsNames();
    assert FiledAt(Spellings, SpellingsOrder, 1, "wins");
    WarSectionLastWins(Spellings, SpellingsOrder, "wins");
  }

  /** Two spellings of one war key: the one sent later is what the record keeps. */
  lemma LaterSpellingWins()
    ensures WarSection(Spellings, SpellingsOrder).Keys == {"wins"}
    ensures WarSection(Spellings, SpellingsOrder)["wins"] == JInt(2)
  {
    var war := WarSection(Spellings, SpellingsOrder);
    forall n
      ensures n in war.Keys <==> n in {"wins"}
    {
      SpellingsNames(n);
    }
    SpellingsValue();
  }

  /** The record's names are lower case. */
  lemma WarSectionLowerCase(fields: map<string, Json>, order: seq<string>, n: string)
    requires n in WarSection(fields, order)
    ensures IsLowerCase(n)
  {
    WarSectionNames(fields, order, n);
    var i :| FiledAt(fields, order, i, n);
    LowerIsLowerCase(order[i][3..]);
  }

  /** So the popped flag, which is not, never overwrites one of them. */
  lemma FlagApart(fields: map<string, Json>, order: seq<string>)
    ensures "isWarLogPublic" !in WarSection(fields, order)
  {
    var flag := "isWarLogPublic";
    assert !IsLowerCase(flag) by {
      assert IsUpperChar(flag[2]);
    }
    if flag in WarSection(fields, order) {
      WarSectionLowerCase(fields, order, flag);
    }
  }

  /**
   * The record after `clan_data["war"]["isWarLogPublic"] = clan_data.pop("isWarLogPublic")`:
   * the gathered keys and the flag, or the `KeyError` of a payload without one.
   */
  function WarRecord(fields: map<string, Json>, order: seq<string>): (r: Result<map<string, Json>, PayloadError>)
    ensures r.Success? <==> "isWarLogPublic" in fields
    ensures r.Failure? ==> r.error == MissingKey("isWarLogPublic")
    ensures r.Success? ==>
      && r.value.Keys == WarSection(fields, order).Keys + {"isWarLogPublic"}
      && r.value["isWarLogPublic"] == fields["isWarLogPublic"]
      && forall n :: n in WarSection(fields, order) ==> r.value[n] == WarSection(fields, order)[n]
  {
    FlagApart(fields, order);
    if "isWarLogPublic" in fields then Success(WarSection(fields, order)["isWarLogPublic" := fields["isWarLogPublic"]])
    else Failure(MissingKey("isWarLogPublic"))
  }

  /**
   * The record completed from the current war and the war log: the state
   * and the log's items always, the current war itself only when the
   * clan is at war.
   */
  function AttachWar(record: map<string, Json>, warData: Json, warLog: Json): (r: Result<map<string, Json>, PayloadError>)
    ensures r.Success? <==> Member(warData, "state").Success? && Member(warLog, "items").Success?
    ensures r.Success? ==>
      var state := warData.fields["state"];
      && r.value.Keys == record.Keys + {"state", "log"} + (if state != JStr(C.NotInWar) then {"currentwar"} else {})
      && r.value["state"] == state
      && r.value["log"] == warLog.fields["items"]
      && (state != JStr(C.NotInWar) ==> r.value["currentwar"] == warData)
      && forall k :: k in record && k != "state" && k != "log" && k != "currentwar" ==> r.value[k] == record[k]
  {
    var state :- Member(warData, "state");
    var log :- Member(warLog, "items");
    var w := record["state" := state]["log" := log];
    Success(if state != JStr(C.NotInWar) then w["currentwar" := warData] else w)
  }

  /**
   * The war record `clan` returns from `record`, given how many further
   * requests it made: none when the war log is private, the current war
   * and the war log when it is public.
   */
  predicate WarShape(record: map<string, Json>, war: map<string, Json>, requests: nat) {
    && "isWarLogPublic" in record
    && (requests == 0 || requests == 2)
    && (requests == 2 <==> Truthy(record["isWarLogPublic"]))
    && (requests == 0 ==> war == record)
    && (requests == 2 ==> && "state" in war && "log" in war
                          && "isWarLogPublic" in war && war["isWarLogPublic"] == record["isWarLogPublic"]
                          && ("currentwar" in war <==> "currentwar" in record || war["state"] != JStr(C.NotInWar)))
  }

  /** The clan payload `out` is `fields` without the flag, with a war record of that shape under "war". */
  predicate ClanShape(out: Json, fields: map<string, Json>, order: seq<string>, requests: nat) {
    && WarRecord(fields, order).Success?
    && out.JObj? && "war" in out.fields && out.fields["war"].JObj?
    && out.fields == (fields - {"isWarLogPublic"})["war" := out.fields["war"]]
    && WarShape(WarRecord(fields, order).value, out.fields["war"].fields, requests)
  }

  /**
   * The two gathered requests: both go out, and a failure of the current
   * war is reported before one of the war log.
   */
  method FetchWar(send: C.Transport, s: LegacyState, tag: string) returns (o: Outcome<(Json, Json)>)
    ensures o.state == s && o.sent == WarRequests(tag)
    ensures o.result.Success? <==> C.Replied(send, o.sent[0]) && C.Replied(send, o.sent[1])
    ensures o.result.Success? ==> o.result.value == (send(o.sent[0]).value.body.value, send(o.sent[1]).value.body.value)
    ensures o.result.Failure? ==> !o.result.error.Unknown?
  {
    var out1, war := Fetch(send, ClanPath(tag) + CurrentWarSuffix, None);
    var out2, log := Fetch(send, ClanPath(tag) + WarLogSuffix, None);
    var r: Result<(Json, Json), LegacyFailure> :=
      if war.Failure? then Failure(war.error)
      else if log.Failure? then Failure(log.error)
      else Success((war.value, log.value));
    o := Outcome(r, s, [out1, out2]);
  }

  /** Both war requests were answered with a body, and the two bodies complete `record`. */
  predicate RepliesComplete(send: C.Transport, sent: seq<Outgoing>, record: map<string, Json>) {
    && |sent| == 2 && C.Replied(send, sent[0]) && C.Replied(send, sent[1])
    && AttachWar(record, send(sent[0]).value.body.value, send(sent[1]).value.body.value).Success?
  }

  /** `war` is the record the current war's and the war log's replies complete `record` to. */
  predicate WarReplies(send: C.Transport, sent: seq<Outgoing>, record: map<string, Json>, war: map<string, Json>) {
    && RepliesComplete(send, sent, record)
    && AttachWar(record, send(sent[0]).value.body.value, send(sent[1]).value.body.value).value == war
  }

  /** The public-war-log branch: the two gathered requests and the record their replies complete. */
  method PublicWar(send: C.Transport, s: LegacyState, tag: string, record: map<string, Json>)
    returns (o: Outcome<map<string, Json>>)
    requires "isWarLogPublic" in record && Truthy(record["isWarLogPublic"])
    ensures o.state == s && o.sent == WarRequests(tag)
    ensures o.result.Failure? ==> !o.result.error.Unknown?
    ensures o.result.Success? <==> RepliesComplete(send, o.sent, record)
    ensures o.result.Success? ==> WarReplies(send, o.sent, record, o.result.value) && WarShape(record, o.result.value, |o.sent|)
  {
    var pair := FetchWar(send, s, tag);
    if pair.result.Failure? {
      o := Outcome(Failure(pair.result.error), s, pair.sent);
    } else {
      var full := AttachWar(record, pair.result.value.0, pair.result.value.1);
      o := Outcome(if full.Failure? then Failure(Malformed(full.error)) else Success(full.value), s, pair.sent);
    }
  }

  /** The war record of a clan whose member list is already reshaped, with the requests it needs. */
  method CompleteWar(send: C.Transport, s: LegacyState, tag: string, fields: map<string, Json>, order: seq<string>)
    returns (o: Outcome<Json>)
    ensures o.state == s
    ensures o.sent == [] || o.sent == WarRequests(tag)
    ensures "isWarLogPublic" !in fields ==> o.result == Failure(Malformed(MissingKey("isWarLogPublic"))) && o.sent == []
    ensures o.result.Failure? ==> !o.result.error.Unknown?
    ensures o.result.Success? ==>
      && ClanShape(o.result.value, fields, order, |o.sent|)
      && (o.sent != [] ==> WarReplies(send, o.sent, WarRecord(fields, order).value, o.result.value.fields["war"].fields))
  {
    var record := WarRecord(fields, order);
    if record.Failure? {
      return Outcome(Failure(Malformed(record.error)), s, []);
    }
    var rest := fields - {"isWarLogPublic"};
    if !Truthy(record.value["isWarLogPublic"]) {
      return Outcome(Success(JObj(rest["war" := JObj(record.value)])), s, []);
    }
    var w := PublicWar(send, s, tag, record.value);
    if w.result.Failure? {
      return Outcome(Failure(w.result.error), s, w.sent);
    }
    o := Outcome(Success(JObj(rest["war" := JObj(w.result.value)])), s, w.sent);
  }

  /**
   * `clan`: the reshaped clan payload, before it is structured into the
   * `Clan` model. `order` is the order of the payload's keys.
   */
  method Clan(send: C.Transport, s: LegacyState, tag: string, order: seq<string>) returns (o: Outcome<Json>)
    ensures o.state == s
    ensures |o.sent| >= 1 && o.sent[0] == Outgoing("GET", Uri + ClanPath(tag), None)
    ensures o.sent[1..] == [] || o.sent[1..] == WarRequests(tag)
    ensures o.result.Failure? ==> !o.result.error.Unknown?
    ensures o.result.Success? ==>
      && C.Replied(send, o.sent[0])
      && var fields := C.ReshapeMembers(send(o.sent[0]).value.body.value);
      && fields.Success? && ClanShape(o.result.value, fields.value, order, |o.sent| - 1)
      && (|o.sent| > 1 ==> WarReplies(send, o.sent[1..], WarRecord(fields.value, order).value, o.result.value.fields["war"].fields))
  {
    var out, body := Fetch(send, ClanPath(tag), None);
    if body.Failure? {
      return Outcome(Failure(body.error), s, [out]);
    }
    var fields := C.ReshapeMembers(body.value);
    if fields.Failure? {
      return Outcome(Failure(Malformed(fields.error)), s, [out]);
    }
    var rest := CompleteWar(send, s, tag, fields.value, order);
    o := Outcome(rest.result, s, [out] + rest.sent);
    assert o.sent[1..] == rest.sent;
  }

  /** The player request, its reply reshaped by `reshape`. */
  method FetchPlayer(send: C.Transport, s: LegacyState, tag: string, reshape: Json -> Result<map<string, Json>, PayloadError>)
    returns (o: Outcome<Json>)
    ensures o.state == s && o.sent == [Outgoing("GET", Uri + (PlayersPath + ShapeTag(tag)), None)]
    ensures o.result.Success? <==> C.Replied(send, o.sent[0]) && reshape(send(o.sent[0]).value.body.value).Success?
    ensures o.result.Success? ==> o.result.value == JObj(reshape(send(o.sent[0]).value.body.value).value)
    ensures C.Replied(send, o.sent[0]) && reshape(send(o.sent[0]).value.body.value).Failure? ==>
      o.result == Failure(Malformed(reshape(send(o.sent[0]).value.body.value).error))
    ensures o.result.Failure? ==> !o.result.error.Unknown?
  {
    var out, body := Fetch(send, PlayersPath + ShapeTag(tag), None);
    if body.Failure? {
      return Outcome(Failure(body.error), s, [out]);
    }
    var reshaped := reshape(body.value);
    if reshaped.Failure? {
      return Outcome(Failure(Malformed(reshaped.error)), s, [out]);
    }
    o := Outcome(Success(JObj(reshaped.value)), s, [out]);
  }

  /**
   * `player` as written: the clan reduced by `player_data["clan"]["tag"]`,
   * so a reply for a player in no clan fails (see `Client.ReshapePlayerAsWritten`).
   */
  method PlayerAsWritten(send: C.Transport, s: LegacyState, tag: string) returns (o: Outcome<Json>)
    ensures o.state == s && o.sent == [Outgoing("GET", Uri + (PlayersPath + ShapeTag(tag)), None)]
    ensures o.result.Success? <==> C.Replied(send, o.sent[0]) && C.ReshapePlayerAsWritten(send(o.sent[0]).value.body.value).Success?
    ensures o.result.Success? ==> o.result.value == JObj(C.ReshapePlayerAsWritten(send(o.sent[0]).value.body.value).value)
    ensures C.Replied(send, o.sent[0]) && send(o.sent[0]).value.body.value.JObj? && "clan" !in send(o.sent[0]).value.body.value.fields ==>
      o.result == Failure(Malformed(MissingKey("clan")))
  {
    o := FetchPlayer(send, s, tag, C.ReshapePlayerAsWritten);
  }

  /**
   * `player` with the clan optional, as the `Player` model declares it: a
   * player in no clan keeps its payload (see `Client.ReshapePlayer`).
   */
  method Player(send: C.Transport, s: LegacyState, tag: string) returns (o: Outcome<Json>)
    ensures o.state == s && o.sent == [Outgoing("GET", Uri + (PlayersPath + ShapeTag(tag)), None)]
    ensures o.result.Success? <==> C.Replied(send, o.sent[0]) && C.ReshapePlayer(send(o.sent[0]).value.body.value).Success?
    ensures o.result.Success? ==> o.result.value == JObj(C.ReshapePlayer(send(o.sent[0]).value.body.value).value)
    ensures C.Replied(send, o.sent[0]) && send(o.sent[0]).value.body.value.JObj? && "clan" !in send(o.sent[0]).value.body.value.fields ==>
      o.result == Success(send(o.sent[0]).value.body.value)
    ensures o.result.Failure? ==> !o.result.error.Unknown?
  {
    o := FetchPlayer(send, s, tag, C.ReshapePlayer);
  }
}
