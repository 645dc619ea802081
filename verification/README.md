# coc-api client core, modelled in Dafny

This project models the core of `coc-api`, an asynchronous Python client for
the Clash of Clans REST API. Three generations of that client share one
server, and all three are modelled:

- **The newer client** (`cocapi/client/`). It keeps a registry of endpoint
  objects, `Methods.X`, each built from a base url and a path template.
  Calling one formats the template into the object's own `url` attribute,
  in place. `check_result` maps a non-ok status to one of six
  `ClientRequestError` subclasses, and `make_request` drops `None`
  parameters before sending. The client resolves location, label and
  league names through dictionaries it builds lazily: every item is filed
  under each of its keys, and a later item wins. It then reshapes the
  clan, player, ranking and gold-pass payloads before the pydantic models
  read them.
- **The older client** (`cocapi/client.py` with `cocapi/api.py`,
  `cocapi/exceptions.py`, `cocapi/models.py`). It uses a fixed base url,
  lists that are fetched once and searched for their first match, and
  `aiohttp.ClientError` for rejected requests. Its clan war record is
  gathered from every key that starts with "war".
- **The attrs models and exceptions of `src/`.** These cover the `str.lower`
  converters, `rawtime_to_datetime`, and the `src` variant of `shape_tag`.

The model is made of pure functions wherever the source only computes.
Every operation that talks to the server is a method. It takes the HTTP
session as a function parameter `send`, which maps an outgoing request to a
reply, or to `None` when the session raised. Each such method returns the
requests it sent, so a contract can say what went out and what came back.
Time parsing (`datetime.strptime`) is a parameter `parse` in the same way.
The shared endpoint objects and the lazily filled caches are explicit state
that the newer client threads through every call. That makes the in-place
url mutation of `BaseMethod.__call__` visible: once a call on a fresh
endpoint object has succeeded with argument values that hold no braces, the
object's url has no placeholder left, and every later call on it, with any
arguments, gets that same url.

Modules, one per file: `Wrappers`, `Text` (ASCII case mapping, `split`,
`join`, `str(int)`), `Json` (decoded payloads and subscripting), `Utils`
(`toCamel`, both `shape_tag`s), `StrFormat` (the `str.format` subset the
path templates use), `Exceptions`, `LegacyExceptions`, `Endpoints`,
`LegacyApi`, `Request`, `Models`, `Types` (the pydantic readers, the
`ClanWar` aliases and the time pre-validators), `Tables` (the keyed
dictionary and the first-match search), `Client` and `LegacyClient`.

## Model

| member | source | states |
|---|---|---|
| Utils.ToCamel | cocapi/utils/utils.py:1-5 | The result holds no underscore. Its length is the input's length minus its underscores. Up to letter case, it is the input with the underscores deleted. |
| Utils.ToCamelSingleSegment | cocapi/utils/utils.py:1-5 | A name without underscores comes back lower-cased when `lower_first` holds, and capitalised otherwise. |
| Utils.ToCamelOfWords | cocapi/utils/utils.py:2-5 | For underscore-free words joined by "_", the split recovers exactly those words: the first is transformed as the first piece, the rest as the others. |
| Utils.ShapeTag | cocapi/utils/utils.py:8-10 | No `#` is left, and each `#` of the tag grows by two characters (`%23`). |
| Utils.ShapeTagIgnoresCase | cocapi/utils/utils.py:9 | Tags that agree after upper-casing are shaped to the same path segment. |
| Utils.ShapeTagOfHashed | cocapi/utils/utils.py:8-10 | `#` followed by a `#`-free body shapes to `%23` and the upper-cased body. |
| Utils.ShapeTagIdempotent | cocapi/utils/utils.py:8-10 | Shaping an already shaped tag changes nothing. |
| Utils.ShapeTagNoPrefix | cocapi/utils/utils.py:8-10 | A tag without `#` is only upper-cased; no `#` is ever prepended. |
| Utils.ShapeTagRoundTrip | cocapi/utils/utils.py:8-10 | Undoing the escape on a shaped tag gives back the upper-cased tag, unless the tag already held `%23`. |
| Utils.ShapeTagSrc | src/utils.py:11-12 | The result is `%23` followed by the tag without its first character. |
| Utils.ShapeTagGenerationsAgree | src/utils.py:11-12 | For a canonical tag (a single leading `#`, already upper case), both variants of `shape_tag` agree. |
| Utils.ShapeTagSrcDropsFirst | src/utils.py:12 | The `src` variant drops the first character whatever it is. |
| TagExamples.ShapeTagExample | tests/test_clan.py:13-18 | "#LQGPL8LL" and "#lqGPL8ll" both shape to "%23LQGPL8LL". The bare "lqGPL8ll" becomes "LQGPL8LL", with no `%23` prefix. |
| Json.Member | cocapi/client/client.py:250 | `value[key]` succeeds exactly on an object that has the key, with its value; otherwise it is the `KeyError` for that key. |
| Json.Get | cocapi/client/api.py:173-176 | `dict.get`: the value when the key is present, `None` otherwise. |
| Json.Tags | cocapi/client/client.py:186 | `[item["tag"] for item in items]` succeeds iff every item is an object with a "tag". The tags come back one per item, in order. |
| Exceptions.NewRequestError | cocapi/utils/exceptions.py:26-40 | The error keeps its class, response and data. Its message is the class's `DETAILS` when it has one, and otherwise `MESSAGE` formatted with the status and the url. |
| Exceptions.SubclassesHaveCodeAndDetails | cocapi/utils/exceptions.py:22-70 | A class has a `CODE` and a `DETAILS` iff it is one of the six subclasses. |
| Exceptions.SubclassMessageIgnoresResponse | cocapi/utils/exceptions.py:33-37 | A subclass's message is the same whatever the response and data. |
| Exceptions.CodeIdentifiesClass | cocapi/utils/exceptions.py:43-70 | No two classes share a `CODE`. |
| Exceptions.StatusMessageInjective | cocapi/utils/exceptions.py:22 | The generic message determines the rendered status and the url. |
| Exceptions.NewDataError | cocapi/utils/exceptions.py:89-113 | The error keeps its class and data. Its message is `None` exactly for the base `UnknownDataError`. For a subclass it is that class's lead-in, the data, then the class's closing text. |
| Exceptions.DataMessageInjective | cocapi/utils/exceptions.py:96-113 | Within one subclass, equal messages mean equal data. |
| Exceptions.DataMessageQuotesData | cocapi/utils/exceptions.py:96-113 | A subclass's message splits into its fixed lead-in, the data verbatim, and its fixed closing text. |
| LegacyExceptions.NewLegacyError | cocapi/exceptions.py:10-17 | The value is kept under the attribute that copy uses, and an explicit message replaces the default text. |
| LegacyExceptions.Render | cocapi/exceptions.py:19-20 | `__str__` is the value, " -> ", then the message. |
| LegacyExceptions.RenderInjective | cocapi/exceptions.py:19-20 | When the value holds no `>`, the rendered text gives back both the value and the message. |
| LegacyExceptions.GenerationsAgreeOnExplicitMessage | src/exceptions.py:5-25 | With an explicit message, the `cocapi` and `src` copies render alike. They store the value under the same attribute iff it is the location error. |
| LegacyExceptions.GenerationsDifferOnDefault | src/exceptions.py:8 | Without a message, the two copies render differently. |
| StrFormat.FormatBraceFree | cocapi/client/api.py:37 | A template without braces formats to itself, whatever the arguments. |
| StrFormat.FormatFieldFront | cocapi/client/api.py:37-43 | A leading `{name}` is replaced by its keyword value. A name without a value is the `KeyError` reported for that name. |
| StrFormat.FormatPrint | cocapi/client/api.py:37 | Formatting a printed template computes its reference meaning: literal text as is, each field by its value, the first missing field as the error. |
| StrFormat.FormatEscaped | cocapi/client/api.py:37 | Escaped literal text (doubled braces) formats back to the text. |
| StrFormat.FormatLeavesNoBraces | cocapi/client/api.py:37 | A successful format of an escape-free template with brace-free values leaves no brace behind. |
| StrFormat.FormatIgnoresExtraArguments | cocapi/client/api.py:37 | Keyword arguments the template does not name make no difference. |
| StrFormat.RenderBraceFree | cocapi/client/api.py:37 | With brace-free literals and values, the rendered text has no brace left. |
| Endpoints.NewMethod | cocapi/client/api.py:21-33 | Construction fails without a base url, then without any method. An explicit method is kept, otherwise the default is used, and the url is the base url followed by the path. |
| Endpoints.Call | cocapi/client/api.py:35-43 | On success the object comes back with its url replaced by the formatted url. A missing field is reported by name together with the url, and the object is left as it was. |
| Endpoints.PathPieces | cocapi/client/api.py:46-128 | Every path template has brace-free literal text and keyword-named fields. |
| Endpoints.InitialMethod | cocapi/client/api.py:46-128 | A fresh object holds its path and its base url plus path. Its method is POST for the service endpoints and for `PLAYER_VERIFY_API_TOKEN`, and GET otherwise. |
| Endpoints.InitialRegistry | cocapi/client/api.py:46-128 | The module-level registry holds one fresh object for every endpoint. |
| Endpoints.Invoke | cocapi/client/api.py:35-38 | `Methods.X(**kw)` returns the call's result and writes a successful call back into the shared object. |
| Endpoints.CallOnTemplate | cocapi/client/api.py:35-43 | On an object still holding a template, a call succeeds iff every field has a value. The new url is the base url plus the rendered template. |
| Endpoints.InitialHoldsTemplate | cocapi/client/api.py:46-128 | Every fresh object holds its base url followed by its printed template. |
| Endpoints.StaleAfterFirstCall | cocapi/client/api.py:35-38 | After a successful call on a fresh object, every later call on that endpoint, with any arguments, returns the same url. |
| Endpoints.StaleAfterCall | cocapi/client/api.py:35-38 | The same holds for any object still holding a template. |
| Endpoints.FirstCallBraceFree | cocapi/client/api.py:35-38 | A successful call on a fresh object with brace-free values leaves a url with no brace in it. |
| Endpoints.CallBraceFree | cocapi/client/api.py:35-38 | An object whose url has no brace answers every call with itself, so its url stays as it is. |
| Endpoints.FirstClanCall | cocapi/client/api.py:54 | The first call on a fresh `CLAN` object requests "/clans/" followed by the given tag. |
| Endpoints.InvokeLocal | cocapi/client/api.py:35-38 | A call depends on the called endpoint's object alone. |
| Endpoints.InvokeIsolated | cocapi/client/api.py:35-38 | A call leaves every other endpoint's object as it was. |
| LegacyApi.ClanSubpaths | cocapi/api.py:4-10 | The war-log, current-war and league-group paths extend the clan path. |
| LegacyApi.RankingsPaths | cocapi/api.py:31-43 | The four rankings are the location path followed by "/rankings/" and their kind. |
| LegacyApi.SeasonRankingsOrder | cocapi/api.py:22-25 | A season-rankings path is the league's seasons path, "/" and the season. |
| LegacyApi.VersionPrefix | cocapi/api.py:3-50 | Every path starts with "/v1/" except the two war-league paths. |
| LegacyApi.SingleArgumentPath | cocapi/api.py:3-50 | A one-argument path is its fixed frame around the argument. |
| LegacyApi.SingleArgumentInjective | cocapi/api.py:3-50 | Each one-argument builder is injective in its argument. |
| LegacyApi.SeasonRankingsAmbiguous | cocapi/api.py:23-25 | Two different league and season pairs build the same path when an id holds `/`. |
| LegacyApi.SeasonRankingsInjective | cocapi/api.py:23-25 | With ids free of `/`, the path determines both ids. |
| Request.ErrorData | cocapi/client/api.py:172-177 | The data of an `UnknownError` has exactly the four keys, each read with `dict.get`. |
| Request.CheckResult | cocapi/client/api.py:131-180 | The body is decoded first. An ok reply is returned unchanged. Any other reply raises the class its status selects, with the error data only for the catch-all. |
| Request.StatusClassMatchesCode | cocapi/client/api.py:159-171 | A non-ok status raises a named subclass exactly when it is that subclass's `CODE`. |
| Request.StatusClassOtherwiseUnknown | cocapi/client/api.py:171-179 | Every other status, 500 among them, raises `UnknownError`. |
| Request.RejectionCarriesCode | cocapi/client/api.py:159-179 | The class raised for a non-ok status other than the catch-all has that status as its `CODE`. |
| Request.FilterParams | cocapi/client/api.py:204-209 | Exactly the keys whose value is not `None` are kept, with their values. |
| Request.FilterParamsIdempotent | cocapi/client/api.py:206-208 | Filtering twice is filtering once. |
| Request.MakeRequest | cocapi/client/api.py:183-216 | The request goes out with the object's method and url, and with the filtered parameters when there are any. A session failure is reported; otherwise the reply goes through `check_result`. |
| Models.LowerOptional | src/models.py:36 | `None` stays `None`. A string is stored lower-cased and equal to the input up to case. |
| Models.NewLabel | src/models.py:19-23 | The id and icons are kept. The name is stored lower-cased and equal to the input up to case. |
| Models.NewLeague | src/models.py:25-29 | The same holds for leagues. |
| Models.NewLocation | src/models.py:31-36 | The id and country flag are kept. The name and code are stored lower-cased, and the code is absent iff it was not given. |
| Models.NewChatLanguage | src/models.py:46-50 | The name and language code are stored lower-cased. |
| Models.RebuildLocation | src/models.py:31-36 | Rebuilding a location from its own fields gives it back, because the converters are idempotent. |
| Models.LocationIgnoresCase | src/models.py:31-36 | Inputs that differ only in letter case build the same location. |
| Models.ConvertTime | src/utils.py:6-9 | `rawtime_to_datetime` succeeds iff `strptime` does, and the failure names the text. |
| Models.ConvertOptionalTime | src/models.py:81-83 | `None` passes through unparsed. A string is converted. |
| Models.NewClanWarTimes | src/models.py:81-83 | Success iff all three optional times convert. Each is then the converted input, absent iff not given. Failures are reported in field order: the start's, then the end's, then the preparation time's. |
| Models.NewGoldPass | src/models.py:182-185 | Both times are required and converted, the start first. |
| Types.WireNames | cocapi/types/base.py:14-16 | The keys the readers use are `toCamel` of `is_country`, `country_code`, `icon_urls` and `language_code`. |
| Types.ReadLocation | cocapi/types/location.py:7-11 | A location reads iff it is an object with an integer `id`, a boolean `isCountry`, a string `name`, and a `countryCode` that is a string, null or missing. The id and flag are kept. The name and code are stored lower-cased and equal the input up to case. |
| Types.ReadLabel | cocapi/types/base_shared.py:8-11 | A label reads iff it is an object with an integer `id`, a string `name` and `iconUrls` that read as badge urls. The id and the urls are kept, and the name is stored lower-cased. |
| Types.ReadLeague | cocapi/types/base_shared.py:14-17 | A league reads iff it is an object with an integer `id`, a string `name`, and `iconUrls` that are null, missing or readable badge urls. The id is kept and the name lower-cased. The icons are absent iff null or missing, and are the read urls otherwise. |
| Types.ReadChatLanguage | cocapi/types/clan.py:29-32 | A chat language reads iff it is an object with an integer `id` and string `name` and `languageCode`. The id is kept, and the name and language code are stored lower-cased. |
| Types.ReadBadgeUrls | cocapi/types/badges.py:8-11 | The urls read iff they form an object with string `small` and `medium` and a `large` that is a string, null or missing. All three are kept as sent, and none is lower-cased. |
| Types.ReadLocationIgnoresCase | cocapi/types/location.py:7-11 | Payloads that differ only in the case of the name read to the same location. |
| Types.GeneratedAlias | cocapi/types/clan.py:93-96 | A generated alias is "war" followed by an underscore-free text that equals the field name without underscores, up to case. |
| Types.AliasSpelling | cocapi/types/clan.py:93-106 | The generator and the `isWarLogPublic` override give exactly the spelled-out aliases of the ten fields. |
| Types.AliasInjective | cocapi/types/clan.py:93-106 | No two `ClanWar` fields share an alias. |
| Types.PreValidateTime | cocapi/types/clan.py:69-74 | A string is parsed, and a failure names it. Any other value is passed on untouched. |
| Types.PreValidateAgreesWithConverter | cocapi/types/goldpass.py:13-20 | On strings, the pydantic pre-validator and the attrs converter of `src` accept the same texts, give the same times, and reject alike. |
| Tables.BuildTable | cocapi/client/client.py:38-44 | A key is in the table iff some item has it, and it holds the last item that has it. |
| Tables.UniqueKeyLookup | cocapi/client/client.py:41-44 | An item whose key no other item has is what the table holds under that key. |
| Tables.Lookup | cocapi/client/client.py:489-490 | `mapping.get(name.lower())` finds exactly the entry under the lower-cased input. |
| Tables.LookupIgnoresCase | cocapi/client/client.py:489-490 | Inputs equal up to case look up the same entry. |
| Tables.FirstLocation | cocapi/client.py:221-225 | This is the first location whose code or name is the key, and there is none iff no location matches. |
| Tables.FirstLabel | cocapi/client.py:269-273 | This is the first label with that name, and there is none iff no label has it. |
| Tables.FirstMatchAgreesWithTable | cocapi/client.py:221-225 | With no key shared between locations, the first match of a non-empty key is what the newer client's dictionary holds under it. |
| Tables.NameAndCodeAgree | cocapi/client/client.py:41-44 | A location whose name and code belong to no other location is found under either key. |
| Client.NewClient | cocapi/client/baseclient.py:14-20 | A new client starts with nothing cached and fresh endpoint objects. |
| Client.Fetch | cocapi/client/baseclient.py:36-37 | The endpoint object is called first, and its change stays even when the request fails. A bad call sends nothing. Success means an ok reply with a body. |
| Client.ReadAll | cocapi/client/client.py:38-39 | Reading succeeds iff every item reads. The results come one per item, in order. |
| Client.ItemTags | cocapi/client/client.py:186 | Success means every item under "items" has a tag, and the tags come back in order. |
| Client.LoadTable | cocapi/client/client.py:33-46 | At most one request is made. Success means its items all read and the result files them by key. |
| Client.AllLocations | cocapi/client/client.py:436-456 | A cached table comes back with no request. Otherwise one request fills the cache. A failure leaves the cache untouched, and nothing else in it changes. |
| Client.AllClanLabels | cocapi/client/client.py:495-513 | The same, for clan labels. |
| Client.AllClanLeagues | cocapi/client/client.py:546-564 | The same, for clan leagues, loaded from `WARLEAGUES`. |
| Client.AllPlayerLabels | cocapi/client/client.py:597-615 | The same, for player labels, loaded from `WARLEAGUES` as written. |
| Client.AllPlayerLeagues | cocapi/client/client.py:648-665 | The same, for player leagues, loaded from `WARLEAGUES`. |
| Client.Resolve | cocapi/client/client.py:488-493 | Success iff the lower-cased input is in the table. A miss raises the matching error carrying the input as given. |
| Client.ResolveIgnoresCase | cocapi/client/client.py:489 | Inputs equal up to case resolve alike. |
| Client.GetLocation | cocapi/client/client.py:458-493 | The location is the cached entry under the lower-cased name. It is `UnknownLocationError(name)` iff the table loaded and has no such key. |
| Client.GetClanLabel | cocapi/client/client.py:515-544 | The same, for clan labels. |
| Client.GetClanLeague | cocapi/client/client.py:566-595 | The same, for clan leagues. |
| Client.GetPlayerLabel | cocapi/client/client.py:617-646 | The same, for player labels. |
| Client.GetPlayerLeague | cocapi/client/client.py:667-696 | The same, for player leagues. |
| Client.LabelNames | cocapi/client/client.py:170-171 | One label becomes a one-element list, and a list is kept. |
| Client.IdListSplits | cocapi/client/client.py:181 | Splitting the comma-joined ids gives back exactly their decimal forms, in order. |
| Client.SearchParams | cocapi/client/client.py:145-182 | A filter is sent iff it is truthy, with its value. The labels are sent as the comma-joined ids, and no value is `None`. |
| Client.SearchKeysGiven | cocapi/client/client.py:145-182 | With the location and labels resolved exactly when given, a key is present iff its filter was given a truthy value. |
| Client.FilterKeepsPresent | cocapi/client/api.py:204-209 | Parameters without `None` values pass `make_request`'s filter unchanged. |
| Client.ResolveLabels | cocapi/client/client.py:173-178 | There is one id per label: the table's entry under the lower-cased label. A miss names the lower-cased label. |
| Client.LocationStep | cocapi/client/client.py:164-167 | A truthy location is resolved to the id the cache holds. An empty one sends nothing. |
| Client.LabelStep | cocapi/client/client.py:169-182 | Truthy labels are resolved to the ids the cache holds. Empty ones send nothing. |
| Client.FetchTags | cocapi/client/client.py:184-187 | One request, to the url the called object formats to, with the filtered parameters. Success means an ok reply, and the result is its item tags. |
| Client.Search | cocapi/client/client.py:184-187 | One request, to the url the `CLANS` object formats to, carrying exactly the filters given. |
| Client.Clans | cocapi/client/client.py:96-187 | The last request goes to the url the `CLANS` object formats to. It carries exactly the given filters, with ids read back from the cache the call leaves behind. An unknown-data failure is a miss of the location or of one label. |
| Client.ClansAt | cocapi/client/client.py:184-187 | With the ids resolved, the last request goes to the `CLANS` object's url and carries exactly the given filters. |
| Client.ReshapeMembers | cocapi/client/client.py:224-225 | `memberList` becomes the members' tags in order, and every other key is kept. |
| Client.WarSection | cocapi/client/client.py:227-240 | The war record is exactly the clan's whitelisted keys, with their values. |
| Client.AttachWar | cocapi/client/client.py:250-256 | This adds the state and the log's items, and the current war iff the state is not "notInWar". Every other key is kept. |
| Client.FetchWar | cocapi/client/client.py:243-249 | Both endpoint objects are called first. The two requests go to the urls those objects format to, and the registry then holds both formatted objects. If either call fails, nothing is sent: the current-war object is written back if its own call succeeded, and the war-log object is unchanged. Success iff both requests were answered with a body, and the result is the two bodies. |
| Client.SendBoth | cocapi/client/client.py:243-249 | Two requests go out, to the two objects' urls. Success means both were answered with a body. A failure is a failed request, the first one's reported first. |
| Client.PublicWar | cocapi/client/client.py:242-256 | With a public war log, the two war requests go to the objects' urls. Success iff both were answered and the replies have `state` and `items`. The record is then what those two replies complete the gathered keys to. |
| Client.CompleteWar | cocapi/client/client.py:227-256 | A missing `isWarLogPublic` is a payload error. A private war log makes no further request and leaves the record as gathered. A public one makes the two war requests, and the record under "war" is what their replies complete. |
| Client.FetchClan | cocapi/client/client.py:220-222 | The clan request goes to the `CLAN` object's url. The war objects are untouched, and success means an ok reply whose body is the result. |
| Client.ClanFromReply | cocapi/client/client.py:224-256 | The members of the clan's reply are reshaped and the war record completed from the war requests' replies. Every key of the war record is the alias of a `ClanWar` field. |
| Client.Clan | cocapi/client/client.py:189-259 | The first request is the `CLAN` object's url. Any war requests go to the urls the current-war and war-log objects format to, and the registry then holds those objects. On success, the result is the clan's reply with its members reshaped. Its "war" record is what the war replies complete, when they were requested. Every key of the war record is the alias of a `ClanWar` field. The record has every alias `ClanWar` requires iff the clan payload had all seven whitelisted war keys. |
| Client.ClanTwice | cocapi/client/client.py:221 | On a fresh `CLAN` object, a second `clan` call, for any tag, requests the first call's url again. |
| Client.WarKeysAreAliases | cocapi/types/clan.py:93-106 | The seven whitelisted war keys are exactly the aliases of the required `ClanWar` fields. The three keys the war requests add are the aliases of `state`, `log` and `currentwar`. |
| Client.AcceptsIffWhitelist | cocapi/types/clan.py:93-106 | A set of keys holds every alias `ClanWar` requires iff it holds the seven whitelisted keys. |
| Client.WarRecordKeys | cocapi/client/client.py:227-256 | Every key of the war record is whitelisted or added by the war requests. The record holds all seven whitelisted keys iff the clan payload did. |
| Client.WarRecordAccepted | cocapi/client/client.py:227-256 | Every key of the war record is a `ClanWar` alias. The record has every required alias iff the clan payload had all seven whitelisted keys. |
| Client.ReshapePlayerAsWritten | cocapi/client/client.py:286 | As written: success iff the payload has a clan with a tag, which then replaces the clan. A clanless payload is a `KeyError`. |
| Client.ReshapePlayer | cocapi/types/player.py:55 | Corrected: a clanless payload is kept. Otherwise the clan becomes its tag and every other key is kept. |
| Client.ReshapePlayerAgrees | cocapi/client/client.py:286 | For a player in a clan, the corrected and the as-written reshaping agree. |
| Client.ClanlessPlayer | cocapi/client/client.py:286 | A concrete clanless payload: the code as written raises, and the corrected reshaping keeps it. |
| Client.FetchPlayer | cocapi/client/client.py:261-289 | One request, to the url the `PLAYER` object formats to. Success iff the reply is ok and the given reshaping accepts it. A reshaping failure is reported as a payload error. |
| Client.PlayerAsWritten | cocapi/client/client.py:261-289 | As written: success iff the reply is ok and has a clan with a tag. A reply for a player in no clan fails with the `KeyError` for "clan". |
| Client.Player | cocapi/client/client.py:261-289 | One request, to the url the `PLAYER` object formats to. Success iff the reply is ok and the corrected reshaping accepts it, and the result is that reshaping. A reply for a player in no clan is kept as it came. |
| Client.RankingsAt | cocapi/client/client.py:315-318 | The ranking request goes to the url the endpoint object formats to for the resolved id. Once that object has been called, the url no longer depends on the id (see `Client.RankingsTwice`). Success means an ok reply whose item tags are the result. |
| Client.Rankings | cocapi/client/client.py:291-413 | The location is resolved through the cache, and the ranking object is called with the id cached under the lower-cased location. The last request goes to the url that call formats to, and the tags come from its reply. An unknown-data failure is `UnknownLocationError(location)`. |
| Client.RankingThroughObject | cocapi/client/api.py:35-38 | The ranking object keeps the url the request went to. When the object was fresh, that url has no brace. An object whose url has no brace sends that url for any location. |
| Client.RankingsTwice | cocapi/client/client.py:315-316 | On a fresh ranking object, a second ranking of the same kind, for any location, requests the first one's url again. |
| Client.GoldPassTimes | cocapi/types/goldpass.py:9-20 | Both times are required and pre-validated, the start first. Success iff both are present and pass. |
| Client.GoldPassTimesAgree | src/models.py:182-185 | On string times, this agrees with the attrs `GoldPass` in success, values and error. |
| Client.Goldpass | cocapi/client/client.py:415-434 | One request. The result is the pre-validated times of the reply. |
| LegacyClient.Fetch | cocapi/client.py:93-138 | A GET of the fixed base url plus the path. Success iff the reply is ok with a body. A rejection keeps the status, the reply's `reason` and `message` (`None` when absent), and the url. |
| LegacyClient.ReadStoredLocation | cocapi/models.py:41-46 | Corrected: this reads the camel-case keys the server sends. A location reads iff the lower-casing reader accepts it. The name and code are kept as sent, and lower-casing them gives what that reader stores. |
| LegacyClient.ReadStoredLabel | cocapi/models.py:27-31 | Corrected: this reads the server's `iconUrls`. A label reads iff the lower-casing reader accepts it. The name is kept as sent, and lower-casing it gives what that reader stores. |
| LegacyClient.ReadStoredLocationAsWritten | cocapi/models.py:41-46 | As written: a location reads iff `id`, `is_country` and `name` have the right kinds and `country_code` is present, a string or null. |
| LegacyClient.ReadStoredBadgeUrlsAsWritten | cocapi/models.py:20-24 | As written: the urls read iff the lower-casing reader accepts them and `large` is present. |
| LegacyClient.ReadStoredLabelAsWritten | cocapi/models.py:27-31 | As written: a label reads iff `id` and `name` have the right kinds and `icon_urls` is present and reads. |
| LegacyClient.WireLocationRefused | cocapi/client.py:150-152 | A location as the server sends it is refused as written, and the corrected reader keeps it. |
| LegacyClient.WireLabelRefused | cocapi/client.py:171-173 | A clan label as the server sends it is refused as written, and the corrected reader keeps it. |
| LegacyClient.StoredLocationLowerCase | cocapi/models.py:41-46 | On lower-case data, the stored and the lower-casing readers agree. |
| LegacyClient.StoredLabelLowerCase | cocapi/models.py:27-31 | The same, for labels. |
| LegacyClient.InitLocations | cocapi/client.py:140-159 | A present list means no request. Otherwise one GET of "/v1/locations" stores the list. A failure stores nothing. |
| LegacyClient.InitClanLabels | cocapi/client.py:161-180 | The same, for "/v1/labels/clans". |
| LegacyClient.LocationId | cocapi/client.py:182-228 | Success gives the id of the first location whose code or name equals the lower-cased input. The unknown-location error, carrying the lower-cased input, comes iff the list loaded and nothing matched. |
| LegacyClient.ClanLabelId | cocapi/client.py:230-276 | The same, for clan labels by name. |
| LegacyClient.StoredCaseMatters | cocapi/client.py:218-224 | A stored name that is not lower case is never matched by any input. |
| LegacyClient.SearchAgreesWithTable | cocapi/client.py:218-225 | With unique keys, the older search and the newer dictionary find the same location. |
| LegacyClient.Params | cocapi/client.py:326-358 | The parameters hold exactly the keys whose argument is not `None`, with their values. |
| LegacyClient.ParamsGiven | cocapi/client.py:326-358 | With ids resolved exactly when given, a key is present iff its argument was given. |
| LegacyClient.ParamsAgreeOnTruthyFilters | cocapi/client.py:326-358 | When every given filter is truthy, the older and the newer client build the same parameters. |
| LegacyClient.ZeroFilterSentHere | cocapi/client.py:330-331 | `min_members=0` is sent by the older client and dropped by the newer one. |
| LegacyClient.ResolveLabels | cocapi/client.py:353-356 | There is one id per label, each the first match of the lower-cased label. A miss names one lower-cased label. |
| LegacyClient.LocationStep | cocapi/client.py:345-347 | A given location is resolved to the id read from the list. An absent one sends nothing. |
| LegacyClient.LabelStep | cocapi/client.py:349-358 | Given labels are resolved to the ids read from the list. Absent ones send nothing. |
| LegacyClient.ItemTags | cocapi/client.py:361-364 | This agrees with the newer client's tag extraction. |
| LegacyClient.Search | cocapi/client.py:360-364 | One GET of "/v1/clans" carrying exactly the given filters. |
| LegacyClient.ClansAt | cocapi/client.py:349-364 | After the location step, the last request is the search with the ids read back from the lists. |
| LegacyClient.Clans | cocapi/client.py:278-364 | A present list is never replaced. The last request is the search with exactly the given filters and the ids read back. An unknown error is a location or label miss. |
| LegacyClient.WarSectionNames | cocapi/client.py:398-402 | A name is in the war record iff some key starting with "war" lower-cases to it after the prefix. |
| LegacyClient.WarSectionLastWins | cocapi/client.py:398-402 | Each name holds the value of the last such key in the payload's order. |
| LegacyClient.WarSectionRenames | cocapi/client.py:398-402 | A war key whose name no other key shares keeps its value under its name. |
| LegacyClient.LaterSpellingWins | cocapi/client.py:398-402 | "warWins" then "warwins" give one name, "wins", holding the later value. |
| LegacyClient.WarSectionLowerCase | cocapi/client.py:399 | Every name of the record is lower case. |
| LegacyClient.FlagApart | cocapi/client.py:403 | The popped `isWarLogPublic` never overwrites a gathered name. |
| LegacyClient.WarRecord | cocapi/client.py:398-403 | A payload without `isWarLogPublic` is a `KeyError`. Otherwise the record is the gathered names plus the flag. |
| LegacyClient.AttachWar | cocapi/client.py:411-416 | This adds `state` and `log` (the items), and `currentwar` iff the state is not "notInWar". Every other key is kept. |
| LegacyClient.FetchWar | cocapi/client.py:406-410 | Both GETs go out, current war then war log. Success means both were answered. |
| LegacyClient.PublicWar | cocapi/client.py:405-416 | With a public war log, both war GETs go out. Success iff both were answered and the replies have `state` and `items`. The record is then what those two replies complete the gathered names to. |
| LegacyClient.CompleteWar | cocapi/client.py:403-418 | The flag leaves the top level. A private log sends nothing more. A public one sends the two war requests, and the record under "war" is what their replies complete. |
| LegacyClient.Clan | cocapi/client.py:392-418 | The first GET is the shaped clan path, and any further ones are the two war GETs. Success means the members were reshaped. The war record has that shape and is what the war replies complete, when they were requested. |
| LegacyClient.FetchPlayer | cocapi/client.py:437-441 | One GET of the shaped player path. Success iff the reply is ok and the given reshaping accepts it. A reshaping failure is reported as a malformed payload. |
| LegacyClient.PlayerAsWritten | cocapi/client.py:437-441 | As written: a reply for a player in no clan is the `KeyError` for "clan". |
| LegacyClient.Player | cocapi/client.py:437-441 | One GET of the shaped player path. Success iff the reply is ok and the corrected reshaping accepts it, and the result is that reshaping. A reply for a player in no clan is kept as it came. |

## Left out

- The HTTP session, its headers, its token and its closing are left out. The session is the parameter `send`, whose `None` stands for any exception it raises.
- `logging` calls in the older client are left out, because they do not affect results.
- Validation by pydantic and cattrs (`Clan(**data)`, `Player(**data)`, `structure(...)`) is left out. The clan, player and gold-pass operations return the reshaped payload the model would validate. Only the readers of locations, labels, leagues, chat languages and badge urls are modelled.
- `asyncio.gather` is modelled sequentially, as it sends both requests. Which failure surfaces first is unspecified in the source; the model reports the current-war failure.
- `datetime.strptime` is the parameter `parse`. Its `None` stands for a `ValueError`.
- `str.lower`, `str.upper`, `str.title` and `str.capitalize` are modelled on ASCII letters only, because full Unicode case mapping is out of scope.
- Floating-point fields such as `destructionPercentage` are not read.
- `str.format` is modelled for the plain `{name}` fields and `{{`/`}}` escapes that the path templates use. Format specs, conversions, attribute and index fields are reported as errors rather than interpreted.
- Client.AllPlayerLabels: this loads from `WARLEAGUES` as the source does, not from `PLAYER_LABELS`.
- Client.AllPlayerLeagues: this loads from `WARLEAGUES` as the source does, not from a player-leagues endpoint.
- The module-level endpoint objects are threaded through the newer client as explicit state.
- Client.Goldpass: this returns the pre-validated times rather than a `GoldPass` model.
- A non-list `items` or `memberList` is a payload error. In Python the comprehension would iterate a string or a dict.
- LegacyClient.Fetch: the `aiohttp.ClientError` message is kept as its parts (status, reason, message, url) rather than rendered into text.
- A non-ok reply whose body is not JSON raises from the second `resp.json()`. The model reports the undecodable body at once.
- LegacyClient.Clan: a decoded object does not keep its key order, so the order is the parameter `order`. Keys not listed in it are not gathered into the war record.
- The older rankings (cocapi/client.py:443-525) are left out. They call `_get_location_id` without `await`, so the url holds the text of a coroutine object and cannot be modelled faithfully.
- The older `goldpass` (cocapi/client.py:527-538) is left out, because it is only a GET followed by cattrs structuring.
- LegacyClient.ReadStoredLocation: this reads the server's camel-case keys, not the dataclass's snake-case field names. The as-written reading is `LegacyClient.ReadStoredLocationAsWritten` (see Findings).
- LegacyClient.ReadStoredLabel: the same. The as-written reading is `LegacyClient.ReadStoredLabelAsWritten`.
- cattrs converts values with `int()`, `bool()` and `str()` rather than checking their kinds. The stored readers check the kinds.
- Types.ReadLocation, Types.ReadBadgeUrls, Types.ReadLabel, Types.ReadLeague, Types.ReadChatLanguage: pydantic's value coercion is not modelled. pydantic reads a numeric string such as `"32000086"` as an `int`, `1` or `"true"` as a `bool`, and a number as a `str`. These readers accept only the exact JSON kind, so they refuse some payloads pydantic accepts.
- Client.Player: this uses the corrected reshaping, so a player in no clan is kept. The source raises `KeyError`, as `Client.PlayerAsWritten` shows (see Findings).
- LegacyClient.Player: the same. The as-written behaviour is `LegacyClient.PlayerAsWritten`.
- `rawtime_to_datetime` of cocapi/utils.py is the same function as in src/utils.py and is modelled once.

## Findings

| source | as written | input that shows it | evidently intended | confidence | as-written member | corrected member |
|---|---|---|---|---|---|---|
| cocapi/client/client.py:286 (and cocapi/client.py:439) | `player_data["clan"] = player_data["clan"]["tag"]` | a player payload without a "clan" key, i.e. a player in no clan | the `Player` model declares `clan: Optional[Tag]` (cocapi/types/player.py:55, cocapi/models.py:201), so a clanless player should be kept with no clan | not executed | Client.ReshapePlayerAsWritten, Client.ClanlessPlayer, Client.PlayerAsWritten, LegacyClient.PlayerAsWritten | Client.ReshapePlayer, Client.Player, LegacyClient.Player |
| cocapi/models.py:27-46, read at cocapi/client.py:152 and 173 | the dataclasses name their fields `is_country`, `country_code` and `icon_urls`, and `structure` looks each field up under that name; `_get_location_id` then reads `loc.countryCode` (cocapi/client.py:224), an attribute the dataclass does not have | a location as the server sends it: `{"id": 32000086, "name": "Finland", "isCountry": true, "countryCode": "FI"}` | read the server's camel-case keys, as the lookup's `loc.countryCode` expects | not executed | LegacyClient.ReadStoredLocationAsWritten, LegacyClient.ReadStoredLabelAsWritten, LegacyClient.WireLocationRefused, LegacyClient.WireLabelRefused | LegacyClient.ReadStoredLocation, LegacyClient.ReadStoredLabel |
