/**
 * The pydantic models of cocapi/types as far as they shape data: every
 * field is read under its camelCase alias, `anystr_lower` models store
 * their strings lower-cased, the `ClanWar` fields carry `war…` aliases,
 * and the time validators parse strings before validation.
 */
module Types {
  import opened Wrappers
  import opened Text
  import opened Utils
  import opened Json
  import opened Models

  /*
   * Every field is read under `toCamel` of its Python name. The readers
   * below use the camelCase keys directly; `WireName` and the lemmas after
   * it tie each two-word key to the name it is generated from.
   */

  /** `DefaultBaseModel`'s alias generator applied to the name made of `words`. */
  function WireName(words: seq<string>): (w: string)
    requires |words| >= 1
    ensures '_' !in w
    ensures Lower(w) == Lower(Remove(Join(words, "_"), '_'))
  {
    ToCamel(Join(words, "_"), true)
  }

  const CountryWord: string := "country"
  const CodeWord: string := "code"
  const IconWord: string := "icon"
  const UrlsWord: string := "urls"
  const LanguageWord: string := "language"

  /** A two-word name's alias: the first word lower-cased, the second title-cased. */
  lemma WireNameOfPair(a: string, b: string, first: string, second: string, wire: string)
    requires '_' !in a && '_' !in b
    requires Lower(a) == first && Title(b) == second && first + second == wire
    ensures WireName([a, b]) == wire
  {
    ToCamelOfWords([a, b], true);
    assert CamelSegments([a, b], true) == [first, second];
    ConcatPair(first, second);
  }

  lemma WireIsCountry() ensures WireName([IsWord, CountryWord]) == "isCountry" {
    WireNameOfPair(IsWord, CountryWord, "is", "Country", "isCountry");
  }

  lemma WireCountryCode() ensures WireName([CountryWord, CodeWord]) == "countryCode" {
    WireNameOfPair(CountryWord, CodeWord, "country", "Code", "countryCode");
  }

  lemma WireIconUrls() ensures WireName([IconWord, UrlsWord]) == "iconUrls" {
    WireNameOfPair(IconWord, UrlsWord, "icon", "Urls", "iconUrls");
  }

  lemma WireLanguageCode() ensures WireName([LanguageWord, CodeWord]) == "languageCode" {
    WireNameOfPair(LanguageWord, CodeWord, "language", "Code", "languageCode");
  }

  /** The keys the readers use are the generated aliases of `is_country`, `country_code`, `icon_urls` and `language_code`. */
  lemma WireNames()
    ensures WireName([IsWord, CountryWord]) == "isCountry"
    ensures WireName([CountryWord, CodeWord]) == "countryCode"
    ensures WireName([IconWord, UrlsWord]) == "iconUrls"
    ensures WireName([LanguageWord, CodeWord]) == "languageCode"
  {
    WireIsCountry();
    WireCountryCode();
    WireIconUrls();
    WireLanguageCode();
  }

  /** The field whose value was missing or of the wrong kind. */
  datatype ValidationError = ValidationError(field: string)

  function StrField(fields: map<string, Json>, field: string): (r: Result<string, ValidationError>)
    ensures r.Success? <==> field in fields && fields[field].JStr?
    ensures r.Success? ==> r.value == fields[field].s
  {
    var k := field;
    if k in fields && fields[k].JStr? then Success(fields[k].s) else Failure(ValidationError(field))
  }

  function IntField(fields: map<string, Json>, field: string): (r: Result<int, ValidationError>)
    ensures r.Success? <==> field in fields && fields[field].JInt?
    ensures r.Success? ==> r.value == fields[field].i
  {
    var k := field;
    if k in fields && fields[k].JInt? then Success(fields[k].i) else Failure(ValidationError(field))
  }

  function BoolField(fields: map<string, Json>, field: string): (r: Result<bool, ValidationError>)
    ensures r.Success? <==> field in fields && fields[field].JBool?
    ensures r.Success? ==> r.value == fields[field].b
  {
    var k := field;
    if k in fields && fields[k].JBool? then Success(fields[k].b) else Failure(ValidationError(field))
  }

  /** An `Optional[str]` field: absent and `null` both give `None`. */
  function OptStrField(fields: map<string, Json>, field: string): (r: Result<Option<string>, ValidationError>)
    ensures r.Success? <==> Get(fields, field).JNull? || Get(fields, field).JStr?
    ensures r == Success(None) <==> Get(fields, field).JNull?
    ensures r.Success? && r.value.Some? ==> r.value.value == fields[field].s
  {
    match Get(fields, field)
    case JNull => Success(None)
    case JStr(s) => Success(Some(s))
    case _ => Failure(ValidationError(field))
  }

  /** `BadgeURLs`: `small` and `medium` required, `large` optional; not lower-cased. */
  function ReadBadgeUrls(j: Json): (r: Result<BadgeUrls, ValidationError>)
    ensures r.Success? <==>
      && j.JObj? && StrField(j.fields, "small").Success? && StrField(j.fields, "medium").Success?
      && OptStrField(j.fields, "large").Success?
    ensures r.Success? ==> r.value.small.Some? && r.value.medium.Some?
    ensures r.Success? ==>
      && StrField(j.fields, "small") == Success(r.value.small.value)
      && StrField(j.fields, "medium") == Success(r.value.medium.value)
      && OptStrField(j.fields, "large") == Success(r.value.large)
  {
    if !j.JObj? then Failure(ValidationError(""))
    else
      var small :- StrField(j.fields, "small");
      var medium :- StrField(j.fields, "medium");
      var large :- OptStrField(j.fields, "large");
      Success(BadgeUrls(Some(small), Some(medium), large))
  }

  /** `Location` (`anystr_lower`): name and country code stored lower-cased. */
  function ReadLocation(j: Json): (r: Result<Location, ValidationError>)
    ensures r.Success? <==>
      && j.JObj? && IntField(j.fields, "id").Success? && BoolField(j.fields, "isCountry").Success?
      && StrField(j.fields, "name").Success? && OptStrField(j.fields, "countryCode").Success?
    ensures r.Success? ==>
      && IntField(j.fields, "id") == Success(r.value.id)
      && BoolField(j.fields, "isCountry") == Success(r.value.isCountry)
      && StrField(j.fields, "name").Success?
      && IsLowerCase(r.value.name) && Lower(r.value.name) == Lower(StrField(j.fields, "name").value)
    ensures r.Success? ==> var cc := OptStrField(j.fields, "countryCode");
      cc.Success? && (r.value.countryCode.None? <==> cc.value.None?)
      && (r.value.countryCode.Some? ==> IsLowerCase(r.value.countryCode.value) && Lower(r.value.countryCode.value) == Lower(cc.value.value))
  {
    if !j.JObj? then Failure(ValidationError(""))
    else
      var id :- IntField(j.fields, "id");
      var isCountry :- BoolField(j.fields, "isCountry");
      var name :- StrField(j.fields, "name");
      var cc :- OptStrField(j.fields, "countryCode");
      Success(NewLocation(id, isCountry, name, cc))
  }

  /** `BaseLabel` (`ClanLabel`, `PlayerLabel`; `anystr_lower`). */
  function ReadLabel(j: Json): (r: Result<Label, ValidationError>)
    ensures r.Success? <==>
      && j.JObj? && IntField(j.fields, "id").Success? && StrField(j.fields, "name").Success?
      && ReadBadgeUrls(Get(j.fields, "iconUrls")).Success?
    ensures r.Success? ==> j.JObj? && IntField(j.fields, "id") == Success(r.value.id)
    ensures r.Success? ==>
      && StrField(j.fields, "name").Success? && IsLowerCase(r.value.name)
      && Lower(r.value.name) == Lower(StrField(j.fields, "name").value)
    ensures r.Success? ==> ReadBadgeUrls(Get(j.fields, "iconUrls")) == Success(r.value.iconUrls)
  {
    if !j.JObj? then Failure(ValidationError(""))
    else
      var id :- IntField(j.fields, "id");
      var name :- StrField(j.fields, "name");
      var icons :- ReadBadgeUrls(Get(j.fields, "iconUrls"));
      Success(NewLabel(id, name, icons))
  }

  /** `BaseLeague` (`ClanWarLeague`, `PlayerLeague`; `anystr_lower`; icons optional). */
  function ReadLeague(j: Json): (r: Result<League, ValidationError>)
    ensures r.Success? <==>
      && j.JObj? && IntField(j.fields, "id").Success? && StrField(j.fields, "name").Success?
      && (Get(j.fields, "iconUrls").JNull? || ReadBadgeUrls(Get(j.fields, "iconUrls")).Success?)
    ensures r.Success? ==> j.JObj? && IntField(j.fields, "id") == Success(r.value.id)
    ensures r.Success? ==>
      && StrField(j.fields, "name").Success? && IsLowerCase(r.value.name)
      && Lower(r.value.name) == Lower(StrField(j.fields, "name").value)
    ensures r.Success? ==> (r.value.iconUrls.None? <==> Get(j.fields, "iconUrls").JNull?)
    ensures r.Success? && r.value.iconUrls.Some? ==> ReadBadgeUrls(Get(j.fields, "iconUrls")) == Success(r.value.iconUrls.value)
  {
    if !j.JObj? then Failure(ValidationError(""))
    else
      var id :- IntField(j.fields, "id");
      var name :- StrField(j.fields, "name");
      var raw := Get(j.fields, "iconUrls");
      if raw.JNull? then Success(NewLeague(id, name, None))
      else
        var icons :- ReadBadgeUrls(raw);
        Success(NewLeague(id, name, Some(icons)))
  }

  /** `ClanChatLanguage` (`anystr_lower`): name and language code lower-cased. */
  function ReadChatLanguage(j: Json): (r: Result<ChatLanguage, ValidationError>)
    ensures r.Success? <==>
      && j.JObj? && IntField(j.fields, "id").Success? && StrField(j.fields, "name").Success?
      && StrField(j.fields, "languageCode").Success?
    ensures r.Success? ==> j.JObj? && IntField(j.fields, "id") == Success(r.value.id)
    ensures r.Success? ==>
      && StrField(j.fields, "name").Success? && IsLowerCase(r.value.name)
      && Lower(r.value.name) == Lower(StrField(j.fields, "name").value)
    ensures r.Success? ==>
      && StrField(j.fields, "languageCode").Success? && IsLowerCase(r.value.languageCode)
      && Lower(r.value.languageCode) == Lower(StrField(j.fields, "languageCode").value)
  {
    if !j.JObj? then Failure(ValidationError(""))
    else
      var id :- IntField(j.fields, "id");
      var name :- StrField(j.fields, "name");
      var code :- StrField(j.fields, "languageCode");
      Success(NewChatLanguage(id, name, code))
  }

  /**
   * Decoding is case-blind: two payloads that differ only in the letter
   * case of a location's name decode to the same location.
   */
  lemma ReadLocationIgnoresCase(fields: map<string, Json>, other: string)
    requires "name" in fields && fields["name"].JStr?
    requires Lower(other) == Lower(fields["name"].s)
    ensures ReadLocation(JObj(fields)) == ReadLocation(JObj(fields["name" := JStr(other)]))
  {
    var fields' := fields["name" := JStr(other)];
    assert OptStrField(fields', "countryCode") == OptStrField(fields, "countryCode");
    assert IntField(fields', "id") == IntField(fields, "id");
    assert BoolField(fields', "isCountry") == BoolField(fields, "isCountry");
  }

  /*
   * The `ClanWar` alias scheme. Its alias generator prefixes "war" to the
   * capitalised camel form of the field name; `is_war_log_public` alone
   * overrides it with "isWarLogPublic". Field names are kept as lists of
   * words so that the generated aliases can be worked out once per field.
   */

  datatype WarField = Wins | Losses | Ties | WinStreak | IsWarLogPublic | League | Frequency | State | Currentwar | Log

  const WinsWord: string := "wins"
  const LossesWord: string := "losses"
  const TiesWord: string := "ties"
  const WinWord: string := "win"
  const StreakWord: string := "streak"
  const IsWord: string := "is"
  const WarWord: string := "war"
  const LogWord: string := "log"
  const PublicWord: string := "public"
  const LeagueWord: string := "league"
  const FrequencyWord: string := "frequency"
  const StateWord: string := "state"
  const CurrentwarWord: string := "currentwar"

  /** The words of a field's Python name. */
  function Words(f: WarField): (w: seq<string>)
    ensures |w| >= 1 && forall i :: 0 <= i < |w| ==> '_' !in w[i]
  {
    match f
    case Wins => [WinsWord]
    case Losses => [LossesWord]
    case Ties => [TiesWord]
    case WinStreak => [WinWord, StreakWord]
    case IsWarLogPublic => [IsWord, WarWord, LogWord, PublicWord]
    case League => [LeagueWord]
    case Frequency => [FrequencyWord]
    case State => [StateWord]
    case Currentwar => [CurrentwarWord]
    case Log => [LogWord]
  }

  /** The Python field name: its words joined by "_". */
  function FieldName(f: WarField): string {
    Join(Words(f), "_")
  }

  /** `f"war{utils.toCamel(field_name, lower_first=False)}"` */
  function GeneratedAlias(f: WarField): (a: string)
    ensures |a| >= 3 && a[..3] == "war" && '_' !in a[3..]
    ensures Lower(a[3..]) == Lower(Remove(FieldName(f), '_'))
  {
    var a := "war" + ToCamel(FieldName(f), false);
    assert a[3..] == ToCamel(FieldName(f), false);
    a
  }

  const IsWarLogPublicAlias: string := "isWarLogPublic"

  /** The key under which `ClanWar` reads a field. */
  function Alias(f: WarField): string {
    if f == IsWarLogPublic then IsWarLogPublicAlias else GeneratedAlias(f)
  }

  /** Fields declared `Optional`: a war payload may lack them. */
  predicate IsOptional(f: WarField) {
    f == State || f == Currentwar || f == Log
  }

  /** A war object `ClanWar` accepts as far as its keys go: every required alias present. */
  predicate AcceptsWarKeys(keys: set<string>) {
    forall f: WarField :: !IsOptional(f) ==> Alias(f) in keys
  }

  lemma ConcatPair(a: string, b: string)
    ensures Concat([a, b]) == a + b
  {
    assert [a, b][1..] == [b];
    ConcatSingle(b);
  }

  lemma ConcatSingle(a: string)
    ensures Concat([a]) == a
  {
    assert [a][1..] == [];
    assert a + [] == a;
  }

  /** A generated alias, from the capitalised words worked out by hand. */
  lemma GeneratedFrom(f: WarField, segments: seq<string>, camel: string, alias: string)
    requires f != IsWarLogPublic
    requires CamelSegments(Words(f), false) == segments && Concat(segments) == camel && "war" + camel == alias
    ensures Alias(f) == alias
  {
    ToCamelOfWords(Words(f), false);
  }

  /** A one-word field's alias: "war" and the word capitalised. */
  lemma GeneratedOneWord(f: WarField, word: string, camel: string, alias: string)
    requires f != IsWarLogPublic
    requires Words(f) == [word] && Capitalize(word) == camel && "war" + camel == alias
    ensures Alias(f) == alias
  {
    assert CamelSegments([word], false) == [Capitalize(word)];
    ConcatSingle(camel);
    GeneratedFrom(f, [camel], camel, alias);
  }

  lemma AliasWins(f: WarField) requires f == Wins ensures Alias(f) == "warWins" {
    GeneratedOneWord(f, WinsWord, "Wins", "warWins");
  }

  lemma AliasLosses(f: WarField) requires f == Losses ensures Alias(f) == "warLosses" {
    GeneratedOneWord(f, LossesWord, "Losses", "warLosses");
  }

  lemma AliasTies(f: WarField) requires f == Ties ensures Alias(f) == "warTies" {
    GeneratedOneWord(f, TiesWord, "Ties", "warTies");
  }

  lemma AliasWinStreak(f: WarField) requires f == WinStreak ensures Alias(f) == "warWinStreak" {
    assert Capitalize(WinWord) == "Win";
    assert Capitalize(StreakWord) == "Streak";
    assert CamelSegments(Words(f), false) == ["Win", "Streak"];
    ConcatPair("Win", "Streak");
    GeneratedFrom(f, ["Win", "Streak"], "WinStreak", "warWinStreak");
  }

  lemma AliasLeague(f: WarField) requires f == WarField.League ensures Alias(f) == "warLeague" {
    GeneratedOneWord(f, LeagueWord, "League", "warLeague");
  }

  lemma AliasFrequency(f: WarField) requires f == Frequency ensures Alias(f) == "warFrequency" {
    GeneratedOneWord(f, FrequencyWord, "Frequency", "warFrequency");
  }

  lemma AliasState(f: WarField) requires f == State ensures Alias(f) == "warState" {
    GeneratedOneWord(f, StateWord, "State", "warState");
  }

  lemma AliasCurrentwar(f: WarField) requires f == Currentwar ensures Alias(f) == "warCurrentwar" {
    GeneratedOneWord(f, CurrentwarWord, "Currentwar", "warCurrentwar");
  }

  lemma AliasLog(f: WarField) requires f == Log ensures Alias(f) == "warLog" {
    GeneratedOneWord(f, LogWord, "Log", "warLog");
  }

  /** The spelled-out alias of every `ClanWar` field. */
  function AliasTable(f: WarField): string {
    match f
    case Wins => "warWins"
    case Losses => "warLosses"
    case Ties => "warTies"
    case WinStreak => "warWinStreak"
    case IsWarLogPublic => "isWarLogPublic"
    case League => "warLeague"
    case Frequency => "warFrequency"
    case State => "warState"
    case Currentwar => "warCurrentwar"
    case Log => "warLog"
  }

  /** The generator and the override together give exactly the spelled-out aliases. */
  lemma AliasSpelling(f: WarField)
    ensures Alias(f) == AliasTable(f)
  {
    match f
    case Wins => AliasWins(f);
    case Losses => AliasLosses(f);
    case Ties => AliasTies(f);
    case WinStreak => AliasWinStreak(f);
    case IsWarLogPublic =>
    case League => AliasLeague(f);
    case Frequency => AliasFrequency(f);
    case State => AliasState(f);
    case Currentwar => AliasCurrentwar(f);
    case Log => AliasLog(f);
  }

  /** No two fields share an alias. */
  lemma AliasInjective(f: WarField, g: WarField)
    requires Alias(f) == Alias(g)
    ensures f == g
  {
    AliasSpelling(f);
    AliasSpelling(g);
  }

  /*
   * The `parse_datetime` pre-validators of `ClanWarInfo`, `ClanWarResult`
   * and `GoldPass`: a string is parsed with the API's format, any other
   * value is handed on to validation untouched. `parse` stands for
   * `datetime.strptime(value, TimeFormat)` and is `None` where it raises.
   */

  const TimeFormat: string := "%Y%m%dT%H%M%S" + ".%fZ"

  datatype TimeInput = Parsed(at: Instant) | Raw(value: Json)

  function PreValidateTime(parse: string -> Option<Instant>, value: Json): (r: Result<TimeInput, TimeError>)
    ensures !value.JStr? ==> r == Success(Raw(value))
    ensures value.JStr? ==> (r.Success? <==> parse(value.s).Some?)
    ensures value.JStr? && r.Success? ==> r.value == Parsed(parse(value.s).value)
    ensures r.Failure? ==> value.JStr? && r.error == Unparseable(value.s)
  {
    if value.JStr? then
      var t :- ConvertTime(parse, value.s);
      Success(Parsed(t))
    else Success(Raw(value))
  }

  /** The pre-validator and the attrs converter of src/models.py agree on every string. */
  lemma PreValidateAgreesWithConverter(parse: string -> Option<Instant>, raw: string)
    ensures PreValidateTime(parse, JStr(raw)).Success? <==> ConvertTime(parse, raw).Success?
    ensures ConvertTime(parse, raw).Success? ==> PreValidateTime(parse, JStr(raw)) == Success(Parsed(ConvertTime(parse, raw).value))
    ensures ConvertTime(parse, raw).Failure? ==> PreValidateTime(parse, JStr(raw)) == Failure(ConvertTime(parse, raw).error)
  {
  }
}
