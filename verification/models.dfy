/**
 * The attrs converters of src/models.py: names and codes are stored
 * lower-cased, other fields as given, and timestamps go through a parser.
 */
module Models {
  import opened Wrappers
  import opened Text

  datatype BadgeUrls = BadgeUrls(small: Option<string>, medium: Option<string>, large: Option<string>)

  /** `Label`, and its subclasses `ClanLabel` and `PlayerLabel`. */
  datatype Label = Label(id: int, name: string, iconUrls: BadgeUrls)

  /** `League`, and its subclasses `ClanWarLeague` and `PlayerLeague`. */
  datatype League = League(id: int, name: string, iconUrls: Option<BadgeUrls>)

  datatype Location = Location(id: int, isCountry: bool, name: string, countryCode: Option<string>)

  datatype ChatLanguage = ChatLanguage(id: int, name: string, languageCode: string)

  /** `converters.optional(str.lower)` */
  function LowerOptional(s: Option<string>): (r: Option<string>)
    ensures r.None? <==> s.None?
    ensures r.Some? ==> IsLowerCase(r.value) && Lower(r.value) == Lower(s.value)
  {
    match s
    case None => None
    case Some(v) =>
      LowerIsLowerCase(v);
      LowerIdempotent(v);
      Some(Lower(v))
  }

  function NewLabel(id: int, name: string, iconUrls: BadgeUrls): (l: Label)
    ensures l.id == id && l.iconUrls == iconUrls
    ensures IsLowerCase(l.name) && Lower(l.name) == Lower(name)
  {
    LowerIsLowerCase(name);
    LowerIdempotent(name);
    Label(id, Lower(name), iconUrls)
  }

  function NewLeague(id: int, name: string, iconUrls: Option<BadgeUrls>): (l: League)
    ensures l.id == id && l.iconUrls == iconUrls
    ensures IsLowerCase(l.name) && Lower(l.name) == Lower(name)
  {
    LowerIsLowerCase(name);
    LowerIdempotent(name);
    League(id, Lower(name), iconUrls)
  }

  function NewLocation(id: int, isCountry: bool, name: string, countryCode: Option<string>): (l: Location)
    ensures l.id == id && l.isCountry == isCountry
    ensures IsLowerCase(l.name) && Lower(l.name) == Lower(name)
    ensures l.countryCode.None? <==> countryCode.None?
    ensures l.countryCode.Some? ==> IsLowerCase(l.countryCode.value) && Lower(l.countryCode.value) == Lower(countryCode.value)
  {
    LowerIsLowerCase(name);
    LowerIdempotent(name);
    Location(id, isCountry, Lower(name), LowerOptional(countryCode))
  }

  function NewChatLanguage(id: int, name: string, languageCode: string): (c: ChatLanguage)
    ensures c.id == id
    ensures IsLowerCase(c.name) && Lower(c.name) == Lower(name)
    ensures IsLowerCase(c.languageCode) && Lower(c.languageCode) == Lower(languageCode)
  {
    LowerIsLowerCase(name);
    LowerIdempotent(name);
    LowerIsLowerCase(languageCode);
    LowerIdempotent(languageCode);
    ChatLanguage(id, Lower(name), Lower(languageCode))
  }

  /** A lower-case string is determined by the input it agrees with up to case. */
  lemma LowerCaseDetermined(stored: string, input: string)
    requires IsLowerCase(stored) && Lower(stored) == Lower(input)
    ensures stored == Lower(input)
  {
    LowerCaseFixed(stored);
  }

  /** Rebuilding an instance from its own fields gives it back. */
  lemma RebuildLabel(id: int, name: string, iconUrls: BadgeUrls)
    ensures var l := NewLabel(id, name, iconUrls); NewLabel(l.id, l.name, l.iconUrls) == l
  {
    LowerIdempotent(name);
  }

  lemma RebuildLeague(id: int, name: string, iconUrls: Option<BadgeUrls>)
    ensures var l := NewLeague(id, name, iconUrls); NewLeague(l.id, l.name, l.iconUrls) == l
  {
    LowerIdempotent(name);
  }

  lemma RebuildLocation(id: int, isCountry: bool, name: string, countryCode: Option<string>)
    ensures var l := NewLocation(id, isCountry, name, countryCode);
      NewLocation(l.id, l.isCountry, l.name, l.countryCode) == l
  {
    LowerIdempotent(name);
    if countryCode.Some? {
      LowerIdempotent(countryCode.value);
    }
  }

  lemma RebuildChatLanguage(id: int, name: string, languageCode: string)
    ensures var c := NewChatLanguage(id, name, languageCode);
      NewChatLanguage(c.id, c.name, c.languageCode) == c
  {
    LowerIdempotent(name);
    LowerIdempotent(languageCode);
  }

  /** Inputs that differ only in letter case build the same location. */
  lemma LocationIgnoresCase(id: int, isCountry: bool, n1: string, n2: string, c1: Option<string>, c2: Option<string>)
    requires Lower(n1) == Lower(n2)
    requires c1.None? <==> c2.None?
    requires c1.Some? ==> Lower(c1.value) == Lower(c2.value)
    ensures NewLocation(id, isCountry, n1, c1) == NewLocation(id, isCountry, n2, c2)
  {
  }

  /** A point in time as `datetime.strptime` returns it. */
  datatype Instant = Instant(ticks: int)

  /** `strptime` with the API's format, which failed on the text it names. */
  datatype TimeError = Unparseable(raw: string)

  /** `utils.rawtime_to_datetime`; `parse` returns `None` where `strptime` raises. */
  function ConvertTime(parse: string -> Option<Instant>, raw: string): (r: Result<Instant, TimeError>)
    ensures r.Success? <==> parse(raw).Some?
    ensures r.Success? ==> r.value == parse(raw).value
    ensures r.Failure? ==> r.error == Unparseable(raw)
  {
    match parse(raw)
    case Some(t) => Success(t)
    case None => Failure(Unparseable(raw))
  }

  /** `converters.optional(utils.rawtime_to_datetime)`: `None` passes through unparsed. */
  function ConvertOptionalTime(parse: string -> Option<Instant>, raw: Option<string>): (r: Result<Option<Instant>, TimeError>)
    ensures raw.None? ==> r == Success(None)
    ensures raw.Some? ==> (r.Success? <==> parse(raw.value).Some?)
    ensures raw.Some? && r.Success? ==> r.value == Some(parse(raw.value).value)
  {
    match raw
    case None => Success(None)
    case Some(s) =>
      var t :- ConvertTime(parse, s);
      Success(Some(t))
  }

  datatype ClanWarTimes = ClanWarTimes(startTime: Option<Instant>, endTime: Option<Instant>, preparationStartTime: Option<Instant>)

  /** The three optional times of `ClanWarInfo`, converted in field order. */
  function NewClanWarTimes(parse: string -> Option<Instant>, start: Option<string>, end: Option<string>, prep: Option<string>): (r: Result<ClanWarTimes, TimeError>)
    ensures r.Success? <==>
      ConvertOptionalTime(parse, start).Success? && ConvertOptionalTime(parse, end).Success? && ConvertOptionalTime(parse, prep).Success?
    ensures r.Success? ==>
      && (r.value.startTime.None? <==> start.None?)
      && (r.value.endTime.None? <==> end.None?)
      && (r.value.preparationStartTime.None? <==> prep.None?)
    ensures r.Success? ==>
      && r.value.startTime == ConvertOptionalTime(parse, start).value
      && r.value.endTime == ConvertOptionalTime(parse, end).value
      && r.value.preparationStartTime == ConvertOptionalTime(parse, prep).value
    ensures ConvertOptionalTime(parse, start).Failure? ==> r == Failure(Unparseable(start.value))
    ensures ConvertOptionalTime(parse, start).Success? && ConvertOptionalTime(parse, end).Failure? ==>
      r == Failure(Unparseable(end.value))
    ensures (ConvertOptionalTime(parse, start).Success? && ConvertOptionalTime(parse, end).Success?
             && ConvertOptionalTime(parse, prep).Failure?) ==> r == Failure(Unparseable(prep.value))
  {
    var s :- ConvertOptionalTime(parse, start);
    var e :- ConvertOptionalTime(parse, end);
    var p :- ConvertOptionalTime(parse, prep);
    Success(ClanWarTimes(s, e, p))
  }

  datatype GoldPass = GoldPass(startTime: Instant, endTime: Instant)

  /** `GoldPass`: both times are required and parsed, the start first. */
  function NewGoldPass(parse: string -> Option<Instant>, start: string, end: string): (r: Result<GoldPass, TimeError>)
    ensures r.Success? <==> parse(start).Some? && parse(end).Some?
    ensures r.Success? ==> r.value == GoldPass(parse(start).value, parse(end).value)
    ensures parse(start).None? ==> r == Failure(Unparseable(start))
    ensures parse(start).Some? && parse(end).None? ==> r == Failure(Unparseable(end))
  {
    var s :- ConvertTime(parse, start);
    var e :- ConvertTime(parse, end);
    Success(GoldPass(s, e))
  }
}
