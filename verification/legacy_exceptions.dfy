/**
 * The two earlier lookup errors, as they appear in cocapi/exceptions.py and
 * in src/exceptions.py: an unknown location and an unknown clan label. Both
 * keep the offending value and a message, and render as "value -> message".
 */
module LegacyExceptions {
  import opened Wrappers
  import opened Text

  /** Which copy of the module the error comes from. */
  datatype Generation = Cocapi | Src

  datatype LegacyErrorClass = UnknownLocation | UnknownClanLabel

  /** A raised error: the offending value (rendered), the attribute it is stored under, and the message. */
  datatype LegacyError = LegacyError(cls: LegacyErrorClass, field: string, subject: string, message: string)

  /**
   * The attribute holding the offending value. In cocapi the clan label
   * error keeps it as `clan_label`; the src copy stores both as `location`.
   */
  function SubjectField(g: Generation, c: LegacyErrorClass): string {
    match (g, c)
    case (Cocapi, UnknownClanLabel) => "clan_label"
    case _ => "location"
  }

  const ApiReference := "official API " + "reference https://" + "developer." + "clashofclans.com/#/" + "documentation for "

  /** The default value of the `message` parameter. */
  function DefaultMessage(g: Generation, c: LegacyErrorClass): string {
    match (g, c)
    case (Cocapi, UnknownLocation) =>
      "Unknown location! " + "To get available " + "locations, check " + "`self._locations` or " + ApiReference + "\"locations/" + "locations\" block"
    case (Cocapi, UnknownClanLabel) =>
      "Unknown clan label! " + "To get available " + "clan labels, check " + "`self._clan_labels` " + "or " + ApiReference + "\"labels/labels/" + "clans\" block"
    case (Src, UnknownLocation) =>
      "Unknown location! " + "Check " + "`self._locations` or " + ApiReference + "\"locations/" + "locations\" block"
    case (Src, UnknownClanLabel) =>
      "Unknown clan label! " + "Check " + "`self._clan_labels` " + "or " + ApiReference + "\"labels/labels/" + "clans\" block"
  }

  /** The constructor: an explicit message replaces the default. */
  function NewLegacyError(g: Generation, c: LegacyErrorClass, subject: string, message: Option<string>): (e: LegacyError)
    ensures e.cls == c && e.subject == subject
    ensures e.field == SubjectField(g, c)
    ensures message.Some? ==> e.message == message.value
    ensures message.None? ==> e.message == DefaultMessage(g, c)
  {
    LegacyError(c, SubjectField(g, c), subject, message.GetOr(DefaultMessage(g, c)))
  }

  /** `__str__`: the value, an arrow, and the message. */
  function Render(e: LegacyError): (r: string)
    ensures |r| == |e.subject| + 4 + |e.message|
    ensures r[..|e.subject|] == e.subject && r[|e.subject| + 4..] == e.message
    ensures r[|e.subject|..|e.subject| + 4] == " -> "
  {
    e.subject + " -> " + e.message
  }

  /**
   * When the offending value holds no '>', the rendered string determines
   * both the value and the message.
   */
  lemma RenderInjective(e1: LegacyError, e2: LegacyError)
    requires '>' !in e1.subject && '>' !in e2.subject
    requires Render(e1) == Render(e2)
    ensures e1.subject == e2.subject && e1.message == e2.message
  {
    var a1 := e1.subject + " -";
    var a2 := e2.subject + " -";
    assert Render(e1) == a1 + ['>'] + (" " + e1.message);
    assert Render(e2) == a2 + ['>'] + (" " + e2.message);
    CancelAtSeparator(a1, " " + e1.message, a2, " " + e2.message, '>');
    CancelAround("", e1.subject, e2.subject, " -");
    CancelAround(" ", e1.message, e2.message, "");
  }

  /** The two copies agree on everything but the default text and, for labels, the attribute name. */
  lemma GenerationsAgreeOnExplicitMessage(c: LegacyErrorClass, subject: string, message: string)
    ensures Render(NewLegacyError(Cocapi, c, subject, Some(message))) == Render(NewLegacyError(Src, c, subject, Some(message)))
    ensures NewLegacyError(Cocapi, c, subject, Some(message)).field == NewLegacyError(Src, c, subject, Some(message)).field
        <==> c == UnknownLocation
  {
  }

  /** Without a message the copies render differently, since their default texts differ. */
  lemma GenerationsDifferOnDefault(c: LegacyErrorClass, subject: string)
    ensures Render(NewLegacyError(Cocapi, c, subject, None)) != Render(NewLegacyError(Src, c, subject, None))
  {
    var r1 := Render(NewLegacyError(Cocapi, c, subject, None));
    var r2 := Render(NewLegacyError(Src, c, subject, None));
    assert |DefaultMessage(Cocapi, c)| != |DefaultMessage(Src, c)|;
    assert |r1| != |r2|;
  }
}
