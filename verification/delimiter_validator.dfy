/**
 * DelimiterValidator: the observer of BI connection records that refuses to
 * store a CSV separator that is not exactly one character long, on creation
 * and on update alike.
 */
module DelimiterValidator {
  import opened Outcomes
  import opened JavaText

  const INVALID_DELIMITER: string := "ETPBIC_InvalidDelimiter"

  /**
   * What the observer sees of a persistence event on a BI connection: whether
   * the framework reports it as an event for this observer, and the current
   * value of the csvSeparator property.
   */
  datatype ConnectionEvent = ConnectionEvent(isValidEvent: bool, csvSeparator: string)

  /** The separator passes when String.length, which counts UTF-16 units, is exactly 1. */
  function ValidateDelimiter(csvSeparator: string): (v: Verdict)
    ensures v.Allowed? <==> |csvSeparator| == 1 && csvSeparator[0] as int <= 0xFFFF
    ensures v.Allowed? ==> v.logged == []
    ensures v.Blocked? ==> v.error == Translated(INVALID_DELIMITER)
  {
    if Utf16Length(csvSeparator) != 1 then Blocked(Translated(INVALID_DELIMITER)) else Allowed([])
  }

  /** An event that is not for this observer goes through unchecked. */
  function OnUpdate(event: ConnectionEvent): (v: Verdict)
    ensures v.Blocked? <==> event.isValidEvent && Utf16Length(event.csvSeparator) != 1
    ensures v.Blocked? ==> v.error == Translated(INVALID_DELIMITER)
    ensures v.Allowed? ==> v.logged == []
  {
    if !event.isValidEvent then Allowed([]) else ValidateDelimiter(event.csvSeparator)
  }

  function OnSave(event: ConnectionEvent): (v: Verdict)
    ensures v.Blocked? <==> event.isValidEvent && Utf16Length(event.csvSeparator) != 1
    ensures v.Blocked? ==> v.error == Translated(INVALID_DELIMITER)
    ensures v.Allowed? ==> v.logged == []
  {
    if !event.isValidEvent then Allowed([]) else ValidateDelimiter(event.csvSeparator)
  }

  /**
   * Creation and update apply one rule to the one property, and no other
   * condition gates it: a valid event is refused exactly when the separator
   * is not a single UTF-16 unit.
   */
  lemma SaveAndUpdateAgree(event: ConnectionEvent)
    ensures OnSave(event) == OnUpdate(event)
    ensures event.isValidEvent ==> OnSave(event) == ValidateDelimiter(event.csvSeparator)
    ensures !event.isValidEvent ==> OnSave(event) == Allowed([])
  {
  }

  /**
   * A single character beyond U+FFFF is two UTF-16 units, so it is refused
   * although it is one character.
   */
  lemma SupplementaryCharacterRefused(c: char)
    requires c as int > 0xFFFF
    ensures ValidateDelimiter([c]) == Blocked(Translated(INVALID_DELIMITER))
  {
  }

  /** The same for one emoji, and a character just inside the basic plane passes. */
  lemma SurrogatePairExamples()
    ensures ValidateDelimiter("\U{1F600}") == Blocked(Translated(INVALID_DELIMITER))
    ensures ValidateDelimiter("\U{FFFF}").Allowed?
  {
    SupplementaryCharacterRefused('\U{1F600}');
    assert "\U{1F600}" == ['\U{1F600}'];
  }

  /**
   * The separators of the unit tests: "," and ";" are accepted, ",," and
   * "tab" are rejected; the empty separator, rejected too, is added here.
   */
  lemma TestSeparators()
    ensures ValidateDelimiter(",").Allowed? && ValidateDelimiter(";").Allowed?
    ensures ValidateDelimiter("") == Blocked(Translated(INVALID_DELIMITER))
    ensures ValidateDelimiter(",,") == Blocked(Translated(INVALID_DELIMITER))
    ensures ValidateDelimiter("tab") == Blocked(Translated(INVALID_DELIMITER))
  {
  }
}
