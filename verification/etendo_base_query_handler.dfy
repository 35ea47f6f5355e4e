/**
 * EtendoBaseQueryHandler: the observer of BI query records. Creation and
 * update run the SELECT-prefix validation on the query text; deletion is
 * refused for the queries shipped with the platform (flagged Etendo base).
 */
module EtendoBaseQueryHandler {
  import opened Outcomes
  import QueryValidationUtil
  import JavaText

  /** Raised as is: this message is not looked up as a message key. */
  const CANT_DELETE_ETENDO_QUERY: string := "ETPBIC_CantDeleteEtendoQuery"

  /** The current state of a BI query record in a persistence event. */
  datatype QueryEvent = QueryEvent(isValidEvent: bool, query: string, isEtendoBase: bool)

  function OnUpdate(event: QueryEvent): (v: Verdict)
    ensures v.Blocked? <==> event.isValidEvent
                            && !JavaText.StartsWith(QueryValidationUtil.Normalized(event.query), QueryValidationUtil.SELECT)
    ensures v.Blocked? ==> v.error == Translated(QueryValidationUtil.INVALID_QUERY_SYNTAX)
    ensures v.Allowed? ==> v.logged == if event.isValidEvent then [QueryValidationUtil.QUERY_CREATED] else []
  {
    if !event.isValidEvent then Allowed([]) else QueryValidationUtil.QueryValidation(event.query)
  }

  function OnSave(event: QueryEvent): (v: Verdict)
    ensures v.Blocked? <==> event.isValidEvent
                            && !JavaText.StartsWith(QueryValidationUtil.Normalized(event.query), QueryValidationUtil.SELECT)
    ensures v.Blocked? ==> v.error == Translated(QueryValidationUtil.INVALID_QUERY_SYNTAX)
    ensures v.Allowed? ==> v.logged == if event.isValidEvent then [QueryValidationUtil.QUERY_CREATED] else []
  {
    if !event.isValidEvent then Allowed([]) else QueryValidationUtil.QueryValidation(event.query)
  }

  /** Deletion fails, with the raw key as message, exactly for a valid event on a base query. */
  function OnDelete(event: QueryEvent): (v: Verdict)
    ensures v.Blocked? <==> event.isValidEvent && event.isEtendoBase
    ensures v.Blocked? ==> v.error == Untranslated(CANT_DELETE_ETENDO_QUERY)
    ensures v.Allowed? ==> v.logged == []
  {
    if event.isValidEvent && event.isEtendoBase then Blocked(Untranslated(CANT_DELETE_ETENDO_QUERY))
    else Allowed([])
  }

  /** Deletion never looks at the query text; creation and update never look at the base flag. */
  lemma GuardsAreIndependent(event: QueryEvent, query: string, isEtendoBase: bool)
    ensures OnDelete(event.(query := query)) == OnDelete(event)
    ensures OnSave(event.(isEtendoBase := isEtendoBase)) == OnSave(event)
    ensures OnUpdate(event.(isEtendoBase := isEtendoBase)) == OnUpdate(event)
  {
  }

  /**
   * A valid save of a base query with a SELECT text goes through, and the
   * same record then cannot be deleted.
   */
  lemma BaseQueryCanBeSavedButNotDeleted(query: string)
    requires JavaText.StartsWith(QueryValidationUtil.Normalized(query), QueryValidationUtil.SELECT)
    ensures OnSave(QueryEvent(true, query, true)) == Allowed([QueryValidationUtil.QUERY_CREATED])
    ensures OnDelete(QueryEvent(true, query, true)) == Blocked(Untranslated(CANT_DELETE_ETENDO_QUERY))
    ensures OnDelete(QueryEvent(true, query, false)) == Allowed([])
  {
  }
}
