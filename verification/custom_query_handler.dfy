/**
 * CustomQueryHandler: the observer of custom BI query records. Creation and
 * update run the SELECT-prefix validation; the class observes no deletion,
 * so it never blocks one.
 */
module CustomQueryHandler {
  import opened Outcomes
  import QueryValidationUtil
  import JavaText
  import EtendoBaseQueryHandler

  /** The current state of a custom BI query record in a persistence event. */
  datatype CustomQueryEvent = CustomQueryEvent(isValidEvent: bool, query: string)

  function OnUpdate(event: CustomQueryEvent): (v: Verdict)
    ensures v.Blocked? <==> event.isValidEvent
                            && !JavaText.StartsWith(QueryValidationUtil.Normalized(event.query), QueryValidationUtil.SELECT)
    ensures v.Blocked? ==> v.error == Translated(QueryValidationUtil.INVALID_QUERY_SYNTAX)
    ensures v.Allowed? ==> v.logged == if event.isValidEvent then [QueryValidationUtil.QUERY_CREATED] else []
  {
    if !event.isValidEvent then Allowed([]) else QueryValidationUtil.QueryValidation(event.query)
  }

  function OnSave(event: CustomQueryEvent): (v: Verdict)
    ensures v.Blocked? <==> event.isValidEvent
                            && !JavaText.StartsWith(QueryValidationUtil.Normalized(event.query), QueryValidationUtil.SELECT)
    ensures v.Blocked? ==> v.error == Translated(QueryValidationUtil.INVALID_QUERY_SYNTAX)
    ensures v.Allowed? ==> v.logged == if event.isValidEvent then [QueryValidationUtil.QUERY_CREATED] else []
  {
    if !event.isValidEvent then Allowed([]) else QueryValidationUtil.QueryValidation(event.query)
  }

  /** Custom queries are held to exactly the rule that base queries are held to. */
  lemma SameRuleAsBaseQueries(event: CustomQueryEvent, isEtendoBase: bool)
    ensures OnSave(event) == EtendoBaseQueryHandler.OnSave(
              EtendoBaseQueryHandler.QueryEvent(event.isValidEvent, event.query, isEtendoBase))
    ensures OnUpdate(event) == EtendoBaseQueryHandler.OnUpdate(
              EtendoBaseQueryHandler.QueryEvent(event.isValidEvent, event.query, isEtendoBase))
  {
  }
}
