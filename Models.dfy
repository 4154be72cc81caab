/**
 * The request, response and CRM payload records of the bot (bot/models.py).
 * They are plain values: none of them is updated after it is built.
 */
module Models {
  import opened Wrappers

  /** Entity values as the NLU step hands them over: a string, or JSON null. */
  type EntityMap = map<string, Option<string>>

  /** Upper bound on the length of an incoming transcript (the request's input-size guard). */
  const MaxTranscriptLength: nat := 1000

  type Transcript = s: string | |s| <= MaxTranscriptLength

  /** Body of `POST /bot/handle`. */
  datatype BotRequest = BotRequest(transcript: Transcript)

  /**
   * Builds a request from raw text the way field validation does: a transcript over the bound
   * is refused, any other is kept exactly as given.
   */
  function ParseBotRequest(text: string): (r: Option<BotRequest>)
    ensures r.Some? <==> |text| <= MaxTranscriptLength
    ensures r.Some? ==> r.value.transcript == text
  {
    if |text| <= MaxTranscriptLength then Some(BotRequest(text)) else None
  }

  /** Audit record of the one CRM call made: where it went, with which HTTP method (`method` is a Dafny keyword), and its status. */
  datatype CrmCall = CrmCall(endpoint: string, httpMethod: string, statusCode: int)

  datatype SuccessResult = SuccessResult(message: string)

  datatype BotSuccessResponse = BotSuccessResponse(
    intent: string,
    entities: EntityMap,
    crmCall: CrmCall,
    result: SuccessResult)

  /** `type` is a keyword in Dafny, so the error kind is held in `errorType`. */
  datatype ErrorDetails = ErrorDetails(errorType: string, details: string)

  datatype BotErrorResponse = BotErrorResponse(intent: string, error: ErrorDetails)

  /** The two shapes a reply body can take. */
  datatype Envelope =
    | Success(success: BotSuccessResponse)
    | Error(failure: BotErrorResponse)
  {
    function Intent(): string
    {
      match this
      case Success(s) => s.intent
      case Error(e) => e.intent
    }
  }

  /** Body of a lead-creation call: name, phone and city are required, `source` defaults to None. */
  datatype CrmLeadCreatePayload = CrmLeadCreatePayload(
    name: string,
    phone: string,
    city: string,
    source: Option<string> := None)

  /** Body of a visit-scheduling call: lead and time are required, `notes` defaults to None. */
  datatype CrmVisitCreatePayload = CrmVisitCreatePayload(
    leadId: string,
    visitTime: string,
    notes: Option<string> := None)

  /**
   * Body of a status-update call. It has no lead id field: the lead travels in the URL path.
   */
  datatype CrmLeadUpdatePayload = CrmLeadUpdatePayload(
    status: string,
    notes: Option<string> := None)
}

/**
 * Building a payload record from a loose field map, as keyword expansion into the record
 * does: a required field must be present and not null (the empty string is accepted), an
 * optional field absent from the map takes its default None, and keys the record does not
 * declare are ignored. The same rules read a JSON body back into its record.
 */
module Payloads {
  import opened Wrappers
  import opened Models

  predicate HasValue(fields: EntityMap, key: string)
  {
    key in fields && fields[key].Some?
  }

  /** The value an optional field receives: the map's value when present, else its default None. */
  function OptionalField(fields: EntityMap, key: string): (r: Option<string>)
    ensures key !in fields ==> r == None
    ensures key in fields ==> r == fields[key]
  {
    if key in fields then fields[key] else None
  }

  function LeadCreateFromFields(fields: EntityMap): (r: Option<CrmLeadCreatePayload>)
    ensures r.Some? <==> HasValue(fields, "name") && HasValue(fields, "phone") && HasValue(fields, "city")
    ensures r.Some? ==> && r.value.name == fields["name"].value
                        && r.value.phone == fields["phone"].value
                        && r.value.city == fields["city"].value
                        && r.value.source == (if "source" in fields then fields["source"] else None)
  {
    if HasValue(fields, "name") && HasValue(fields, "phone") && HasValue(fields, "city") then
      Some(CrmLeadCreatePayload(fields["name"].value, fields["phone"].value, fields["city"].value,
                                OptionalField(fields, "source")))
    else
      None
  }

  function VisitCreateFromFields(fields: EntityMap): (r: Option<CrmVisitCreatePayload>)
    ensures r.Some? <==> HasValue(fields, "lead_id") && HasValue(fields, "visit_time")
    ensures r.Some? ==> && r.value.leadId == fields["lead_id"].value
                        && r.value.visitTime == fields["visit_time"].value
                        && r.value.notes == (if "notes" in fields then fields["notes"] else None)
  {
    if HasValue(fields, "lead_id") && HasValue(fields, "visit_time") then
      Some(CrmVisitCreatePayload(fields["lead_id"].value, fields["visit_time"].value,
                                 OptionalField(fields, "notes")))
    else
      None
  }

  function LeadUpdateFromFields(fields: EntityMap): (r: Option<CrmLeadUpdatePayload>)
    ensures r.Some? <==> HasValue(fields, "status")
    ensures r.Some? ==> && r.value.status == fields["status"].value
                        && r.value.notes == (if "notes" in fields then fields["notes"] else None)
  {
    if HasValue(fields, "status") then
      Some(CrmLeadUpdatePayload(fields["status"].value, OptionalField(fields, "notes")))
    else
      None
  }
}
