/**
 * The request handler (bot/app.py, `handle_bot_request`): the intent gate, the validation
 * gate, the three-way dispatch to the CRM and the translation of the CRM's answer into a
 * status code and a Success or Error envelope.
 *
 * The two collaborators are inputs: `NluResult` is whatever the language-model step returned,
 * and `CrmOutcome` is what the CRM transport answered to the one call made.
 */
module App {
  import opened Wrappers
  import opened Models
  import opened Nlu
  import opened Payloads
  import opened Crm

  /** The NLU step's JSON object; either of its two keys may be absent. */
  datatype NluResult = NluResult(intent: Option<string>, entities: Option<EntityMap>)
  {
    /** `nlu_result.get("intent", "UNKNOWN")` */
    function Intent(): (r: string)
      ensures intent.Some? ==> r == intent.value
      ensures intent.None? ==> r == Unknown
    {
      intent.GetOr(Unknown)
    }

    /** `nlu_result.get("entities", {})` */
    function Entities(): (r: EntityMap)
      ensures entities.Some? ==> r == entities.value
      ensures entities.None? ==> r == map[]
    {
      entities.GetOr(map[])
    }
  }

  /** What the NLU step returns when anything inside it fails. */
  const NluFallback: NluResult := NluResult(Some(ParsingError), Some(map[]))

  /**
   * The body of a CRM response as `response.json().get(...)` sees it: a JSON object, or
   * something that makes that expression raise (not JSON, or JSON that is not an object),
   * with the text of the exception.
   */
  datatype ResponseBody = Object(fields: JsonObject) | Unreadable(error: string)

  /** A CRM response: the request it answers, its status code, its decoded body and raw text. */
  datatype HttpResponse = HttpResponse(
    requestUrl: string,
    requestMethod: string,
    statusCode: int,
    body: ResponseBody,
    text: string)

  /** What the transport gives back for a call: a connection-level error, or a response. */
  datatype CrmOutcome = TransportError(error: string) | Responded(response: HttpResponse)

  /** `raise_for_status` lets exactly the 2xx codes through. */
  predicate IsSuccess(code: int)
  {
    200 <= code < 300
  }

  const StatusOk: int := 200
  const StatusBadRequest: int := 400
  const StatusInternalError: int := 500
  const StatusBadGateway: int := 502
  const StatusUnavailable: int := 503

  // The error taxonomy carried in `error.type`.
  const ParsingErrorType: string := "PARSING_ERROR"
  const ValidationErrorType: string := "VALIDATION_ERROR"
  const CrmErrorType: string := "CRM_ERROR"

  const NotUnderstood: string := "Could not understand the request."
  const NoActionConfigured: string := "Intent recognized but no action configured."
  const ConnectionErrorPrefix: string := "CRM connection error: "
  const CrmErrorPrefix: string := "CRM returned an error: "
  const InternalErrorPrefix: string := "An internal error occurred: "

  /** The handler's answer: HTTP status, body, and the CRM call it made, if any. */
  datatype Reply = Reply(status: int, envelope: Envelope, call: Option<CrmRequest>)

  function ErrorReply(status: int, intent: string, errorType: string, details: string,
                      call: Option<CrmRequest>): Reply
  {
    Reply(status, Error(BotErrorResponse(intent, ErrorDetails(errorType, details))), call)
  }

  /** Which success message an operation reports, and with which field of the CRM's answer. */
  datatype MessageTemplate = CreatedLead | ScheduledVisit | UpdatedLead(leadId: string)

  /** A Python f-string of `body.get(key)`: the value, or "None" when absent or null. */
  function FieldText(fields: JsonObject, key: string): (r: string)
    ensures key in fields && fields[key].Some? ==> r == fields[key].value
    ensures key !in fields || fields[key].None? ==> r == "None"
  {
    if key in fields && fields[key].Some? then fields[key].value else "None"
  }

  /**
   * The success message: the operation's fixed sentence, completed with the id or status the
   * CRM answered (and, for a status update, the lead id taken from the entities).
   */
  function SuccessMessage(template: MessageTemplate, fields: JsonObject): (r: string)
    ensures template.CreatedLead? ==> r == "Successfully created lead with ID: " + FieldText(fields, "lead_id")
    ensures template.ScheduledVisit? ==> r == "Successfully scheduled visit with ID: " + FieldText(fields, "visit_id")
    ensures template.UpdatedLead? ==>
              r == "Successfully updated lead " + template.leadId + " to status " + FieldText(fields, "status")
  {
    match template
    case CreatedLead =>
      "Successfully created lead with ID: " + FieldText(fields, "lead_id")
    case ScheduledVisit =>
      "Successfully scheduled visit with ID: " + FieldText(fields, "visit_id")
    case UpdatedLead(leadId) =>
      "Successfully updated lead " + leadId + " to status " + FieldText(fields, "status")
  }

  /** The intents that have a CRM action. */
  predicate HasAction(intent: string)
  {
    intent == LeadCreate || intent == VisitSchedule || intent == LeadUpdate
  }

  /** The operation each actionable intent calls. */
  predicate OperationMatches(intent: string, op: CrmOperation)
  {
    && (intent == LeadCreate <==> op.CreateLead?)
    && (intent == VisitSchedule <==> op.ScheduleVisit?)
    && (intent == LeadUpdate <==> op.UpdateLeadStatus?)
  }

  /** The call planned for an actionable intent, the entities echoed back, and the message to build. */
  datatype Dispatched = Dispatched(request: CrmRequest, echoed: EntityMap, template: MessageTemplate)

  lemma ValidatedFieldsHaveValues(entities: EntityMap, intent: string)
    requires ValidateEntities(entities, intent).None?
    ensures forall k :: k in RequiredFields(intent) ==> HasValue(entities, k)
  {
  }

  /**
   * The dispatch, with the entity map threaded through: for a status update the lead id is
   * taken out of the map, sent in the URL, and the map without it is what gets echoed.
   */
  function Dispatch(client: CrmClient, intent: string, entities: EntityMap): (r: Option<Dispatched>)
    requires ValidateEntities(entities, intent).None?
    ensures r.Some? <==> HasAction(intent)
    ensures r.Some? ==> OperationMatches(intent, r.value.request.operation)
    ensures r.Some? ==> r.value.request.url == client.Endpoint(r.value.request.operation)
    ensures r.Some? && intent != LeadUpdate ==> r.value.echoed == entities
    ensures r.Some? && intent == LeadUpdate ==>
              && r.value.echoed == entities - {"lead_id"}
              && r.value.request.operation == UpdateLeadStatus(entities["lead_id"].value)
              && "lead_id" !in r.value.request.body
  {
    ValidatedFieldsHaveValues(entities, intent);
    if intent == LeadCreate then
      var payload := LeadCreateFromFields(entities).value;
      Some(Dispatched(client.CreateLeadRequest(payload), entities, CreatedLead))
    else if intent == VisitSchedule then
      var payload := VisitCreateFromFields(entities).value;
      Some(Dispatched(client.ScheduleVisitRequest(payload), entities, ScheduledVisit))
    else if intent == LeadUpdate then
      var leadId := entities["lead_id"].value;
      var rest := entities - {"lead_id"};
      assert "status" in RequiredFields(intent) && "status" in rest;
      var payload := LeadUpdateFromFields(rest).value;
      Some(Dispatched(client.UpdateLeadStatusRequest(leadId, payload), rest, UpdatedLead(leadId)))
    else
      None
  }

  /**
   * The translation of the CRM's answer. The body is read for the success message before the
   * status is checked, so an unreadable body ends on the internal-error path whatever the
   * status code.
   */
  function Translate(intent: string, d: Dispatched, outcome: CrmOutcome): (r: Reply)
    ensures r.call == Some(d.request) && r.envelope.Intent() == intent
    ensures r.status == StatusUnavailable <==> outcome.TransportError?
    ensures r.status == StatusInternalError <==> outcome.Responded? && outcome.response.body.Unreadable?
    ensures r.status == StatusBadGateway <==>
              outcome.Responded? && outcome.response.body.Object? && !IsSuccess(outcome.response.statusCode)
    ensures r.status == StatusOk <==>
              outcome.Responded? && outcome.response.body.Object? && IsSuccess(outcome.response.statusCode)
    ensures r.envelope.Success? <==> r.status == StatusOk
  {
    var call := Some(d.request);
    match outcome
    case TransportError(e) =>
      ErrorReply(StatusUnavailable, intent, CrmErrorType, ConnectionErrorPrefix + e, call)
    case Responded(response) =>
      match response.body
      case Unreadable(e) =>
        ErrorReply(StatusInternalError, intent, ParsingErrorType, InternalErrorPrefix + e, call)
      case Object(fields) =>
        if !IsSuccess(response.statusCode) then
          ErrorReply(StatusBadGateway, intent, CrmErrorType, CrmErrorPrefix + response.text, call)
        else
          var crmCall := CrmCall(response.requestUrl, response.requestMethod, response.statusCode);
          var result := SuccessResult(SuccessMessage(d.template, fields));
          Reply(StatusOk, Success(BotSuccessResponse(intent, d.echoed, crmCall, result)), call)
  }

  /**
   * The whole handler as one function of its inputs: the specification that
   * `HandleBotRequest` is proved against.
   */
  function Handle(nlu: NluResult, client: CrmClient, outcome: CrmOutcome): (r: Reply)
    ensures r.status in {StatusOk, StatusBadRequest, StatusInternalError, StatusBadGateway, StatusUnavailable}
    ensures r.envelope.Success? <==> r.status == StatusOk
    ensures r.envelope.Intent() == nlu.Intent()
    ensures r.envelope.Error? ==>
              r.envelope.failure.error.errorType in {ParsingErrorType, ValidationErrorType, CrmErrorType}
    ensures r.call.Some? <==> HasAction(nlu.Intent()) && ValidateEntities(nlu.Entities(), nlu.Intent()).None?
    ensures r.call.Some? ==> OperationMatches(nlu.Intent(), r.call.value.operation)
                             && r.call.value.url == client.Endpoint(r.call.value.operation)
                             && r.call.value.httpMethod == Post
  {
    var intent, entities := nlu.Intent(), nlu.Entities();
    if intent == Unknown || intent == ParsingError then
      ErrorReply(StatusBadRequest, intent, ParsingErrorType, NotUnderstood, None)
    else
      match ValidateEntities(entities, intent)
      case Some(message) =>
        ErrorReply(StatusBadRequest, intent, ValidationErrorType, message, None)
      case None =>
        match Dispatch(client, intent, entities)
        case None => ErrorReply(StatusInternalError, intent, ParsingErrorType, NoActionConfigured, None)
        case Some(d) => Translate(intent, d, outcome)
  }

  /** The request's entity dictionary, which the handler mutates in place. */
  class Entities {
    var entries: EntityMap

    constructor (initial: EntityMap)
      ensures entries == initial
    {
      entries := initial;
    }

    /** `dict.pop(key)`: returns the value and removes the key. */
    method Pop(key: string) returns (v: Option<string>)
      requires key in entries
      modifies this
      ensures v == old(entries)[key]
      ensures entries == old(entries) - {key}
    {
      v := entries[key];
      entries := entries - {key};
    }
  }

  /**
   * `handle_bot_request` step by step: the entity map is an object, the status-update branch
   * pops the lead id out of it, and the envelope echoes the map as it is afterwards.
   */
  method HandleBotRequest(nlu: NluResult, client: CrmClient, outcome: CrmOutcome) returns (reply: Reply)
    ensures reply == Handle(nlu, client, outcome)
  {
    var intent := nlu.Intent();
    var entities := new Entities(nlu.Entities());

    if intent == Unknown || intent == ParsingError {
      return ErrorReply(StatusBadRequest, intent, ParsingErrorType, NotUnderstood, None);
    }

    var validationError := ValidateEntities(entities.entries, intent);
    if validationError.Some? {
      return ErrorReply(StatusBadRequest, intent, ValidationErrorType, validationError.value, None);
    }
    ValidatedFieldsHaveValues(entities.entries, intent);

    var request: CrmRequest;
    var template: MessageTemplate;
    if intent == LeadCreate {
      var payload := LeadCreateFromFields(entities.entries).value;
      request, template := client.CreateLeadRequest(payload), CreatedLead;
    } else if intent == VisitSchedule {
      var payload := VisitCreateFromFields(entities.entries).value;
      request, template := client.ScheduleVisitRequest(payload), ScheduledVisit;
    } else if intent == LeadUpdate {
      var leadId := entities.Pop("lead_id");
      var payload := LeadUpdateFromFields(entities.entries).value;
      request, template := client.UpdateLeadStatusRequest(leadId.value, payload), UpdatedLead(leadId.value);
    } else {
      return ErrorReply(StatusInternalError, intent, ParsingErrorType, NoActionConfigured, None);
    }

    reply := Translate(intent, Dispatched(request, entities.entries, template), outcome);
  }
}
