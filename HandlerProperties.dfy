/**
 * What the handler promises, stated over `Handle` (which `App.HandleBotRequest` is proved
 * equal to): the two rejection gates, the dispatch table, the removal of the lead id on a
 * status update, the success envelope, and the translation of each CRM failure.
 */
module HandlerProperties {
  import opened Wrappers
  import opened Models
  import opened Nlu
  import opened Payloads
  import opened Crm
  import opened App

  /** An intent the classifier could not settle is refused, whatever the entities; nothing is called. */
  lemma UnrecognisedIntentRejected(nlu: NluResult, client: CrmClient, outcome: CrmOutcome)
    requires nlu.Intent() == Unknown || nlu.Intent() == ParsingError
    ensures Handle(nlu, client, outcome)
            == ErrorReply(StatusBadRequest, nlu.Intent(), ParsingErrorType, NotUnderstood, None)
  {
  }

  /**
   * A missing intent reads as UNKNOWN and missing entities as an empty map; so a result with no
   * intent, like the NLU step's own failure value, is refused as not understood.
   */
  lemma AbsentKeysTakeDefaults(intent: Option<string>, entities: Option<EntityMap>,
                               client: CrmClient, outcome: CrmOutcome)
    ensures Handle(NluResult(None, entities), client, outcome)
            == Handle(NluResult(Some(Unknown), entities), client, outcome)
            == ErrorReply(StatusBadRequest, Unknown, ParsingErrorType, NotUnderstood, None)
    ensures Handle(NluResult(intent, None), client, outcome)
            == Handle(NluResult(intent, Some(map[])), client, outcome)
    ensures Handle(NluFallback, client, outcome)
            == ErrorReply(StatusBadRequest, ParsingError, ParsingErrorType, NotUnderstood, None)
  {
  }

  /** Missing entities are refused with the validator's own message, before any CRM call. */
  lemma ValidationFailureRejected(nlu: NluResult, client: CrmClient, outcome: CrmOutcome)
    requires nlu.Intent() != Unknown && nlu.Intent() != ParsingError
    requires ValidateEntities(nlu.Entities(), nlu.Intent()).Some?
    ensures Handle(nlu, client, outcome)
            == ErrorReply(StatusBadRequest, nlu.Intent(), ValidationErrorType,
                          ValidateEntities(nlu.Entities(), nlu.Intent()).value, None)
  {
  }

  /**
   * An intent outside the five known ones passes validation (it has no requirements) and
   * then finds no action: an internal error, with no CRM call.
   */
  lemma OtherIntentHasNoAction(nlu: NluResult, client: CrmClient, outcome: CrmOutcome)
    requires nlu.Intent() !in {LeadCreate, VisitSchedule, LeadUpdate, Unknown, ParsingError}
    ensures Handle(nlu, client, outcome)
            == ErrorReply(StatusInternalError, nlu.Intent(), ParsingErrorType, NoActionConfigured, None)
  {
    OtherIntentsAlwaysPass(nlu.Entities(), nlu.Intent());
  }

  /**
   * The one call made for each actionable intent: its URL, and a body from which the CRM reads
   * back the same record the entities built. Creation bodies carry every declared key, null
   * or not; a status-update body carries exactly the status and notes that have a value, and
   * the lead id travels in the URL and not in the body.
   */
  lemma CallFollowsIntent(nlu: NluResult, client: CrmClient, outcome: CrmOutcome)
    requires HasAction(nlu.Intent()) && ValidateEntities(nlu.Entities(), nlu.Intent()).None?
    ensures var intent, entities, call := nlu.Intent(), nlu.Entities(), Handle(nlu, client, outcome).call;
            && call.Some? && call.value.httpMethod == Post
            && (intent == LeadCreate ==>
                  && call.value.url == client.baseUrl + "/crm/leads"
                  && call.value.body.Keys == {"name", "phone", "city", "source"}
                  && LeadCreateFromFields(call.value.body) == LeadCreateFromFields(entities))
            && (intent == VisitSchedule ==>
                  && call.value.url == client.baseUrl + "/crm/visits"
                  && call.value.body.Keys == {"lead_id", "visit_time", "notes"}
                  && VisitCreateFromFields(call.value.body) == VisitCreateFromFields(entities))
            && (intent == LeadUpdate ==>
                  && call.value.url == client.baseUrl + "/crm/leads/" + entities["lead_id"].value + "/status"
                  && LeadUpdateFromFields(call.value.body) == LeadUpdateFromFields(entities)
                  && (forall k :: k in call.value.body <==> k in {"status", "notes"} && HasValue(entities, k))
                  && "lead_id" !in call.value.body)
  {
    var intent, entities := nlu.Intent(), nlu.Entities();
    ValidatedFieldsHaveValues(entities, intent);
    if intent == LeadUpdate {
      assert "status" in RequiredFields(intent);
      var rest := entities - {"lead_id"};
      assert OptionalField(rest, "notes") == OptionalField(entities, "notes");
    }
  }

  /**
   * A 2xx answer with a JSON object body gives status 200 and the Success envelope: the
   * intent, the entities as they are after dispatch (without `lead_id` on a status update),
   * the request the response reports, and the intent's message built from the answer.
   */
  lemma SuccessEnvelope(nlu: NluResult, client: CrmClient, response: HttpResponse)
    requires HasAction(nlu.Intent()) && ValidateEntities(nlu.Entities(), nlu.Intent()).None?
    requires response.body.Object? && IsSuccess(response.statusCode)
    ensures var intent, entities, r := nlu.Intent(), nlu.Entities(), Handle(nlu, client, Responded(response));
            var fields := response.body.fields;
            && r.status == StatusOk && r.envelope.Success?
            && r.envelope.success.intent == intent
            && r.envelope.success.crmCall
               == CrmCall(response.requestUrl, response.requestMethod, response.statusCode)
            && (intent != LeadUpdate ==> r.envelope.success.entities == entities)
            && (intent == LeadUpdate ==>
                  && r.envelope.success.entities == entities - {"lead_id"}
                  && "lead_id" !in r.envelope.success.entities)
            && r.envelope.success.result.message
               == if intent == LeadCreate then
                    "Successfully created lead with ID: " + FieldText(fields, "lead_id")
                  else if intent == VisitSchedule then
                    "Successfully scheduled visit with ID: " + FieldText(fields, "visit_id")
                  else
                    "Successfully updated lead " + entities["lead_id"].value + " to status "
                    + FieldText(fields, "status")
  {
  }

  /**
   * Each way the CRM call can fail, once dispatched: no connection gives 503, an answer whose
   * body cannot be read gives 500 whatever its status (the body is read before the status is
   * checked), and a readable non-2xx answer gives 502 with the answer's raw text.
   */
  lemma CrmFailuresTranslated(nlu: NluResult, client: CrmClient, outcome: CrmOutcome)
    requires HasAction(nlu.Intent()) && ValidateEntities(nlu.Entities(), nlu.Intent()).None?
    ensures var intent, r := nlu.Intent(), Handle(nlu, client, outcome);
            && (outcome.TransportError? ==>
                  r == ErrorReply(StatusUnavailable, intent, CrmErrorType,
                                  ConnectionErrorPrefix + outcome.error, r.call))
            && (outcome.Responded? && outcome.response.body.Unreadable? ==>
                  r == ErrorReply(StatusInternalError, intent, ParsingErrorType,
                                  InternalErrorPrefix + outcome.response.body.error, r.call))
            && (outcome.Responded? && outcome.response.body.Object?
                && !IsSuccess(outcome.response.statusCode) ==>
                  r == ErrorReply(StatusBadGateway, intent, CrmErrorType,
                                  CrmErrorPrefix + outcome.response.text, r.call))
  {
  }

  /**
   * The endpoint of the call tells the operation apart: two requests that reach the CRM at the
   * same URL were made for the same intent and, on a status update, the same lead. The URL is
   * compared as a string: the lead id is not escaped, so this is not a statement about routes.
   */
  lemma CallsAreDistinguishedByUrl(nlu1: NluResult, nlu2: NluResult, client: CrmClient,
                                   o1: CrmOutcome, o2: CrmOutcome)
    requires Handle(nlu1, client, o1).call.Some? && Handle(nlu2, client, o2).call.Some?
    requires Handle(nlu1, client, o1).call.value.url == Handle(nlu2, client, o2).call.value.url
    ensures nlu1.Intent() == nlu2.Intent()
    ensures Handle(nlu1, client, o1).call.value.operation == Handle(nlu2, client, o2).call.value.operation
  {
    var c1, c2 := Handle(nlu1, client, o1).call.value, Handle(nlu2, client, o2).call.value;
    if c1.operation != c2.operation {
      EndpointsDistinct(client, c1.operation, c2.operation);
    }
  }
}
