/**
 * The repository's four handler tests (tests/test_bot_logic.py): each takes the NLU result
 * and CRM answer the test mocks as parameters, for every CRM client and every raw response text.
 */
module Scenarios {
  import opened Wrappers
  import opened Models
  import opened Nlu
  import opened Crm
  import opened App
  import opened HandlerProperties

  /** Helper: name, phone and city with non-empty values satisfy the lead-creation table entry. */
  lemma LeadCreatePasses(entities: EntityMap)
    requires !IsMissing(entities, "name") && !IsMissing(entities, "phone") && !IsMissing(entities, "city")
    ensures ValidateEntities(entities, LeadCreate) == None
  {
    assert RequiredFields(LeadCreate) == ["name", "phone", "city"];
  }

  /** Helper: with only the name given, lead creation reports phone and city, in that order. */
  lemma PhoneAndCityMissing(entities: EntityMap)
    requires !IsMissing(entities, "name") && IsMissing(entities, "phone") && IsMissing(entities, "city")
    ensures ValidateEntities(entities, LeadCreate) == Some(MissingPrefix + "phone, city" + MissingSuffix)
  {
    assert MissingKeys(["city"], entities) == ["city"];
    assert MissingKeys(["phone", "city"], entities) == ["phone", "city"];
    assert MissingKeys(RequiredFields(LeadCreate), entities) == ["phone", "city"];
    assert Join(["phone", "city"], KeySeparator) == "phone, city";
  }

  lemma LeadCreateComplexQuery(nlu: NluResult, client: CrmClient, response: HttpResponse)
    requires nlu == NluResult(Some("LEAD_CREATE"), Some(map[
                                "name" := Some("Rohan Sharma"), "city" := Some("Gurgaon"),
                                "phone" := Some("9876543210"), "source" := Some("Instagram")]))
    requires response.statusCode == 200
    requires response.body == Object(map["lead_id" := Some("mock-uuid-123"), "status" := Some("NEW")])
    ensures var r := Handle(nlu, client, Responded(response));
            && r.status == 200
            && r.envelope.Success?
            && r.envelope.success.intent == "LEAD_CREATE"
            && r.envelope.success.result.message == "Successfully created lead with ID: " + "mock-uuid-123"
  {
    var entities := nlu.Entities();
    LeadCreatePasses(entities);
    assert FieldText(response.body.fields, "lead_id") == "mock-uuid-123";
    SuccessEnvelope(nlu, client, response);
  }

  lemma VisitScheduleCasualDate(nlu: NluResult, client: CrmClient, response: HttpResponse)
    requires nlu == NluResult(Some("VISIT_SCHEDULE"), Some(map[
                                "lead_id" := Some("7b1b8f54"), "visit_time" := Some("2025-10-07T15:00:00")]))
    requires response.statusCode == 200
    requires response.body == Object(map["visit_id" := Some("visit-uuid-456"), "status" := Some("SCHEDULED")])
    ensures var r := Handle(nlu, client, Responded(response));
            && r.status == 200
            && r.envelope.Success?
            && r.envelope.success.intent == "VISIT_SCHEDULE"
            && r.envelope.success.result.message == "Successfully scheduled visit with ID: " + "visit-uuid-456"
  {
    var entities := nlu.Entities();
    assert ValidateEntities(entities, VisitSchedule) == None by {
      assert MissingKeys(["visit_time"], entities) == [];
      assert MissingKeys(RequiredFields(VisitSchedule), entities) == [];
    }
    assert FieldText(response.body.fields, "visit_id") == "visit-uuid-456";
    SuccessEnvelope(nlu, client, response);
  }

  lemma ValidationErrorMissingEntity(nlu: NluResult, client: CrmClient, outcome: CrmOutcome)
    requires nlu == NluResult(Some("LEAD_CREATE"), Some(map["name" := Some("Rohan Sharma")]))
    ensures var r := Handle(nlu, client, outcome);
            && r.status == 400
            && r.call.None?
            && r.envelope.Error?
            && r.envelope.failure.error.errorType == "VALIDATION_ERROR"
            && r.envelope.failure.error.details == MissingPrefix + "phone, city" + MissingSuffix
  {
    var entities := nlu.Entities();
    assert !IsMissing(entities, "name") && IsMissing(entities, "phone") && IsMissing(entities, "city");
    PhoneAndCityMissing(entities);
    ValidationFailureRejected(nlu, client, outcome);
  }

  lemma CrmConnectionFailure(nlu: NluResult, client: CrmClient, outcome: CrmOutcome)
    requires nlu == NluResult(Some("LEAD_CREATE"), Some(map[
                                "name" := Some("Test User"), "phone" := Some("1234567890"),
                                "city" := Some("Testville")]))
    requires outcome == TransportError("Connection failed")
    ensures var r := Handle(nlu, client, outcome);
            && r.status == 503
            && r.envelope.Error?
            && r.envelope.failure.error.errorType == "CRM_ERROR"
            && r.envelope.failure.error.details == ConnectionErrorPrefix + "Connection failed"
  {
    var entities := nlu.Entities();
    LeadCreatePasses(entities);
    CrmFailuresTranslated(nlu, client, outcome);
  }
}
