/**
 * The CRM client (bot/crm_client.py), modelled as what it sends: for each of its three
 * operations, the URL it POSTs to and the JSON body built from the payload record. The HTTP
 * transport itself is a collaborator whose answer is an input of the request handler.
 */
module Crm {
  import opened Wrappers
  import opened Models
  import opened Payloads

  /** A flat JSON object; a None value is JSON null. */
  type JsonObject = map<string, Option<string>>

  datatype CrmOperation = CreateLead | ScheduleVisit | UpdateLeadStatus(leadId: string)

  /** One outbound call: which operation, the URL, the HTTP method and the JSON body. */
  datatype CrmRequest = CrmRequest(operation: CrmOperation, url: string, httpMethod: string, body: JsonObject)

  const Post: string := "POST"

  /** `model_dump()`: every declared field, optional ones included even when None. */
  function LeadCreateBody(p: CrmLeadCreatePayload): (body: JsonObject)
    ensures LeadCreateFromFields(body) == Some(p)
  {
    map["name" := Some(p.name), "phone" := Some(p.phone), "city" := Some(p.city), "source" := p.source]
  }

  function VisitCreateBody(p: CrmVisitCreatePayload): (body: JsonObject)
    ensures VisitCreateFromFields(body) == Some(p)
  {
    map["lead_id" := Some(p.leadId), "visit_time" := Some(p.visitTime), "notes" := p.notes]
  }

  /** `model_dump(exclude_none=True)`: a field whose value is None is left out of the body. */
  function LeadUpdateBody(p: CrmLeadUpdatePayload): (body: JsonObject)
    ensures LeadUpdateFromFields(body) == Some(p)
    ensures forall k :: k in body ==> body[k].Some?
    ensures "lead_id" !in body
  {
    var base := map["status" := Some(p.status)];
    if p.notes.Some? then base["notes" := p.notes] else base
  }

  /** The client: its base URL is fixed when it is built and prefixes every endpoint. */
  datatype CrmClient = CrmClient(baseUrl: string)
  {
    function Endpoint(op: CrmOperation): (url: string)
      ensures baseUrl <= url
    {
      match op
      case CreateLead => baseUrl + "/crm/leads"
      case ScheduleVisit => baseUrl + "/crm/visits"
      case UpdateLeadStatus(leadId) => baseUrl + "/crm/leads/" + leadId + "/status"
    }

    function CreateLeadRequest(payload: CrmLeadCreatePayload): (r: CrmRequest)
      ensures r.operation == CreateLead && r.url == baseUrl + "/crm/leads" && r.httpMethod == Post
      ensures r.body == LeadCreateBody(payload) && LeadCreateFromFields(r.body) == Some(payload)
    {
      CrmRequest(CreateLead, Endpoint(CreateLead), Post, LeadCreateBody(payload))
    }

    function ScheduleVisitRequest(payload: CrmVisitCreatePayload): (r: CrmRequest)
      ensures r.operation == ScheduleVisit && r.url == baseUrl + "/crm/visits" && r.httpMethod == Post
      ensures r.body == VisitCreateBody(payload) && VisitCreateFromFields(r.body) == Some(payload)
    {
      CrmRequest(ScheduleVisit, Endpoint(ScheduleVisit), Post, VisitCreateBody(payload))
    }

    function UpdateLeadStatusRequest(leadId: string, payload: CrmLeadUpdatePayload): (r: CrmRequest)
      ensures r.operation == UpdateLeadStatus(leadId) && r.httpMethod == Post
      ensures r.url == baseUrl + "/crm/leads/" + leadId + "/status"
      ensures r.body == LeadUpdateBody(payload) && LeadUpdateFromFields(r.body) == Some(payload)
      ensures forall k :: k in r.body ==> r.body[k].Some?
    {
      CrmRequest(UpdateLeadStatus(leadId), Endpoint(UpdateLeadStatus(leadId)), Post, LeadUpdateBody(payload))
    }
  }

  // ---------------------------------------------------------------------------------------
  // Properties of the client

  /** Creation bodies always carry all their declared keys, null or not. */
  lemma FullDumpKeys(lead: CrmLeadCreatePayload, visit: CrmVisitCreatePayload)
    ensures LeadCreateBody(lead).Keys == {"name", "phone", "city", "source"}
    ensures VisitCreateBody(visit).Keys == {"lead_id", "visit_time", "notes"}
    ensures lead.source == None ==> LeadCreateBody(lead)["source"] == None
    ensures visit.notes == None ==> VisitCreateBody(visit)["notes"] == None
  {
  }

  /**
   * What an update call forwards from a field map: exactly the update record's fields that
   * have a value, so the lead id and every other entity stay out of the body.
   */
  lemma UpdateBodyForwardsOnlyValuedFields(fields: EntityMap)
    requires HasValue(fields, "status")
    ensures var body := LeadUpdateBody(LeadUpdateFromFields(fields).value);
            && (forall k :: k in body <==> k in {"status", "notes"} && HasValue(fields, k))
            && (forall k :: k in body ==> body[k] == fields[k])
  {
  }

  /**
   * What a creation call forwards from a field map: the required fields' values, and the
   * optional field's value, or null when the map does not have it. Nothing else is sent.
   */
  lemma CreationBodiesForwardFields(fields: EntityMap)
    ensures HasValue(fields, "name") && HasValue(fields, "phone") && HasValue(fields, "city") ==>
              var body := LeadCreateBody(LeadCreateFromFields(fields).value);
              && body.Keys == {"name", "phone", "city", "source"}
              && body["name"] == fields["name"] && body["phone"] == fields["phone"]
              && body["city"] == fields["city"]
              && body["source"] == (if "source" in fields then fields["source"] else None)
    ensures HasValue(fields, "lead_id") && HasValue(fields, "visit_time") ==>
              var body := VisitCreateBody(VisitCreateFromFields(fields).value);
              && body.Keys == {"lead_id", "visit_time", "notes"}
              && body["lead_id"] == fields["lead_id"] && body["visit_time"] == fields["visit_time"]
              && body["notes"] == (if "notes" in fields then fields["notes"] else None)
  {
  }

  /**
   * Different operations never share a URL: the endpoint a call went to tells which
   * operation it was and, for a status update, which lead.
   */
  lemma EndpointsDistinct(client: CrmClient, op1: CrmOperation, op2: CrmOperation)
    requires op1 != op2
    ensures client.Endpoint(op1) != client.Endpoint(op2)
  {
    var b := client.baseUrl;
    var u1, u2 := client.Endpoint(op1), client.Endpoint(op2);
    if op1.UpdateLeadStatus? && op2.UpdateLeadStatus? {
      var a, c := op1.leadId, op2.leadId;
      if |a| == |c| {
        assert u1[|b| + 11..|b| + 11 + |a|] == a;
        assert u2[|b| + 11..|b| + 11 + |c|] == c;
      }
    } else if op1.ScheduleVisit? && op2.UpdateLeadStatus? {
      assert u1[|b| + 5] == 'v' && u2[|b| + 5] == 'l';
    } else if op1.UpdateLeadStatus? && op2.ScheduleVisit? {
      assert u1[|b| + 5] == 'l' && u2[|b| + 5] == 'v';
    }
  }
}
