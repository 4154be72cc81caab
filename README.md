# Intent-routing bot: a Dafny model of its decision core

The bot takes a free-text transcript, has a language model classify it into an intent
(`LEAD_CREATE`, `VISIT_SCHEDULE`, `LEAD_UPDATE`, `UNKNOWN`, `PARSING_ERROR`) with a map of
entities, checks the entities against a per-intent table of required fields, sends at most one
request to a CRM HTTP API, and answers with a status code and either a Success or an Error
envelope.

This project models that core and proves what it promises:

- `Models` and `Payloads` (bot/models.py): the request, envelope and CRM payload records, with
  their optional fields defaulting to None, the 1000-character transcript bound, and how a
  payload record is built from a loose field map (a required field must be present and not
  null; extra keys are ignored).
- `Nlu` (bot/nlu.py, `validate_entities`): the required-field table and the validator. A key is
  missing when it is absent, null or empty. The result is None exactly when nothing required is
  missing; otherwise one message lists every missing key in table order. The validator is a
  function, so calling it twice on the same input gives the same answer and leaves the
  entities unchanged.
- `Crm` (bot/crm_client.py): each client operation as the URL and JSON body it POSTs. Creation
  bodies are full record dumps, nulls included. Status-update bodies drop null fields, and the
  lead id travels in the URL path. The base URL is fixed when the client is built and prefixes
  every endpoint.
- `App` (bot/app.py, `handle_bot_request`): `Handle` is the handler as one function of the NLU
  result, the client and the CRM's answer. `HandleBotRequest` is the same handler written step
  by step, as the source is. The entity map there is an `Entities` object, and its `Pop` removes
  `lead_id` in place before the status-update payload is built. The envelope echoes the map as
  it is after that removal. The method is proved equal to `Handle`.
- `HandlerProperties` and `Scenarios`: the handler's gates, dispatch table, success envelope and
  error translation, and the repository's four handler tests, all as lemmas over `Handle`.

The two collaborators are inputs. `NluResult` is whatever the language-model step returned;
either key may be absent, and `NluFallback` is the value it returns when it fails. `CrmOutcome`
is the transport's answer to the one call made: a connection error, or a response carrying the
request URL and method, the status code, the body as `response.json()` reads it (a JSON object,
or `Unreadable` with the exception text), and the raw text.

Two details of the code that a reader might not expect:

- A non-2xx answer whose body is not a JSON object ends on the 500 path, not 502. The body is
  read for the success message (bot/app.py:44, 49, 55) before `raise_for_status` runs
  (bot/app.py:58). `HandlerProperties.CrmFailuresTranslated` states this.
- Only status updates leave null fields out (`model_dump(exclude_none=True)`). Creation bodies
  send `source` and `notes` as null when they are unset. The request builders send exactly these
  body functions, `Crm.FullDumpKeys` gives their keys, and `HandlerProperties.CallFollowsIntent`
  states the key set of the body the handler sends.

The `crm_call` record in a Success envelope is copied from the response: the URL and method of
the request it reports, and its status code. The model does not tie that URL to the URL the
client built (`Reply.call`). With a live transport the two are the same up to httpx's URL
normalisation (for example, percent-encoding of a lead id that holds a space); the repository's
mocked responses report a different host.

## Model

| member | source | states |
|---|---|---|
| `Models.ParseBotRequest` | bot/models.py:6-7 | a transcript is accepted exactly when it has at most 1000 characters, and is then kept unchanged |
| `Payloads.LeadCreateFromFields` | bot/models.py:33-37 | a lead-creation record can be built exactly when name, phone and city are present and not null. Those fields then hold the map's values, and `source` holds the map's value, or None when the key is absent |
| `Payloads.VisitCreateFromFields` | bot/models.py:39-42 | a visit record can be built exactly when lead_id and visit_time are present and not null. Those fields then hold the map's values, and `notes` holds the map's value, or None when the key is absent |
| `Payloads.LeadUpdateFromFields` | bot/models.py:44-46 | a status-update record can be built exactly when status is present and not null. It then holds the map's status, and `notes` holds the map's value, or None when absent. It has no lead id field |
| `Nlu.MissingKeys` | bot/nlu.py:77 | the missing list keeps table order and holds exactly the required keys that are absent, null or empty |
| `Nlu.ValidateEntities` | bot/nlu.py:66-82 | None exactly when every required key for the intent has a non-empty value; otherwise the fixed opening text, the missing keys joined by ", ", and the fixed closing text |
| `Nlu.MissingKeysCharacterised` | bot/nlu.py:71-77 | any list that keeps table order and holds exactly the missing keys equals the validator's list: no key is dropped, repeated or reordered |
| `Nlu.RequiredFields` | bot/nlu.py:70-76 | no table entry lists a key twice, and exactly the three actionable intents have requirements |
| `Nlu.JoinSplitsAt` | bot/nlu.py:80 | every part appears whole in the joined text |
| `Nlu.MessageNamesMissingKey` | bot/nlu.py:79-80 | whenever a required key is missing, validation fails, and its message names that key between the fixed opening and closing texts |
| `Nlu.AllMissingWhenEmpty` | bot/nlu.py:77 | with no entities, every required key is reported missing, in table order |
| `Nlu.RequiredFieldsTable` | bot/nlu.py:70-76 | the table, read back through the validator on an empty map: LEAD_CREATE needs name, phone, city; VISIT_SCHEDULE needs lead_id, visit_time; LEAD_UPDATE needs lead_id, status; UNKNOWN needs nothing (any other intent: `Nlu.OtherIntentsAlwaysPass`) |
| `Nlu.OtherIntentsAlwaysPass` | bot/nlu.py:76 | an intent the table does not list passes validation whatever the entities |
| `Nlu.EmptyValueCountsAsAbsent` | bot/nlu.py:77 | a key present with a null or empty value gives the same result as the key being absent |
| `Crm.CrmClient.Endpoint` | bot/crm_client.py:15-28 | every endpoint starts with the client's base URL |
| `Crm.CrmClient.CreateLeadRequest` | bot/crm_client.py:15-19 | POST to base + "/crm/leads", with the full-dump body `Crm.LeadCreateBody`, which the CRM reads back as the same payload |
| `Crm.CrmClient.ScheduleVisitRequest` | bot/crm_client.py:21-24 | POST to base + "/crm/visits", with the full-dump body `Crm.VisitCreateBody`, which the CRM reads back as the same payload |
| `Crm.CrmClient.UpdateLeadStatusRequest` | bot/crm_client.py:26-30 | POST to base + "/crm/leads/" + lead id + "/status"; the body is the null-free dump `Crm.LeadUpdateBody`, reads back as the same payload and holds no null value |
| `Crm.LeadCreateBody` | bot/crm_client.py:19 | the lead-creation body reads back as the same payload |
| `Crm.VisitCreateBody` | bot/crm_client.py:24 | the visit body reads back as the same payload |
| `Crm.LeadUpdateBody` | bot/crm_client.py:29-30 | the status-update body reads back as the same payload, holds no null value and no `lead_id` |
| `Crm.CreationBodiesForwardFields` | bot/crm_client.py:15-24 | a creation body built from the entities holds exactly the record's keys: the required fields' values, and the optional field's value, or null when the entities lack it |
| `Crm.FullDumpKeys` | bot/crm_client.py:15-24 | creation bodies always carry all their declared keys, with null for an unset optional field |
| `Crm.UpdateBodyForwardsOnlyValuedFields` | bot/crm_client.py:26-30 | a status-update body holds exactly the record's fields that have a value, copied from the entities; lead_id and other entities stay out |
| `Crm.EndpointsDistinct` | bot/crm_client.py:15-30 | different operations, or updates of different leads, never share a URL |
| `App.NluResult.Intent` | bot/app.py:25 | the NLU result's intent, or UNKNOWN when it has none |
| `App.NluResult.Entities` | bot/app.py:26 | the NLU result's entities, or the empty map when it has none |
| `App.FieldText` | bot/app.py:44-55 | a field of the CRM's answer as the message formats it: its value, or "None" when it is absent or null |
| `App.SuccessMessage` | bot/app.py:44-55 | each operation's fixed sentence, completed with the answer's `lead_id`, `visit_id` or `status` (and the lead id for a status update) |
| `App.ValidatedFieldsHaveValues` | bot/app.py:34-53 | after validation passes, every required field has a value, so building the payload cannot fail |
| `App.Dispatch` | bot/app.py:39-56 | an action exists exactly for the three actionable intents, and each calls its own operation at its own endpoint. A status update calls with the entities' lead id and echoes the map without `lead_id`; the others echo the map unchanged |
| `App.Translate` | bot/app.py:57-90 | connection error gives 503, unreadable body gives 500 (whatever the status), readable non-2xx gives 502, readable 2xx gives 200 with a Success envelope; the call made is reported |
| `App.Handle` | bot/app.py:19-90 | status is one of 200/400/500/502/503, and 200 exactly for Success; the intent is echoed; an error type is one of the three kinds; a CRM call is made exactly for a validated actionable intent, and it is the intent's operation, POSTed to its endpoint |
| `App.Entities.constructor` | bot/app.py:26 | the working map starts as the NLU entities |
| `App.Entities.Pop` | bot/app.py:52 | returns the value for the key and removes the key, leaving the rest of the map as it was |
| `App.HandleBotRequest` | bot/app.py:20-90 | the step-by-step handler, with its in-place `lead_id` removal, returns exactly what `Handle` specifies |
| `HandlerProperties.UnrecognisedIntentRejected` | bot/app.py:30-32 | UNKNOWN or PARSING_ERROR gives 400, PARSING_ERROR, "Could not understand the request.", whatever the entities, with no CRM call |
| `HandlerProperties.AbsentKeysTakeDefaults` | bot/app.py:24-26 | a missing intent reads as UNKNOWN and missing entities as an empty map; the NLU fallback value is refused with 400 |
| `HandlerProperties.ValidationFailureRejected` | bot/app.py:34-37 | a validation failure gives 400, VALIDATION_ERROR, with the validator's message as details, and no CRM call |
| `HandlerProperties.OtherIntentHasNoAction` | bot/app.py:71-74 | an intent outside the five known ones gives 500, PARSING_ERROR, "Intent recognized but no action configured.", with no CRM call |
| `HandlerProperties.CallFollowsIntent` | bot/app.py:41-55 | the one call for each actionable intent goes to that intent's URL, and its body reads back as the record the entities build. Creation bodies carry every declared key (name, phone, city, source; lead_id, visit_time, notes); a status-update body carries exactly the status and notes that have a value, and the lead id is in the URL and not in the body |
| `HandlerProperties.SuccessEnvelope` | bot/app.py:57-70 | a readable 2xx answer gives 200 and a Success envelope: the intent, the entities after dispatch (no `lead_id` on a status update), the request URL, method and status the response reports, and the intent's message |
| `HandlerProperties.CrmFailuresTranslated` | bot/app.py:77-90 | connection error gives 503 CRM_ERROR "CRM connection error: " + error; unreadable body gives 500 PARSING_ERROR "An internal error occurred: " + error, even on a non-2xx answer; readable non-2xx gives 502 CRM_ERROR "CRM returned an error: " + text |
| `HandlerProperties.CallsAreDistinguishedByUrl` | bot/crm_client.py:15-30 | two handled requests whose calls reach the same URL had the same intent and, on a status update, the same lead. "Same URL" means the same string: the lead id is not escaped, so two different strings can still reach the same CRM route |
| `Scenarios.LeadCreateComplexQuery` | tests/test_bot_logic.py:8-40 | the mocked lead creation gives 200, intent LEAD_CREATE and "Successfully created lead with ID: mock-uuid-123" |
| `Scenarios.VisitScheduleCasualDate` | tests/test_bot_logic.py:43-71 | the mocked visit scheduling gives 200, intent VISIT_SCHEDULE and "Successfully scheduled visit with ID: visit-uuid-456" |
| `Scenarios.ValidationErrorMissingEntity` | tests/test_bot_logic.py:74-90 | a lead with only a name gives 400 VALIDATION_ERROR, details naming "phone, city", and no CRM call |
| `Scenarios.CrmConnectionFailure` | tests/test_bot_logic.py:93-114 | a connection failure on lead creation gives 503 CRM_ERROR |

## Left out

- `extract_entities_with_llm` (bot/nlu.py:14-63): the language-model call, its JSON extraction and the date normalisation are foreign calls. Its result is the `NluResult` input, and its failure value is `App.NluFallback`.
- The HTTP transport (httpx client, 5-second timeout, connection pooling): the CRM's answer is the `CrmOutcome` input. A timeout is one of its connection errors.
- `raise_for_status` internals: only its rule that exactly the 2xx codes pass is modelled (`App.IsSuccess`). Its error for a response without a request is not modelled.
- FastAPI routing, `JSONResponse`/`model_dump` serialisation of the envelopes, and logging: I/O plumbing. The transcript bound is modelled as `Models.ParseBotRequest`, not as the framework's 422 reply.
- Settings loading, environment variables and the global client instance: process configuration. The base URL is the `CrmClient` value passed to the handler.
- Type coercion of non-string entity values: entities are strings or null, so "falsy" means absent, null or "". As a result, payload construction after validation cannot fail in the model (`App.ValidatedFieldsHaveValues`). The source's 500 path for a payload-building error is only reachable through such coercion failures.
- An NLU result whose `entities` value is JSON null: entities are a map or absent here. In the source, UNKNOWN and PARSING_ERROR still get the 400 reply. An intent outside the table gets an empty requirement list and then the handled 500 "no action configured". The three actionable intents fail in validation, outside the handler's error handling.
- An NLU result whose `intent` is JSON null or not a string: the intent is a string or absent here. In the source a null, number or boolean intent passes both gates, and building the error envelope then raises inside the handler's last `except` clause, where nothing handles it. A list or object intent instead raises a TypeError in validation (bot/nlu.py:76, an unhashable dictionary key), outside the handler's error handling.
- Non-string values in the CRM's JSON answer: body fields are strings or null. A missing or null field prints as "None", as Python formats it.
- Exceptions raised by logging or by building the envelopes themselves are not modelled.
