/**
 * The entity validator (bot/nlu.py, `validate_entities`): given the entities the NLU step
 * extracted and the classified intent, it reports every required field that is missing.
 * The language-model call that produces the entities is not part of this model; its result
 * is an input of the request handler (see App).
 */
module Nlu {
  import opened Wrappers
  import opened Models

  // The intents the classifier can emit.
  const LeadCreate: string := "LEAD_CREATE"
  const VisitSchedule: string := "VISIT_SCHEDULE"
  const LeadUpdate: string := "LEAD_UPDATE"
  const Unknown: string := "UNKNOWN"
  const ParsingError: string := "PARSING_ERROR"

  const MissingPrefix: string := "Missing required entities: "
  const MissingSuffix: string := ". Please provide all necessary information."
  const KeySeparator: string := ", "

  /** The required-field table, in its declared order; an intent it does not list requires nothing. */
  function RequiredFields(intent: string): (r: seq<string>)
    ensures NoDuplicates(r)
    ensures r == [] <==> intent !in {LeadCreate, VisitSchedule, LeadUpdate}
  {
    if intent == LeadCreate then ["name", "phone", "city"]
    else if intent == VisitSchedule then ["lead_id", "visit_time"]
    else if intent == LeadUpdate then ["lead_id", "status"]
    else []
  }

  /** A key counts as missing when it is absent, null, or the empty string (all falsy). */
  predicate IsMissing(entities: EntityMap, key: string)
  {
    key !in entities || entities[key].None? || entities[key].value == ""
  }

  /** `xs` keeps some of the elements of `ys`, in the order they have in `ys`. */
  predicate IsSubsequence(xs: seq<string>, ys: seq<string>)
    decreases |ys|
  {
    if xs == [] then true
    else if ys == [] then false
    else if xs[0] == ys[0] then IsSubsequence(xs[1..], ys[1..])
    else IsSubsequence(xs, ys[1..])
  }

  predicate NoDuplicates(s: seq<string>)
  {
    forall i, j :: 0 <= i < j < |s| ==> s[i] != s[j]
  }

  /** The required keys that are missing, walked in table order (the list comprehension). */
  function MissingKeys(required: seq<string>, entities: EntityMap): (r: seq<string>)
    ensures IsSubsequence(r, required)
    ensures forall k :: k in r <==> k in required && IsMissing(entities, k)
  {
    if required == [] then []
    else if IsMissing(entities, required[0]) then [required[0]] + MissingKeys(required[1..], entities)
    else MissingKeys(required[1..], entities)
  }

  /** `', '.join(parts)` */
  function Join(parts: seq<string>, sep: string): string
  {
    if |parts| == 0 then ""
    else if |parts| == 1 then parts[0]
    else parts[0] + sep + Join(parts[1..], sep)
  }

  /**
   * `validate_entities`: None when every required key for the intent has a non-empty value,
   * otherwise one message naming all the missing keys in table order.
   */
  function ValidateEntities(entities: EntityMap, intent: string): (r: Option<string>)
    ensures r.None? <==> forall k :: k in RequiredFields(intent) ==> !IsMissing(entities, k)
    ensures r.Some? ==> r.value == MissingPrefix
                                   + Join(MissingKeys(RequiredFields(intent), entities), KeySeparator)
                                   + MissingSuffix
  {
    var missing := MissingKeys(RequiredFields(intent), entities);
    assert |missing| > 0 ==> missing[0] in missing;
    if |missing| > 0 then
      Some(MissingPrefix + Join(missing, KeySeparator) + MissingSuffix)
    else
      None
  }

  // ---------------------------------------------------------------------------------------
  // Properties of the validator

  lemma {:induction false} SubsequenceMembers(xs: seq<string>, ys: seq<string>, x: string)
    requires IsSubsequence(xs, ys) && x in xs
    ensures x in ys
    decreases |ys|
  {
    if xs[0] == ys[0] {
      if x != xs[0] {
        SubsequenceMembers(xs[1..], ys[1..], x);
      }
    } else {
      SubsequenceMembers(xs, ys[1..], x);
    }
  }

  /**
   * The missing list is determined by what it must be: any list that keeps table order and
   * holds exactly the missing keys is the validator's list, so no key is dropped, repeated
   * or reordered.
   */
  lemma {:induction false} MissingKeysCharacterised(required: seq<string>, entities: EntityMap, r: seq<string>)
    requires NoDuplicates(required)
    requires IsSubsequence(r, required)
    requires forall k :: k in r <==> k in required && IsMissing(entities, k)
    ensures r == MissingKeys(required, entities)
    decreases |required|
  {
    if required != [] {
      var head, tail := required[0], required[1..];
      assert NoDuplicates(tail);
      forall j | 0 <= j < |tail| ensures tail[j] != head {
        assert tail[j] == required[j + 1];
      }
      if IsMissing(entities, head) {
        assert head in r;
        if r[0] != head {
          assert IsSubsequence(r, tail);
          SubsequenceMembers(r, tail, head);
          assert false;
        }
        assert IsSubsequence(r[1..], tail);
        forall k ensures k in r[1..] <==> k in tail && IsMissing(entities, k) {
          if k in r[1..] {
            SubsequenceMembers(r[1..], tail, k);
          }
          if k in tail && IsMissing(entities, k) {
            assert k in r && k != r[0];
            assert r == [r[0]] + r[1..];
          }
        }
        MissingKeysCharacterised(tail, entities, r[1..]);
        assert r == [r[0]] + r[1..];
      } else {
        assert head !in r;
        if r != [] {
          assert r[0] in r;
          assert IsSubsequence(r, tail);
        }
        forall k ensures k in r <==> k in tail && IsMissing(entities, k) {
          if k in r {
            assert k in required && k != head;
          }
        }
        MissingKeysCharacterised(tail, entities, r);
      }
    }
  }

  /** Each part appears whole in the joined text, at a position the lemma returns. */
  lemma {:induction false} JoinSplitsAt(parts: seq<string>, sep: string, i: nat) returns (before: string, after: string)
    requires i < |parts|
    ensures Join(parts, sep) == before + parts[i] + after
    decreases |parts|
  {
    if |parts| == 1 {
      before, after := "", "";
    } else if i == 0 {
      before, after := "", sep + Join(parts[1..], sep);
    } else {
      var b, a := JoinSplitsAt(parts[1..], sep, i - 1);
      before, after := parts[0] + sep + b, a;
    }
  }

  /**
   * The message names every missing key, whatever else is missing with it, and keeps the
   * fixed opening and closing sentences.
   */
  lemma MessageNamesMissingKey(entities: EntityMap, intent: string, key: string) returns (before: string, after: string)
    requires key in RequiredFields(intent) && IsMissing(entities, key)
    ensures ValidateEntities(entities, intent).Some?
    ensures ValidateEntities(entities, intent).value == MissingPrefix + before + key + after + MissingSuffix
  {
    var missing := MissingKeys(RequiredFields(intent), entities);
    var i := IndexOf(missing, key);
    var joined := Join(missing, KeySeparator);
    before, after := JoinSplitsAt(missing, KeySeparator, i);
    calc {
      ValidateEntities(entities, intent).value;
      MissingPrefix + joined + MissingSuffix;
      MissingPrefix + (before + key + after) + MissingSuffix;
      { assert MissingPrefix + (before + key + after) == MissingPrefix + before + key + after; }
      MissingPrefix + before + key + after + MissingSuffix;
    }
  }

  /** Helper: a position at which a member occurs. */
  lemma IndexOf(s: seq<string>, x: string) returns (i: nat)
    requires x in s
    ensures i < |s| && s[i] == x
  {
    i :| 0 <= i < |s| && s[i] == x;
  }

  /** With no entities at all, every required key is missing, in table order. */
  lemma {:induction false} AllMissingWhenEmpty(required: seq<string>)
    ensures MissingKeys(required, map[]) == required
    decreases |required|
  {
    if required != [] {
      AllMissingWhenEmpty(required[1..]);
      assert required == [required[0]] + required[1..];
    }
  }

  /**
   * The table, read back through the validator: an empty entity map is refused with each
   * intent's required keys in declared order, and any other intent passes.
   */
  lemma RequiredFieldsTable()
    ensures ValidateEntities(map[], LeadCreate) == Some(MissingPrefix + Join(["name", "phone", "city"], KeySeparator) + MissingSuffix)
    ensures ValidateEntities(map[], VisitSchedule) == Some(MissingPrefix + Join(["lead_id", "visit_time"], KeySeparator) + MissingSuffix)
    ensures ValidateEntities(map[], LeadUpdate) == Some(MissingPrefix + Join(["lead_id", "status"], KeySeparator) + MissingSuffix)
    ensures ValidateEntities(map[], Unknown) == None
  {
    AllMissingWhenEmpty(RequiredFields(LeadCreate));
    AllMissingWhenEmpty(RequiredFields(VisitSchedule));
    AllMissingWhenEmpty(RequiredFields(LeadUpdate));
  }

  /** An intent the table does not list has no requirements, so validation always passes. */
  lemma OtherIntentsAlwaysPass(entities: EntityMap, intent: string)
    requires intent !in {LeadCreate, VisitSchedule, LeadUpdate}
    ensures ValidateEntities(entities, intent) == None
  {
  }

  /** A key present with a null or empty value is reported exactly as an absent key is. */
  lemma EmptyValueCountsAsAbsent(entities: EntityMap, intent: string, key: string, v: Option<string>)
    requires v == None || v == Some("")
    ensures ValidateEntities(entities[key := v], intent) == ValidateEntities(entities - {key}, intent)
  {
    var required := RequiredFields(intent);
    var withKey, withoutKey := entities[key := v], entities - {key};
    forall k ensures IsMissing(withKey, k) == IsMissing(withoutKey, k) {
    }
    SameMissingKeys(required, withKey, withoutKey);
  }

  lemma {:induction false} SameMissingKeys(required: seq<string>, e1: EntityMap, e2: EntityMap)
    requires forall k :: IsMissing(e1, k) == IsMissing(e2, k)
    ensures MissingKeys(required, e1) == MissingKeys(required, e2)
    decreases |required|
  {
    if required != [] {
      SameMissingKeys(required[1..], e1, e2);
    }
  }
}
