/** Admission of provider callbacks. */
module Validation {
  import opened Results
  import opened Text

  const OMISE := "omise"
  const CHARGE := "charge"
  const CHARGE_CREATE := "charge.create"
  const CHARGE_EVENTS: seq<string> := [
    "charge.capture", "charge.complete", CHARGE_CREATE, "charge.expire", "charge.reverse", "charge.update"
  ]

  datatype ValidationError =
    | ChargeIdUndefined
    | UserAgentUndefined
    | EventNameUndefined
    | InvalidUserAgent
    | InvalidEvent
    | InvalidOmiseVersion
    | CannotFindCharge

  /** An absent value and an empty string are both refused. */
  predicate Falsy(s: Option<string>) {
    s.None? || s.value == ""
  }

  /** The checks in the order the service makes them; `found` is the outcome of looking the charge up at the provider. */
  function ValidateChargeEvent(
    chargeId: Option<string>, requestedAgent: Option<string>, eventKey: Option<string>, version: string, found: bool)
    : Result<(), ValidationError>
  {
    if Falsy(chargeId) then Err(ChargeIdUndefined)
    else if Falsy(requestedAgent) then Err(UserAgentUndefined)
    else
      var agentName := ToLower(requestedAgent.value);
      if Falsy(eventKey) then Err(EventNameUndefined)
      else
        var eventName := ToLower(eventKey.value);
        if !Includes(agentName, OMISE) then Err(InvalidUserAgent)
        else if !Includes(eventName, CHARGE) || eventName !in CHARGE_EVENTS then Err(InvalidEvent)
        else if agentName != OMISE + "/" + version then Err(InvalidOmiseVersion)
        else if !found then Err(CannotFindCharge)
        else Ok(())
  }

  /** A lower-case event key is one of the six charge events. */
  predicate IsChargeEvent(eventKey: string) {
    ToLower(eventKey) in CHARGE_EVENTS
  }

  lemma ChargeEventsIncludeCharge(name: string)
    requires name in CHARGE_EVENTS
    ensures Includes(name, CHARGE) && name != ""
  {
    assert name[0..] == name;
    assert CHARGE <= name;
  }

  lemma ProviderAgentIncludesProvider(version: string)
    ensures Includes(OMISE + "/" + version, OMISE)
  {
    PrefixIsIncluded(OMISE, "/" + version);
    assert OMISE + "/" + version == OMISE + ("/" + version);
  }

  /** The checks accept exactly the four exact conditions; the substring tests and the emptiness tests of agent and event add nothing to them. */
  lemma AcceptsExactly(
    chargeId: Option<string>, requestedAgent: Option<string>, eventKey: Option<string>, version: string, found: bool)
    ensures ValidateChargeEvent(chargeId, requestedAgent, eventKey, version, found).Ok? <==>
            && chargeId.Some? && chargeId.value != ""
            && requestedAgent.Some? && ToLower(requestedAgent.value) == OMISE + "/" + version
            && eventKey.Some? && IsChargeEvent(eventKey.value)
            && found
  {
    ProviderAgentIncludesProvider(version);
    if eventKey.Some? && IsChargeEvent(eventKey.value) {
      ChargeEventsIncludeCharge(ToLower(eventKey.value));
    }
  }

  /** The six charge events by name, in any case. */
  ghost predicate NamesChargeEvent(eventKey: string) {
    || InAnyCase(eventKey, "charge.capture")
    || InAnyCase(eventKey, "charge.complete")
    || InAnyCase(eventKey, "charge.create")
    || InAnyCase(eventKey, "charge.expire")
    || InAnyCase(eventKey, "charge.reverse")
    || InAnyCase(eventKey, "charge.update")
  }

  lemma ChargeEventsByName(eventKey: string)
    ensures IsChargeEvent(eventKey) <==> NamesChargeEvent(eventKey)
  {
    var name := ToLower(eventKey);
    FoldingForgetsCase(eventKey, "charge.capture");
    FoldingForgetsCase(eventKey, "charge.complete");
    FoldingForgetsCase(eventKey, "charge.create");
    FoldingForgetsCase(eventKey, "charge.expire");
    FoldingForgetsCase(eventKey, "charge.reverse");
    FoldingForgetsCase(eventKey, "charge.update");
    EventNames(name);
  }

  lemma EventNames(name: string)
    ensures name in CHARGE_EVENTS <==>
      || name == "charge.capture" || name == "charge.complete" || name == "charge.create"
      || name == "charge.expire" || name == "charge.reverse" || name == "charge.update"
  {
    assert CHARGE_EVENTS[0] == "charge.capture" && CHARGE_EVENTS[1] == "charge.complete";
    assert CHARGE_EVENTS[2] == "charge.create" && CHARGE_EVENTS[3] == "charge.expire";
    assert CHARGE_EVENTS[4] == "charge.reverse" && CHARGE_EVENTS[5] == "charge.update";
  }

  /** Acceptance by the characters sent: an existing charge with an id, the agent `omise/` with the configured version, and one of
      the six events, agent and event in any mixture of cases. */
  lemma AcceptsInAnyCase(
    chargeId: Option<string>, requestedAgent: Option<string>, eventKey: Option<string>, version: string, found: bool)
    ensures ValidateChargeEvent(chargeId, requestedAgent, eventKey, version, found) == Ok(()) <==>
            && chargeId.Some? && chargeId.value != ""
            && requestedAgent.Some? && InAnyCase(requestedAgent.value, "omise/" + version)
            && eventKey.Some? && NamesChargeEvent(eventKey.value)
            && found
  {
    AcceptsExactly(chargeId, requestedAgent, eventKey, version, found);
    if requestedAgent.Some? { FoldingForgetsCase(requestedAgent.value, "omise/" + version); }
    if eventKey.Some? { ChargeEventsByName(eventKey.value); }
    assert OMISE + "/" == "omise/";
  }

  ghost predicate Given(s: Option<string>) {
    s.Some? && s.value != ""
  }

  /** Exactly when each error is reported, for all inputs. */
  lemma ErrorsExactly(
    chargeId: Option<string>, requestedAgent: Option<string>, eventKey: Option<string>, version: string, found: bool)
    ensures
      var r := ValidateChargeEvent(chargeId, requestedAgent, eventKey, version, found);
      && (r == Err(ChargeIdUndefined) <==> !Given(chargeId))
      && (r == Err(UserAgentUndefined) <==> Given(chargeId) && !Given(requestedAgent))
      && (r == Err(EventNameUndefined) <==> Given(chargeId) && Given(requestedAgent) && !Given(eventKey))
      && (Given(chargeId) && Given(requestedAgent) && Given(eventKey) ==>
            var agent, event := requestedAgent.value, eventKey.value;
            var foreign := !IncludesInAnyCase(agent, "omise");
            && (r == Err(InvalidUserAgent) <==> foreign)
            && (r == Err(InvalidEvent) <==> !foreign && !NamesChargeEvent(event))
            && (r == Err(InvalidOmiseVersion) <==>
                  !foreign && NamesChargeEvent(event) && !InAnyCase(agent, "omise/" + version))
            && (r == Err(CannotFindCharge) <==>
                  !foreign && NamesChargeEvent(event) && InAnyCase(agent, "omise/" + version) && !found))
  {
    if Given(chargeId) && Given(requestedAgent) && Given(eventKey) {
      FoldedIncludes(requestedAgent.value, "omise");
      FoldingForgetsCase(requestedAgent.value, "omise/" + version);
      ChargeEventsByName(eventKey.value);
      assert OMISE + "/" == "omise/";
      if IsChargeEvent(eventKey.value) { ChargeEventsIncludeCharge(ToLower(eventKey.value)); }
    }
  }

  /** Which error is reported: a wrong event hides a wrong version, a wrong version hides a missing charge,
      and an agent of the provider with another version is never reported as a foreign agent. */
  lemma ErrorsInOrder(chargeId: string, requestedAgent: string, eventKey: string, version: string, other: string, found: bool)
    requires chargeId != "" && eventKey != ""
    requires ToLower(requestedAgent) == OMISE + "/" + other
    ensures
      var r := ValidateChargeEvent(Some(chargeId), Some(requestedAgent), Some(eventKey), version, found);
      && (r == Err(InvalidEvent) <==> !IsChargeEvent(eventKey))
      && (r == Err(InvalidOmiseVersion) <==> IsChargeEvent(eventKey) && other != version)
      && (r == Err(CannotFindCharge) <==> IsChargeEvent(eventKey) && other == version && !found)
  {
    ProviderAgentIncludesProvider(other);
    if IsChargeEvent(eventKey) {
      ChargeEventsIncludeCharge(ToLower(eventKey));
    }
    var agent := OMISE + "/" + other;
    if agent == OMISE + "/" + version {
      assert other == agent[|OMISE + "/"|..] == version;
    }
  }
}
