/**
 * The action handler's `main`: validate the SCALE action and extract what
 * the update needs, authenticate, resolve the tenant, submit the update,
 * wait for it, and decide the process exit status.
 */
module Handler {
  import opened Wrappers
  import opened Payload
  import opened Tags
  import opened Segments
  import opened Api
  import opened Poll

  /** The settings the handler reads at start-up (URLs left out). */
  datatype Config = Config(user: string, password: string, updateServiceTimeout: int)

  /** The management service's replies to the requests of one run; `details(k)` answers the k-th status GET. */
  datatype Remote = Remote(token: TokenReply, tenant: TenantReply, updateStatusCode: int, details: nat -> DetailsReply)

  /** The uncaught Python exceptions a run can end with. */
  datatype Failure =
    | EntityTypeMissing   // TypeError: 'Scaling ' + None when the item has no entity type
    | NoThirdSegment      // IndexError: newSE.id has fewer than three "::" segments
    | UndefinedTimeout    // NameError: the still-in-progress log message names `timeout`

  /** How `main` ends: it returns an exit code, or an exception escapes it. */
  datatype Outcome = Returned(code: int) | Raised(error: Failure)

  /** One run: how it ended and the requests it sent, in order. */
  datatype Run = Run(outcome: Outcome, sent: seq<Call>)

  /** The process exit status: the returned code, or 1 when the interpreter stops on an uncaught exception. */
  function ExitStatus(o: Outcome): int
  {
    match o
    case Returned(code) => code
    case Raised(_) => 1
  }

  /** What the validation of the payload hands to the network steps. */
  datatype Plan = Plan(serviceInstanceId: string, serviceInstanceName: Option<string>,
                       instanceTypeParameter: string, newInstanceType: string)

  datatype Prepared = Rejected(outcome: Outcome) | Ready(plan: Plan)

  /** The payload checks and extraction, before any request. */
  function Prepare(action: Action): Prepared
  {
    if action.actionType != SCALE then Rejected(Returned(1))
    else match FirstScaleItem(action.actionItem)
      case None => Rejected(Returned(1))
      case Some(item) =>
        var entityType := TargetEntityType(item);
        if entityType.None? then Rejected(Raised(EntityTypeMissing))
        else if entityType.value != VIRTUAL_MACHINE then Rejected(Returned(1))
        else
          var found := Scan(item.targetSE.value.entityProperties);
          if found.serviceInstanceId.None? then Rejected(Returned(1))
          else match NewInstanceType(item.newSE.id)
            case None => Rejected(Raised(NoThirdSegment))
            case Some(newType) =>
              Ready(Plan(found.serviceInstanceId.value, found.serviceInstanceName, InstanceTypeParameter(found), newType))
  }

  /** The value `exit_status` holds after the final `if`/`elif`/`else` on the polled status. */
  function FinalExitStatus(status: Option<string>): int
  {
    if status == Some(IN_PROGRESS) || status == Some(ACTIVE) then 0 else 1
  }

  /** How `main` ends once the wait is over: the still-in-progress branch raises before `return`. */
  function Conclude(status: Option<string>): Outcome
  {
    if status == Some(IN_PROGRESS) then Raised(UndefinedTimeout) else Returned(FinalExitStatus(status))
  }

  /** The network steps for a validated payload. */
  function Execute(plan: Plan, config: Config, remote: Remote): Run
  {
    var auth := GetAccessToken(config.user, config.password, remote.token);
    if auth.value.None? then Run(Returned(1), auth.sent)
    else
      var token := auth.value.value;
      var tenant := GetTenantId(auth.value, remote.tenant);
      var sent := auth.sent + tenant.sent;
      if tenant.value.None? then Run(Returned(1), sent)
      else
        var tenantId := tenant.value.value;
        var update := UpdateServiceInstance(token, tenantId, plan.serviceInstanceId,
                                            plan.instanceTypeParameter, plan.newInstanceType, remote.updateStatusCode);
        if update.value != OK then Run(Returned(1), sent + update.sent)
        else
          var fetched := StatusFetch(token, tenantId, plan.serviceInstanceId, remote.details);
          var n := PollCount(config.updateServiceTimeout, fetched);
          Run(Conclude(fetched(n)),
              sent + update.sent + Repeat(GetServiceInstance(Bearer(token), plan.serviceInstanceId, tenantId), n + 1))
  }

  /** A whole run of `main`. */
  function Handle(action: Action, config: Config, remote: Remote): Run
  {
    match Prepare(action)
    case Rejected(outcome) => Run(outcome, [])
    case Ready(plan) => Execute(plan, config, remote)
  }

  /** `main`, step by step. */
  method HandleAction(action: Action, config: Config, remote: Remote) returns (outcome: Outcome, sent: seq<Call>)
    ensures Run(outcome, sent) == Handle(action, config, remote)
  {
    sent := [];
    if action.actionType != SCALE {
      return Returned(1), sent;
    }
    var scaleAction := FindScaleItem(action.actionItem);
    if scaleAction.None? {
      return Returned(1), sent;
    }
    var item := scaleAction.value;
    var targetSE := TargetEntityType(item);
    if targetSE != Some(VIRTUAL_MACHINE) {
      if targetSE.None? {
        // the error message concatenates the missing entity type
        return Raised(EntityTypeMissing), sent;
      }
      return Returned(1), sent;
    }
    var serviceInstanceId, serviceInstanceName, instanceTypeParameter := ScanTags(item.targetSE.value.entityProperties);
    if serviceInstanceId.None? {
      return Returned(1), sent;
    }
    if instanceTypeParameter.None? {
      instanceTypeParameter := Some(DEFAULT_INSTANCE_TYPE_PARAMETER);
    }
    var newInstanceType := NewInstanceType(item.newSE.id);
    if newInstanceType.None? {
      return Raised(NoThirdSegment), sent;
    }

    var plan := Plan(serviceInstanceId.value, serviceInstanceName, instanceTypeParameter.value, newInstanceType.value);
    outcome, sent := ExecutePlan(plan, config, remote);
  }

  /** The requests of `main` once the payload is validated, and the exit-status decision. */
  method ExecutePlan(plan: Plan, config: Config, remote: Remote) returns (outcome: Outcome, sent: seq<Call>)
    ensures Run(outcome, sent) == Execute(plan, config, remote)
  {
    sent := [];
    var auth := GetAccessToken(config.user, config.password, remote.token);
    sent := sent + auth.sent;
    if auth.value.None? {
      return Returned(1), sent;
    }
    var tenant := GetTenantId(auth.value, remote.tenant);
    sent := sent + tenant.sent;
    if tenant.value.None? {
      return Returned(1), sent;
    }

    var exitStatus := 0;
    var update := UpdateServiceInstance(auth.value.value, tenant.value.value, plan.serviceInstanceId,
                                        plan.instanceTypeParameter, plan.newInstanceType, remote.updateStatusCode);
    sent := sent + update.sent;
    if update.value == OK {
      var status, timeWaited, polled := PollUntilSettled(config.updateServiceTimeout, auth.value.value,
                                                         tenant.value.value, plan.serviceInstanceId, remote.details);
      sent := sent + polled;
      if status == Some(IN_PROGRESS) {
        // the log message of this branch names `timeout`, which is not defined
        return Raised(UndefinedTimeout), sent;
      } else if status == Some(ACTIVE) {
      } else {
        exitStatus := 1;
      }
    } else {
      exitStatus := 1;
    }
    return Returned(exitStatus), sent;
  }

  // ---------------------------------------------------------------------
  // Payload validation: every rejection happens before any request.

  /** A top-level action type other than SCALE gives 1 and sends nothing. */
  lemma UnsupportedActionTypeFails(action: Action, config: Config, remote: Remote)
    requires action.actionType != SCALE
    ensures Handle(action, config, remote) == Run(Returned(1), [])
  {
  }

  /** Without any SCALE item the result is 1 and nothing is sent. */
  lemma NoScaleItemFails(action: Action, config: Config, remote: Remote)
    requires forall i :: 0 <= i < |action.actionItem| ==> action.actionItem[i].actionType != SCALE
    ensures Handle(action, config, remote) == Run(Returned(1), [])
  {
    FirstScaleItemIsFirstMatch(action.actionItem);
  }

  /** When the first SCALE item does not target a virtual machine the run fails (a TypeError when the type is missing) without a request. */
  lemma NonVirtualMachineFails(action: Action, config: Config, remote: Remote, i: nat)
    requires action.actionType == SCALE
    requires i < |action.actionItem| && action.actionItem[i].actionType == SCALE
    requires forall j :: 0 <= j < i ==> action.actionItem[j].actionType != SCALE
    requires TargetEntityType(action.actionItem[i]) != Some(VIRTUAL_MACHINE)
    ensures Handle(action, config, remote).sent == []
    ensures ExitStatus(Handle(action, config, remote).outcome) == 1
    ensures TargetEntityType(action.actionItem[i]).None? <==> Handle(action, config, remote).outcome == Raised(EntityTypeMissing)
  {
    FirstScaleItemChosen(action.actionItem, i);
  }

  /** Without a VCTAGS `service_identifier` tag on the chosen virtual machine the result is 1 and nothing is sent. */
  lemma MissingServiceIdentifierFails(action: Action, config: Config, remote: Remote, i: nat)
    requires action.actionType == SCALE
    requires i < |action.actionItem| && action.actionItem[i].actionType == SCALE
    requires forall j :: 0 <= j < i ==> action.actionItem[j].actionType != SCALE
    requires TargetEntityType(action.actionItem[i]) == Some(VIRTUAL_MACHINE)
    requires var props := action.actionItem[i].targetSE.value.entityProperties;
      forall k :: 0 <= k < |props| ==> !IsTag(props[k], SERVICE_IDENTIFIER)
    ensures Handle(action, config, remote) == Run(Returned(1), [])
  {
    FirstScaleItemChosen(action.actionItem, i);
    ScanFindsTag(action.actionItem[i].targetSE.value.entityProperties, SERVICE_IDENTIFIER);
  }

  /**
   * When the chosen virtual machine carries a `service_identifier` tag, the
   * run ends in the IndexError exactly when `newSE.id` has fewer than three
   * "::" segments, and then nothing has been sent.
   */
  lemma ShortIdRaises(action: Action, config: Config, remote: Remote, i: nat)
    requires action.actionType == SCALE
    requires i < |action.actionItem| && action.actionItem[i].actionType == SCALE
    requires forall j :: 0 <= j < i ==> action.actionItem[j].actionType != SCALE
    requires TargetEntityType(action.actionItem[i]) == Some(VIRTUAL_MACHINE)
    requires var props := action.actionItem[i].targetSE.value.entityProperties;
      exists k :: 0 <= k < |props| && IsTag(props[k], SERVICE_IDENTIFIER)
    ensures Handle(action, config, remote).outcome == Raised(NoThirdSegment) <==> |Split(action.actionItem[i].newSE.id)| < 3
    ensures |Split(action.actionItem[i].newSE.id)| < 3 ==> Handle(action, config, remote).sent == []
  {
    FirstScaleItemChosen(action.actionItem, i);
    ScanFindsTag(action.actionItem[i].targetSE.value.entityProperties, SERVICE_IDENTIFIER);
  }

  /**
   * A validated payload names a service instance from a `service_identifier`
   * tag, and the update parameter is "instance_type" unless a
   * `turbonomic_instance_type` tag names another.
   */
  lemma PlanComesFromTags(action: Action)
    requires Prepare(action).Ready?
    ensures var item := FirstScaleItem(action.actionItem).value;
      var props := item.targetSE.value.entityProperties;
      var plan := Prepare(action).plan;
      && TargetEntityType(item) == Some(VIRTUAL_MACHINE)
      && (exists k :: 0 <= k < |props| && IsTag(props[k], SERVICE_IDENTIFIER) && props[k].value == plan.serviceInstanceId)
      && ((forall k :: 0 <= k < |props| ==> !IsTag(props[k], INSTANCE_TYPE_TAG)) ==>
            plan.instanceTypeParameter == DEFAULT_INSTANCE_TYPE_PARAMETER)
      && Some(plan.newInstanceType) == NewInstanceType(item.newSE.id)
  {
    var item := FirstScaleItem(action.actionItem).value;
    var props := item.targetSE.value.entityProperties;
    ScanFindsTag(props, SERVICE_IDENTIFIER);
    DefaultInstanceTypeParameter(props);
  }

  // ---------------------------------------------------------------------
  // The network steps.

  /** A refused authentication gives 1 after the single token request: no tenant lookup, no update. */
  lemma AuthenticationFailureStops(action: Action, config: Config, remote: Remote)
    requires Prepare(action).Ready?
    requires remote.token.statusCode != OK
    ensures Handle(action, config, remote).outcome == Returned(1)
    ensures |Handle(action, config, remote).sent| == 1 && Handle(action, config, remote).sent[0].PostIdentityToken?
  {
  }

  /** A failed tenant lookup gives 1 after the token and tenant requests only. */
  lemma TenantFailureStops(action: Action, config: Config, remote: Remote)
    requires Prepare(action).Ready?
    requires remote.token.statusCode == OK && remote.tenant.statusCode != OK
    ensures Handle(action, config, remote).outcome == Returned(1)
    ensures Handle(action, config, remote).sent ==
      GetAccessToken(config.user, config.password, remote.token).sent + [GetTenantOnPrem(Bearer(remote.token.accessToken))]
  {
  }

  /** An update answered with anything but 200 gives 1, and the status is never fetched. */
  lemma UpdateRejectedSkipsPolling(action: Action, config: Config, remote: Remote)
    requires Prepare(action).Ready?
    requires remote.token.statusCode == OK && remote.tenant.statusCode == OK && remote.updateStatusCode != OK
    ensures Handle(action, config, remote).outcome == Returned(1)
    ensures forall c :: c in Handle(action, config, remote).sent ==> !c.GetServiceInstance?
  {
  }

  /** Every update request asks for exactly the planned parameter and new type, for the planned service instance. */
  lemma UpdateRequestMatchesPlan(action: Action, config: Config, remote: Remote)
    requires Prepare(action).Ready?
    ensures var plan := Prepare(action).plan;
      forall c :: c in Handle(action, config, remote).sent && c.PostUpdate? ==>
        && c.serviceInstanceId == plan.serviceInstanceId
        && InstanceParameters(c.body) == Some(map[plan.instanceTypeParameter := Str(plan.newInstanceType)])
  {
  }

  /** With the token and the tenant granted, the third request is the update, built from the plan and the granted token and tenant. */
  lemma UpdateRequestSent(action: Action, config: Config, remote: Remote)
    requires Prepare(action).Ready?
    requires remote.token.statusCode == OK && remote.tenant.statusCode == OK
    ensures var plan := Prepare(action).plan;
      var sent := Handle(action, config, remote).sent;
      && |sent| >= 3
      && sent[2] == PostUpdate(Bearer(remote.token.accessToken), plan.serviceInstanceId, remote.tenant.id,
                               UpdateBody(plan.instanceTypeParameter, plan.newInstanceType))
  {
  }

  /** Once the update is accepted, the run ends as the status at the end of the wait decides, after 1 + PollCount status requests. */
  lemma AcceptedUpdateIsPolled(action: Action, config: Config, remote: Remote)
    requires Prepare(action).Ready?
    requires remote.token.statusCode == OK && remote.tenant.statusCode == OK && remote.updateStatusCode == OK
    ensures var plan := Prepare(action).plan;
      var fetched := StatusFetch(remote.token.accessToken, remote.tenant.id, plan.serviceInstanceId, remote.details);
      var n := PollCount(config.updateServiceTimeout, fetched);
      var run := Handle(action, config, remote);
      && run.outcome == Conclude(fetched(n))
      && |run.sent| == 3 + n + 1
      && forall k :: 3 <= k < |run.sent| ==> run.sent[k].GetServiceInstance?
  {
  }

  /** A status still "In Progress" at the end of the wait: the timeout has passed, `exit_status` is still 0, yet the run ends in the NameError and the process exits 1. */
  lemma StillInProgressRaises(action: Action, config: Config, remote: Remote)
    requires Prepare(action).Ready?
    requires remote.token.statusCode == OK && remote.tenant.statusCode == OK && remote.updateStatusCode == OK
    requires var fetched := StatusFetch(remote.token.accessToken, remote.tenant.id, Prepare(action).plan.serviceInstanceId, remote.details);
      fetched(PollCount(config.updateServiceTimeout, fetched)) == Some(IN_PROGRESS)
    ensures var fetched := StatusFetch(remote.token.accessToken, remote.tenant.id, Prepare(action).plan.serviceInstanceId, remote.details);
      var n := PollCount(config.updateServiceTimeout, fetched);
      && WaitedAfter(n) > config.updateServiceTimeout
      && FinalExitStatus(fetched(n)) == 0
      && Handle(action, config, remote).outcome == Raised(UndefinedTimeout)
      && ExitStatus(Handle(action, config, remote).outcome) == 1
  {
  }

  /** After the wait, "Active" gives 0 and any other status, `None` included, gives 1. */
  lemma ConcludeSettled(status: Option<string>)
    requires status != Some(IN_PROGRESS)
    ensures Conclude(status) == Returned(if status == Some(ACTIVE) then 0 else 1)
  {
  }

  /** The run exits 0 exactly when the payload is valid, all three calls are answered 200 and the status at the end of the wait is "Active". */
  lemma SucceedsExactlyWhenActive(action: Action, config: Config, remote: Remote)
    ensures ExitStatus(Handle(action, config, remote).outcome) == 0 <==>
      && Prepare(action).Ready?
      && remote.token.statusCode == OK && remote.tenant.statusCode == OK && remote.updateStatusCode == OK
      && var fetched := StatusFetch(remote.token.accessToken, remote.tenant.id, Prepare(action).plan.serviceInstanceId, remote.details);
         fetched(PollCount(config.updateServiceTimeout, fetched)) == Some(ACTIVE)
  {
  }

  /** An "Active" status at the first fetch gives 0 after exactly one status request and only the initial 30-second wait. */
  lemma ActiveAtOnceSucceeds(action: Action, config: Config, remote: Remote)
    requires Prepare(action).Ready?
    requires remote.token.statusCode == OK && remote.tenant.statusCode == OK && remote.updateStatusCode == OK
    requires remote.details(0) == DetailsReply(OK, ACTIVE)
    ensures Handle(action, config, remote).outcome == Returned(0)
    ensures |Handle(action, config, remote).sent| == 4
    ensures Handle(action, config, remote).sent[3].GetServiceInstance?
  {
  }

  /** A service that reports "In Progress" on every fetch is polled `MaxPolls(timeout)` times after the first fetch, and the run ends in the NameError of the still-in-progress branch. */
  lemma PendingForeverRaises(action: Action, config: Config, remote: Remote)
    requires Prepare(action).Ready?
    requires remote.token.statusCode == OK && remote.tenant.statusCode == OK && remote.updateStatusCode == OK
    requires forall k: nat :: remote.details(k) == DetailsReply(OK, IN_PROGRESS)
    ensures Handle(action, config, remote).outcome == Raised(UndefinedTimeout)
    ensures |Handle(action, config, remote).sent| == 3 + MaxPolls(config.updateServiceTimeout) + 1
  {
    var plan := Prepare(action).plan;
    var fetched := StatusFetch(remote.token.accessToken, remote.tenant.id, plan.serviceInstanceId, remote.details);
    assert forall k: nat :: fetched(k) == Some(IN_PROGRESS) by {
      forall k: nat ensures fetched(k) == Some(IN_PROGRESS) {
        assert remote.details(k) == DetailsReply(OK, IN_PROGRESS);
      }
    }
    PendingUntilTimeout(config.updateServiceTimeout, fetched);
  }
}
