/**
 * The four calls to the management API, with the network replaced by the
 * reply each call receives. Every helper also reports the requests it
 * issued, so that "no request is made" can be stated.
 */
module Api {
  import opened Wrappers

  /** The JSON values the handler sends. */
  datatype Json = Str(s: string) | Obj(fields: map<string, Json>)

  /** One HTTP request, with what it carries besides the fixed base URLs. */
  datatype Call =
    | PostIdentityToken(form: map<string, string>)
    | GetTenantOnPrem(authorization: string)
    | PostUpdate(authorization: string, serviceInstanceId: string, tenantId: string, body: Json)
    | GetServiceInstance(authorization: string, serviceInstanceId: string, tenantId: string)

  /** Replies of the management service: the HTTP status and the field the handler reads from the body. */
  datatype TokenReply = TokenReply(statusCode: int, accessToken: string)
  datatype TenantReply = TenantReply(statusCode: int, id: string)
  datatype DetailsReply = DetailsReply(statusCode: int, status: string)

  /** What a helper returns, and the requests it sent on the way. */
  datatype Exchange<T> = Exchange(value: T, sent: seq<Call>)

  const OK := 200

  function Bearer(token: string): string
  {
    "Bearer " + token
  }

  /** `get_access_token`: one POST of the password grant; a token exactly when the reply is HTTP 200. */
  function GetAccessToken(user: string, password: string, reply: TokenReply): (r: Exchange<Option<string>>)
    ensures |r.sent| == 1 && r.sent[0].PostIdentityToken?
    ensures r.sent[0].form == map["grant_type" := "password", "username" := user, "password" := password, "scope" := "openid"]
    ensures r.value.Some? <==> reply.statusCode == OK
    ensures r.value.Some? ==> r.value.value == reply.accessToken
  {
    var form := map["grant_type" := "password", "username" := user, "password" := password, "scope" := "openid"];
    Exchange(if reply.statusCode == OK then Some(reply.accessToken) else None, [PostIdentityToken(form)])
  }

  /** `get_tenant_id`: no request at all without a token; otherwise a tenant exactly when the reply is HTTP 200. */
  function GetTenantId(accessToken: Option<string>, reply: TenantReply): (r: Exchange<Option<string>>)
    ensures accessToken.None? ==> r.value.None? && r.sent == []
    ensures accessToken.Some? ==> r.sent == [GetTenantOnPrem(Bearer(accessToken.value))]
    ensures r.value.Some? <==> accessToken.Some? && reply.statusCode == OK
    ensures r.value.Some? ==> r.value.value == reply.id
  {
    if accessToken.None? then Exchange(None, [])
    else if reply.statusCode == OK then Exchange(Some(reply.id), [GetTenantOnPrem(Bearer(accessToken.value))])
    else Exchange(None, [GetTenantOnPrem(Bearer(accessToken.value))])
  }

  /** The body of the update request: `{update_details: {instance_parameters: {parameter: newInstanceType}}}`. */
  function UpdateBody(parameter: string, newInstanceType: string): (body: Json)
    ensures body.Obj? && body.fields.Keys == {"update_details"}
    ensures body.fields["update_details"].Obj? && body.fields["update_details"].fields.Keys == {"instance_parameters"}
    ensures InstanceParameters(body) == Some(map[parameter := Str(newInstanceType)])
  {
    Obj(map["update_details" := Obj(map["instance_parameters" := Obj(map[parameter := Str(newInstanceType)])])])
  }

  /** How the service reads an update body: the object under `update_details.instance_parameters`, if the body has that shape. */
  function InstanceParameters(body: Json): Option<map<string, Json>>
  {
    if body.Obj? && "update_details" in body.fields then
      var details := body.fields["update_details"];
      if details.Obj? && "instance_parameters" in details.fields && details.fields["instance_parameters"].Obj? then
        Some(details.fields["instance_parameters"].fields)
      else None
    else None
  }

  /** The body sets exactly one parameter, and reading it back gives the parameter and the new type. */
  lemma UpdateBodySetsOneParameter(parameter: string, newInstanceType: string)
    ensures var ps := InstanceParameters(UpdateBody(parameter, newInstanceType));
      && ps.Some? && ps.value.Keys == {parameter} && |ps.value| == 1
      && ps.value[parameter] == Str(newInstanceType)
  {
  }

  /** `update_service_instance`: one POST carrying the update body; the reply's status code is returned unchanged. */
  function UpdateServiceInstance(accessToken: string, tenantId: string, serviceInstanceId: string,
                                 parameter: string, newInstanceType: string, statusCode: int): (r: Exchange<int>)
    ensures r.value == statusCode
    ensures |r.sent| == 1 && r.sent[0].PostUpdate?
    ensures r.sent[0].authorization == Bearer(accessToken)
    ensures r.sent[0].serviceInstanceId == serviceInstanceId && r.sent[0].tenantId == tenantId
    ensures r.sent[0].body == UpdateBody(parameter, newInstanceType)
  {
    Exchange(statusCode, [PostUpdate(Bearer(accessToken), serviceInstanceId, tenantId, UpdateBody(parameter, newInstanceType))])
  }

  /** `get_service_instance_details`: no request unless both token and tenant are present; details exactly on HTTP 200. */
  function GetServiceInstanceDetails(accessToken: Option<string>, tenantId: Option<string>,
                                     serviceInstanceId: string, reply: DetailsReply): (r: Exchange<Option<DetailsReply>>)
    ensures accessToken.None? || tenantId.None? ==> r.sent == []
    ensures accessToken.Some? && tenantId.Some? ==>
      r.sent == [GetServiceInstance(Bearer(accessToken.value), serviceInstanceId, tenantId.value)]
    ensures r.value.Some? <==> accessToken.Some? && tenantId.Some? && reply.statusCode == OK
    ensures r.value.Some? ==> r.value.value == reply
  {
    if accessToken.None? || tenantId.None? then Exchange(None, [])
    else
      var sent := [GetServiceInstance(Bearer(accessToken.value), serviceInstanceId, tenantId.value)];
      Exchange(if reply.statusCode == OK then Some(reply) else None, sent)
  }

  /** `get_service_instance_status`: the `Status` of the details, `None` whenever the details are `None`. */
  function GetServiceInstanceStatus(accessToken: Option<string>, tenantId: Option<string>,
                                    serviceInstanceId: string, reply: DetailsReply): (r: Exchange<Option<string>>)
    ensures r.sent == GetServiceInstanceDetails(accessToken, tenantId, serviceInstanceId, reply).sent
    ensures r.value.Some? <==> accessToken.Some? && tenantId.Some? && reply.statusCode == OK
    ensures r.value.Some? ==> r.value.value == reply.status
  {
    var details := GetServiceInstanceDetails(accessToken, tenantId, serviceInstanceId, reply);
    Exchange(if details.value.Some? then Some(details.value.value.status) else None, details.sent)
  }
}
