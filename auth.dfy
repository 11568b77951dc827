/** The login handler: the submitted `password` is compared with `===` to the configured
    secret, and a match returns a fixed token. */
module Auth {
  import opened JsValues
  import opened Http

  const Token: string := "logged-in-secret-key"
  const WrongPasswordMsg: string := "Wrong Password!"

  /** Authenticated outcome: status 200 with `success: true` and the fixed token. */
  function Granted(): (r: Reply)
    ensures r.status == 200 && r.body.Keys == {"success", "token"}
    ensures r.body["success"] == Bool(true) && r.body["token"] == Str(Token)
  {
    Reply(200, map["success" := Bool(true), "token" := Str(Token)])
  }

  /** Refused outcome: status 401 with `success: false` and the fixed message, and no
      token. */
  function Refused(): (r: Reply)
    ensures r.status == 401 && r.body.Keys == {"success", "msg"}
    ensures r.body["success"] == Bool(false) && r.body["msg"] == Str(WrongPasswordMsg)
    ensures "token" !in r.body
  {
    Reply(401, map["success" := Bool(false), "msg" := Str(WrongPasswordMsg)])
  }

  /** The login handler as written: `password === process.env.ADMIN_PASS`. The secret is
      the configured environment value, absent when the variable is unset. */
  function Login(body: Record, secret: Option<string>): (r: Reply)
    ensures r == Granted() <==> StrictEquals(Get(body, "password"), EnvValue(secret))
    ensures r != Granted() ==> r == Refused()
  {
    if StrictEquals(Get(body, "password"), EnvValue(secret)) then Granted() else Refused()
  }

  /** With a configured secret, the token is granted exactly for that string: any other
      password (the empty string, a different case, a number, a missing field) is refused
      with status 401. */
  lemma LoginGrantsOnlyTheSecret(body: Record, secret: string)
    ensures Login(body, Some(secret)).status == 200 <==> Get(body, "password") == Str(secret)
    ensures Login(body, Some(secret)).status != 200 ==>
      Login(body, Some(secret)).status == 401 && Login(body, Some(secret)).body["success"] == Bool(false)
  {
    StrictEqualsPrimitive(Get(body, "password"), Str(secret));
  }

  /** Every successful login returns the same token, whatever was submitted. */
  lemma LoginTokenIsConstant(body1: Record, body2: Record, secret: Option<string>)
    requires Login(body1, secret).status == 200 && Login(body2, secret).status == 200
    ensures Login(body1, secret) == Login(body2, secret)
    ensures Login(body1, secret).body["token"] == Str(Token)
  {
  }

  /** When the secret is not configured, `undefined === undefined` holds, so a request
      whose body has no `password` field at all is granted the token. */
  lemma LoginUnsetSecretGrantsMissingPassword()
    ensures Login(map[], None) == Granted()
  {
  }

  /** The evidently intended check: without a configured secret nobody logs in, and with
      one the token is granted exactly for that string. */
  function LoginRequiringSecret(body: Record, secret: Option<string>): (r: Reply)
    ensures r == Granted() <==> secret.Some? && Get(body, "password") == Str(secret.value)
    ensures r != Granted() ==> r == Refused()
    ensures secret.None? ==> r == Refused()
  {
    if secret.Some? && StrictEquals(Get(body, "password"), EnvValue(secret)) then Granted()
    else Refused()
  }

  /** The corrected check differs from the code as written only when no secret is set. */
  lemma LoginRequiringSecretAgreesWhenConfigured(body: Record, secret: string)
    ensures LoginRequiringSecret(body, Some(secret)) == Login(body, Some(secret))
  {
  }
}
