/** The three MCP tools: `send_email`, `send_custom_email` and
    `test_smtp_connection_tool`. Each first decides, by a straight-line
    function, whether to answer at once or where to send; the methods then
    carry that decision out and turn raised errors into reply strings. */
module Tools {
  import opened Wrappers
  import opened Strings
  import opened Config
  import opened Mime
  import opened Fallback
  import opened Transport
  import opened Service

  const NoEnvConfig := "Error: No SMTP configuration found in environment variables. Please set SMTP_HOST, SMTP_PORT, SMTP_SECURE, SMTP_USER, SMTP_PASS, SMTP_FROM."
  const NoConfigAtAll := "Error: No SMTP configuration found. Either provide smtp_config in the request or set SMTP environment variables (SMTP_HOST, SMTP_PORT, SMTP_SECURE, SMTP_USER, SMTP_PASS, SMTP_FROM)."
  const SendEmailError := "Error sending email: "
  const CustomEmailError := "Error sending custom email: "
  const ConnectionTestError := "Connection test failed: "

  /** `str(ValueError)` of `int(raw)`. */
  function IntParseError(raw: string): (r: string)
    ensures var head := "invalid literal for int() with base 10: ";
      head <= r && r[|head|..] == Repr(raw)
  {
    "invalid literal for int() with base 10: " + Repr(raw)
  }

  /** Answer at once with a reply, or go on with a configuration and a message. */
  datatype Dispatch = Reply(text: string) | Deliver(config: SmtpConfig, email: EmailMessage)

  /** The message `send_email` builds: one recipient, and the body as html
      or as text according to `is_html`. */
  function SimpleEmail(to: string, subject: string, body: string, isHtml: bool): (em: EmailMessage)
    ensures em.to == Single(to) && em.subject == subject
    ensures em.cc == None && em.bcc == None && em.attachments == None
    ensures isHtml ==> em.html == Some(body) && em.text == None
    ensures !isHtml ==> em.text == Some(body) && em.html == None
  {
    EmailMessage(Single(to), None, None, subject,
      if isHtml then None else Some(body),
      if isHtml then Some(body) else None,
      None)
  }

  /** The simple message goes to exactly its one address and has a single
      part of the chosen subtype, or none when the body is empty. */
  lemma SimpleEmailShape(to: string, subject: string, body: string, isHtml: bool)
    ensures Recipients(SimpleEmail(to, subject, body, isHtml)) == [to]
    ensures BodyParts(SimpleEmail(to, subject, body, isHtml)) ==
      if body == "" then [] else [TextPart(if isHtml then "html" else "plain", body)]
  {
  }

  /** The decision of `send_email`. */
  function SendEmailDispatch(env: Env, to: string, subject: string, body: string, isHtml: bool): (d: Dispatch)
    ensures SmtpConfigFromEnv(env).NoConfig? ==> d == Reply(NoEnvConfig)
    ensures SmtpConfigFromEnv(env).InvalidPort? ==>
      d == Reply(SendEmailError + IntParseError(SmtpConfigFromEnv(env).raw))
    ensures SmtpConfigFromEnv(env).Found? ==>
      d == Deliver(SmtpConfigFromEnv(env).config, SimpleEmail(to, subject, body, isHtml))
  {
    match SmtpConfigFromEnv(env)
    case NoConfig => Reply(NoEnvConfig)
    case InvalidPort(raw) => Reply(SendEmailError + IntParseError(raw))
    case Found(config) => Deliver(config, SimpleEmail(to, subject, body, isHtml))
  }

  /** The decision of `send_custom_email`. `supplied` is the `smtp_config`
      argument after validation; `None` stands for a missing or empty one. */
  function SendCustomEmailDispatch(env: Env, email: EmailMessage, supplied: Option<SmtpConfig>): (d: Dispatch)
    ensures supplied.Some? ==> d == Deliver(supplied.value, email)
    ensures supplied.None? && SmtpConfigFromEnv(env).NoConfig? ==> d == Reply(NoConfigAtAll)
    ensures supplied.None? && SmtpConfigFromEnv(env).InvalidPort? ==>
      d == Reply(CustomEmailError + IntParseError(SmtpConfigFromEnv(env).raw))
    ensures supplied.None? && SmtpConfigFromEnv(env).Found? ==>
      d == Deliver(SmtpConfigFromEnv(env).config, email)
  {
    if supplied.Some? then Deliver(supplied.value, email)
    else match SmtpConfigFromEnv(env)
      case NoConfig => Reply(NoConfigAtAll)
      case InvalidPort(raw) => Reply(CustomEmailError + IntParseError(raw))
      case Found(config) => Deliver(config, email)
  }

  /** A supplied configuration wins: the environment is then not consulted. */
  lemma SuppliedConfigIgnoresEnv(env1: Env, env2: Env, email: EmailMessage, config: SmtpConfig)
    ensures SendCustomEmailDispatch(env1, email, Some(config)) == SendCustomEmailDispatch(env2, email, Some(config))
  {
  }

  /** Where both tools take their configuration from the environment, they
      agree on when a send is attempted and with which configuration. */
  lemma ToolsAgreeOnEnvironment(env: Env, to: string, subject: string, body: string, isHtml: bool)
    ensures var d1 := SendEmailDispatch(env, to, subject, body, isHtml);
      var d2 := SendCustomEmailDispatch(env, SimpleEmail(to, subject, body, isHtml), None);
      && (d1.Deliver? <==> d2.Deliver?)
      && (d1.Deliver? ==> d1 == d2)
  {
  }

  /** The decision of `test_smtp_connection_tool`: `Some(config)` to test. */
  function TestToolDispatch(env: Env): (r: Result<SmtpConfig>)
    ensures SmtpConfigFromEnv(env).NoConfig? ==> r == Err(NoEnvConfig)
    ensures SmtpConfigFromEnv(env).InvalidPort? ==>
      r == Err(ConnectionTestError + IntParseError(SmtpConfigFromEnv(env).raw))
    ensures SmtpConfigFromEnv(env).Found? ==> r == Ok(SmtpConfigFromEnv(env).config)
  {
    match SmtpConfigFromEnv(env)
    case NoConfig => Err(NoEnvConfig)
    case InvalidPort(raw) => Err(ConnectionTestError + IntParseError(raw))
    case Found(config) => Ok(config)
  }

  /** What sending `email` with `config` answers and hands to the library:
      the planned methods are tried in order; the reply is the success text,
      or the tool's prefix on the error of the last method; the requests are
      those of the methods tried. */
  ghost predicate SentWithFallback(config: SmtpConfig, email: EmailMessage, errorPrefix: string,
                                   send: SendRequest -> Outcome, reply: string, requests: seq<SendRequest>)
  {
    var plan := ConnectionPlan(config.port, config.secure);
    var msg := ComposedMessage(config, email);
    var attempt := SendAttempts(config, msg, Some(Recipients(email)), send);
    && ((exists i :: 0 <= i < |plan| && attempt(plan[i]).Success?) ==>
          reply == Sent + Join(Recipients(email)))
    && (!(exists i :: 0 <= i < |plan| && attempt(plan[i]).Success?) ==>
          reply == errorPrefix + SendFailed + AllSendFailed + attempt(plan[|plan| - 1]).error)
    && requests == RequestsFor(config, msg, Some(Recipients(email)), Tried(plan, FirstSuccess(plan, attempt)))
    && (HasCredentials(config) ==> |requests| >= 1)
  }

  /** Carries out a decision: answers directly, or sends and turns a raised
      error into a reply with the tool's prefix. */
  method Perform(d: Dispatch, errorPrefix: string, send: SendRequest -> Outcome)
    returns (reply: string, requests: seq<SendRequest>)
    ensures d.Reply? ==> reply == d.text && requests == []
    ensures d.Deliver? ==> SentWithFallback(d.config, d.email, errorPrefix, send, reply, requests)
  {
    if d.Reply? {
      reply, requests := d.text, [];
    } else {
      var result;
      result, requests := SendEmailSmtp(d.config, d.email, send);
      reply := if result.Ok? then result.value else errorPrefix + result.error;
    }
  }

  /** `send_email`. With no usable environment configuration it answers
      without handing anything to the library; with one it sends the simple
      message with fallback. */
  method SendEmail(env: Env, to: string, subject: string, body: string, isHtml: bool, send: SendRequest -> Outcome)
    returns (reply: string, requests: seq<SendRequest>)
    ensures SmtpConfigFromEnv(env).NoConfig? ==> reply == NoEnvConfig && requests == []
    ensures SmtpConfigFromEnv(env).InvalidPort? ==>
      reply == SendEmailError + IntParseError(SmtpConfigFromEnv(env).raw) && requests == []
    ensures SmtpConfigFromEnv(env).Found? ==>
      && SentWithFallback(SmtpConfigFromEnv(env).config, SimpleEmail(to, subject, body, isHtml),
                          SendEmailError, send, reply, requests)
      && |requests| >= 1
    ensures forall k :: 0 <= k < |requests| ==>
      && Envelope(requests[k]) == [to]
      && requests[k].message.parts == BodyParts(SimpleEmail(to, subject, body, isHtml))
  {
    var d := SendEmailDispatch(env, to, subject, body, isHtml);
    if d.Deliver? {
      EnvConfigHasCredentials(env);
    }
    reply, requests := Perform(d, SendEmailError, send);
    SimpleEmailShape(to, subject, body, isHtml);
  }

  /** `send_custom_email`. */
  method SendCustomEmail(env: Env, email: EmailMessage, supplied: Option<SmtpConfig>, send: SendRequest -> Outcome)
    returns (reply: string, requests: seq<SendRequest>)
    ensures supplied.Some? ==> SentWithFallback(supplied.value, email, CustomEmailError, send, reply, requests)
    ensures supplied.None? && SmtpConfigFromEnv(env).NoConfig? ==> reply == NoConfigAtAll && requests == []
    ensures supplied.None? && SmtpConfigFromEnv(env).InvalidPort? ==>
      reply == CustomEmailError + IntParseError(SmtpConfigFromEnv(env).raw) && requests == []
    ensures supplied.None? && SmtpConfigFromEnv(env).Found? ==>
      && SentWithFallback(SmtpConfigFromEnv(env).config, email, CustomEmailError, send, reply, requests)
      && |requests| >= 1
    ensures supplied.Some? ==> forall k :: 0 <= k < |requests| ==>
      requests[k].hostname == supplied.value.host && requests[k].port == supplied.value.port
    ensures forall k :: 0 <= k < |requests| ==> Envelope(requests[k]) == Recipients(email)
  {
    var d := SendCustomEmailDispatch(env, email, supplied);
    if supplied.None? && d.Deliver? {
      EnvConfigHasCredentials(env);
    }
    reply, requests := Perform(d, CustomEmailError, send);
  }

  /** `test_smtp_connection_tool`. */
  method TestSmtpConnectionTool(env: Env, probe: seq<ProbeStep> -> Outcome)
    returns (reply: string, tried: seq<ConnectionMethod>)
    ensures SmtpConfigFromEnv(env).NoConfig? ==> reply == NoEnvConfig && tried == []
    ensures SmtpConfigFromEnv(env).InvalidPort? ==>
      reply == ConnectionTestError + IntParseError(SmtpConfigFromEnv(env).raw) && tried == []
    ensures SmtpConfigFromEnv(env).Found? ==>
      var config := SmtpConfigFromEnv(env).config;
      var plan := ConnectionPlan(config.port, config.secure);
      var attempt := ProbeAttempts(config, probe);
      var f := FirstSuccess(plan, attempt);
      && tried == Tried(plan, f)
      && |tried| >= 1
      && (f.Succeeded? ==> reply == ConnectedText(config, plan[f.index].name))
      && (f.AllFailed? ==>
            reply == ConnectionTestError + ConnectFailed + AllConnectFailed + attempt(plan[|plan| - 1]).error)
  {
    var d := TestToolDispatch(env);
    if d.Err? {
      reply, tried := d.error, [];
    } else {
      var config := d.value;
      assert config == SmtpConfigFromEnv(env).config;
      var result;
      result, tried := TestSmtpConnection(config, probe);
      ghost var plan := ConnectionPlan(config.port, config.secure);
      SucceedsIffSomeSucceeds(plan, ProbeAttempts(config, probe));
      reply := if result.Ok? then result.value else ConnectionTestError + result.error;
    }
  }
}
