/** Connection planning and what each connection attempt hands to the SMTP
    library. The library itself (`aiosmtplib`) is an oracle: a function from
    the request it is given to success or the error it raises. */
module Transport {
  import opened Wrappers
  import opened Strings
  import opened Config
  import opened Mime
  import opened Fallback

  /** One entry of `connection_methods`: `(name, use_tls, start_tls)`. */
  datatype ConnectionMethod = ConnectionMethod(name: string, useTls: bool, startTls: bool)

  const ImplicitTls := ConnectionMethod("implicit TLS", true, false)
  const StartTls := ConnectionMethod("STARTTLS", false, true)
  const ImplicitTlsFallback := ConnectionMethod("implicit TLS fallback", true, false)
  const PlainConnection := ConnectionMethod("plain connection", false, false)

  /** The port on which SMTP speaks TLS from the first byte. */
  const SmtpsPort := 465

  /** The connection methods to try, in order, for a port and `secure` flag. */
  function ConnectionPlan(port: int, secure: bool): (plan: seq<ConnectionMethod>)
    ensures 2 <= |plan| <= 3
    ensures plan[|plan| - 1] == PlainConnection
    ensures |plan| == 2 <==> port == SmtpsPort || secure
    ensures |plan| == 2 ==> plan[0] == ImplicitTls
    ensures |plan| == 3 ==> plan[0] == StartTls && plan[1] == ImplicitTlsFallback
  {
    (if port == SmtpsPort || secure then [ImplicitTls] else [StartTls, ImplicitTlsFallback])
    + [PlainConnection]
  }

  /** Every method before the last is encrypted one way or the other, none
      asks for both, and STARTTLS is planned exactly when neither port 465
      nor `secure` calls for implicit TLS. */
  lemma PlanShape(port: int, secure: bool)
    ensures var plan := ConnectionPlan(port, secure);
      && (forall i :: 0 <= i < |plan| - 1 ==> plan[i].useTls != plan[i].startTls)
      && (forall i :: 0 <= i < |plan| ==> !(plan[i].useTls && plan[i].startTls))
      && ((exists i :: 0 <= i < |plan| && plan[i].startTls) <==> !(port == SmtpsPort || secure))
      && (forall i, j :: 0 <= i < j < |plan| ==> plan[i].name != plan[j].name)
  {
  }

  /** Which call the send loop makes for a method. */
  datatype Mode = ImplicitTlsMode | StartTlsMode | PlainMode

  /** The branch `send_with_connection_fallback` takes for a method. */
  function ModeOf(m: ConnectionMethod): (mode: Mode)
    ensures mode == ImplicitTlsMode <==> m.useTls && !m.startTls
    ensures mode == StartTlsMode <==> m.startTls && !m.useTls
    ensures mode == PlainMode <==> m.useTls == m.startTls
  {
    if m.useTls && !m.startTls then ImplicitTlsMode
    else if m.startTls && !m.useTls then StartTlsMode
    else PlainMode
  }

  /** On planned methods the branch taken agrees with the method's name. */
  lemma PlannedModes(port: int, secure: bool)
    ensures forall m :: m in ConnectionPlan(port, secure) ==>
      (ModeOf(m) == ImplicitTlsMode <==> m.name in {"implicit TLS", "implicit TLS fallback"})
      && (ModeOf(m) == StartTlsMode <==> m.name == "STARTTLS")
      && (ModeOf(m) == PlainMode <==> m.name == "plain connection")
  {
  }

  /** One call of `aiosmtplib.send`. `recipients` is the explicit envelope
      when one is passed; `None` leaves the library to take it from the
      message's headers. */
  datatype SendRequest = SendRequest(
    message: MimeMessage,
    recipients: Option<seq<string>>,
    hostname: string,
    port: int,
    username: string,
    password: string,
    mode: Mode)

  /** The addresses a header value lists, as the library parses them. */
  function HeaderAddresses(values: seq<string>): seq<string>
  {
    if values == [] then [] else Split(values[0]) + HeaderAddresses(values[1..])
  }

  /** Who a send request delivers to: the explicit recipients, or else the
      addresses of the To, Cc and Bcc headers. */
  function Envelope(q: SendRequest): (r: seq<string>)
    ensures q.recipients.Some? ==> r == q.recipients.value
    ensures q.recipients.None? ==>
      r == HeaderAddresses(HeaderValues(q.message.headers, "To"))
           + HeaderAddresses(HeaderValues(q.message.headers, "Cc"))
           + HeaderAddresses(HeaderValues(q.message.headers, "Bcc"))
  {
    if q.recipients.Some? then q.recipients.value
    else
      HeaderAddresses(HeaderValues(q.message.headers, "To"))
      + HeaderAddresses(HeaderValues(q.message.headers, "Cc"))
      + HeaderAddresses(HeaderValues(q.message.headers, "Bcc"))
  }

  /** `str(KeyError(key))`. */
  function KeyErrorText(key: string): string
  {
    Repr(key)
  }

  predicate HasCredentials(config: SmtpConfig)
  {
    "user" in config.auth && "pass" in config.auth
  }

  /** The request one loop iteration sends. */
  function RequestFor(config: SmtpConfig, msg: MimeMessage, recipients: Option<seq<string>>, m: ConnectionMethod): (q: SendRequest)
    requires HasCredentials(config)
    ensures q.hostname == config.host && q.port == config.port
    ensures q.username == config.auth["user"] && q.password == config.auth["pass"]
    ensures q.message == msg && q.recipients == recipients && q.mode == ModeOf(m)
  {
    SendRequest(msg, recipients, config.host, config.port, config.auth["user"], config.auth["pass"], ModeOf(m))
  }

  /** One iteration of the send loop: the credential lookups, which raise
      `KeyError` inside the `try`, then the library call. */
  function SendAttempt(config: SmtpConfig, msg: MimeMessage, recipients: Option<seq<string>>,
                       send: SendRequest -> Outcome, m: ConnectionMethod): (o: Outcome)
    ensures "user" !in config.auth ==> o == Failure(KeyErrorText("user"))
    ensures "user" in config.auth && "pass" !in config.auth ==> o == Failure(KeyErrorText("pass"))
    ensures HasCredentials(config) ==> o == send(RequestFor(config, msg, recipients, m))
  {
    if "user" !in config.auth then Failure(KeyErrorText("user"))
    else if "pass" !in config.auth then Failure(KeyErrorText("pass"))
    else send(RequestFor(config, msg, recipients, m))
  }

  /** The loop body of the send path as a function of the method. */
  function SendAttempts(config: SmtpConfig, msg: MimeMessage, recipients: Option<seq<string>>,
                        send: SendRequest -> Outcome): ConnectionMethod -> Outcome
  {
    m => SendAttempt(config, msg, recipients, send, m)
  }

  /** One step of a connection test on an `aiosmtplib.SMTP` client. */
  datatype ProbeStep =
    | Connect(hostname: string, port: int, useTls: bool)
    | UpgradeToTls
    | Login(username: string, password: string)
    | Quit

  /** The steps before login: connect, then STARTTLS when the method asks
      for it without implicit TLS. */
  function OpeningSteps(config: SmtpConfig, m: ConnectionMethod): seq<ProbeStep>
  {
    [Connect(config.host, config.port, m.useTls)] + (if m.startTls && !m.useTls then [UpgradeToTls] else [])
  }

  /** One iteration of `test_smtp_connection`. `probe` runs a session of
      steps and says whether it completed. When a credential is missing the
      client gets as far as the opening steps and the lookup then raises. */
  function ProbeAttempt(config: SmtpConfig, probe: seq<ProbeStep> -> Outcome, m: ConnectionMethod): (o: Outcome)
    ensures o.Success? ==> HasCredentials(config)
    ensures HasCredentials(config) ==>
      o == probe(OpeningSteps(config, m) + [Login(config.auth["user"], config.auth["pass"]), Quit])
    ensures !HasCredentials(config) && probe(OpeningSteps(config, m)).Failure? ==> o == probe(OpeningSteps(config, m))
    ensures !HasCredentials(config) && probe(OpeningSteps(config, m)).Success? ==>
      o == Failure(KeyErrorText(if "user" !in config.auth then "user" else "pass"))
  {
    var opening := OpeningSteps(config, m);
    if HasCredentials(config) then probe(opening + [Login(config.auth["user"], config.auth["pass"]), Quit])
    else match probe(opening)
      case Failure(e) => Failure(e)
      case Success => Failure(KeyErrorText(if "user" !in config.auth then "user" else "pass"))
  }

  function ProbeAttempts(config: SmtpConfig, probe: seq<ProbeStep> -> Outcome): ConnectionMethod -> Outcome
  {
    m => ProbeAttempt(config, probe, m)
  }

  /** An upgrade to TLS is only ever requested on a connection that was not
      opened with TLS, and every session starts by connecting. */
  lemma OpeningStepsShape(config: SmtpConfig, m: ConnectionMethod)
    ensures var s := OpeningSteps(config, m);
      && s[0] == Connect(config.host, config.port, m.useTls)
      && (UpgradeToTls in s <==> m.startTls && !m.useTls)
  {
  }
}
