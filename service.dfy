/** The send and connection-test paths of the e-mail service:
    `send_with_connection_fallback`, `send_email_smtp` and
    `test_smtp_connection`. */
module Service {
  import opened Wrappers
  import opened Strings
  import opened Config
  import opened Mime
  import opened MimeProperties
  import opened Fallback
  import opened Transport

  const AllSendFailed := "All send methods failed. Last error: "
  const AllConnectFailed := "All connection methods failed. Last error: "
  const SendFailed := "Failed to send email: "
  const ConnectFailed := "SMTP connection failed: "
  const Sent := "Email sent successfully! Recipients: "

  /** `str(last_error)`, which prints `None` as "None". */
  function ErrorText(e: Option<string>): string
  {
    if e.Some? then e.value else "None"
  }

  /** The requests the send loop hands to the library for the methods it
      tried: none at all when a credential lookup fails first. */
  function RequestsFor(config: SmtpConfig, msg: MimeMessage, recipients: Option<seq<string>>,
                       methods: seq<ConnectionMethod>): (qs: seq<SendRequest>)
    ensures HasCredentials(config) ==> |qs| == |methods|
    ensures !HasCredentials(config) ==> qs == []
    ensures forall k :: 0 <= k < |qs| ==> qs[k] == RequestFor(config, msg, recipients, methods[k])
  {
    if !HasCredentials(config) then []
    else seq(|methods|, k requires 0 <= k < |methods| => RequestFor(config, msg, recipients, methods[k]))
  }

  /** `send_with_connection_fallback`: tries the planned methods in order,
      returns at the first that sends, and otherwise raises with the error
      of the last one. `recipients` is `None` in the code as written (the
      argument is ignored) and the explicit envelope in the corrected model. */
  method SendWithConnectionFallback(config: SmtpConfig, msg: MimeMessage, recipients: Option<seq<string>>,
                                    send: SendRequest -> Outcome)
    returns (o: Outcome, tried: seq<ConnectionMethod>)
    ensures var plan := ConnectionPlan(config.port, config.secure);
      var attempt := SendAttempts(config, msg, recipients, send);
      && (o.Success? <==> exists i :: 0 <= i < |plan| && attempt(plan[i]).Success?)
      && (o.Failure? ==> o.error == AllSendFailed + attempt(plan[|plan| - 1]).error)
      && tried == Tried(plan, FirstSuccess(plan, attempt))
  {
    var plan := ConnectionPlan(config.port, config.secure);
    var attempt := SendAttempts(config, msg, recipients, send);
    var r;
    r, tried := TryInOrder(plan, attempt);
    SucceedsIffSomeSucceeds(plan, attempt);
    if r.Succeeded? {
      o := Success;
    } else {
      o := Failure(AllSendFailed + ErrorText(r.lastError));
    }
  }

  /** `send_email_smtp`: composes the message, sends it with fallback and
      reports the recipients, or raises "Failed to send email: ...". The
      envelope passed is the full recipient list, so blind copies are
      delivered (see `AsWrittenEnvelopeOmitsBcc` for the code as written). */
  method SendEmailSmtp(config: SmtpConfig, em: EmailMessage, send: SendRequest -> Outcome)
    returns (reply: Result<string>, requests: seq<SendRequest>)
    ensures var plan := ConnectionPlan(config.port, config.secure);
      var msg := ComposedMessage(config, em);
      var attempt := SendAttempts(config, msg, Some(Recipients(em)), send);
      && (reply.Ok? <==> exists i :: 0 <= i < |plan| && attempt(plan[i]).Success?)
      && (reply.Ok? ==> reply.value == Sent + Join(Recipients(em)))
      && (reply.Err? ==> reply.error == SendFailed + AllSendFailed + attempt(plan[|plan| - 1]).error)
      && requests == RequestsFor(config, msg, Some(Recipients(em)), Tried(plan, FirstSuccess(plan, attempt)))
    ensures forall k :: 0 <= k < |requests| ==>
      && requests[k].message == ComposedMessage(config, em)
      && Envelope(requests[k]) == Recipients(em)
      && requests[k].hostname == config.host && requests[k].port == config.port
  {
    var mime, recipients := CreateEmailMessage(config, em);
    var msg := mime.Value();
    var o, tried := SendWithConnectionFallback(config, msg, Some(recipients), send);
    requests := RequestsFor(config, msg, Some(recipients), tried);
    if o.Success? {
      reply := Ok(Sent + Join(recipients));
    } else {
      reply := Err(SendFailed + o.error);
    }
  }

  /** The success text of `test_smtp_connection`. */
  function ConnectedText(config: SmtpConfig, methodName: string): (r: string)
    requires "user" in config.auth
    ensures "SMTP connection successful to " + config.host + ":" <= r
    ensures |r| > |methodName| + 1 && r[|r| - |methodName| - 1..] == methodName + ")"
  {
    var head := "SMTP connection successful to " + config.host + ":" + ShowInt(config.port)
      + " with user " + config.auth["user"] + " (";
    assert head + methodName + ")" == head + (methodName + ")");
    head + methodName + ")"
  }

  /** `test_smtp_connection`: the same plan and the same loop, on a client
      that connects, upgrades when asked, logs in and quits. */
  method TestSmtpConnection(config: SmtpConfig, probe: seq<ProbeStep> -> Outcome)
    returns (reply: Result<string>, tried: seq<ConnectionMethod>)
    ensures var plan := ConnectionPlan(config.port, config.secure);
      var attempt := ProbeAttempts(config, probe);
      var f := FirstSuccess(plan, attempt);
      && (reply.Ok? <==> exists i :: 0 <= i < |plan| && attempt(plan[i]).Success?)
      && (reply.Ok? ==> f.Succeeded? && HasCredentials(config) && reply.value == ConnectedText(config, plan[f.index].name))
      && (reply.Err? ==> reply.error == ConnectFailed + AllConnectFailed + attempt(plan[|plan| - 1]).error)
      && tried == Tried(plan, f)
  {
    var plan := ConnectionPlan(config.port, config.secure);
    var attempt := ProbeAttempts(config, probe);
    var r;
    r, tried := TryInOrder(plan, attempt);
    SucceedsIffSomeSucceeds(plan, attempt);
    if r.Succeeded? {
      reply := Ok(ConnectedText(config, plan[r.index].name));
    } else {
      reply := Err(ConnectFailed + AllConnectFailed + ErrorText(r.lastError));
    }
  }

  // The envelope of the code as written.

  /** The envelope `aiosmtplib.send(msg, ...)` uses when, as in the code as
      written, no recipients are passed. */
  function EnvelopeAsWritten(config: SmtpConfig, em: EmailMessage, m: ConnectionMethod): (r: seq<string>)
    requires HasCredentials(config)
    ensures r == HeaderAddresses(HeaderValues(Headers(config, em), "To"))
      + HeaderAddresses(HeaderValues(Headers(config, em), "Cc"))
  {
    BccNotInHeaders(config, em, em.bcc);
    Envelope(RequestFor(config, ComposedMessage(config, em), None, m))
  }

  predicate CommaFreeList(xs: seq<string>)
  {
    forall i :: 0 <= i < |xs| ==> CommaFree(xs[i])
  }

  /** As written, the envelope is the to-list and the cc-list only: the bcc
      addresses that `create_email_message` collects never reach it. */
  lemma AsWrittenEnvelopeOmitsBcc(config: SmtpConfig, em: EmailMessage, m: ConnectionMethod)
    requires HasCredentials(config)
    requires AsList(em.to) != [] && CommaFreeList(AsList(em.to)) && CommaFreeList(OptionalList(em.cc))
    ensures EnvelopeAsWritten(config, em, m) == AsList(em.to) + OptionalList(em.cc)
  {
    var h := ComposedMessage(config, em).headers;
    HeaderValuesOfHeaders(config, em, "To");
    HeaderValuesOfHeaders(config, em, "Cc");
    HeaderValuesOfHeaders(config, em, "Bcc");
    SplitJoin(AsList(em.to));
    assert HeaderAddresses(HeaderValues(h, "To")) == AsList(em.to);
    if Given(em.cc) {
      SplitJoin(AsList(em.cc.value));
      assert HeaderAddresses(HeaderValues(h, "Cc")) == AsList(em.cc.value);
    }
  }

  /** A concrete message whose blind-copy recipient is listed by
      `create_email_message` but is not in the envelope as written. */
  lemma BccDroppedAsWritten(config: SmtpConfig, m: ConnectionMethod)
    requires HasCredentials(config)
    ensures var em := EmailMessage(Single("to@example.com"), None, Some(Single("bcc@example.com")),
                                   "s", Some("t"), None, None);
      && "bcc@example.com" in Recipients(em)
      && "bcc@example.com" !in EnvelopeAsWritten(config, em, m)
  {
    var em := EmailMessage(Single("to@example.com"), None, Some(Single("bcc@example.com")),
                           "s", Some("t"), None, None);
    assert CommaFree("to@example.com");
    AsWrittenEnvelopeOmitsBcc(config, em, m);
    assert EnvelopeAsWritten(config, em, m) == ["to@example.com"];
  }
}
