# Email MCP server: SMTP configuration, message assembly and connection fallback

This project models the decision logic of the email MCP server in
`src/email_server/server.py`. The SMTP library, MIME serialisation, data
validation and the web wiring are held abstract. What is modelled:

- **Configuration from the environment** (`get_smtp_config_from_env`). The
  environment is a string-to-string map. A configuration is built only when
  `SMTP_HOST`, `SMTP_USER`, `SMTP_FROM` and `SMTP_PASS` are all set and
  non-empty. The port defaults to 587. `secure` is true exactly when
  `SMTP_SECURE`, lower-cased, is `"true"`. A non-numeric `SMTP_PORT` is the
  `ValueError` of `int()`.
- **Message assembly** (`create_email_message`). The MIME multipart message
  is a class whose fields are the header list and the part list.
  `CreateEmailMessage` sets the From, Subject, To and Cc headers in order. It
  collects the envelope recipients as to, then cc, then bcc. It attaches the
  plain part, the html part, and one part per attachment. Blind copies never
  reach a header.
- **Connection planning.** The plan is a function of `(port, secure)`:
  [implicit TLS, plain] for port 465 or `secure`, otherwise
  [STARTTLS, implicit TLS fallback, plain].
- **The ordered fallback loop** behind `send_with_connection_fallback` and
  `test_smtp_connection`. `Fallback.TryInOrder` is a loop proved equal to the
  reference function `Fallback.FirstSuccess`. It stops at the first success,
  otherwise it keeps the last error. Each attempt is an oracle: the SMTP
  library call becomes a function from the request it receives (host, port,
  credentials, connection mode, message, envelope) to success or an error
  text. The connection test becomes a function from the session script
  (connect, STARTTLS, login, quit) to success or an error text.
- **Tool dispatch** (`send_email`, `send_custom_email`,
  `test_smtp_connection_tool`). Pure functions decide whether to answer at
  once or where to send. Methods carry the decision out and build the reply
  strings the tools return.

Module layout: `Wrappers` (Option, Result), `Strings` (join, split,
lower-casing, decimal conversion), `Config`, `Mime` and `MimeProperties`,
`Fallback`, `Transport`, `Service` and `Tools`. `create_email_message` is
split into `AddAddressing`, `AttachBodies` and `AttachAll` so that each
proof stays small. Their composition is `CreateEmailMessage`.

## Model

| member | source | states |
|---|---|---|
| Config.SmtpConfigFromEnv | src/email_server/server.py:55-77 | no configuration exactly when one of SMTP_HOST, SMTP_USER, SMTP_FROM, SMTP_PASS is absent or empty; otherwise a port error exactly when SMTP_PORT is set and not a decimal number; otherwise host, from address and auth {user, pass} come from the environment, the port is 587 when SMTP_PORT is unset and its decimal value when set, and secure holds exactly when SMTP_SECURE is set and spells "true" in any case |
| Config.EnvConfigHasCredentials | src/email_server/server.py:62-77 | a configuration read from the environment carries non-empty "user" and "pass" credentials |
| Config.OnlySmtpVariablesMatter | src/email_server/server.py:57-66 | variables other than the six SMTP_* names read do not affect the result |
| Config.GetEnv | src/email_server/server.py:57-66 | `os.getenv(key, default)` is the variable's value when it is set and the default otherwise |
| Strings.LowerIsTrue | src/email_server/server.py:66 | `s.lower() == "true"` holds exactly for the upper/lower-case variants of "true" |
| Strings.Lower | src/email_server/server.py:66 | `lower()` keeps the length, leaves no upper-case letter, changes no other character and maps each upper-case letter to its lower-case one |
| Strings.ParseNat | src/email_server/server.py:65 | `int()` accepts the string exactly when it is a non-empty run of decimal digits |
| Strings.ParseShowNat | src/email_server/server.py:65 | printing a number in decimal and parsing it back gives the number (so the default "587" reads as 587) |
| Strings.ShowInt | src/email_server/server.py:243 | `str(port)` is never empty, and is all digits exactly for non-negative ports |
| Strings.Split | src/email_server/server.py:92 | splitting at ", " always yields at least one piece |
| Strings.SplitCommaFreePrefix | src/email_server/server.py:92 | a comma-free prefix is glued to the first piece of what follows it |
| Strings.SplitJoin | src/email_server/server.py:92-98 | splitting the ", "-joined header of comma-free addresses gives the address list back |
| Strings.Join | src/email_server/server.py:92-98 | `", ".join` of no addresses is empty, of one address is that address, and of two or more contains a separator |
| Strings.Repr | src/email_server/server.py:65 | the quoted form of a text is the text between two single quotes |
| Tools.IntParseError | src/email_server/server.py:65 | the ValueError text of `int()` is "invalid literal for int() with base 10: " followed by the quoted raw value |
| Mime.AttachmentParts | src/email_server/server.py:113-126 | exactly one attachment part per attachment, at the same index, with disposition "attachment; filename= <name>" |
| Mime.AttachmentPartOf | src/email_server/server.py:115-125 | the part for an attachment keeps its filename and content and has disposition "attachment; filename= " followed by the filename |
| Mime.AsList | src/email_server/server.py:91-103 | a single address becomes a one-element list and a list is kept as is |
| Mime.Recipients | src/email_server/server.py:88-104 | the recipient list starts with the to-list, ends with the given bcc-list, and is as long as the to-list, the given cc-list and the given bcc-list together |
| Mime.Headers | src/email_server/server.py:84-98 | From, Subject, To in that order, then Cc exactly when cc is given (3 or 4 headers), and never a Bcc header |
| Mime.BodyParts | src/email_server/server.py:106-126 | the text parts (plain, html, each when non-empty) come first and are followed by exactly one attachment part per attachment |
| Mime.ComposedMessage | src/email_server/server.py:81-128 | the composed message has those headers and those parts, and no Bcc header |
| Mime.HeaderValues | src/email_server/server.py:84-98 | a value is returned for a header name exactly when some header has that name and that value (names compared exactly, see Left out) |
| Mime.MimeMultipart.constructor | src/email_server/server.py:83 | a new multipart message has no headers and no parts |
| Mime.MimeMultipart.SetItem | src/email_server/server.py:84-85 | setting a header appends it and leaves the parts alone |
| Mime.MimeMultipart.Attach | src/email_server/server.py:108 | attaching appends the part and leaves the headers alone |
| Mime.CreateEmailMessage | src/email_server/server.py:81-128 | the new message's headers and parts are those of the composed message, and the returned recipients are to ++ given cc ++ given bcc |
| Mime.AddAddressing | src/email_server/server.py:84-104 | From, Subject, To and (if cc is given) Cc headers are set in that order, and the recipients are collected in the same order with bcc last |
| Mime.AttachBodies | src/email_server/server.py:106-126 | parts are the non-empty text, the non-empty html, then the attachments; the headers are untouched |
| Mime.AttachAll | src/email_server/server.py:113-126 | the loop appends one part per attachment, in input order, and leaves the headers alone |
| Mime.AttachmentPartsAppend | src/email_server/server.py:114-126 | one more attachment adds exactly its part at the end |
| MimeProperties.HeaderValuesConcat | src/email_server/server.py:84-98 | header lookup distributes over concatenation of header lists |
| MimeProperties.HeaderValuesOfHeaders | src/email_server/server.py:84-98 | each header name holds exactly the one value set for it: From, Subject, To always, Cc only when cc is given, nothing else |
| MimeProperties.RecipientsMembership | src/email_server/server.py:88-104 | an address is an envelope recipient exactly when it is in the to-list or in a given cc- or bcc-list |
| MimeProperties.RecipientsOrder | src/email_server/server.py:88-104 | the recipient list is the to-list, then the cc-list, then the bcc-list, each in input order |
| MimeProperties.SingleToIsOneElementList | src/email_server/server.py:91-93 | a single to-address behaves like a one-element list for recipients and headers |
| MimeProperties.SingleCopyIsOneElementList | src/email_server/server.py:96-104 | a single non-empty cc/bcc address behaves like a one-element list; an empty single address is falsy and dropped while [""] is kept |
| MimeProperties.EmptyCopiesContributeNothing | src/email_server/server.py:96-104 | absent or empty cc and bcc contribute no recipient and no Cc header |
| MimeProperties.BccNotInHeaders | src/email_server/server.py:101-104 | the headers do not depend on the bcc field at all, and there is never a Bcc header |
| MimeProperties.ToHeader | src/email_server/server.py:91-92 | there is exactly one To header, the to-list joined by ", ", which splits back into the to-list |
| MimeProperties.CcHeader | src/email_server/server.py:96-98 | the Cc header exists exactly when cc is given, and is then the cc-list joined by ", " |
| MimeProperties.PartsLayout | src/email_server/server.py:106-126 | the plain part first if text is non-empty, then the html part if html is non-empty, then exactly one part per attachment in input order |
| Fallback.FirstSuccess | src/email_server/server.py:144-191 | the result is the first candidate that succeeds, all earlier ones having failed; or all failed and the last error is the last candidate's |
| Fallback.TryInOrder | src/email_server/server.py:144-191 | the loop returns what the reference definition returns, and has tried exactly the candidates up to and including the deciding one |
| Fallback.TriedOnlyAfterFailures | src/email_server/server.py:146-188 | candidate i is tried only after candidates 0..i-1 failed, and on success the last one tried is the one that succeeded |
| Fallback.SucceedsIffSomeSucceeds | src/email_server/server.py:146-191 | the loop succeeds exactly when some candidate would succeed |
| Fallback.StopsAtFirstSuccess | src/email_server/server.py:182-183 | candidates after the first success do not affect the result |
| Transport.ConnectionPlan | src/email_server/server.py:132-142 | the plan has 2 or 3 methods, ends with the plain connection, has 2 exactly for port 465 or secure ([implicit TLS, plain]) and otherwise is [STARTTLS, implicit TLS fallback, plain] |
| Transport.PlanShape | src/email_server/server.py:209-220 | every method but the last is encrypted one way, none asks for both, STARTTLS appears exactly when neither port 465 nor secure is set, and names are distinct |
| Transport.PlannedModes | src/email_server/server.py:150-180 | on planned methods the branch taken (implicit TLS, STARTTLS, plain) agrees with the method's name |
| Transport.ModeOf | src/email_server/server.py:150-180 | the branch is implicit TLS exactly when use_tls without start_tls, STARTTLS exactly when start_tls without use_tls, and plain otherwise |
| Transport.Envelope | src/email_server/server.py:152-180 | the library sends to the recipients it is given, and when given none to the addresses of the To, Cc and Bcc headers in that order |
| Transport.RequestFor | src/email_server/server.py:152-180 | a send request carries the configured host, port, user and password, the message, and the mode of the method |
| Transport.SendAttempt | src/email_server/server.py:147-188 | a missing "user" or "pass" credential fails the attempt with the KeyError text before the library is called; otherwise the attempt is the library's answer to the request |
| Transport.ProbeAttempt | src/email_server/server.py:224-248 | with credentials the session is connect, STARTTLS when asked, login, quit; success implies the credentials exist; without them a failing connect is reported as is, and a completed connect fails with the KeyError text of the missing "user" or "pass" |
| Transport.OpeningStepsShape | src/email_server/server.py:228-238 | every session starts by connecting, and STARTTLS is requested exactly when the method asks for it without implicit TLS |
| Service.RequestsFor | src/email_server/server.py:146-180 | one request per method tried when the credentials exist, none otherwise |
| Service.SendWithConnectionFallback | src/email_server/server.py:130-191 | success exactly when some planned method sends; otherwise the error is "All send methods failed. Last error: " and the last method's error; the methods tried are the plan up to the deciding one |
| Service.SendEmailSmtp | src/email_server/server.py:193-205 | success exactly when some method sends, with "Email sent successfully! Recipients: " and the joined recipient list; otherwise "Failed to send email: ..." with the last error; every request carries the composed message, the configured host and port, and the full recipient list as its envelope |
| Service.TestSmtpConnection | src/email_server/server.py:207-254 | success exactly when some method's session completes, naming host, port, user and the first method that worked; otherwise "SMTP connection failed: All connection methods failed. Last error: ..." with the last method's error |
| Service.ConnectedText | src/email_server/server.py:243 | the success text starts with "SMTP connection successful to ", the host and ":", and ends with the method name and ")" |
| Service.AsWrittenEnvelopeOmitsBcc | src/email_server/server.py:152-180 | as written (no recipients passed to the library), the envelope is the to-list and the cc-list only |
| Service.EnvelopeAsWritten | src/email_server/server.py:152-180 | as written, the envelope is the addresses of the composed message's To headers followed by those of its Cc headers |
| Service.BccDroppedAsWritten | src/email_server/server.py:101-104 | a message with a bcc address whose bcc is listed as a recipient but is absent from the envelope as written |
| Tools.SimpleEmail | src/email_server/server.py:284-295 | the message of send_email has the one address as to, no cc/bcc/attachments, and the body in html when is_html and in text otherwise |
| Tools.SimpleEmailShape | src/email_server/server.py:284-295 | that message goes to exactly its one address and has one part of subtype html or plain, or none when the body is empty |
| Tools.SendEmailDispatch | src/email_server/server.py:279-292 | no environment configuration answers with the fixed error; a bad port answers with the ValueError text; otherwise deliver with the environment configuration |
| Tools.SendCustomEmailDispatch | src/email_server/server.py:335-343 | a supplied configuration is used as is; otherwise the environment's, with the fixed error when it is missing |
| Tools.SuppliedConfigIgnoresEnv | src/email_server/server.py:335-336 | with a supplied configuration the environment makes no difference |
| Tools.ToolsAgreeOnEnvironment | src/email_server/server.py:279-281 | send_email and send_custom_email without smtp_config deliver under the same environment conditions and with the same configuration |
| Tools.TestToolDispatch | src/email_server/server.py:363-365 | the connection test runs exactly when the environment yields a configuration |
| Tools.Perform | src/email_server/server.py:297-304 | an immediate reply is returned as is and sends nothing; a delivery replies with the success text and all recipients when some method sends, and otherwise with the tool's error prefix and the last method's error; the requests are those of the methods tried, at least one when the credentials exist (corrected, see Findings) |
| Tools.SendEmail | src/email_server/server.py:258-304 | no environment configuration replies with the fixed error and a bad port with "Error sending email: " and the ValueError text, both sending nothing; otherwise the fallback loop runs with the environment configuration and at least one request, the reply is the success text or the error prefix with the last error, and every request goes only to the one address and carries the body part chosen by is_html |
| Tools.SendCustomEmail | src/email_server/server.py:306-352 | a supplied configuration is used as is and its host and port are on every request; otherwise a missing environment configuration or a bad port replies with the matching error and sends nothing, and an environment configuration runs the fallback loop with at least one request; the reply is the success text or the error prefix with the last error, and every envelope is the full recipient list (corrected, see Findings) |
| Tools.TestSmtpConnectionTool | src/email_server/server.py:354-374 | without an environment configuration, or with a bad port, the matching error is returned and no method is tried; otherwise the plan is tried in order, at least one method is tried, success names the first method that worked, and total failure is reported with all three error prefixes and the last error |

## Left out

- SMTP transport (`aiosmtplib.send`, `aiosmtplib.SMTP`, connect, starttls, login, quit) and `ssl.create_default_context` are network I/O. Each attempt is an oracle parameter. The TLS context passed is not modelled.
- The oracles are functions, so the same request always gets the same answer. Within one loop every planned method is distinct, so this costs nothing there.
- Mime.AttachmentPartOf: `base64.b64decode`, `set_payload` and `encoders.encode_base64` are library code. The payload is kept as the attachment's base64 text, and a decoding error (raised inside `send_email_smtp`) is not modelled.
- Mime.HeaderValues: header names are compared exactly, while the library's `get_all` ignores case. Every lookup in the model uses a name spelled as `create_email_message` sets it (To, Cc, Bcc), so no result changes.
- Mime.MimeMultipart: the headers the library adds itself (Content-Type with its boundary, MIME-Version) and serialisation are not modelled.
- Pydantic validation (`EmailStr` checks, `SMTPConfig(**smtp_config)`, `EmailMessage(**email)`) is library behaviour. Inputs are taken as already validated, and validation errors are not modelled.
- Tools.SendCustomEmailDispatch: `smtp_config` arrives as an already validated configuration. `None` stands for both a missing and an empty dictionary, which the source treats alike.
- Strings.ParseNat: `int()` also accepts a sign, surrounding whitespace, underscores between digits and non-ASCII digits. Those forms are read here as invalid ports.
- Strings.Lower: only ASCII letters are lower-cased. For the comparison with "true" this is exact, because no non-ASCII character lower-cases to t, r, u or e.
- Strings.Repr: Python's `repr` is modelled as single quotes around the text. Strings that hold quotes or characters needing escapes are not rendered exactly.
- Transport.Envelope: the library's RFC 5322 address-list parsing of the To/Cc/Bcc headers is modelled as splitting at ", ". This is exact for plain, comma-free addresses. The Resent-* headers are not considered.
- Logging, `async`/`await`, `load_dotenv` and the `@mcp.tool()` registration have no behaviour to verify.
- `src/email_server/app.py` and `src/email_server/main.py` are not part of this model. They hold web-framework wiring, a static landing-page route and the uvicorn launch.
- `test_email.py` is not part of this model. It is an interactive script that prints, reads input and talks to a live server.

## Findings

| source | as written | input that shows it | evidently intended | confidence | as-written member | corrected member |
|---|---|---|---|---|---|---|
| src/email_server/server.py:152-180 | `send_with_connection_fallback` receives `recipients` but never passes it to `aiosmtplib.send(msg, ...)`. The library then takes the envelope from the To, Cc and Bcc headers, and `create_email_message` deliberately sets no Bcc header, so blind copies are never delivered. | to = "to@example.com", bcc = "bcc@example.com": recipients lists both, the envelope only the first | the envelope is the recipient list to ++ cc ++ bcc (`recipients=recipients`) | medium, not executed; it rests on the library's documented rule for deriving recipients from headers | Service.BccDroppedAsWritten | Service.SendEmailSmtp |

The rest of the model uses the corrected behaviour. `SendEmailSmtp` passes the
full recipient list, and its contract states that every request's envelope is
exactly that list. `Service.AsWrittenEnvelopeOmitsBcc` states the general
as-written fact: the envelope is the to-list and the cc-list only.
