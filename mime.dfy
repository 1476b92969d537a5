/** The e-mail message and how `create_email_message` turns it into a MIME
    multipart message and the list of envelope recipients. The MIME object
    is held abstractly: a header list and an ordered list of parts. */
module Mime {
  import opened Wrappers
  import opened Strings
  import opened Config

  /** A recipient field: one address or a list of them (`Union[EmailStr, List[EmailStr]]`). */
  datatype AddressField = Single(address: string) | Many(addresses: seq<string>)

  /** `EmailAttachment`: file name and base64 content. */
  datatype Attachment = Attachment(filename: string, content: string, encoding: string)

  /** `EmailMessage`. */
  datatype EmailMessage = EmailMessage(
    to: AddressField,
    cc: Option<AddressField>,
    bcc: Option<AddressField>,
    subject: string,
    text: Option<string>,
    html: Option<string>,
    attachments: Option<seq<Attachment>>)

  /** A MIME part: a `MIMEText` of subtype "plain" or "html", or an
      `application/octet-stream` attachment with its disposition header. */
  datatype Part =
    | TextPart(subtype: string, body: string)
    | AttachmentPart(filename: string, payload: string, disposition: string)

  /** The abstract value of a multipart message: headers in the order they
      were set, and the attached parts in order. */
  datatype MimeMessage = MimeMessage(headers: seq<(string, string)>, parts: seq<Part>)

  /** `set_payload` and `encode_base64` are library code; the payload is kept
      as the attachment's base64 content. */
  function AttachmentPartOf(a: Attachment): (p: Part)
    ensures p.AttachmentPart? && p.filename == a.filename && p.payload == a.content
    ensures p.disposition == "attachment; filename= " + a.filename
  {
    AttachmentPart(a.filename, a.content, "attachment; filename= " + a.filename)
  }

  function AttachmentParts(atts: seq<Attachment>): (ps: seq<Part>)
    ensures |ps| == |atts|
    ensures forall k :: 0 <= k < |atts| ==> ps[k] == AttachmentPartOf(atts[k])
  {
    if atts == [] then [] else [AttachmentPartOf(atts[0])] + AttachmentParts(atts[1..])
  }

  /** The list a field is normalised to (`x if isinstance(x, list) else [x]`). */
  function AsList(f: AddressField): (xs: seq<string>)
    ensures f.Single? ==> xs == [f.address]
    ensures f.Many? ==> xs == f.addresses
  {
    match f
    case Single(a) => [a]
    case Many(xs) => xs
  }

  /** Python truthiness of an optional field: set, and not "" or []. */
  predicate Given(f: Option<AddressField>)
  {
    f.Some? && match f.value
      case Single(a) => a != ""
      case Many(xs) => xs != []
  }

  /** Python truthiness of an optional body. */
  predicate GivenText(t: Option<string>)
  {
    t.Some? && t.value != ""
  }

  function OptionalList(f: Option<AddressField>): seq<string>
  {
    if Given(f) then AsList(f.value) else []
  }

  /** The recipient list `create_email_message` returns. */
  function Recipients(em: EmailMessage): (r: seq<string>)
    ensures |r| == |AsList(em.to)| + |OptionalList(em.cc)| + |OptionalList(em.bcc)|
    ensures r[..|AsList(em.to)|] == AsList(em.to)
    ensures r[|r| - |OptionalList(em.bcc)|..] == OptionalList(em.bcc)
  {
    AsList(em.to) + OptionalList(em.cc) + OptionalList(em.bcc)
  }

  /** The headers `create_email_message` sets, in order. */
  function Headers(config: SmtpConfig, em: EmailMessage): (h: seq<(string, string)>)
    ensures |h| == if Given(em.cc) then 4 else 3
    ensures h[0] == ("From", config.fromEmail) && h[1] == ("Subject", em.subject)
    ensures h[2] == ("To", Join(AsList(em.to)))
    ensures Given(em.cc) ==> h[3] == ("Cc", Join(AsList(em.cc.value)))
    ensures forall i :: 0 <= i < |h| ==> h[i].0 != "Bcc"
  {
    [("From", config.fromEmail), ("Subject", em.subject), ("To", Join(AsList(em.to)))]
    + (if Given(em.cc) then [("Cc", Join(AsList(em.cc.value)))] else [])
  }

  /** The parts `create_email_message` attaches, in order. */
  function BodyParts(em: EmailMessage): (ps: seq<Part>)
    ensures |ps| == BodyCount(em) + (if em.attachments.Some? then |em.attachments.value| else 0)
    ensures forall k :: 0 <= k < BodyCount(em) ==> ps[k].TextPart?
    ensures forall k :: BodyCount(em) <= k < |ps| ==> ps[k].AttachmentPart?
  {
    (if GivenText(em.text) then [TextPart("plain", em.text.value)] else [])
    + (if GivenText(em.html) then [TextPart("html", em.html.value)] else [])
    + (if em.attachments.Some? then AttachmentParts(em.attachments.value) else [])
  }

  /** How many body parts come before the attachments. */
  function BodyCount(em: EmailMessage): nat
  {
    (if GivenText(em.text) then 1 else 0) + (if GivenText(em.html) then 1 else 0)
  }

  /** The message `create_email_message` builds: its headers, then its parts. */
  function ComposedMessage(config: SmtpConfig, em: EmailMessage): (msg: MimeMessage)
    ensures msg.headers == Headers(config, em) && msg.parts == BodyParts(em)
    ensures forall i :: 0 <= i < |msg.headers| ==> msg.headers[i].0 != "Bcc"
  {
    MimeMessage(Headers(config, em), BodyParts(em))
  }

  /** `msg.get_all(name)`: every value stored under `name`, in order.
      The library compares names without regard to case; names here are
      compared exactly, which agrees for the fixed names the server sets and
      looks up (From, Subject, To, Cc, Bcc differ from each other in any case). */
  function HeaderValues(headers: seq<(string, string)>, name: string): (vs: seq<string>)
    ensures forall v :: v in vs <==> exists i :: 0 <= i < |headers| && headers[i] == (name, v)
    decreases |headers|
  {
    if headers == [] then []
    else (if headers[0].0 == name then [headers[0].1] else []) + HeaderValues(headers[1..], name)
  }

  /** A MIME multipart message under construction (`MIMEMultipart`): setting
      a header appends it, attaching a part appends the part. */
  class MimeMultipart {
    var headers: seq<(string, string)>
    var parts: seq<Part>

    constructor ()
      ensures headers == [] && parts == []
    {
      headers := [];
      parts := [];
    }

    function Value(): MimeMessage
      reads this
    {
      MimeMessage(headers, parts)
    }

    /** `msg[name] = value`. */
    method SetItem(name: string, value: string)
      modifies this
      ensures headers == old(headers) + [(name, value)]
      ensures parts == old(parts)
    {
      headers := headers + [(name, value)];
    }

    /** `msg.attach(part)`. */
    method Attach(part: Part)
      modifies this
      ensures parts == old(parts) + [part]
      ensures headers == old(headers)
    {
      parts := parts + [part];
    }
  }

  /** `create_email_message`: builds the message step by step and collects
      the envelope recipients with repeated `extend`. */
  method CreateEmailMessage(config: SmtpConfig, em: EmailMessage) returns (msg: MimeMultipart, recipients: seq<string>)
    ensures fresh(msg)
    ensures msg.Value() == ComposedMessage(config, em)
    ensures recipients == Recipients(em)
  {
    msg := new MimeMultipart();
    recipients := AddAddressing(msg, config, em);
    AttachBodies(msg, em);
  }

  /** The header and recipient half of `create_email_message`. */
  method AddAddressing(msg: MimeMultipart, config: SmtpConfig, em: EmailMessage) returns (recipients: seq<string>)
    requires msg.headers == []
    modifies msg
    ensures msg.headers == Headers(config, em)
    ensures msg.parts == old(msg.parts)
    ensures recipients == Recipients(em)
  {
    msg.SetItem("From", config.fromEmail);
    msg.SetItem("Subject", em.subject);
    recipients := [];

    var toList := AsList(em.to);
    msg.SetItem("To", Join(toList));
    recipients := recipients + toList;

    if Given(em.cc) {
      var ccList := AsList(em.cc.value);
      msg.SetItem("Cc", Join(ccList));
      recipients := recipients + ccList;
    }
    assert recipients == AsList(em.to) + OptionalList(em.cc);

    // Blind copies go to the envelope only.
    if Given(em.bcc) {
      recipients := recipients + AsList(em.bcc.value);
    }
  }

  /** The body half of `create_email_message`: text, html, attachments. */
  method AttachBodies(msg: MimeMultipart, em: EmailMessage)
    requires msg.parts == []
    modifies msg
    ensures msg.parts == BodyParts(em)
    ensures msg.headers == old(msg.headers)
  {
    if GivenText(em.text) {
      msg.Attach(TextPart("plain", em.text.value));
    }
    if GivenText(em.html) {
      msg.Attach(TextPart("html", em.html.value));
    }
    ghost var bodies := msg.parts;
    assert bodies == (if GivenText(em.text) then [TextPart("plain", em.text.value)] else [])
      + (if GivenText(em.html) then [TextPart("html", em.html.value)] else []);
    if em.attachments.Some? && em.attachments.value != [] {
      AttachAll(msg, em.attachments.value);
    }
  }

  /** The attachment loop of `create_email_message`: one part per
      attachment, in order. */
  method AttachAll(msg: MimeMultipart, atts: seq<Attachment>)
    modifies msg
    ensures msg.parts == old(msg.parts) + AttachmentParts(atts)
    ensures msg.headers == old(msg.headers)
  {
    var i := 0;
    while i < |atts|
      invariant 0 <= i <= |atts|
      invariant msg.headers == old(msg.headers)
      invariant msg.parts == old(msg.parts) + AttachmentParts(atts[..i])
    {
      msg.Attach(AttachmentPartOf(atts[i]));
      assert atts[..i + 1] == atts[..i] + [atts[i]];
      AttachmentPartsAppend(atts[..i], atts[i]);
      i := i + 1;
    }
    assert atts[..|atts|] == atts;
  }

  lemma AttachmentPartsAppend(atts: seq<Attachment>, a: Attachment)
    ensures AttachmentParts(atts + [a]) == AttachmentParts(atts) + [AttachmentPartOf(a)]
  {
  }
}

/** What `create_email_message` promises about recipients, headers and parts. */
module MimeProperties {
  import opened Wrappers
  import opened Strings
  import opened Config
  import opened Mime

  lemma {:induction false} HeaderValuesConcat(a: seq<(string, string)>, b: seq<(string, string)>, name: string)
    ensures HeaderValues(a + b, name) == HeaderValues(a, name) + HeaderValues(b, name)
    decreases |a|
  {
    if a != [] {
      assert (a + b)[1..] == a[1..] + b;
      HeaderValuesConcat(a[1..], b, name);
    } else {
      assert a + b == b;
    }
  }

  /** The values stored under each header name, one header at a time. */
  lemma HeaderValuesOfHeaders(config: SmtpConfig, em: EmailMessage, name: string)
    ensures HeaderValues(Headers(config, em), name) ==
      (if name == "From" then [config.fromEmail] else [])
      + (if name == "Subject" then [em.subject] else [])
      + (if name == "To" then [Join(AsList(em.to))] else [])
      + (if name == "Cc" && Given(em.cc) then [Join(AsList(em.cc.value))] else [])
  {
    var f, s, t := ("From", config.fromEmail), ("Subject", em.subject), ("To", Join(AsList(em.to)));
    var c: seq<(string, string)> := if Given(em.cc) then [("Cc", Join(AsList(em.cc.value)))] else [];
    assert Headers(config, em) == [f] + [s] + [t] + c;
    HeaderValuesConcat([f] + [s] + [t], c, name);
    HeaderValuesConcat([f] + [s], [t], name);
    HeaderValuesConcat([f], [s], name);
    assert HeaderValues([t], name) == if name == "To" then [t.1] else [];
    assert HeaderValues([s], name) == if name == "Subject" then [s.1] else [];
    assert HeaderValues([f], name) == if name == "From" then [f.1] else [];
    if Given(em.cc) {
      assert HeaderValues(c, name) == if name == "Cc" then [c[0].1] else [];
    }
  }

  /** An address is an envelope recipient exactly when it is in the to-list,
      or in a given cc- or bcc-list. */
  lemma RecipientsMembership(em: EmailMessage, x: string)
    ensures x in Recipients(em) <==>
      || x in AsList(em.to)
      || (Given(em.cc) && x in AsList(em.cc.value))
      || (Given(em.bcc) && x in AsList(em.bcc.value))
  {
  }

  /** The recipient list is the to-list, then the cc-list, then the
      bcc-list, each in input order. */
  lemma RecipientsOrder(em: EmailMessage)
    ensures var t, c, b := AsList(em.to), OptionalList(em.cc), OptionalList(em.bcc);
      && |Recipients(em)| == |t| + |c| + |b|
      && (forall k :: 0 <= k < |t| ==> Recipients(em)[k] == t[k])
      && (forall k :: 0 <= k < |c| ==> Recipients(em)[|t| + k] == c[k])
      && (forall k :: 0 <= k < |b| ==> Recipients(em)[|t| + |c| + k] == b[k])
  {
  }

  /** A single to-address behaves like a one-element list. */
  lemma SingleToIsOneElementList(config: SmtpConfig, em: EmailMessage, a: string)
    requires em.to == Single(a)
    ensures Recipients(em) == Recipients(em.(to := Many([a])))
    ensures Headers(config, em) == Headers(config, em.(to := Many([a])))
  {
  }

  /** A single cc- or bcc-address behaves like a one-element list, except
      the empty string: `Single("")` is falsy and dropped, `[""]` is kept. */
  lemma SingleCopyIsOneElementList(config: SmtpConfig, em: EmailMessage, a: string)
    ensures a != "" ==>
      && Recipients(em.(cc := Some(Single(a)))) == Recipients(em.(cc := Some(Many([a]))))
      && Headers(config, em.(cc := Some(Single(a)))) == Headers(config, em.(cc := Some(Many([a]))))
      && Recipients(em.(bcc := Some(Single(a)))) == Recipients(em.(bcc := Some(Many([a]))))
    ensures Recipients(em.(cc := Some(Single("")))) == AsList(em.to) + OptionalList(em.bcc)
    ensures Recipients(em.(cc := Some(Many([""])))) == AsList(em.to) + [""] + OptionalList(em.bcc)
  {
  }

  /** An absent or empty cc- or bcc-field contributes nothing, to the
      recipients or to the headers. */
  lemma EmptyCopiesContributeNothing(config: SmtpConfig, em: EmailMessage)
    requires !Given(em.cc) && !Given(em.bcc)
    ensures Recipients(em) == AsList(em.to)
    ensures Headers(config, em) == Headers(config, em.(cc := None, bcc := None))
    ensures HeaderValues(Headers(config, em), "Cc") == []
  {
    HeaderValuesOfHeaders(config, em, "Cc");
  }

  /** Blind copies leave no trace in the headers: the headers do not depend
      on the bcc-field at all, and there is never a Bcc header. */
  lemma BccNotInHeaders(config: SmtpConfig, em: EmailMessage, bcc: Option<AddressField>)
    ensures Headers(config, em.(bcc := bcc)) == Headers(config, em)
    ensures HeaderValues(Headers(config, em), "Bcc") == []
  {
    HeaderValuesOfHeaders(config, em, "Bcc");
  }

  /** The To header is the to-list joined by ", ", and splitting it gives the
      to-list back when no address holds a comma. */
  lemma ToHeader(config: SmtpConfig, em: EmailMessage)
    ensures HeaderValues(Headers(config, em), "To") == [Join(AsList(em.to))]
    ensures AsList(em.to) != [] && (forall i :: 0 <= i < |AsList(em.to)| ==> CommaFree(AsList(em.to)[i])) ==>
      Split(Join(AsList(em.to))) == AsList(em.to)
  {
    HeaderValuesOfHeaders(config, em, "To");
    if AsList(em.to) != [] && (forall i :: 0 <= i < |AsList(em.to)| ==> CommaFree(AsList(em.to)[i])) {
      SplitJoin(AsList(em.to));
    }
  }

  /** The Cc header exists exactly when a cc-field is given, and then it is
      the cc-list joined by ", ". */
  lemma CcHeader(config: SmtpConfig, em: EmailMessage)
    ensures HeaderValues(Headers(config, em), "Cc") ==
      if Given(em.cc) then [Join(AsList(em.cc.value))] else []
  {
    HeaderValuesOfHeaders(config, em, "Cc");
  }

  /** The plain part first (when the text is non-empty), then the html part
      (when the html is non-empty), then exactly one part per attachment, in
      input order. */
  lemma PartsLayout(em: EmailMessage)
    ensures var atts := if em.attachments.Some? then em.attachments.value else [];
      var n := BodyCount(em);
      && |BodyParts(em)| == n + |atts|
      && (GivenText(em.text) ==> BodyParts(em)[0] == TextPart("plain", em.text.value))
      && (GivenText(em.html) ==> BodyParts(em)[n - 1] == TextPart("html", em.html.value))
      && (forall k :: 0 <= k < |atts| ==> BodyParts(em)[n + k] == AttachmentPartOf(atts[k]))
      && (forall k :: 0 <= k < n ==> BodyParts(em)[k].TextPart?)
  {
  }
}
