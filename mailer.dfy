/**
  The handler of the mail-forwarding function (main.py). A stored email
  arrives; if its subject is exactly the harvest sentinel, the harvest image
  among its attachments is stored and a fixed harvest report is mailed to
  the harvest recipients; otherwise its HTML body is forwarded, under the
  same subject, to the admins. One SES call sends the message to all
  recipients of the chosen route.
 */
module Mailer {
  import opened Wrappers
  import opened PyStr
  import opened Timestamps
  import opened Mime
  import opened Aws

  const Charset := "utf-8"

  /** The environment variables read when the module is loaded. */
  datatype Config = Config(
    sender: string,             // SENDER
    pngBucket: string,          // PNG_BUCKET
    adminRecipients: string,    // ADMINS_EMAIL, comma-separated
    viewerEmail: string,        // VIEWER_EMAIL
    viewerPass: string,         // VIEWER_PASS
    harvestSentinel: string,    // AVANCE_COSECHA
    harvestReportUrl: string,   // AVANCE_COSECHA_URL
    harvestRecipients: string)  // AVANCE_COSECHA_RECIPIENTS, comma-separated

  /** An attachment of the stored email: its filename, if it declares one,
      and its transfer-decoded payload. */
  datatype Attachment = Attachment(filename: Option<string>, payload: seq<byte>)

  /** The part `get_body("html")` finds: its declared charset, if any, and
      its payload decoded with that charset; `text` is `None` when that
      decoding raises (an unknown codec name, or bytes that are not valid in
      the charset). */
  datatype HtmlPart = HtmlPart(charset: Option<string>, text: Option<string>)

  /** The stored email once parsed; the subject is already decoded. */
  datatype InboundEmail = InboundEmail(
    subject: Option<string>,
    html: Option<HtmlPart>,
    attachments: seq<Attachment>)

  /** The exceptions raised while reading the stored email, which stop the
      handler before it sends anything. */
  datatype Fault =
    | MissingSubject  // decode_header(None) raises TypeError
    | NoHtmlBody      // get_body("html") is None: AttributeError
    | NoHtmlCharset   // decode(encoding=None) raises TypeError
    | Undecodable     // decode(encoding=charset) raises LookupError or UnicodeDecodeError

  /** What a composer returns: the recipient list and the message. */
  datatype Outgoing = Outgoing(recipients: seq<string>, message: MimePart)

  // ---------------------------------------------------------------------------
  // Recipient lists

  /** `[e.strip() for e in setting.split(',')]`. */
  function ParseRecipients(setting: string): (rs: seq<string>)
    ensures |rs| == Count(setting, ',') + 1
    ensures forall i :: 0 <= i < |rs| ==> Stripped(rs[i]) && rs[i] == Strip(Split(setting, ',')[i])
  {
    var fields := Split(setting, ',');
    seq(|fields|, i requires 0 <= i < |fields| => Strip(fields[i]))
  }

  /** The To header: `", ".join(recipients)`. */
  function JoinAddresses(recipients: seq<string>): string {
    Join(recipients, ", ")
  }

  lemma {:induction false} SplitJoinedAddresses(rs: seq<string>)
    requires |rs| > 0
    requires forall i :: 0 <= i < |rs| ==> ',' !in rs[i]
    ensures var f := Split(JoinAddresses(rs), ',');
      |f| == |rs| && f[0] == rs[0] && forall i :: 1 <= i < |rs| ==> f[i] == " " + rs[i]
  {
    if |rs| > 1 {
      var tail := JoinAddresses(rs[1..]);
      SplitJoinedAddresses(rs[1..]);
      var rest := Split(tail, ',');
      assert JoinAddresses(rs) == rs[0] + [','] + (" " + tail);
      SplitAppend(rs[0], " " + tail, ',');
      assert (" " + tail)[1..] == tail;
      var g := Split(" " + tail, ',');
      assert g == [" " + rest[0]] + rest[1..];
      var f := Split(JoinAddresses(rs), ',');
      assert f == [rs[0]] + g;
      forall i | 1 <= i < |rs| ensures f[i] == " " + rs[i] {
        if i > 1 {
          assert f[i] == rest[i - 1] == " " + rs[1..][i - 1];
        }
      }
    }
  }

  /** Parsing the To header of a list of trimmed, comma-free addresses gives
      the list back. */
  lemma RecipientsRoundTrip(rs: seq<string>)
    requires |rs| > 0
    requires forall i :: 0 <= i < |rs| ==> Stripped(rs[i]) && ',' !in rs[i]
    ensures ParseRecipients(JoinAddresses(rs)) == rs
  {
    SplitJoinedAddresses(rs);
    var f := Split(JoinAddresses(rs), ',');
    var p := ParseRecipients(JoinAddresses(rs));
    forall i | 0 <= i < |rs| ensures p[i] == rs[i] {
      if i == 0 {
        StripUnique([], rs[i], []);
        assert [] + rs[i] + [] == f[i];
      } else {
        StripUnique([' '], rs[i], []);
        assert [' '] + rs[i] + [] == f[i];
      }
    }
  }

  /** A setting without a comma names one recipient, and the To header is
      that address alone. */
  lemma SingleRecipient(setting: string)
    requires ',' !in setting
    ensures ParseRecipients(setting) == [Strip(setting)]
    ensures JoinAddresses(ParseRecipients(setting)) == Strip(setting)
  {
  }

  // ---------------------------------------------------------------------------
  // Routing

  datatype Route = Harvest | Forward(subject: string)

  /** `subject == AVANCE_COSECHA`: exact, case-sensitive comparison. */
  function RouteSubject(cfg: Config, subject: string): (r: Route)
    ensures r == Harvest <==> subject == cfg.harvestSentinel
    ensures r.Forward? ==> r.subject == subject
  {
    if subject == cfg.harvestSentinel then Harvest else Forward(subject)
  }

  // ---------------------------------------------------------------------------
  // build_email

  /** The headers `build_email` gives the outer container, in order. */
  function EmailHeaders(sender: string, recipients: seq<string>, subject: string): seq<Header> {
    MultipartHeaders("mixed")
      + [Header("From", sender), Header("To", JoinAddresses(recipients)), Header("Subject", subject)]
  }

  /** Looking up From, To and Subject in the outer headers finds the sender,
      the joined recipients and the subject. */
  lemma EmailHeadersLookup(sender: string, recipients: seq<string>, subject: string)
    ensures var hs := EmailHeaders(sender, recipients, subject);
      && GetHeader(hs, "From") == Some(sender)
      && GetHeader(hs, "To") == Some(JoinAddresses(recipients))
      && GetHeader(hs, "Subject") == Some(subject)
  {
    var front := MultipartHeaders("mixed");
    var from := Header("From", sender);
    var to := Header("To", JoinAddresses(recipients));
    var subj := Header("Subject", subject);
    assert |"Content-Type"| == 12 && |"MIME-Version"| == 12;
    assert |"From"| == 4 && |"To"| == 2 && |"Subject"| == 7;
    GetHeaderSkip(front, [from, to, subj], "From");
    GetHeaderSkip(front + [from], [to, subj], "To");
    GetHeaderSkip(front + [from, to], [subj], "Subject");
    assert front + [from] + [to, subj] == front + [from, to, subj];
    assert front + [from, to] + [subj] == front + [from, to, subj];
  }

  /** The children of the `multipart/alternative` part: the plain body if
      given, then the HTML body if given. */
  function AlternativeParts(text: Option<string>, html: Option<string>): seq<MimePart> {
    (if text.Some? then [Text("plain", Charset, text.value)] else [])
      + (if html.Some? then [Text("html", Charset, html.value)] else [])
  }

  /** The alternative part holds a plain body exactly when one is given, and
      an HTML body exactly when one is given; plain comes first. */
  lemma AlternativePartsBodies(text: Option<string>, html: Option<string>)
    ensures var parts := AlternativeParts(text, html);
      && TextBody(parts, "plain") == text
      && TextBody(parts, "html") == html
      && |parts| == (if text.Some? then 1 else 0) + (if html.Some? then 1 else 0)
      && (text.Some? ==> parts[0] == Text("plain", Charset, text.value))
      && (html.Some? ==> parts[|parts| - 1] == Text("html", Charset, html.value))
  {
    assert |"plain"| == 5 && |"html"| == 4;
    var plain := if text.Some? then [Text("plain", Charset, text.value)] else [];
    var rich := if html.Some? then [Text("html", Charset, html.value)] else [];
    assert text.Some? ==> (plain + rich)[1..] == rich;
  }

  /** The message `build_email` produces. */
  function ComposedEmail(sender: string, recipients: seq<string>, subject: string,
                         text: Option<string>, html: Option<string>): MimePart {
    var alternative := MimePart.Multipart("alternative", MultipartHeaders("alternative"), AlternativeParts(text, html));
    MimePart.Multipart("mixed", EmailHeaders(sender, recipients, subject), [alternative])
  }

  /** The message `build_email` produces is a `multipart/mixed` container
      with From, To and Subject, holding exactly one `multipart/alternative`
      part with the plain body (if given) and then the HTML body (if given). */
  lemma ComposedEmailContents(sender: string, recipients: seq<string>, subject: string,
                              text: Option<string>, html: Option<string>)
    ensures var m := ComposedEmail(sender, recipients, subject, text, html);
      && m.Multipart? && m.subtype == "mixed"
      && GetHeader(m.headers, "From") == Some(sender)
      && GetHeader(m.headers, "To") == Some(JoinAddresses(recipients))
      && GetHeader(m.headers, "Subject") == Some(subject)
      && |m.parts| == 1 && m.parts[0].Multipart? && m.parts[0].subtype == "alternative"
      && TextBody(m.parts[0].parts, "plain") == text
      && TextBody(m.parts[0].parts, "html") == html
      && |m.parts[0].parts| == (if text.Some? then 1 else 0) + (if html.Some? then 1 else 0)
      && (text.Some? ==> m.parts[0].parts[0] == Text("plain", Charset, text.value))
  {
    EmailHeadersLookup(sender, recipients, subject);
    AlternativePartsBodies(text, html);
  }

  /** `build_email`: builds the two containers step by step. */
  method BuildEmail(cfg: Config, recipients: seq<string>, subject: string,
                    text: Option<string>, html: Option<string>) returns (m: MimePart)
    ensures m == ComposedEmail(cfg.sender, recipients, subject, text, html)
  {
    var newEmail := new MimeMultipart("mixed");
    newEmail.SetHeader("From", cfg.sender);
    newEmail.SetHeader("To", JoinAddresses(recipients));
    newEmail.SetHeader("Subject", subject);
    var msgBody := new MimeMultipart("alternative");
    if text.Some? {
      msgBody.Attach(Text("plain", Charset, text.value));
    }
    if html.Some? {
      msgBody.Attach(Text("html", Charset, html.value));
    }
    assert msgBody.parts == AlternativeParts(text, html);
    newEmail.Attach(msgBody.Value());
    assert newEmail.headers == EmailHeaders(cfg.sender, recipients, subject);
    m := newEmail.Value();
  }

  // ---------------------------------------------------------------------------
  // avance_de_cosecha

  const HarvestSubject := "Avance de cosecha"
  const ReportPrompt := "Ingresar al reporte: "

  const HtmlBeforeImage := "    <html>\n        <head></head>\n        <body>\n            <img width=\"540\" src=\""
  const HtmlBeforeUser := "\" />\n            <p>\n                <b>Usuario:</b> "
  const HtmlBeforePassword := "\n            </p>\n            <p>\n                <b>Contrase\U{221A}\U{00B1}a:</b> "
  const HtmlBeforeReport := "</br>\n            </p>\n            <p>\n                <b>\n                    <a href=\""
  const HtmlAfterReport := "\">Ingresar al reporte</a>\n                </b>\n            </p>\n        </body>\n    </html>\n    "

  predicate OccursAt(s: string, sub: string, i: nat) {
    i + |sub| <= |s| && s[i..i + |sub|] == sub
  }

  /** `x` occurs in `s + x` right after `s`. */
  lemma OccursAtEnd(s: string, x: string)
    ensures OccursAt(s + x, x, |s|)
  {
    assert (s + x)[|s|..|s| + |x|] == x;
  }

  /** An occurrence survives appending more text. */
  lemma OccursExtend(s: string, x: string, t: string)
    ensures forall i: nat :: OccursAt(s, x, i) ==> OccursAt(s + t, x, i)
  {
    forall i: nat | OccursAt(s, x, i) ensures OccursAt(s + t, x, i) {
      assert (s + t)[i..i + |x|] == s[i..i + |x|];
    }
  }

  /** A four-hole template `t0 {} t1 {} t2 {} t3 {} t4` filled with `a`, `b`, `c`, `d`. */
  function Fill(t0: string, a: string, t1: string, b: string, t2: string, c: string,
                t3: string, d: string, t4: string): string
  {
    t0 + a + t1 + b + t2 + c + t3 + d + t4
  }

  /** `a`, `b`, `c` and `d` occur in `html` where filling the template
      `t0 {} t1 {} t2 {} t3 {} ...` puts them: `a` right after `t0`, and each
      later value after the previous one and the template text between. */
  predicate FilledIn(html: string, t0: string, a: string, t1: string, b: string, t2: string, c: string,
                     t3: string, d: string)
  {
    var o1 := |t0|;
    var o2 := o1 + |a| + |t1|;
    var o3 := o2 + |b| + |t2|;
    var o4 := o3 + |c| + |t3|;
    && OccursAt(html, a, o1) && OccursAt(html, b, o2)
    && OccursAt(html, c, o3) && OccursAt(html, d, o4)
  }

  /** Filling a four-hole template puts the values where `FilledIn` says. */
  lemma FillOffsets(t0: string, a: string, t1: string, b: string, t2: string, c: string,
                    t3: string, d: string, t4: string)
    ensures FilledIn(Fill(t0, a, t1, b, t2, c, t3, d, t4), t0, a, t1, b, t2, c, t3, d)
  {
    var p0 := t0;
    var p1 := p0 + a;
    OccursAtEnd(p0, a);
    var p2 := p1 + t1;
    OccursExtend(p1, a, t1);
    var p3 := p2 + b;
    OccursExtend(p2, a, b);
    OccursAtEnd(p2, b);
    var p4 := p3 + t2;
    OccursExtend(p3, a, t2);
    OccursExtend(p3, b, t2);
    var p5 := p4 + c;
    OccursExtend(p4, a, c);
    OccursExtend(p4, b, c);
    OccursAtEnd(p4, c);
    var p6 := p5 + t3;
    OccursExtend(p5, a, t3);
    OccursExtend(p5, b, t3);
    OccursExtend(p5, c, t3);
    var p7 := p6 + d;
    OccursExtend(p6, a, d);
    OccursExtend(p6, b, d);
    OccursExtend(p6, c, d);
    OccursAtEnd(p6, d);
    var p8 := p7 + t4;
    OccursExtend(p7, a, t4);
    OccursExtend(p7, b, t4);
    OccursExtend(p7, c, t4);
    OccursExtend(p7, d, t4);
  }

  /** The harvest HTML: the image, the viewer's user and password and the
      report link, filled into the template in that order. */
  function HarvestHtml(imageUrl: string, user: string, password: string, reportUrl: string): string {
    Fill(HtmlBeforeImage, imageUrl, HtmlBeforeUser, user, HtmlBeforePassword, password,
         HtmlBeforeReport, reportUrl, HtmlAfterReport)
  }

  /** The image URL, the user, the password and the report URL sit in the
      harvest HTML where the template's holes are, in that order. */
  lemma HarvestHtmlFilled(imageUrl: string, user: string, password: string, reportUrl: string)
    ensures FilledIn(HarvestHtml(imageUrl, user, password, reportUrl), HtmlBeforeImage, imageUrl,
                     HtmlBeforeUser, user, HtmlBeforePassword, password, HtmlBeforeReport, reportUrl)
  {
    FillOffsets(HtmlBeforeImage, imageUrl, HtmlBeforeUser, user, HtmlBeforePassword, password,
                HtmlBeforeReport, reportUrl, HtmlAfterReport);
  }

  /** `"https://{}.s3.amazonaws.com/{}".format(PNG_BUCKET, key)`. */
  function ImageUrl(bucket: string, key: string): (url: string)
    ensures |url| == |bucket| + |key| + 26
    ensures url[..8] == "https://"
    ensures url[8..8 + |bucket|] == bucket
    ensures url[8 + |bucket|..|url| - |key|] == ".s3.amazonaws.com/"
    ensures url[|url| - |key|..] == key
  {
    assert |".s3.amazonaws.com/"| == 18;
    var url := "https://" + bucket + ".s3.amazonaws.com/" + key;
    assert url[8..8 + |bucket|] == bucket;
    assert url[8 + |bucket|..|url| - |key|] == ".s3.amazonaws.com/";
    url
  }

  /** For keys of one length (every storage key has 18 characters) the image
      URL names exactly one bucket and one key. */
  lemma ImageUrlInjective(bucket: string, key: string, bucket': string, key': string)
    requires |key| == |key'| && ImageUrl(bucket, key) == ImageUrl(bucket', key')
    ensures bucket == bucket' && key == key'
  {
    var url := ImageUrl(bucket, key);
    assert |bucket| == |bucket'|;
    assert bucket == url[8..8 + |bucket|] == bucket';
    assert key == url[|url| - |key|..] == key';
  }

  /** The name the harvest image must carry exactly. */
  function HarvestImageName(cfg: Config): string {
    cfg.harvestSentinel + ".png"
  }

  /** The index of the first attachment named `filename`, if there is one. */
  function FirstMatch(attachments: seq<Attachment>, filename: string): (r: Option<nat>)
    ensures r.Some? ==> r.value < |attachments| && attachments[r.value].filename == Some(filename)
    ensures r.Some? ==> forall j :: 0 <= j < r.value ==> attachments[j].filename != Some(filename)
    ensures r.None? ==> forall j :: 0 <= j < |attachments| ==> attachments[j].filename != Some(filename)
  {
    if attachments == [] then None
    else if attachments[0].filename == Some(filename) then Some(0)
    else
      match FirstMatch(attachments[1..], filename)
      case None => None
      case Some(i) => Some(i + 1)
  }

  /** The store calls the harvest composer makes: one for the first matching
      attachment, none when no attachment matches. */
  function HarvestStores(cfg: Config, attachments: seq<Attachment>, key: string): seq<Effect> {
    match FirstMatch(attachments, HarvestImageName(cfg))
    case None => []
    case Some(i) => [Put(cfg.pngBucket, key, attachments[i].payload, "image/png")]
  }

  /** The harvest report; it does not depend on the attachments: the image
      URL is embedded whether or not an image was stored. */
  function HarvestEmail(cfg: Config, key: string): MimePart {
    ComposedEmail(
      cfg.sender, ParseRecipients(cfg.harvestRecipients), HarvestSubject,
      Some(ReportPrompt + cfg.harvestReportUrl),
      Some(HarvestHtml(ImageUrl(cfg.pngBucket, key), cfg.viewerEmail, cfg.viewerPass, cfg.harvestReportUrl)))
  }

  /** The attachment loop of `avance_de_cosecha`: stores the first harvest
      image under `key` and stops. */
  method StoreHarvestImage(clients: Clients, cfg: Config, attachments: seq<Attachment>, key: string)
    modifies clients
    ensures clients.trace == old(clients.trace) + HarvestStores(cfg, attachments, key)
  {
    var i := 0;
    while i < |attachments|
      invariant 0 <= i <= |attachments|
      invariant forall j :: 0 <= j < i ==> attachments[j].filename != Some(HarvestImageName(cfg))
      invariant clients.trace == old(clients.trace)
    {
      if attachments[i].filename == Some(cfg.harvestSentinel + ".png") {
        clients.PutObject(cfg.pngBucket, key, attachments[i].payload, "image/png");
        break;
      }
      i := i + 1;
    }
  }

  /** `avance_de_cosecha`: stores the harvest image, if any, then composes
      the report. */
  method AvanceDeCosecha(clients: Clients, cfg: Config, attachments: seq<Attachment>, now: Timestamp)
    returns (out: Outgoing)
    requires Valid(now)
    modifies clients
    ensures out == Outgoing(ParseRecipients(cfg.harvestRecipients), HarvestEmail(cfg, StorageKey(now)))
    ensures clients.trace == old(clients.trace) + HarvestStores(cfg, attachments, StorageKey(now))
  {
    var recipients := ParseRecipients(cfg.harvestRecipients);
    var key := StorageKey(now);
    StoreHarvestImage(clients, cfg, attachments, key);
    var imageUrl := ImageUrl(cfg.pngBucket, key);
    var html := HarvestHtml(imageUrl, cfg.viewerEmail, cfg.viewerPass, cfg.harvestReportUrl);
    var text := ReportPrompt + cfg.harvestReportUrl;
    var message := BuildEmail(cfg, recipients, HarvestSubject, Some(text), Some(html));
    out := Outgoing(recipients, message);
  }

  // ---------------------------------------------------------------------------
  // forward_to_admin

  /** The HTML body of the stored email, or the fault that reading it raises. */
  function HtmlBody(inbound: InboundEmail): (r: Result<string, Fault>)
    ensures r.Success? <==>
      inbound.html.Some? && inbound.html.value.charset.Some? && inbound.html.value.text.Some?
    ensures r.Success? ==> r.value == inbound.html.value.text.value
    ensures r.Failure? && inbound.html.None? ==> r.error == NoHtmlBody
    ensures r.Failure? && inbound.html.Some? && inbound.html.value.charset.None? ==> r.error == NoHtmlCharset
    ensures r.Failure? && inbound.html.Some? && inbound.html.value.charset.Some? ==> r.error == Undecodable
  {
    match inbound.html
    case None => Failure(NoHtmlBody)
    case Some(part) =>
      if part.charset.None? then Failure(NoHtmlCharset)
      else if part.text.None? then Failure(Undecodable)
      else Success(part.text.value)
  }

  /** The forwarded message: same subject, no plain body, the original HTML. */
  function ForwardEmail(cfg: Config, subject: string, html: string): MimePart {
    ComposedEmail(cfg.sender, ParseRecipients(cfg.adminRecipients), subject, None, Some(html))
  }

  /** `forward_to_admin`. */
  method ForwardToAdmin(cfg: Config, inbound: InboundEmail, subject: string)
    returns (r: Result<Outgoing, Fault>)
    ensures r.Failure? <==> HtmlBody(inbound).Failure?
    ensures r.Failure? ==> r.error == HtmlBody(inbound).error
    ensures r.Success? ==>
      r.value == Outgoing(ParseRecipients(cfg.adminRecipients), ForwardEmail(cfg, subject, HtmlBody(inbound).value))
  {
    var recipients := ParseRecipients(cfg.adminRecipients);
    if inbound.html.None? {
      return Failure(NoHtmlBody);
    }
    var part := inbound.html.value;
    if part.charset.None? {
      return Failure(NoHtmlCharset);
    }
    if part.text.None? {
      return Failure(Undecodable);
    }
    var message := BuildEmail(cfg, recipients, subject, None, Some(part.text.value));
    return Success(Outgoing(recipients, message));
  }

  // ---------------------------------------------------------------------------
  // send_email

  const SentPrefix := "Email sent! Message ID: "

  /** The line `send_email` returns for the provider's answer. */
  function SendReport(outcome: SendOutcome): (r: string)
    ensures outcome.Sent? ==>
      |r| == |SentPrefix| + |outcome.messageId| && r[..|SentPrefix|] == SentPrefix && r[|SentPrefix|..] == outcome.messageId
    ensures outcome.Rejected? ==> r == outcome.message
  {
    match outcome
    case Sent(id) => SentPrefix + id
    case Rejected(message) => message
  }

  /** `send_email`: one SES call from SENDER to every recipient. */
  method SendEmail(clients: Clients, cfg: Config, recipients: seq<string>, message: MimePart, answer: SendOutcome)
    returns (report: string)
    modifies clients
    ensures clients.trace == old(clients.trace) + [Send(cfg.sender, recipients, message)]
    ensures report == SendReport(answer)
  {
    var outcome := clients.SendRawEmail(cfg.sender, recipients, message, answer);
    report := SendReport(outcome);
  }

  // ---------------------------------------------------------------------------
  // lambda_handler

  /** Which route the handler takes, or the fault that stops it first. */
  function Plan(cfg: Config, inbound: InboundEmail): (r: Result<Route, Fault>)
    ensures r.Success? <==>
      inbound.subject.Some? && (inbound.subject.value == cfg.harvestSentinel || HtmlBody(inbound).Success?)
    ensures r == Success(Harvest) <==> inbound.subject == Some(cfg.harvestSentinel)
    ensures r.Success? && r.value.Forward? ==> inbound.subject == Some(r.value.subject)
  {
    match inbound.subject
    case None => Failure(MissingSubject)
    case Some(subject) =>
      match RouteSubject(cfg, subject)
      case Harvest => Success(Harvest)
      case Forward(s) =>
        match HtmlBody(inbound)
        case Failure(f) => Failure(f)
        case Success(_) => Success(Forward(s))
  }

  /** Every call to S3 and SES one invocation makes, in order. */
  function HandlerEffects(cfg: Config, inbound: InboundEmail, now: Timestamp): seq<Effect>
    requires Valid(now)
  {
    match Plan(cfg, inbound)
    case Failure(_) => []
    case Success(Harvest) =>
      HarvestStores(cfg, inbound.attachments, StorageKey(now))
        + [Send(cfg.sender, ParseRecipients(cfg.harvestRecipients), HarvestEmail(cfg, StorageKey(now)))]
    case Success(Forward(s)) =>
      [Send(cfg.sender, ParseRecipients(cfg.adminRecipients), ForwardEmail(cfg, s, HtmlBody(inbound).value))]
  }

  /** `lambda_handler` once the stored email is fetched and parsed: routes,
      composes, sends, and returns the line it would print (or the fault). */
  method LambdaHandler(clients: Clients, cfg: Config, inbound: InboundEmail, now: Timestamp, answer: SendOutcome)
    returns (logged: Result<string, Fault>)
    requires Valid(now)
    modifies clients
    ensures clients.trace == old(clients.trace) + HandlerEffects(cfg, inbound, now)
    ensures logged.Success? <==> Plan(cfg, inbound).Success?
    ensures logged.Success? ==> logged.value == SendReport(answer)
    ensures logged.Failure? ==> logged.error == Plan(cfg, inbound).error
  {
    if inbound.subject.None? {
      return Failure(MissingSubject);
    }
    var subject := inbound.subject.value;
    var out: Outgoing;
    if subject == cfg.harvestSentinel {
      out := AvanceDeCosecha(clients, cfg, inbound.attachments, now);
    } else {
      var forwarded := ForwardToAdmin(cfg, inbound, subject);
      if forwarded.Failure? {
        return Failure(forwarded.error);
      }
      out := forwarded.value;
    }
    var report := SendEmail(clients, cfg, out.recipients, out.message, answer);
    return Success(report);
  }
}
