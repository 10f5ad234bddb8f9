/**
  What one invocation of the handler does to the outside world, stated over
  the calls it makes (`HandlerEffects`, which `Mailer.LambdaHandler` appends
  to the clients' trace).
 */
module MailerProperties {
  import opened Wrappers
  import opened Timestamps
  import opened Mime
  import opened Aws
  import opened Mailer

  /** The recipient list of a route. */
  function RouteRecipients(cfg: Config, route: Route): seq<string> {
    match route
    case Harvest => ParseRecipients(cfg.harvestRecipients)
    case Forward(_) => ParseRecipients(cfg.adminRecipients)
  }

  /** An invocation stores at most one object, and stores one exactly when it
      takes the harvest route and some attachment carries the image name. */
  lemma AtMostOneStore(cfg: Config, inbound: InboundEmail, now: Timestamp)
    requires Valid(now)
    ensures CountPuts(HandlerEffects(cfg, inbound, now)) <= 1
    ensures CountPuts(HandlerEffects(cfg, inbound, now)) == 1 <==>
      Plan(cfg, inbound) == Success(Harvest) && FirstMatch(inbound.attachments, HarvestImageName(cfg)).Some?
  {
    if Plan(cfg, inbound) == Success(Harvest) {
      var key := StorageKey(now);
      var send := Send(cfg.sender, ParseRecipients(cfg.harvestRecipients), HarvestEmail(cfg, key));
      CountAppend(HarvestStores(cfg, inbound.attachments, key), [send]);
    }
  }

  /** An invocation that gets past parsing makes exactly one send call, as its
      last call, from SENDER to the whole recipient list of its route; one
      that faults sends nothing. */
  lemma ExactlyOneSend(cfg: Config, inbound: InboundEmail, now: Timestamp)
    requires Valid(now)
    ensures
      var effects := HandlerEffects(cfg, inbound, now);
      var plan := Plan(cfg, inbound);
      && CountSends(effects) == (if plan.Success? then 1 else 0)
      && (plan.Failure? ==> effects == [])
      && (plan.Success? ==>
            && effects[|effects| - 1].Send?
            && effects[|effects| - 1].source == cfg.sender
            && effects[|effects| - 1].destinations == RouteRecipients(cfg, plan.value))
  {
    if Plan(cfg, inbound) == Success(Harvest) {
      var key := StorageKey(now);
      var stores := HarvestStores(cfg, inbound.attachments, key);
      var send := Send(cfg.sender, ParseRecipients(cfg.harvestRecipients), HarvestEmail(cfg, key));
      CountAppend(stores, [send]);
      assert CountSends(stores) == 0;
    }
  }

  /** The stored bytes are those of the first attachment named
      `AVANCE_COSECHA + ".png"`; later attachments with that name are ignored. */
  lemma StoredImageIsFirstMatch(cfg: Config, inbound: InboundEmail, now: Timestamp, i: nat)
    requires Valid(now)
    requires inbound.subject == Some(cfg.harvestSentinel)
    requires i < |inbound.attachments| && inbound.attachments[i].filename == Some(HarvestImageName(cfg))
    requires forall j :: 0 <= j < i ==> inbound.attachments[j].filename != Some(HarvestImageName(cfg))
    ensures
      var effects := HandlerEffects(cfg, inbound, now);
      |effects| == 2 && effects[0] == Put(cfg.pngBucket, StorageKey(now), inbound.attachments[i].payload, "image/png")
  {
    var m := FirstMatch(inbound.attachments, HarvestImageName(cfg));
    assert m.Some?;
    assert m.value == i;
  }

  /** The harvest report has the fixed subject, the report prompt as its
      plain body, and an HTML body that embeds the image URL built from the
      key, the viewer's user and password and the report link, in that
      order. None of this depends on the attachments: the URL is embedded
      even when nothing was stored. */
  lemma HarvestMessageContents(cfg: Config, inbound: InboundEmail, now: Timestamp)
    requires Valid(now)
    requires inbound.subject == Some(cfg.harvestSentinel)
    ensures
      var effects := HandlerEffects(cfg, inbound, now);
      var m := effects[|effects| - 1].message;
      var alternative := m.parts[0].parts;
      var url := ImageUrl(cfg.pngBucket, StorageKey(now));
      var html := HarvestHtml(url, cfg.viewerEmail, cfg.viewerPass, cfg.harvestReportUrl);
      && effects[|effects| - 1].Send?
      && GetHeader(m.headers, "Subject") == Some("Avance de cosecha")
      && GetHeader(m.headers, "To") == Some(JoinAddresses(ParseRecipients(cfg.harvestRecipients)))
      && TextBody(alternative, "plain") == Some("Ingresar al reporte: " + cfg.harvestReportUrl)
      && TextBody(alternative, "html") == Some(html)
      && OccursAt(html, url, |HtmlBeforeImage|)
      && url[8..8 + |cfg.pngBucket|] == cfg.pngBucket
      && url[|url| - 18..] == StorageKey(now)
  {
    var key := StorageKey(now);
    var url := ImageUrl(cfg.pngBucket, key);
    var html := HarvestHtml(url, cfg.viewerEmail, cfg.viewerPass, cfg.harvestReportUrl);
    ComposedEmailContents(cfg.sender, ParseRecipients(cfg.harvestRecipients), HarvestSubject,
                          Some(ReportPrompt + cfg.harvestReportUrl), Some(html));
    HarvestHtmlFilled(url, cfg.viewerEmail, cfg.viewerPass, cfg.harvestReportUrl);
  }

  /** A subject other than the sentinel is forwarded to the admins under that
      same subject, with no plain body and the original HTML as its HTML. */
  lemma ForwardPreservesSubject(cfg: Config, inbound: InboundEmail, now: Timestamp)
    requires Valid(now)
    requires inbound.subject.Some? && inbound.subject.value != cfg.harvestSentinel
    requires inbound.html.Some? && inbound.html.value.charset.Some? && inbound.html.value.text.Some?
    ensures
      var effects := HandlerEffects(cfg, inbound, now);
      && |effects| == 1 && effects[0].Send?
      && effects[0].destinations == ParseRecipients(cfg.adminRecipients)
      && GetHeader(effects[0].message.headers, "Subject") == inbound.subject
      && TextBody(effects[0].message.parts[0].parts, "plain") == None
      && TextBody(effects[0].message.parts[0].parts, "html") == Some(inbound.html.value.text.value)
  {
    ComposedEmailContents(cfg.sender, ParseRecipients(cfg.adminRecipients), inbound.subject.value,
                          None, Some(inbound.html.value.text.value));
  }

  /** A subject that differs from the sentinel only in letter case is not the
      harvest report: it is forwarded with its own spelling. */
  lemma RoutingIsCaseSensitive(cfg: Config)
    requires cfg.harvestSentinel == "Avance de cosecha"
    ensures RouteSubject(cfg, "avance de cosecha") == Forward("avance de cosecha")
  {
    assert "avance de cosecha"[0] != "Avance de cosecha"[0];
  }
}
