/** The scheduled entry point of the daily job (`handler`): the start-time
    guard, configuration loading, and the strictly sequential loop that
    builds and posts one message per configured site. JSON parsing,
    `Date.parse`, the analytics client and the HTTPS post are function values
    in `Services`; the clock is passed in; what was posted is returned as a
    log. */
module DailyJob {
  import opened Wrappers
  import opened Text
  import opened Env
  import opened Calendar
  import opened SearchAnalytics
  import opened Report

  const StartAtVar := "START_AT_UTC"
  const SitesVar := "SITES_URLS"
  const CredentialVar := "GOOGLE_SERVICE_ACCOUNT_JSON"
  const TokenVar := "TELEGRAM_BOT_TOKEN"
  const ChatVar := "TELEGRAM_CHAT_ID"
  const TopLimit: nat := 10

  /** The JSON body posted to the bot API, with the URL it is posted to. */
  datatype SendRequest = SendRequest(
    url: string,
    chatId: string,
    text: string,
    parseMode: string,
    disableWebPagePreview: bool)

  datatype HttpReply = HttpReply(status: nat, body: string)

  /** What `JSON.parse` of the site list gives, as seen by `for…of`: the
      site URLs of an iterable value, or the `TypeError` message the loop
      throws for a value it cannot iterate (an object, a number, `null`). */
  datatype SiteList = Iterable(urls: seq<string>) | NotIterable(message: string)

  /** The code the job calls but that is not part of this model. */
  datatype Services = Services(
    parseTime: string -> Option<int>,             // Date.parse; None stands for NaN
    parseSites: string -> Result<SiteList>,       // JSON.parse of the site list
    parseCredential: string -> Result<Credential>, // JSON.parse of the service account
    api: SearchApi,                               // searchanalytics.query
    post: SendRequest -> Result<HttpReply>,       // fetch; Err for a network failure
    fmt: FloatFormat)                             // fmtPct and fmtPos

  /** How `handler` ends: it returns (nothing) or throws an error. */
  datatype Outcome = Returned | Threw(message: string)

  /** How a run ended and every request it posted, in order. */
  datatype Trace = Trace(outcome: Outcome, sent: seq<SendRequest>)

  function Prepend(prefix: seq<SendRequest>, t: Trace): Trace
  {
    Trace(t.outcome, prefix + t.sent)
  }

  lemma PrependPrepend(a: seq<SendRequest>, b: seq<SendRequest>, t: Trace)
    ensures Prepend(a + b, t) == Prepend(a, Prepend(b, t))
  {
    assert a + b + t.sent == a + (b + t.sent);
  }

  /** `Date.now() < Date.parse(startAtUtc)`: a start time that does not parse
      (NaN) never holds the run back. */
  function NotYetDue(parseTime: string -> Option<int>, startAt: string, nowMs: int): bool
  {
    match parseTime(startAt)
    case None => false
    case Some(t) => nowMs < t
  }

  /** The four queries of one site, in the order of the source, and the
      message built from them; the first failing query ends it. */
  function SiteMessage(svc: Services, cred: Credential, siteUrl: string, date: string): Result<string>
  {
    match QueryTotals(svc.api, cred, siteUrl, date, date)
    case Err(e) => Err(e)
    case Ok(totals) =>
      match QueryTop(svc.api, cred, siteUrl, date, date, "query", TopLimit)
      case Err(e) => Err(e)
      case Ok(queries) =>
        match QueryTop(svc.api, cred, siteUrl, date, date, "page", TopLimit)
        case Err(e) => Err(e)
        case Ok(pages) =>
          match QueryTop(svc.api, cred, siteUrl, date, date, "country", TopLimit)
          case Err(e) => Err(e)
          case Ok(countries) => Ok(DailyMessage(siteUrl, date, totals, queries, pages, countries, svc.fmt))
  }

  function BotUrl(token: string): string
  {
    "https://api.telegram.org/bot" + token + "/sendMessage"
  }

  /** The request `telegramSend(text)` posts; the bot token and chat id are
      read, in that order, at every send. */
  function TelegramRequest(env: Environment, text: string): (r: Result<SendRequest>)
  {
    match MustGetEnv(env, TokenVar)
    case Err(e) => Err(e)
    case Ok(token) =>
      match MustGetEnv(env, ChatVar)
      case Err(e) => Err(e)
      case Ok(chatId) => Ok(SendRequest(BotUrl(token), chatId, text, "HTML", true))
  }

  /** `res.ok`: a status from 200 to 299. */
  predicate Accepted(reply: HttpReply)
  {
    200 <= reply.status <= 299
  }

  /** The outcome of one post: a network failure or a rejected reply throws. */
  function Delivery(reply: Result<HttpReply>): (o: Outcome)
    ensures o == Returned <==> reply.Ok? && Accepted(reply.value)
  {
    match reply
    case Err(e) => Threw(e)
    case Ok(r) =>
      if Accepted(r) then Returned
      else Threw("Telegram send failed: " + NatToString(r.status) + " " + r.body)
  }

  /** The request prepared for one site, before it is posted. */
  function PreparedRequest(env: Environment, svc: Services, cred: Credential, siteUrl: string, date: string): Result<SendRequest>
  {
    match SiteMessage(svc, cred, siteUrl, date)
    case Err(e) => Err(e)
    case Ok(text) => TelegramRequest(env, text)
  }

  /** The request preparation of one site, as a function of the site URL. */
  function Preparer(env: Environment, svc: Services, cred: Credential, date: string): string -> Result<SendRequest>
  {
    siteUrl => PreparedRequest(env, svc, cred, siteUrl, date)
  }

  /** The `for…of` loop: sites in list order, each prepared and posted; the
      first failure ends the run. */
  function SendReports(prepare: string -> Result<SendRequest>, post: SendRequest -> Result<HttpReply>,
                       sites: seq<string>): Trace
    decreases |sites|
  {
    if sites == [] then Trace(Returned, [])
    else
      match prepare(sites[0])
      case Err(e) => Trace(Threw(e), [])
      case Ok(req) =>
        match Delivery(post(req))
        case Threw(e) => Trace(Threw(e), [req])
        case Returned => Prepend([req], SendReports(prepare, post, sites[1..]))
  }

  /** One turn of the loop: the run over `sites[i..]` in terms of the run
      over `sites[i + 1..]`. */
  lemma SendReportsStep(prepare: string -> Result<SendRequest>, post: SendRequest -> Result<HttpReply>,
                        sites: seq<string>, i: nat)
    requires i < |sites|
    ensures SendReports(prepare, post, sites[i..])
         == match prepare(sites[i])
            case Err(e) => Trace(Threw(e), [])
            case Ok(req) =>
              match Delivery(post(req))
              case Threw(e) => Trace(Threw(e), [req])
              case Returned => Prepend([req], SendReports(prepare, post, sites[i + 1..]))
  {
    assert sites[i..][0] == sites[i] && sites[i..][1..] == sites[i + 1..];
  }

  lemma PreparerApply(env: Environment, svc: Services, cred: Credential, date: string, siteUrl: string)
    ensures Preparer(env, svc, cred, date)(siteUrl) == PreparedRequest(env, svc, cred, siteUrl, date)
  {
  }

  /** The whole handler as a function of its inputs. */
  function DailyRun(env: Environment, svc: Services, nowMs: int, today: Date): Trace
    requires ValidDate(today) && FourDigitYear(Yesterday(today))
  {
    match MustGetEnv(env, StartAtVar)
    case Err(e) => Trace(Threw(e), [])
    case Ok(startAt) =>
      if NotYetDue(svc.parseTime, startAt, nowMs) then Trace(Returned, [])
      else
        match MustGetEnv(env, SitesVar)
        case Err(e) => Trace(Threw(e), [])
        case Ok(rawSites) =>
          match svc.parseSites(rawSites)
          case Err(e) => Trace(Threw(e), [])
          case Ok(sites) =>
            match MustGetEnv(env, CredentialVar)
            case Err(e) => Trace(Threw(e), [])
            case Ok(rawCred) =>
              match svc.parseCredential(rawCred)
              case Err(e) => Trace(Threw(e), [])
              case Ok(cred) =>
                match sites
                case NotIterable(e) => Trace(Threw(e), [])
                case Iterable(urls) => SendReports(Preparer(env, svc, cred, ReportDate(today)), svc.post, urls)
  }

  /** The loop body up to the message: four awaited queries in order, the
      first failure propagated. */
  method BuildMessage(svc: Services, cred: Credential, siteUrl: string, date: string)
    returns (text: Result<string>)
    ensures text == SiteMessage(svc, cred, siteUrl, date)
  {
    var totals := QueryTotals(svc.api, cred, siteUrl, date, date);
    if totals.Err? {
      return Err(totals.message);
    }
    var queries := QueryTop(svc.api, cred, siteUrl, date, date, "query", TopLimit);
    if queries.Err? {
      return Err(queries.message);
    }
    var pages := QueryTop(svc.api, cred, siteUrl, date, date, "page", TopLimit);
    if pages.Err? {
      return Err(pages.message);
    }
    var countries := QueryTop(svc.api, cred, siteUrl, date, date, "country", TopLimit);
    if countries.Err? {
      return Err(countries.message);
    }
    text := Ok(DailyMessage(siteUrl, date, totals.value, queries.value, pages.value, countries.value, svc.fmt));
  }

  /** `handler`: returns early before the start time, then posts one message
      per site in list order. `nowMs` is the reading of `Date.now()` and
      `today` the UTC date of `new Date()`. */
  method Handler(env: Environment, svc: Services, nowMs: int, today: Date)
    returns (outcome: Outcome, sent: seq<SendRequest>)
    requires ValidDate(today) && FourDigitYear(Yesterday(today))
    ensures Trace(outcome, sent) == DailyRun(env, svc, nowMs, today)
  {
    sent := [];
    var startAt := MustGetEnv(env, StartAtVar);
    if startAt.Err? {
      return Threw(startAt.message), sent;
    }
    if NotYetDue(svc.parseTime, startAt.value, nowMs) {
      return Returned, sent;
    }
    var rawSites := MustGetEnv(env, SitesVar);
    if rawSites.Err? {
      return Threw(rawSites.message), sent;
    }
    var sites := svc.parseSites(rawSites.value);
    if sites.Err? {
      return Threw(sites.message), sent;
    }
    var rawCred := MustGetEnv(env, CredentialVar);
    if rawCred.Err? {
      return Threw(rawCred.message), sent;
    }
    var cred := svc.parseCredential(rawCred.value);
    if cred.Err? {
      return Threw(cred.message), sent;
    }
    if sites.value.NotIterable? {
      return Threw(sites.value.message), sent;
    }
    outcome, sent := SendAll(env, svc, cred.value, ReportDate(today), sites.value.urls);
  }

  /** One site up to the post: its message, then the request carrying it. */
  method PrepareSite(env: Environment, svc: Services, cred: Credential, siteUrl: string, date: string)
    returns (req: Result<SendRequest>)
    ensures req == PreparedRequest(env, svc, cred, siteUrl, date)
  {
    var text := BuildMessage(svc, cred, siteUrl, date);
    if text.Err? {
      return Err(text.message);
    }
    req := TelegramRequest(env, text.value);
  }

  /** The `for…of` loop over the sites, in list order; the first failure
      ends it. */
  method SendAll(env: Environment, svc: Services, cred: Credential, date: string, sites: seq<string>)
    returns (outcome: Outcome, sent: seq<SendRequest>)
    ensures Trace(outcome, sent) == SendReports(Preparer(env, svc, cred, date), svc.post, sites)
  {
    sent := [];
    ghost var prepare := Preparer(env, svc, cred, date);
    ghost var all := SendReports(prepare, svc.post, sites);
    var i := 0;
    while i < |sites|
      invariant 0 <= i <= |sites|
      invariant all == Prepend(sent, SendReports(prepare, svc.post, sites[i..]))
    {
      var siteUrl := sites[i];
      SendReportsStep(prepare, svc.post, sites, i);
      var req := PrepareSite(env, svc, cred, siteUrl, date);
      PreparerApply(env, svc, cred, date, siteUrl);
      if req.Err? {
        return Threw(req.message), sent;
      }
      PrependPrepend(sent, [req.value], SendReports(prepare, svc.post, sites[i + 1..]));
      sent := sent + [req.value];
      var delivered := Delivery(svc.post(req.value));
      if delivered.Threw? {
        return delivered, sent;
      }
      i := i + 1;
    }
    assert sites[i..] == [];
    outcome := Returned;
  }

  /** Before the configured start time the run returns without posting. */
  lemma GuardSendsNothing(env: Environment, svc: Services, nowMs: int, today: Date)
    requires ValidDate(today) && FourDigitYear(Yesterday(today))
    requires StartAtVar in env && env[StartAtVar] != ""
    requires svc.parseTime(env[StartAtVar]).Some? && nowMs < svc.parseTime(env[StartAtVar]).value
    ensures DailyRun(env, svc, nowMs, today) == Trace(Returned, [])
  {
  }

  /** Past the guard, a configuration error throws before anything is posted;
      a complete configuration runs the site loop on the report date. */
  lemma DailyRunConfiguration(env: Environment, svc: Services, nowMs: int, today: Date)
    requires ValidDate(today) && FourDigitYear(Yesterday(today))
    requires MustGetEnv(env, StartAtVar).Ok?
    requires !NotYetDue(svc.parseTime, env[StartAtVar], nowMs)
    ensures var t := DailyRun(env, svc, nowMs, today);
      if MustGetEnv(env, SitesVar).Ok? && svc.parseSites(env[SitesVar]).Ok?
         && MustGetEnv(env, CredentialVar).Ok? && svc.parseCredential(env[CredentialVar]).Ok?
         && svc.parseSites(env[SitesVar]).value.Iterable?
      then t == SendReports(Preparer(env, svc, svc.parseCredential(env[CredentialVar]).value, ReportDate(today)),
                            svc.post, svc.parseSites(env[SitesVar]).value.urls)
      else t.outcome.Threw? && t.sent == []
  {
  }

  /** A site list that parses but cannot be iterated fails only at the loop,
      after the credential has been read and parsed: a credential error is
      reported first. */
  lemma DailyRunNotIterable(env: Environment, svc: Services, nowMs: int, today: Date, m: string)
    requires ValidDate(today) && FourDigitYear(Yesterday(today))
    requires MustGetEnv(env, StartAtVar).Ok?
    requires !NotYetDue(svc.parseTime, env[StartAtVar], nowMs)
    requires MustGetEnv(env, SitesVar).Ok? && svc.parseSites(env[SitesVar]) == Ok(NotIterable(m))
    ensures DailyRun(env, svc, nowMs, today)
         == Trace(Threw(if MustGetEnv(env, CredentialVar).Err? then MustGetEnv(env, CredentialVar).message
                        else if svc.parseCredential(env[CredentialVar]).Err?
                        then svc.parseCredential(env[CredentialVar]).message
                        else m), [])
  {
  }

  /** Every post in `reqs` was accepted. */
  predicate AllDelivered(post: SendRequest -> Result<HttpReply>, reqs: seq<SendRequest>)
  {
    forall i :: 0 <= i < |reqs| ==> Delivery(post(reqs[i])) == Returned
  }

  /** What the site loop posts: for the first `|sent|` sites, in list order,
      exactly the request prepared for that site, and every post but the last
      was accepted. */
  lemma {:induction false} SendReportsInOrder(prepare: string -> Result<SendRequest>, post: SendRequest -> Result<HttpReply>, sites: seq<string>)
    ensures var t := SendReports(prepare, post, sites);
      && |t.sent| <= |sites|
      && (forall i :: 0 <= i < |t.sent| ==> prepare(sites[i]) == Ok(t.sent[i]))
      && (|t.sent| > 0 ==> AllDelivered(post, t.sent[..|t.sent| - 1]))
  {
    if sites != [] && prepare(sites[0]).Ok? {
      var req := prepare(sites[0]).value;
      if Delivery(post(req)) == Returned {
        SendReportsInOrder(prepare, post, sites[1..]);
        var rest := SendReports(prepare, post, sites[1..]);
        var sent := [req] + rest.sent;
        assert SendReports(prepare, post, sites).sent == sent;
        forall i | 1 <= i < |sent|
          ensures prepare(sites[i]) == Ok(sent[i])
        {
          assert sites[1..][i - 1] == sites[i];
        }
        if |rest.sent| > 0 {
          assert sent[..|sent| - 1] == [req] + rest.sent[..|rest.sent| - 1];
        }
      }
    }
  }

  /** The run returns normally exactly when every site got its message and
      every post was accepted. */
  lemma {:induction false} SendReportsReturns(prepare: string -> Result<SendRequest>, post: SendRequest -> Result<HttpReply>, sites: seq<string>)
    ensures var t := SendReports(prepare, post, sites);
      t.outcome == Returned <==> |t.sent| == |sites| && AllDelivered(post, t.sent)
  {
    if sites != [] && prepare(sites[0]).Ok? {
      var req := prepare(sites[0]).value;
      if Delivery(post(req)) == Returned {
        SendReportsReturns(prepare, post, sites[1..]);
        var rest := SendReports(prepare, post, sites[1..]);
        assert SendReports(prepare, post, sites).sent == [req] + rest.sent;
        assert AllDelivered(post, [req] + rest.sent) <==> AllDelivered(post, rest.sent) by {
          assert forall i :: 0 < i < |rest.sent| + 1 ==> ([req] + rest.sent)[i] == rest.sent[i - 1];
          if AllDelivered(post, rest.sent) {
            forall i | 0 <= i < |rest.sent| + 1
              ensures Delivery(post(([req] + rest.sent)[i])) == Returned
            {
              if i > 0 { assert Delivery(post(rest.sent[i - 1])) == Returned; }
            }
          }
          if AllDelivered(post, [req] + rest.sent) {
            forall i | 0 <= i < |rest.sent|
              ensures Delivery(post(rest.sent[i])) == Returned
            {
              assert ([req] + rest.sent)[i + 1] == rest.sent[i];
            }
          }
        }
      } else {
        assert SendReports(prepare, post, sites).sent == [req];
        assert !AllDelivered(post, [req]) by { assert [req][0] == req; }
      }
    }
  }

  /** A run that throws was stopped either by its last post or, after all
      earlier posts were accepted, by the first site whose request could not
      be prepared; the error is that of the cause. */
  lemma {:induction false} SendReportsThrows(prepare: string -> Result<SendRequest>, post: SendRequest -> Result<HttpReply>, sites: seq<string>)
    ensures var t := SendReports(prepare, post, sites);
      t.outcome.Threw? ==>
        (|t.sent| > 0 && Delivery(post(t.sent[|t.sent| - 1])) == t.outcome)
        || (|t.sent| < |sites|
            && (|t.sent| > 0 ==> Delivery(post(t.sent[|t.sent| - 1])) == Returned)
            && prepare(sites[|t.sent|]) == Err(t.outcome.message))
  {
    if sites != [] && prepare(sites[0]).Ok? {
      var req := prepare(sites[0]).value;
      if Delivery(post(req)) == Returned {
        SendReportsThrows(prepare, post, sites[1..]);
        var rest := SendReports(prepare, post, sites[1..]);
        var sent := [req] + rest.sent;
        assert SendReports(prepare, post, sites).sent == sent;
        if |rest.sent| > 0 {
          assert sent[|sent| - 1] == rest.sent[|rest.sent| - 1];
        }
        if |rest.sent| < |sites| - 1 {
          assert sites[1..][|rest.sent|] == sites[|sent|];
        }
      }
    }
  }

  /** A site's message exists exactly when its four queries for the report
      date succeed, and it is built from their answers. */
  lemma SiteMessageOk(svc: Services, cred: Credential, siteUrl: string, date: string)
    ensures var r0 := svc.api(cred, TotalsRequest(siteUrl, date, date));
      var r1 := svc.api(cred, TopRequest(siteUrl, date, date, "query", TopLimit));
      var r2 := svc.api(cred, TopRequest(siteUrl, date, date, "page", TopLimit));
      var r3 := svc.api(cred, TopRequest(siteUrl, date, date, "country", TopLimit));
      && (SiteMessage(svc, cred, siteUrl, date).Ok? <==> r0.Ok? && r1.Ok? && r2.Ok? && r3.Ok?)
      && (SiteMessage(svc, cred, siteUrl, date).Ok? ==>
            SiteMessage(svc, cred, siteUrl, date).value
            == DailyMessage(siteUrl, date, TotalsOf(r0.value), TopOf(r1.value),
                            TopOf(r2.value), TopOf(r3.value), svc.fmt))
  {
  }

  /** The post is prepared exactly when the bot token and the chat id are
      configured; it carries the text to that chat, in the HTML parse mode
      with link previews off. */
  lemma TelegramRequestContents(env: Environment, text: string)
    ensures TelegramRequest(env, text).Ok? <==> MustGetEnv(env, TokenVar).Ok? && MustGetEnv(env, ChatVar).Ok?
    ensures TelegramRequest(env, text).Ok? ==>
      TelegramRequest(env, text).value
      == SendRequest(BotUrl(env[TokenVar]), env[ChatVar], text, "HTML", true)
    ensures TelegramRequest(env, text).Err? ==>
      TelegramRequest(env, text).message
      == MissingPrefix + (if MustGetEnv(env, TokenVar).Err? then TokenVar else ChatVar)
  {
  }
}
