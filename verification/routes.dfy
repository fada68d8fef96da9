/**
 * The decisions the route handlers make around the alert builders: the
 * enrichment of a `/c` report with `Screenshot URL` and `Remote IP`, the
 * `/health` configuration gate and probe, and the inputs of the `/` and
 * `/message` alerts. Network calls appear only through their outcome.
 */
module Routes {
  import opened Wrappers
  import opened Records
  import opened Text
  import opened Alerts

  /** JavaScript truthiness of a string property that may be `undefined`. */
  predicate Truthy(o: Option<string>) {
    o.Some? && o.value != ""
  }

  /** Process configuration: each setting may be unset. */
  datatype Config = Config(imgbbApiKey: Option<string>, slackIncomingWebhook: Option<string>)

  /**
   * What an image upload yields to its caller: either it throws (the
   * request fails or its body is not JSON) with a message, or the body
   * parses and may carry `error` and `data.url_viewer`.
   */
  datatype UploadOutcome =
    | Failed(message: string)
    | Parsed(error: Option<string>, urlViewer: Option<string>)

  const DataUrlPrefix := "data:image/png;base64,"
  const ScreenshotUrlKey := "Screenshot URL"
  const ForwardedForHeader := "x-forwarded-for"

  /** The screenshot with its first `data:image/png;base64,` removed. */
  function StripDataUrl(shot: string): (r: string)
    ensures (forall l: nat :: !OccursAt(shot, DataUrlPrefix, l)) ==> r == shot
    ensures DataUrlPrefix <= shot ==> r == shot[|DataUrlPrefix|..]
    ensures forall i: nat ::
              OccursAt(shot, DataUrlPrefix, i) && (forall l: nat :: l < i ==> !OccursAt(shot, DataUrlPrefix, l))
              ==> r == shot[..i] + shot[i + |DataUrlPrefix|..]
  {
    assert DataUrlPrefix <= shot ==> OccursAt(shot, DataUrlPrefix, 0);
    ReplaceFirst(shot, DataUrlPrefix, "")
  }

  /** Only the first occurrence is removed: a doubled prefix leaves one behind. */
  lemma StripOnlyFirst(x: string)
    ensures StripDataUrl(DataUrlPrefix + DataUrlPrefix + x) == DataUrlPrefix + x
  {
    var s := DataUrlPrefix + DataUrlPrefix + x;
    assert s[..|DataUrlPrefix|] == DataUrlPrefix;
    assert s[|DataUrlPrefix|..] == DataUrlPrefix + x;
  }

  /** An upload is attempted only with an API key and a non-empty `Screenshot`. */
  predicate UploadAttempted(config: Config, data: Record) {
    Truthy(config.imgbbApiKey) && Truthy(Lookup(data, ScreenshotKey))
  }

  /** `Screenshot URL` once an upload has been attempted. */
  function ScreenshotUrl(outcome: UploadOutcome): string {
    match outcome
    case Failed(message) => message
    case Parsed(error, urlViewer) =>
      if Truthy(error) then "NA"
      else if Truthy(urlViewer) then urlViewer.value
      else ""
  }

  /** The reporter's address: `x-forwarded-for` if set, the socket's address otherwise. */
  function RemoteIp(headers: Record, remoteAddress: string): (ip: string)
    ensures Truthy(Lookup(headers, ForwardedForHeader)) ==> ip == Lookup(headers, ForwardedForHeader).value
    ensures !Truthy(Lookup(headers, ForwardedForHeader)) ==> ip == remoteAddress
  {
    var forwarded := Lookup(headers, ForwardedForHeader);
    if Truthy(forwarded) then forwarded.value else remoteAddress
  }

  /** The screenshot-URL value the `/c` handler settles on for `data`. */
  function ScreenshotUrlFor(data: Record, config: Config, upload: string -> UploadOutcome): string {
    if UploadAttempted(config, data)
    then ScreenshotUrl(upload(StripDataUrl(Lookup(data, ScreenshotKey).value)))
    else ""
  }

  /** Setting `Screenshot URL` first does not change what the upload decision reads. */
  lemma ScreenshotUrlForFirstAssign(body: Record, config: Config, upload: string -> UploadOutcome)
    ensures ScreenshotUrlFor(Assign(body, ScreenshotUrlKey, ""), config, upload)
            == ScreenshotUrlFor(body, config, upload)
  {
    AssignOtherKeys(body, ScreenshotUrlKey, "", ScreenshotKey);
  }

  /**
   * The record after the handler's writes of `Screenshot URL`: first `""`,
   * then the upload's verdict when an upload is attempted.
   */
  function WithScreenshotUrl(body: Record, config: Config, upload: string -> UploadOutcome): Record {
    var data := Assign(body, ScreenshotUrlKey, "");
    if UploadAttempted(config, data)
    then Assign(data, ScreenshotUrlKey, ScreenshotUrlFor(data, config, upload))
    else data
  }

  lemma WithScreenshotUrlLookup(body: Record, config: Config, upload: string -> UploadOutcome, k: string)
    ensures k == ScreenshotUrlKey ==>
              Lookup(WithScreenshotUrl(body, config, upload), k) == Some(ScreenshotUrlFor(body, config, upload))
    ensures k != ScreenshotUrlKey ==>
              Lookup(WithScreenshotUrl(body, config, upload), k) == Lookup(body, k)
  {
    var data := Assign(body, ScreenshotUrlKey, "");
    ScreenshotUrlForFirstAssign(body, config, upload);
    if k != ScreenshotUrlKey {
      AssignOtherKeys(body, ScreenshotUrlKey, "", k);
      if UploadAttempted(config, data) {
        AssignOtherKeys(data, ScreenshotUrlKey, ScreenshotUrlFor(data, config, upload), k);
      }
    }
  }

  lemma WithScreenshotUrlKeys(body: Record, config: Config, upload: string -> UploadOutcome)
    ensures Keys(WithScreenshotUrl(body, config, upload))
            == Keys(body) + (if HasKey(body, ScreenshotUrlKey) then [] else [ScreenshotUrlKey])
    ensures UniqueKeys(body) ==> UniqueKeys(WithScreenshotUrl(body, config, upload))
  {
    AssignKeys(body, ScreenshotUrlKey, "");
    AssignHasKey(body, ScreenshotUrlKey, "", ScreenshotUrlKey);
  }

  lemma WithScreenshotUrlAppends(body: Record, config: Config, upload: string -> UploadOutcome)
    requires !HasKey(body, ScreenshotUrlKey)
    ensures WithScreenshotUrl(body, config, upload)
            == body + [(ScreenshotUrlKey, ScreenshotUrlFor(body, config, upload))]
  {
    var data := Assign(body, ScreenshotUrlKey, "");
    ScreenshotUrlForFirstAssign(body, config, upload);
    AssignHasKey(body, ScreenshotUrlKey, "", ScreenshotUrlKey);
    assert KeyIndex(data, ScreenshotUrlKey) == Some(|body|);
  }

  /** Setting `Remote IP` after `Screenshot URL`: the other keys keep their values. */
  lemma EnrichOtherKey(body: Record, config: Config, ip: string, upload: string -> UploadOutcome, k: string)
    requires k != ScreenshotUrlKey && k != RemoteIpKey
    ensures Lookup(Assign(WithScreenshotUrl(body, config, upload), RemoteIpKey, ip), k) == Lookup(body, k)
  {
    WithScreenshotUrlLookup(body, config, upload, k);
    AssignOtherKeys(WithScreenshotUrl(body, config, upload), RemoteIpKey, ip, k);
  }

  lemma EnrichKeys(body: Record, config: Config, ip: string, upload: string -> UploadOutcome)
    ensures var r := Assign(WithScreenshotUrl(body, config, upload), RemoteIpKey, ip);
            && Keys(r) == Keys(body)
                          + (if HasKey(body, ScreenshotUrlKey) then [] else [ScreenshotUrlKey])
                          + (if HasKey(body, RemoteIpKey) then [] else [RemoteIpKey])
            && (UniqueKeys(body) ==> UniqueKeys(r))
  {
    var d := WithScreenshotUrl(body, config, upload);
    WithScreenshotUrlKeys(body, config, upload);
    WithScreenshotUrlLookup(body, config, upload, RemoteIpKey);
    AssignKeys(d, RemoteIpKey, ip);
    assert HasKey(d, RemoteIpKey) == HasKey(body, RemoteIpKey);
  }

  lemma EnrichAppends(body: Record, config: Config, ip: string, upload: string -> UploadOutcome)
    ensures !HasKey(body, ScreenshotUrlKey) && !HasKey(body, RemoteIpKey) ==>
              Assign(WithScreenshotUrl(body, config, upload), RemoteIpKey, ip)
              == body + [(ScreenshotUrlKey, ScreenshotUrlFor(body, config, upload)), (RemoteIpKey, ip)]
  {
    if !HasKey(body, ScreenshotUrlKey) && !HasKey(body, RemoteIpKey) {
      var d := WithScreenshotUrl(body, config, upload);
      WithScreenshotUrlAppends(body, config, upload);
      WithScreenshotUrlLookup(body, config, upload, RemoteIpKey);
      assert !HasKey(d, RemoteIpKey);
    }
  }

  /**
   * The `/c` handler's record: `Screenshot URL` is settled first, then
   * `Remote IP` is set. `upload` stands for the image host and is called
   * with the stripped screenshot.
   */
  function Enrich(body: Record, config: Config, headers: Record, remoteAddress: string,
                  upload: string -> UploadOutcome): (r: Record)
    ensures Lookup(r, RemoteIpKey) == Some(RemoteIp(headers, remoteAddress))
    ensures !UploadAttempted(config, body) ==> Lookup(r, ScreenshotUrlKey) == Some("")
    ensures UploadAttempted(config, body) ==>
              var out := upload(StripDataUrl(Lookup(body, ScreenshotKey).value));
              var url := Lookup(r, ScreenshotUrlKey);
              && (out.Failed? ==> url == Some(out.message))
              && (out.Parsed? && Truthy(out.error) ==> url == Some("NA"))
              && (out.Parsed? && !Truthy(out.error) && Truthy(out.urlViewer) ==> url == out.urlViewer)
              && (out.Parsed? && !Truthy(out.error) && !Truthy(out.urlViewer) ==> url == Some(""))
    ensures forall k :: k != ScreenshotUrlKey && k != RemoteIpKey ==> Lookup(r, k) == Lookup(body, k)
    ensures Keys(r) == Keys(body)
                       + (if HasKey(body, ScreenshotUrlKey) then [] else [ScreenshotUrlKey])
                       + (if HasKey(body, RemoteIpKey) then [] else [RemoteIpKey])
    ensures !HasKey(body, ScreenshotUrlKey) && !HasKey(body, RemoteIpKey) ==>
              r == body + [(ScreenshotUrlKey, ScreenshotUrlFor(body, config, upload)),
                           (RemoteIpKey, RemoteIp(headers, remoteAddress))]
    ensures UniqueKeys(body) ==> UniqueKeys(r)
  {
    var ip := RemoteIp(headers, remoteAddress);
    WithScreenshotUrlLookup(body, config, upload, ScreenshotUrlKey);
    AssignOtherKeys(WithScreenshotUrl(body, config, upload), RemoteIpKey, ip, ScreenshotUrlKey);
    EnrichKeys(body, config, ip, upload);
    EnrichAppends(body, config, ip, upload);
    assert forall k :: k != ScreenshotUrlKey && k != RemoteIpKey ==>
             Lookup(Assign(WithScreenshotUrl(body, config, upload), RemoteIpKey, ip), k) == Lookup(body, k) by {
      forall k | k != ScreenshotUrlKey && k != RemoteIpKey
        ensures Lookup(Assign(WithScreenshotUrl(body, config, upload), RemoteIpKey, ip), k) == Lookup(body, k)
      {
        EnrichOtherKey(body, config, ip, upload, k);
      }
    }
    Assign(WithScreenshotUrl(body, config, upload), RemoteIpKey, ip)
  }

  /** Without an upload attempt the image host is never consulted. */
  lemma EnrichIgnoresUploadWhenSkipped(body: Record, config: Config, headers: Record,
                                       remoteAddress: string,
                                       upload1: string -> UploadOutcome, upload2: string -> UploadOutcome)
    requires !UploadAttempted(config, body)
    ensures Enrich(body, config, headers, remoteAddress, upload1)
            == Enrich(body, config, headers, remoteAddress, upload2)
  {
    AssignOtherKeys(body, ScreenshotUrlKey, "", ScreenshotKey);
  }

  /**
   * The alert the `/c` handler sends. For a body that does not already
   * hold the two injected keys, it is the body's own alert followed by the
   * `Screenshot URL` entry and then the `Remote IP` entry.
   */
  function CollectAlert(body: Record, config: Config, headers: Record, remoteAddress: string,
                        upload: string -> UploadOutcome): string {
    BlindXssAlert(Enrich(body, config, headers, remoteAddress, upload))
  }

  lemma CollectAlertAppendsInjectedKeys(body: Record, config: Config, headers: Record,
                                        remoteAddress: string, upload: string -> UploadOutcome)
    requires !HasKey(body, ScreenshotUrlKey) && !HasKey(body, RemoteIpKey)
    ensures CollectAlert(body, config, headers, remoteAddress, upload)
            == BlindXssAlert(body)
               + RenderField(ScreenshotUrlKey, ScreenshotUrlFor(body, config, upload))
               + RenderField(RemoteIpKey, RemoteIp(headers, remoteAddress))
  {
    var url := ScreenshotUrlFor(body, config, upload);
    var ip := RemoteIp(headers, remoteAddress);
    BlindAlertSnocTwo(body, (ScreenshotUrlKey, url), (RemoteIpKey, ip));
  }

  // ---------------------------------------------------------------------
  // /health
  // ---------------------------------------------------------------------

  /** The JSON `/health` answers with, and its HTTP status. */
  datatype HealthReport = HealthReport(status: int, imgbbApiKey: bool, slackIncomingWebhook: bool,
                                       imgbbResponse: Option<string>)

  /**
   * `/health`: 400 with the two configuration flags when either setting
   * is unset or empty; otherwise 200 with the flags and what uploading the
   * fixed reference image returned (`probe`).
   */
  function Health(config: Config, probe: UploadOutcome): (h: HealthReport)
    ensures h.imgbbApiKey == Truthy(config.imgbbApiKey)
    ensures h.slackIncomingWebhook == Truthy(config.slackIncomingWebhook)
    ensures h.status == 400 <==> !h.imgbbApiKey || !h.slackIncomingWebhook
    ensures h.status != 400 ==> h.status == 200
    ensures h.status == 400 ==> h.imgbbResponse.None?
    ensures h.status == 200 && probe.Failed? ==> h.imgbbResponse == Some(probe.message)
    ensures h.status == 200 && probe.Parsed? && Truthy(probe.error) ==> h.imgbbResponse == probe.error
    ensures h.status == 200 && probe.Parsed? && !Truthy(probe.error) && Truthy(probe.urlViewer)
            ==> h.imgbbResponse == probe.urlViewer
    ensures h.status == 200 && probe.Parsed? && !Truthy(probe.error) && !Truthy(probe.urlViewer)
            ==> h.imgbbResponse.None?
  {
    var key := Truthy(config.imgbbApiKey);
    var hook := Truthy(config.slackIncomingWebhook);
    if !key || !hook then HealthReport(400, key, hook, None)
    else
      var response := match probe
        case Failed(message) => Some(message)
        case Parsed(error, urlViewer) =>
          if Truthy(error) then error
          else if Truthy(urlViewer) then urlViewer
          else None;
      HealthReport(200, key, hook, response)
  }

  /** A failing gate answers without consulting the image host. */
  lemma HealthGateSkipsUpload(config: Config, probe1: UploadOutcome, probe2: UploadOutcome)
    requires !Truthy(config.imgbbApiKey) || !Truthy(config.slackIncomingWebhook)
    ensures Health(config, probe1) == Health(config, probe2)
  {
  }

  // ---------------------------------------------------------------------
  // /message and /
  // ---------------------------------------------------------------------

  /**
   * `/message`: the `text` query parameter when it is non-empty, otherwise
   * the body's `text` (`undefined` when absent), wrapped as a message alert.
   */
  function MessageRouteAlert(queryText: Option<string>, bodyText: Option<string>): (alert: string)
    ensures Truthy(queryText) ==> ParseMessageAlert(alert) == Some(queryText.value)
    ensures !Truthy(queryText) ==> ParseMessageAlert(alert) == Some(JsText(bodyText))
  {
    var message := if Truthy(queryText) then queryText.value else JsText(bodyText);
    MessageRoundTrip(message);
    MessageAlert(message)
  }

  /**
   * `/`: the body (an empty object when missing) gets `Remote IP`, and the
   * callback alert always shows that address.
   */
  function CallbackRouteAlert(headers: Record, body: Option<Record>, url: string,
                              remoteAddress: string): (alert: string)
    ensures alert == CallbackHeader + IpLine(RemoteIp(headers, remoteAddress)) + UriLine(url)
                     + HeadersText(headers)
  {
    var data := Assign(body.GetOr([]), RemoteIpKey, RemoteIp(headers, remoteAddress));
    CallbackAlert(headers, data, url)
  }
}
