/**
 * The three alert builders of the collector: the blind-XSS report built
 * from the fields the payload sends back, the out-of-band callback report
 * built from a request's headers, and the free-text message alert.
 * Alerts are Slack markdown; no field value is escaped on its way in.
 */
module Alerts {
  import opened Wrappers
  import opened Records

  const ScreenshotKey := "Screenshot"
  const DomKey := "DOM"
  const RemoteIpKey := "Remote IP"

  /** The strings of `ss` joined end to end. */
  function Concat(ss: seq<string>): (r: string)
    ensures ss == [] ==> r == ""
    ensures forall i :: 0 <= i < |ss| ==> |ss[i]| <= |r|
  {
    if ss == [] then "" else Concat(ss[..|ss| - 1]) + ss[|ss| - 1]
  }

  /** `f` applied to each element of `xs`, the results joined in order. */
  function Join<T>(xs: seq<T>, f: T -> string): string {
    if xs == [] then "" else Join(xs[..|xs| - 1], f) + f(xs[|xs| - 1])
  }

  lemma JoinSnoc<T>(xs: seq<T>, x: T, f: T -> string)
    ensures Join(xs + [x], f) == Join(xs, f) + f(x)
  {
    assert (xs + [x])[..|xs|] == xs;
  }

  lemma {:induction false} JoinAppend<T>(a: seq<T>, b: seq<T>, f: T -> string)
    ensures Join(a + b, f) == Join(a, f) + Join(b, f)
    decreases |b|
  {
    if b == [] {
      assert a + b == a;
    } else {
      var b' := b[..|b| - 1];
      var x := b[|b| - 1];
      assert a + b == (a + b') + [x];
      assert b == b' + [x];
      JoinAppend(a, b', f);
      JoinSnoc(a + b', x, f);
      JoinSnoc(b', x, f);
    }
  }

  lemma {:induction false} ConcatAppend(a: seq<string>, b: seq<string>)
    ensures Concat(a + b) == Concat(a) + Concat(b)
    decreases |b|
  {
    if b == [] {
      assert a + b == a;
    } else {
      var b' := b[..|b| - 1];
      assert (a + b)[..|a + b| - 1] == a + b';
      ConcatAppend(a, b');
    }
  }

  // ---------------------------------------------------------------------
  // Blind XSS alert
  // ---------------------------------------------------------------------

  const BlindHeader := "*XSSless: Blind XSS Alert*\n"

  /** The `DOM` field is padded with blank lines and the word `hello`. */
  function DomWrap(v: string): (w: string)
    ensures |w| == |v| + 10
    ensures w[..8] == "\n\nhello " && w[|w| - 2..] == "\n\n"
    ensures w[8..|w| - 2] == v
  {
    "\n\nhello " + v + "\n\n"
  }

  /** The value a field holds once the builder has rewritten `DOM`. */
  function Prepared(k: string, v: string): string {
    if k == DomKey then DomWrap(v) else v
  }

  /** The body after the builder's in-place rewrite of its `DOM` field. */
  function RewriteDom(body: Record): (r: Record)
    ensures |r| == |body|
    ensures forall i :: 0 <= i < |body| ==> r[i] == (body[i].0, Prepared(body[i].0, body[i].1))
  {
    if body == [] then []
    else
      var last := body[|body| - 1];
      RewriteDom(body[..|body| - 1]) + [(last.0, Prepared(last.0, last.1))]
  }

  /** The fields that are reported: all but the one named `Screenshot`. */
  function Visible(fields: Record): (r: Record)
    ensures |r| <= |fields|
    ensures forall f :: f in r <==> f in fields && f.0 != ScreenshotKey
  {
    if fields == [] then []
    else
      var init := fields[..|fields| - 1];
      var last := fields[|fields| - 1];
      assert fields == init + [last];
      if last.0 == ScreenshotKey then Visible(init) else Visible(init) + [last]
  }

  /** Filtering keeps the order of the fields: it distributes over concatenation. */
  lemma {:induction false} VisibleAppend(a: Record, b: Record)
    ensures Visible(a + b) == Visible(a) + Visible(b)
    decreases |b|
  {
    if b == [] {
      assert a + b == a;
    } else {
      var b' := b[..|b| - 1];
      var last := b[|b| - 1];
      assert (a + b)[..|a + b| - 1] == a + b';
      assert (a + b)[|a + b| - 1] == last;
      VisibleAppend(a, b');
    }
  }

  /** One field as it appears in the alert; an empty value shows as `None`. */
  function RenderField(k: string, v: string): string {
    if v == "" then "*" + k + ":* `None`\n" else "*" + k + ":* \n`" + v + "`\n"
  }

  /** Each field rendered on its own, in order. */
  function RenderAll(fields: Record): (r: seq<string>)
    ensures |r| == |fields|
    ensures forall i :: 0 <= i < |fields| ==> r[i] == RenderField(fields[i].0, fields[i].1)
  {
    if fields == [] then []
    else
      var last := fields[|fields| - 1];
      RenderAll(fields[..|fields| - 1]) + [RenderField(last.0, last.1)]
  }

  /** What one field adds: nothing for `Screenshot`, its rendering otherwise. */
  function Entry(f: Field): string {
    if f.0 == ScreenshotKey then "" else RenderField(f.0, Prepared(f.0, f.1))
  }

  /** What the fields of `body` add to the alert after its header. */
  function FieldsText(body: Record): string {
    Join(body, Entry)
  }

  /** The text `generate_blind_xss_alert` returns for `body`. */
  function BlindXssAlert(body: Record): (alert: string)
    ensures BlindHeader <= alert
    ensures body == [] ==> alert == BlindHeader
  {
    BlindHeader + FieldsText(body)
  }

  /** Adding a field at the end adds exactly that field's entry at the end. */
  lemma FieldsTextSnoc(a: Record, f: Field)
    ensures FieldsText(a + [f]) == FieldsText(a) + Entry(f)
  {
    JoinSnoc(a, f, Entry);
  }

  /** The fields' text of a concatenation is the concatenation of their texts. */
  lemma FieldsTextAppend(a: Record, b: Record)
    ensures FieldsText(a + b) == FieldsText(a) + FieldsText(b)
  {
    JoinAppend(a, b, Entry);
  }

  /**
   * `generate_blind_xss_alert` as the source writes it: a loop over the
   * keys that skips `Screenshot`, rewrites `DOM` in place and appends one
   * rendered entry per field. It returns the alert and the rewritten body.
   */
  method GenerateBlindXssAlert(body: Record) returns (alert: string, updated: Record)
    ensures alert == BlindXssAlert(body)
    ensures updated == RewriteDom(body)
  {
    alert := BlindHeader;
    updated := body;
    var i := 0;
    while i < |body|
      invariant 0 <= i <= |body|
      invariant |updated| == |body|
      invariant forall j :: 0 <= j < i ==> updated[j] == (body[j].0, Prepared(body[j].0, body[j].1))
      invariant forall j :: i <= j < |body| ==> updated[j] == body[j]
      invariant alert == BlindHeader + FieldsText(body[..i])
    {
      var k := body[i].0;
      ghost var prev := alert;
      if k != ScreenshotKey {
        if k == DomKey {
          updated := updated[i := (k, DomWrap(updated[i].1))];
        }
        var v := updated[i].1;
        assert v == Prepared(k, body[i].1);
        if v == "" {
          alert := alert + ("*" + k + ":* `None`\n");
        } else {
          alert := alert + ("*" + k + ":* \n`" + v + "`\n");
        }
        assert alert == prev + RenderField(k, v);
      }
      assert alert == prev + Entry(body[i]);
      FieldsTextSnoc(body[..i], body[i]);
      assert body[..i + 1] == body[..i] + [body[i]];
      i := i + 1;
    }
    assert body[..i] == body;
  }

  /** `Concat` of a sequence grown by one string grows by that string. */
  lemma ConcatSnoc(ss: seq<string>, s: string)
    ensures Concat(ss + [s]) == Concat(ss) + s
  {
    assert (ss + [s])[..|ss|] == ss;
  }

  /** The fields' text is their rewritten, visible entries joined in order. */
  lemma {:induction false} FieldsTextIsEntries(body: Record)
    ensures FieldsText(body) == Concat(RenderAll(RewriteDom(Visible(body))))
  {
    if body != [] {
      var init := body[..|body| - 1];
      var last := body[|body| - 1];
      assert body == init + [last];
      FieldsTextIsEntries(init);
      if last.0 != ScreenshotKey {
        var v := Visible(init);
        var pl := (last.0, Prepared(last.0, last.1));
        assert (v + [last])[..|v|] == v;
        assert Visible(body) == v + [last];
        assert RewriteDom(v + [last]) == RewriteDom(v) + [pl];
        var w := RewriteDom(v) + [pl];
        assert w[..|w| - 1] == RewriteDom(v);
        assert RenderAll(w) == RenderAll(RewriteDom(v)) + [Entry(last)];
        ConcatSnoc(RenderAll(RewriteDom(v)), Entry(last));
      }
    }
  }

  /**
   * The alert is the header followed by one entry per non-`Screenshot`
   * field, in the record's order.
   */
  lemma BlindAlertEntries(body: Record)
    ensures var vis := Visible(body);
            var entries := RenderAll(RewriteDom(vis));
            && BlindXssAlert(body) == BlindHeader + Concat(entries)
            && |entries| == |vis|
            && forall i :: 0 <= i < |vis| ==> entries[i] == Entry(vis[i])
  {
    FieldsTextIsEntries(body);
  }

  /** In a record without repeated keys, exactly one field is dropped if `Screenshot` is present. */
  lemma {:induction false} VisibleCount(body: Record)
    requires UniqueKeys(body)
    ensures |Visible(body)| == if HasKey(body, ScreenshotKey) then |body| - 1 else |body|
  {
    if body != [] {
      var init := body[..|body| - 1];
      var last := body[|body| - 1];
      assert body == init + [last];
      assert UniqueKeys(init);
      VisibleCount(init);
      if last.0 == ScreenshotKey {
        forall i | 0 <= i < |init|
          ensures init[i].0 != ScreenshotKey
        {
          assert body[i].0 != body[|body| - 1].0;
        }
        assert HasKey(body, ScreenshotKey);
      } else if HasKey(body, ScreenshotKey) {
        var i :| 0 <= i < |body| && body[i].0 == ScreenshotKey;
        assert init[i] == body[i];
      }
    }
  }

  /** The `Screenshot` field adds nothing: removing it leaves the alert unchanged. */
  lemma ScreenshotContributesNothing(a: Record, v: string, b: Record)
    ensures BlindXssAlert(a + [(ScreenshotKey, v)] + b) == BlindXssAlert(a + b)
  {
    FieldsTextAppend(a + [(ScreenshotKey, v)], b);
    FieldsTextSnoc(a, (ScreenshotKey, v));
    FieldsTextAppend(a, b);
  }

  /** Any other key, however close to `Screenshot`, adds its own entry in place. */
  lemma OtherFieldRendered(a: Record, k: string, v: string, b: Record)
    requires k != ScreenshotKey
    ensures BlindXssAlert(a + [(k, v)] + b)
            == BlindXssAlert(a) + RenderField(k, Prepared(k, v)) + FieldsText(b)
    ensures |BlindXssAlert(a + [(k, v)] + b)| > |BlindXssAlert(a + b)|
  {
    FieldsTextAppend(a + [(k, v)], b);
    FieldsTextSnoc(a, (k, v));
    FieldsTextAppend(a, b);
  }

  /** Two fields added at the end add their two entries, in order. */
  lemma BlindAlertSnocTwo(body: Record, f: Field, g: Field)
    ensures BlindXssAlert(body + [f, g]) == BlindXssAlert(body) + Entry(f) + Entry(g)
  {
    assert body + [f, g] == (body + [f]) + [g];
    FieldsTextSnoc(body, f);
    FieldsTextSnoc(body + [f], g);
  }

  /** A single field's entry, as the alert shows it. */
  lemma SingleField(k: string, v: string)
    ensures BlindXssAlert([(k, v)]) == BlindHeader + Entry((k, v))
  {
    FieldsTextSnoc([], (k, v));
  }

  /** An empty value is reported as `None`, wherever its field stands. */
  lemma EmptyValueRendersNone(a: Record, k: string, b: Record)
    requires k != ScreenshotKey && k != DomKey
    ensures BlindXssAlert(a + [(k, "")] + b)
            == BlindXssAlert(a) + ("*" + k + ":* `None`\n") + FieldsText(b)
  {
    OtherFieldRendered(a, k, "", b);
  }

  /** Any other value is reported on its own line between backticks. */
  lemma ValueRendersQuoted(a: Record, k: string, v: string, b: Record)
    requires k != ScreenshotKey && k != DomKey && v != ""
    ensures BlindXssAlert(a + [(k, v)] + b)
            == BlindXssAlert(a) + ("*" + k + ":* \n`" + v + "`\n") + FieldsText(b)
  {
    OtherFieldRendered(a, k, v, b);
  }

  /** `DOM` is always wrapped, so it is never reported as `None`, even when empty. */
  lemma DomNeverNone(a: Record, v: string, b: Record)
    ensures BlindXssAlert(a + [(DomKey, v)] + b)
            == BlindXssAlert(a) + ("*DOM:* \n`" + ("\n\nhello " + v + "\n\n") + "`\n") + FieldsText(b)
  {
    OtherFieldRendered(a, DomKey, v, b);
    var w := DomWrap(v);
    assert w == "\n\nhello " + v + "\n\n";
    assert w != "" by { assert |w| == |v| + 10; }
    assert RenderField(DomKey, Prepared(DomKey, v)) == "*DOM:* \n`" + w + "`\n";
  }

  /**
   * Values are not escaped, so a backtick and a newline in one value can
   * imitate a second field: two different bodies give the same alert.
   */
  lemma BlindAlertNotInjective()
    ensures BlindXssAlert([("a", "x`\n*b:* \n`y")]) == BlindXssAlert([("a", "x"), ("b", "y")])
  {
    SingleField("a", "x`\n*b:* \n`y");
    FieldsTextSnoc([], ("a", "x"));
    FieldsTextSnoc([("a", "x")], ("b", "y"));
    assert [("a", "x")] + [("b", "y")] == [("a", "x"), ("b", "y")];
    assert Entry(("a", "x`\n*b:* \n`y")) == "*a:* \n`x`\n*b:* \n`y`\n";
    assert Entry(("a", "x")) + Entry(("b", "y")) == "*a:* \n`x`\n*b:* \n`y`\n";
  }

  // ---------------------------------------------------------------------
  // Out-of-band callback alert
  // ---------------------------------------------------------------------

  const CallbackHeader := "*XSSless: Out-of-Band Callback Alert*\n"

  /** A template literal's text for a property that may be `undefined`. */
  function JsText(o: Option<string>): (t: string)
    ensures o.Some? ==> t == o.value
    ensures o.None? ==> t == "undefined"
  {
    o.GetOr("undefined")
  }

  function IpLine(ip: string): string {
    "• *IP Address:* `" + ip + "`\n"
  }

  function UriLine(url: string): string {
    "• *Request URI:* `" + url + "`\n"
  }

  function HeaderLine(k: string, v: string): string {
    "• *" + k + ":* `" + v + "`\n"
  }

  function HeaderEntry(h: Field): string {
    HeaderLine(h.0, h.1)
  }

  /** The header lines joined in the headers' order. */
  function HeadersText(headers: Record): string {
    Join(headers, HeaderEntry)
  }

  /** The text `generate_callback_alert` returns. */
  function CallbackAlert(headers: Record, data: Record, url: string): string {
    CallbackHeader + IpLine(JsText(Lookup(data, RemoteIpKey))) + UriLine(url) + HeadersText(headers)
  }

  /**
   * `generate_callback_alert` as the source writes it: three fixed lines,
   * then a loop that appends one line per header. `data` is only read.
   */
  method GenerateCallbackAlert(headers: Record, data: Record, url: string) returns (alert: string)
    ensures alert == CallbackAlert(headers, data, url)
  {
    alert := CallbackHeader;
    alert := alert + ("• *IP Address:* `" + JsText(Lookup(data, RemoteIpKey)) + "`\n");
    alert := alert + ("• *Request URI:* `" + url + "`\n");
    ghost var pre := alert;
    var i := 0;
    while i < |headers|
      invariant 0 <= i <= |headers|
      invariant alert == pre + HeadersText(headers[..i])
    {
      assert headers[..i + 1] == headers[..i] + [headers[i]];
      JoinSnoc(headers[..i], headers[i], HeaderEntry);
      alert := alert + ("• *" + headers[i].0 + ":* `" + headers[i].1 + "`\n");
      i := i + 1;
    }
    assert headers[..i] == headers;
  }

  /** The callback alert's lines: header, IP, URI, then one per header. */
  function CallbackLines(headers: Record, data: Record, url: string): seq<string> {
    [CallbackHeader, IpLine(JsText(Lookup(data, RemoteIpKey))), UriLine(url)]
      + seq(|headers|, i requires 0 <= i < |headers| => HeaderLine(headers[i].0, headers[i].1))
  }

  lemma {:induction false} HeadersTextLines(headers: Record)
    ensures HeadersText(headers)
            == Concat(seq(|headers|, i requires 0 <= i < |headers| => HeaderLine(headers[i].0, headers[i].1)))
  {
    if headers != [] {
      var init := headers[..|headers| - 1];
      var last := headers[|headers| - 1];
      HeadersTextLines(init);
      var ls := seq(|headers|, i requires 0 <= i < |headers| => HeaderLine(headers[i].0, headers[i].1));
      var li := seq(|init|, i requires 0 <= i < |init| => HeaderLine(init[i].0, init[i].1));
      assert ls == li + [HeaderLine(last.0, last.1)];
      ConcatSnoc(li, HeaderLine(last.0, last.1));
    }
  }

  lemma ConcatThree(x: string, y: string, z: string)
    ensures Concat([x, y, z]) == x + y + z
  {
    assert [x, y, z][..2] == [x, y];
    assert [x, y][..1] == [x];
    assert [x][..0] == [];
    assert Concat([x]) == x;
    assert Concat([x, y]) == x + y;
  }

  /**
   * The callback alert has exactly 3 + |headers| lines: the header, the IP
   * line, the URI line, then one bullet per request header in order.
   */
  lemma CallbackAlertLines(headers: Record, data: Record, url: string)
    ensures var lines := CallbackLines(headers, data, url);
            && CallbackAlert(headers, data, url) == Concat(lines)
            && |lines| == 3 + |headers|
            && lines[0] == CallbackHeader
            && lines[1] == IpLine(JsText(Lookup(data, RemoteIpKey)))
            && lines[2] == UriLine(url)
            && forall i :: 0 <= i < |headers| ==> lines[3 + i] == HeaderLine(headers[i].0, headers[i].1)
  {
    var pre := [CallbackHeader, IpLine(JsText(Lookup(data, RemoteIpKey))), UriLine(url)];
    var ls := seq(|headers|, i requires 0 <= i < |headers| => HeaderLine(headers[i].0, headers[i].1));
    HeadersTextLines(headers);
    ConcatAppend(pre, ls);
    ConcatThree(pre[0], pre[1], pre[2]);
  }

  /** With no `Remote IP` in `data`, the IP line reads `undefined`. */
  lemma CallbackWithoutRemoteIp(headers: Record, data: Record, url: string)
    requires !HasKey(data, RemoteIpKey)
    ensures CallbackAlert(headers, data, url)
            == CallbackHeader + "• *IP Address:* `undefined`\n" + UriLine(url) + HeadersText(headers)
  {
  }

  // ---------------------------------------------------------------------
  // Message alert
  // ---------------------------------------------------------------------

  const MessageOpen := "*XSSless: Message Alert*\n```\n"
  const MessageClose := "\n```\n"

  /** The text `generate_message_alert` returns: `b` inside a code fence. */
  function MessageAlert(b: string): (r: string)
    ensures |r| == |MessageOpen| + |b| + |MessageClose|
    ensures MessageOpen <= r
    ensures r[|MessageOpen|..|MessageOpen| + |b|] == b
    ensures r[|MessageOpen| + |b|..] == MessageClose
  {
    "*XSSless: Message Alert*\n```\n" + b + "\n```\n"
  }

  /** Recovers the message from a message alert, if `alert` is one. */
  function ParseMessageAlert(alert: string): Option<string> {
    if |alert| >= |MessageOpen| + |MessageClose|
       && alert[..|MessageOpen|] == MessageOpen
       && alert[|alert| - |MessageClose|..] == MessageClose
    then Some(alert[|MessageOpen|..|alert| - |MessageClose|])
    else None
  }

  lemma MessageRoundTrip(b: string)
    ensures ParseMessageAlert(MessageAlert(b)) == Some(b)
  {
    var r := MessageAlert(b);
    assert r[..|MessageOpen|] == MessageOpen;
  }

  /** Every text that parses as a message alert is the alert of what it parses to. */
  lemma ParseMessageSound(alert: string)
    requires ParseMessageAlert(alert).Some?
    ensures MessageAlert(ParseMessageAlert(alert).value) == alert
  {
    var b := ParseMessageAlert(alert).value;
    assert alert == alert[..|MessageOpen|] + b + alert[|alert| - |MessageClose|..];
  }

  /** Different messages give different alerts. */
  lemma MessageAlertInjective(a: string, b: string)
    requires MessageAlert(a) == MessageAlert(b)
    ensures a == b
  {
    MessageRoundTrip(a);
    MessageRoundTrip(b);
  }
}
