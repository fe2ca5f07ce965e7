/**
 * The `/caption` request handler. A server holds the configured API key, the
 * caption log (the append-only file, one entry per `write`) and the outbox of
 * WhatsApp messages handed to the sender. One request either answers at once
 * (preflight, wrong key, empty caption) or logs the caption and sends up to two
 * alerts: one for a keyword and then one for a code.
 */
module CaptionServer {
  import opened Wrappers
  import opened AsciiText
  import Keywords
  import CodeScan

  /** The two methods the route accepts. */
  datatype HttpMethod = Options | Post

  /** A plain-text body, or a JSON object `{"status": ...}`. */
  datatype Body = PlainText(text: string) | Json(status: string)

  datatype Response = Response(status: nat, body: Body)

  const Preflight: Response := Response(200, PlainText(""))
  const Unauthorized: Response := Response(401, PlainText("Unauthorized"))
  const EmptyCaption: Response := Response(400, Json("empty"))
  const Accepted: Response := Response(200, Json("ok"))

  /** The log entry for a caption received at time `ts`. */
  function LogLine(ts: string, text: string): (r: string)
    ensures |r| == |ts| + |text| + 3
    ensures r[0] == '[' && r[1..|ts| + 1] == ts && r[|ts| + 1..|ts| + 3] == "] "
    ensures r[|r| - |text|..] == text
  {
    "[" + ts + "] " + text
  }

  /** The alert for a keyword, followed by the caption on a new line. */
  function KeywordAlert(kw: string, text: string): (r: string)
    ensures |r| == |kw| + |text| + 32
    ensures r[0] == '\U{26A0}' && r[1] == '\U{FE0F}'
  {
    "\U{26A0}\U{FE0F} Attendance Hint Detected: '" + kw + "'\n" + text
  }

  /** The alert for a code. */
  function CodeAlert(code: string): (r: string)
    ensures |r| == |code| + 28
    ensures r[0] == '\U{1F522}'
    ensures r[|r| - |code|..] == code
  {
    "\U{1F522} Attendance Code Detected: " + code
  }

  /** The keyword alert, if the caption has a keyword. */
  function KeywordAlerts(text: string): (r: seq<string>)
    ensures |r| <= 1
    ensures r != [] <==> Keywords.Keyword(text).Some?
    ensures r != [] ==> r[0] == KeywordAlert(Keywords.Keyword(text).value, text)
  {
    match Keywords.Keyword(text)
    case Some(kw) => [KeywordAlert(kw, text)]
    case None => []
  }

  /** The code alert, if the caption has a code. */
  function CodeAlerts(text: string): (r: seq<string>)
    ensures |r| <= 1
    ensures r != [] <==> CodeScan.FindCode(text).Some?
    ensures r != [] ==> r[0] == CodeAlert(CodeScan.FindCode(text).value)
  {
    match CodeScan.FindCode(text)
    case Some(c) => [CodeAlert(c)]
    case None => []
  }

  /** The messages a caption triggers, in the order they are sent. */
  function Alerts(text: string): (r: seq<string>)
    ensures |r| <= 2
    ensures r == [] <==> Keywords.Keyword(text).None? && CodeScan.FindCode(text).None?
  {
    KeywordAlerts(text) + CodeAlerts(text)
  }

  /** The keyword alert carries the phrase right after its fixed prefix and
      ends with the caption, after a line break. */
  lemma KeywordAlertCarries(kw: string, text: string)
    ensures KeywordAlert(kw, text)[30..30 + |kw|] == kw
    ensures KeywordAlert(kw, text)[|kw| + 31] == '\n'
    ensures KeywordAlert(kw, text)[|kw| + 32..] == text
  {
    var p := "\U{26A0}\U{FE0F} Attendance Hint Detected: '";
    assert |p| == 30;
    var r := KeywordAlert(kw, text);
    assert r == p + kw + "'\n" + text;
    assert r[30..30 + |kw|] == kw;
    assert r[|kw| + 32..] == text;
  }

  /** Different keywords give different keyword alerts. */
  lemma KeywordAlertInjective(a: string, b: string, text: string)
    requires KeywordAlert(a, text) == KeywordAlert(b, text)
    ensures a == b
  {
    KeywordAlertCarries(a, text);
    KeywordAlertCarries(b, text);
  }

  /** Different codes give different code alerts. */
  lemma CodeAlertInjective(a: string, b: string)
    requires CodeAlert(a) == CodeAlert(b)
    ensures a == b
  {
    var p := "\U{1F522} Attendance Code Detected: ";
    assert CodeAlert(a)[|p|..] == a;
    assert CodeAlert(b)[|p|..] == b;
  }

  /** A keyword alert is never a code alert: they start with different symbols. */
  lemma AlertKindsDiffer(kw: string, text: string, code: string)
    ensures KeywordAlert(kw, text) != CodeAlert(code)
  {
    assert KeywordAlert(kw, text)[0] != CodeAlert(code)[0];
  }

  /** A keyword alert is sent for exactly the keyword the detector reports, a
      code alert for exactly the code the scanner reports, and the keyword alert
      goes first. */
  lemma AlertsAreTheDetections(text: string)
    ensures forall kw :: KeywordAlert(kw, text) in Alerts(text) <==> Keywords.Keyword(text) == Some(kw)
    ensures forall c :: CodeAlert(c) in Alerts(text) <==> CodeScan.FindCode(text) == Some(c)
    ensures Keywords.Keyword(text).Some? ==> Alerts(text)[0] == KeywordAlert(Keywords.Keyword(text).value, text)
    ensures CodeScan.FindCode(text).Some? ==> Alerts(text)[|Alerts(text)| - 1] == CodeAlert(CodeScan.FindCode(text).value)
  {
    assert Alerts(text) == KeywordAlerts(text) + CodeAlerts(text);
    forall kw | KeywordAlert(kw, text) in Alerts(text)
      ensures Keywords.Keyword(text) == Some(kw)
    {
      if c :| CodeScan.FindCode(text) == Some(c) {
        AlertKindsDiffer(kw, text, c);
      }
      KeywordAlertInjective(kw, Keywords.Keyword(text).value, text);
    }
    forall c | CodeAlert(c) in Alerts(text)
      ensures CodeScan.FindCode(text) == Some(c)
    {
      if kw :| Keywords.Keyword(text) == Some(kw) {
        AlertKindsDiffer(kw, text, c);
      }
      CodeAlertInjective(c, CodeScan.FindCode(text).value);
    }
  }

  /** What one request does: its response, the entries it adds to the log and the
      messages it sends. */
  datatype Effect = Effect(response: Response, logged: seq<string>, alerts: seq<string>)

  /** The behaviour of `caption()` for a request with method `m`, `x-api-key`
      header `header` and `text` field `body` (absent when the JSON object has no
      such key), against the configured key `key`, at time `ts`. */
  function Handle(m: HttpMethod, header: Option<string>, key: Option<string>,
                  body: Option<string>, ts: string): (r: Effect)
    ensures r.logged == [] ==> r.alerts == []
  {
    if m == Options then Effect(Preflight, [], [])
    else if header != key then Effect(Unauthorized, [], [])
    else
      var text := Strip(body.GetOr(""));
      if text == [] then Effect(EmptyCaption, [], [])
      else Effect(Accepted, [LogLine(ts, text)], Alerts(text))
  }

  /** The outcomes of a request: 200 for a preflight or for an authorised
      non-blank caption, 401 for a key mismatch; a caption is logged exactly when
      it is accepted, with its stripped text, and alerts are only sent for a
      logged caption. */
  lemma HandleOutcomes(m: HttpMethod, header: Option<string>, key: Option<string>,
                       body: Option<string>, ts: string)
    ensures var e := Handle(m, header, key, body, ts);
      && (e.response.status == 200 <==> m == Options || (header == key && !AllSpace(body.GetOr(""))))
      && (e.response.status == 401 <==> m != Options && header != key)
      && (e.logged != [] <==> e.response == Accepted)
      && (e.logged != [] ==> e.logged == [LogLine(ts, Strip(body.GetOr("")))])
      && (e.alerts != [] ==> e.logged != [])
      && (e.response == Accepted ==> e.alerts == Alerts(Strip(body.GetOr(""))))
      && |e.logged| <= 1 && |e.alerts| <= 2
      && e.response in {Preflight, Unauthorized, EmptyCaption, Accepted}
  {
    StripEmptyIff(body.GetOr(""));
  }

  /** A preflight request is answered with an empty 200 and has no effect. */
  lemma PreflightHasNoEffect(header: Option<string>, key: Option<string>, body: Option<string>, ts: string)
    ensures Handle(Options, header, key, body, ts) == Effect(Response(200, PlainText("")), [], [])
  {
  }

  /** A key mismatch, including a header sent when no key is configured or a
      key configured but no header sent, is refused with no effect. */
  lemma WrongKeyHasNoEffect(header: Option<string>, key: Option<string>, body: Option<string>, ts: string)
    requires header != key
    ensures Handle(Post, header, key, body, ts) == Effect(Response(401, PlainText("Unauthorized")), [], [])
  {
  }

  /** When no key is configured, a request without the header passes the check,
      because an absent header equals an absent key. */
  lemma UnsetKeyAdmitsHeaderless(body: Option<string>, ts: string)
    requires Strip(body.GetOr("")) != []
    ensures Handle(Post, None, None, body, ts).response == Response(200, Json("ok"))
  {
  }

  /** A caption that is missing or only whitespace is refused with 400 and no effect. */
  lemma BlankCaptionHasNoEffect(header: Option<string>, body: Option<string>, ts: string)
    requires body.None? || AllSpace(body.value)
    ensures Handle(Post, header, header, body, ts) == Effect(Response(400, Json("empty")), [], [])
  {
    StripEmptyIff(body.GetOr(""));
  }

  /** The log entry carries the caption without its surrounding whitespace, and
      the caption is looked at in that same stripped form. */
  lemma LoggedCaptionIsStripped(header: Option<string>, body: string, ts: string)
    requires !AllSpace(body)
    ensures Handle(Post, header, header, Some(body), ts).logged == [LogLine(ts, Strip(body))]
    ensures Handle(Post, header, header, Some(body), ts).alerts == Alerts(Strip(body))
    ensures Strip(Strip(body)) == Strip(body)
  {
    StripEmptyIff(body);
    StripIdempotent(body);
  }

  /** The keyword in an example caption with a keyword and a code is
      "attendance", which comes before "mark your attendance" in the list. */
  lemma ExampleKeyword()
    ensures Keywords.Keyword("Please mark your attendance now, code is 4821") == Some("attendance")
  {
    var pre, kw, post := "Please mark your ", "attendance", " now, code is 4821";
    assert "Please mark your attendance now, code is 4821" == pre + kw + post;
    OccursInConcat(pre, kw, post);
    LowerKeepsLowerCaseOccurrence(kw, pre + kw + post, |pre|);
    Keywords.AttendanceWins(pre + kw + post);
  }

  /** The code in an example caption with a keyword and a code is 4821. */
  lemma ExampleCode()
    ensures CodeScan.FindCode("Please mark your attendance now, code is 4821") == Some("4821")
  {
    var words, code := "Please mark your attendance now, code is ", "4821";
    assert "Please mark your attendance now, code is 4821" == words + code;
    CodeScan.TrailingCodeIsFound(words, code);
  }

  /** An example caption with a keyword and a code has no surrounding whitespace. */
  lemma ExampleIsStripped()
    ensures Strip("Please mark your attendance now, code is 4821") == "Please mark your attendance now, code is 4821"
  {
    var front, back := "Please mark your attendance", " now, code is 4821";
    assert "Please mark your attendance now, code is 4821" == front + back;
    assert (front + back)[0] == front[0] == 'P';
    assert (front + back)[|front + back| - 1] == back[|back| - 1] == '1';
    StripOfTrimmed(front + back);
  }

  /** The alerts for a caption with both a keyword and a code: the keyword
      alert, then the code alert. */
  lemma BothAlerts(text: string, kw: string, code: string)
    requires Keywords.Keyword(text) == Some(kw) && CodeScan.FindCode(text) == Some(code)
    ensures Alerts(text) == [KeywordAlert(kw, text), CodeAlert(code)]
  {
  }

  /** An authorised caption whose stripped text has both a keyword and a code
      is logged once, stripped, and draws the keyword alert, then the code
      alert. */
  lemma KeywordAndCodeEffect(header: Option<string>, body: string, ts: string, kw: string, code: string)
    requires Strip(body) != []
    requires Keywords.Keyword(Strip(body)) == Some(kw) && CodeScan.FindCode(Strip(body)) == Some(code)
    ensures Handle(Post, header, header, Some(body), ts) ==
      Effect(Response(200, Json("ok")), [LogLine(ts, Strip(body))],
             [KeywordAlert(kw, Strip(body)), CodeAlert(code)])
  {
    BothAlerts(Strip(body), kw, code);
  }

  /** An example caption with a keyword and a code: with the right key, it is logged
      once and one keyword alert and one code alert are sent, in that order. */
  lemma ExampleKeywordAndCode(key: string, ts: string)
    ensures var text := "Please mark your attendance now, code is 4821";
      Handle(Post, Some(key), Some(key), Some(text), ts) ==
      Effect(Response(200, Json("ok")), [LogLine(ts, text)],
             [KeywordAlert("attendance", text), CodeAlert("4821")])
  {
    ExampleKeyword();
    ExampleCode();
    ExampleIsStripped();
    KeywordAndCodeEffect(Some(key), "Please mark your attendance now, code is 4821", ts, "attendance", "4821");
  }

  class Server {
    /** The `API_KEY` setting, read once at start-up. */
    const apiKey: Option<string>
    /** The entries written to the caption log, oldest first. Each entry is
        written to the file followed by a line feed; an entry whose caption has
        an inner line break spans several lines of the file. */
    var log: seq<string>
    /** Every message handed to the WhatsApp sender, oldest first. */
    var sent: seq<string>

    constructor (apiKey: Option<string>, existingLog: seq<string>)
      ensures this.apiKey == apiKey && log == existingLog && sent == []
    {
      this.apiKey := apiKey;
      log := existingLog;
      sent := [];
    }

    /** `append_log`: one more entry at the end of the log. */
    method AppendLog(entry: string)
      modifies this
      ensures log == old(log) + [entry]
      ensures sent == old(sent)
    {
      log := log + [entry];
    }

    /** `send_whatsapp`: the message is handed to the sender; a failed delivery
        is swallowed, so the call never raises to its caller. */
    method SendWhatsApp(msg: string)
      modifies this
      ensures sent == old(sent) + [msg]
      ensures log == old(log)
    {
      sent := sent + [msg];
    }

    /** Detect a keyword and send its alert, if there is one. */
    method AlertKeyword(text: string)
      modifies this
      ensures sent == old(sent) + KeywordAlerts(text)
      ensures log == old(log)
    {
      var kw := Keywords.ContainsKeyword(text);
      if kw.Some? {
        SendWhatsApp(KeywordAlert(kw.value, text));
      }
    }

    /** Search for a code and send its alert, if there is one. */
    method AlertCode(text: string)
      modifies this
      ensures sent == old(sent) + CodeAlerts(text)
      ensures log == old(log)
    {
      var code := CodeScan.FindCode(text);
      if code.Some? {
        SendWhatsApp(CodeAlert(code.value));
      }
    }

    /** The body of `caption()` after the checks: log the caption, then send
        the keyword alert and the code alert that apply. */
    method Record(text: string, ts: string)
      modifies this
      ensures log == old(log) + [LogLine(ts, text)]
      ensures sent == old(sent) + Alerts(text)
    {
      AppendLog(LogLine(ts, text));
      AlertKeyword(text);
      AlertCode(text);
    }

    /** `caption()`. */
    method Caption(m: HttpMethod, header: Option<string>, body: Option<string>, ts: string)
      returns (resp: Response)
      modifies this
      ensures resp == Handle(m, header, apiKey, body, ts).response
      ensures log == old(log) + Handle(m, header, apiKey, body, ts).logged
      ensures sent == old(sent) + Handle(m, header, apiKey, body, ts).alerts
    {
      ghost var e := Handle(m, header, apiKey, body, ts);
      if m == Options {
        assert e == Effect(Preflight, [], []);
        return Preflight;
      }
      if header != apiKey {
        assert e == Effect(Unauthorized, [], []);
        return Unauthorized;
      }
      var text := Strip(body.GetOr(""));
      if text == [] {
        assert e == Effect(EmptyCaption, [], []);
        return EmptyCaption;
      }
      assert e == Effect(Accepted, [LogLine(ts, text)], Alerts(text));
      Record(text, ts);
      return Accepted;
    }
  }
}
