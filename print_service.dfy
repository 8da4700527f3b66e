/** The printing rules of src/services/printService.js: how a reply of the
    Android printer plugin is read as success, HTML escaping of ticket text,
    which print method the plugin is asked for first, the blank-ticket guard
    and the paging of long reports into blocks.  The plugin, the browser's
    print dialog and the HTML template are parameters. */
module PrintService {
  import opened JsValue
  import opened Text

  // ------------------------------------------------------------ plugin replies

  /** Replies that mean the print failed. */
  const FAILURE_WORDS: seq<string> := ["false", "0", "erro", "error", "fail", "failed"]

  /** value.trim().toLowerCase() */
  function Cleaned(s: string): string { ToLower(Trim(s)) }

  /** normalizeAndroidResult: the plugin's reply read as success or failure. */
  function AndroidOk(v: Value): (r: bool)
    ensures v.Bool? ==> r == v.b
    ensures v.Str? ==> (r <==> Cleaned(v.s) != "" && Cleaned(v.s) !in FAILURE_WORDS)
    ensures v.Obj? && Get(v, "ok").Bool? ==> r == Get(v, "ok").b
    ensures v.Obj? && !Get(v, "ok").Bool? ==> r
    ensures v.Arr? ==> r
    ensures Nullish(v) ==> !r
    ensures v.Num? ==> (r <==> v.n.Finite? && v.n.r != 0.0)
  {
    match v
    case Bool(b) => b
    case Str(s) =>
      var cleaned := Cleaned(s);
      cleaned != "" && cleaned !in FAILURE_WORDS
    case Obj(_, _) => if Get(v, "ok").Bool? then Get(v, "ok").b else true
    case _ => Truthy(v)
  }

  /** A textual reply is read the same with or without surrounding white space. */
  lemma AndroidOkIgnoresPadding(s: string)
    ensures AndroidOk(Str(Trim(s))) == AndroidOk(Str(s))
  {
    TrimIdempotent(s);
  }

  /** Every failure word fails in any letter case and with any padding;
      a reply string that cleans to anything else succeeds. */
  lemma AndroidOkWords(s: string)
    ensures Cleaned(s) in FAILURE_WORDS ==> !AndroidOk(Str(s))
    ensures Cleaned(s) != "" && Cleaned(s) !in FAILURE_WORDS ==> AndroidOk(Str(s))
  {
  }

  // ------------------------------------------------------------ HTML escaping

  /** What escapeHtml turns one character into. */
  function EscapeChar(c: char): string {
    if c == '&' then "&amp;"
    else if c == '<' then "&lt;"
    else if c == '>' then "&gt;"
    else [c]
  }

  function EscapeChars(s: string): string {
    if s == [] then "" else EscapeChar(s[0]) + EscapeChars(s[1..])
  }

  /** The three global replacements, in the source's order. */
  function ReplaceSteps(s: string): string {
    ReplaceAllChar(ReplaceAllChar(ReplaceAllChar(s, '&', "&amp;"), '<', "&lt;"), '>', "&gt;")
  }

  /** Reading the three entities back: the inverse of escaping. */
  function Unescape(s: string): string
    decreases |s|
  {
    if s == [] then ""
    else if "&amp;" <= s then "&" + Unescape(s[5..])
    else if "&lt;" <= s then "<" + Unescape(s[4..])
    else if "&gt;" <= s then ">" + Unescape(s[4..])
    else [s[0]] + Unescape(s[1..])
  }

  /** escapeHtml: String(value ?? "") with &, then <, then > replaced by
      entities.  The result holds no raw angle bracket and loses nothing. */
  function EscapeHtml(v: Value): (r: string)
    ensures NoChar(r, '<') && NoChar(r, '>')
    ensures Unescape(r) == NullishText(v)
  {
    var s := NullishText(v);
    EscapeSteps(s);
    EscapeCharsNoBrackets(s);
    UnescapeEscapeChars(s);
    ReplaceSteps(s)
  }

  lemma {:induction false} ReplaceAllAppend(a: string, b: string, x: char, y: string)
    ensures ReplaceAllChar(a + b, x, y) == ReplaceAllChar(a, x, y) + ReplaceAllChar(b, x, y)
  {
    if a != [] {
      assert (a + b)[1..] == a[1..] + b;
      ReplaceAllAppend(a[1..], b, x, y);
    } else {
      assert a + b == b;
    }
  }

  lemma EscapeOne(c: char)
    ensures ReplaceSteps([c]) == EscapeChar(c)
  {
    if c == '&' {
      assert [c][1..] == [];
      assert ReplaceAllChar([c], '&', "&amp;") == "&amp;";
      ReplaceAllCharAbsent("&amp;", '<', "&lt;");
      ReplaceAllCharAbsent("&amp;", '>', "&gt;");
    } else if c == '<' {
      assert ReplaceAllChar([c], '&', "&amp;") == [c];
      assert ReplaceAllChar([c], '<', "&lt;") == "&lt;";
      ReplaceAllCharAbsent("&lt;", '>', "&gt;");
    } else if c == '>' {
      assert [c][1..] == [];
      assert ReplaceAllChar([c], '&', "&amp;") == [c];
      assert ReplaceAllChar([c], '<', "&lt;") == [c];
      assert ReplaceAllChar([c], '>', "&gt;") == "&gt;";
    } else {
      assert [c][1..] == [];
      assert ReplaceAllChar([c], '&', "&amp;") == [c];
      assert ReplaceAllChar([c], '<', "&lt;") == [c];
      assert ReplaceAllChar([c], '>', "&gt;") == [c];
    }
  }

  /** Replacing & first means the entities inserted later are not re-escaped:
      the three passes escape each character on its own. */
  lemma {:induction false} EscapeSteps(s: string)
    ensures ReplaceSteps(s) == EscapeChars(s)
  {
    if s != [] {
      var c, t := s[0], s[1..];
      assert s == [c] + t;
      ReplaceAllAppend([c], t, '&', "&amp;");
      var a1, b1 := ReplaceAllChar([c], '&', "&amp;"), ReplaceAllChar(t, '&', "&amp;");
      ReplaceAllAppend(a1, b1, '<', "&lt;");
      ReplaceAllAppend(ReplaceAllChar(a1, '<', "&lt;"), ReplaceAllChar(b1, '<', "&lt;"), '>', "&gt;");
      EscapeOne(c);
      EscapeSteps(t);
    }
  }

  lemma NoCharAppend(a: string, b: string, c: char)
    requires NoChar(a, c) && NoChar(b, c)
    ensures NoChar(a + b, c)
  {
    forall i | 0 <= i < |a + b| ensures (a + b)[i] != c {
      if i >= |a| {
        assert (a + b)[i] == b[i - |a|];
      }
    }
  }

  lemma {:induction false} EscapeCharsNoBrackets(s: string)
    ensures NoChar(EscapeChars(s), '<') && NoChar(EscapeChars(s), '>')
  {
    if s != [] {
      EscapeCharsNoBrackets(s[1..]);
      NoCharAppend(EscapeChar(s[0]), EscapeChars(s[1..]), '<');
      NoCharAppend(EscapeChar(s[0]), EscapeChars(s[1..]), '>');
    }
  }

  lemma UnescapeOne(c: char, u: string)
    ensures Unescape(EscapeChar(c) + u) == [c] + Unescape(u)
  {
    var e := EscapeChar(c) + u;
    if c == '&' {
      assert "&amp;" <= e && e[5..] == u;
    } else if c == '<' {
      assert e[1] == 'l' && !("&amp;" <= e);
      assert "&lt;" <= e && e[4..] == u;
    } else if c == '>' {
      assert e[1] == 'g' && !("&amp;" <= e) && !("&lt;" <= e);
      assert "&gt;" <= e && e[4..] == u;
    } else {
      assert e[0] == c && e[1..] == u;
    }
  }

  /** Escaping is lossless: unescaping gives the text back. */
  lemma {:induction false} UnescapeEscapeChars(s: string)
    ensures Unescape(EscapeChars(s)) == s
  {
    if s != [] {
      UnescapeOne(s[0], EscapeChars(s[1..]));
      UnescapeEscapeChars(s[1..]);
      assert s == [s[0]] + s[1..];
    }
  }

  // ------------------------------------------------------------ the Android plugin

  datatype Kind = HtmlKind | TextKind

  /** How one call of the plugin ended: a reply, or an exception with its text
      (e?.message || String(e)). */
  datatype Reply = Returned(res: Value) | Threw(message: string)

  /** What the plugin exposes (typeof printText/printHtml === "function")
      and how its print calls answer. */
  datatype Plugin = Plugin(hasTextFn: bool, hasHtmlFn: bool, textReply: Reply, htmlReply: Reply)

  datatype Mode = AndroidMode | BrowserMode

  /** The { ok, mode, status, error } object the print functions resolve to
      (Undefined where a field is absent). */
  datatype Outcome = Outcome(ok: bool, mode: Mode, status: Value, error: Value)

  const ERR_NO_METHODS := "AndroidPrinterPlugin existe, mas não expõe printText/printHtml."
  const ERR_NOTHING_APPLICABLE := "Não foi possível imprimir (nenhum método aplicável)."

  /** The kind tried first: html when preferred, or under "auto" when the
      html is non-empty and longer than the text; text otherwise. */
  function FirstKind(prefer: string, htmlLen: nat, textLen: nat): (k: Kind)
    ensures k == HtmlKind <==> prefer == "html" || (prefer == "auto" && htmlLen > textLen && htmlLen > 0)
  {
    if prefer == "html" then HtmlKind
    else if prefer == "auto" && htmlLen > textLen && htmlLen > 0 then HtmlKind
    else TextKind
  }

  function Order(first: Kind): (o: seq<Kind>)
    ensures |o| == 2 && o[0] == first && o[1] != first
  {
    match first
    case HtmlKind => [HtmlKind, TextKind]
    case TextKind => [TextKind, HtmlKind]
  }

  /** The loop's test for one kind: a truthy payload and an exposed function. */
  predicate Applicable(k: Kind, html: Value, text: Value, p: Plugin) {
    if k == TextKind then Truthy(text) && p.hasTextFn else Truthy(html) && p.hasHtmlFn
  }

  /** The first applicable kind of the order, if any. */
  function FirstApplicable(order: seq<Kind>, html: Value, text: Value, p: Plugin): (r: Option<Kind>)
    ensures r.Some? ==> r.value in order && Applicable(r.value, html, text, p)
    ensures r.None? ==> forall j :: 0 <= j < |order| ==> !Applicable(order[j], html, text, p)
  {
    if order == [] then None
    else if Applicable(order[0], html, text, p) then Some(order[0])
    else FirstApplicable(order[1..], html, text, p)
  }

  /** The outcome of calling the plugin's function for one kind. */
  function Called(k: Kind, p: Plugin): Outcome {
    var reply := if k == TextKind then p.textReply else p.htmlReply;
    match reply
    case Returned(res) => Outcome(AndroidOk(res), AndroidMode, Get(res, "status"), Get(res, "error"))
    case Threw(m) => Outcome(false, AndroidMode, Undefined, Str(m))
  }

  /** What printViaAndroidPlugin resolves to; None when there is no plugin. */
  function AndroidAttempt(html: Value, text: Value, prefer: string, plugin: Option<Plugin>): (r: Option<Outcome>)
    ensures r.None? <==> plugin.None?
    ensures r.Some? ==> r.value.mode == AndroidMode
    ensures plugin.Some? && !plugin.value.hasTextFn && !plugin.value.hasHtmlFn ==> r == Some(Outcome(false, AndroidMode, Undefined, Str(ERR_NO_METHODS)))
    ensures plugin.Some? && !Applicable(TextKind, html, text, plugin.value) && !Applicable(HtmlKind, html, text, plugin.value)
            ==> r.Some? && !r.value.ok
  {
    if plugin.None? then None
    else
      var p := plugin.value;
      var order := Order(FirstKind(prefer, |NullishText(html)|, |NullishText(text)|));
      if !p.hasTextFn && !p.hasHtmlFn then Some(Outcome(false, AndroidMode, Undefined, Str(ERR_NO_METHODS)))
      else match FirstApplicable(order, html, text, p)
        case Some(k) => Some(Called(k, p))
        case None => Some(Outcome(false, AndroidMode, Undefined, Str(ERR_NOTHING_APPLICABLE)))
  }

  /** printViaAndroidPlugin: tries the two kinds in order and answers with
      the first call made. */
  method ViaAndroidPlugin(html: Value, text: Value, prefer: string, plugin: Option<Plugin>)
    returns (r: Option<Outcome>)
    ensures r == AndroidAttempt(html, text, prefer, plugin)
  {
    if plugin.None? {
      return None;
    }
    var p := plugin.value;
    var order := Order(FirstKind(prefer, |NullishText(html)|, |NullishText(text)|));
    if !p.hasTextFn && !p.hasHtmlFn {
      return Some(Outcome(false, AndroidMode, Undefined, Str(ERR_NO_METHODS)));
    }
    var k := FindApplicable(order, html, text, p);
    match k
    case Some(kind) => return Some(Called(kind, p));
    case None => return Some(Outcome(false, AndroidMode, Undefined, Str(ERR_NOTHING_APPLICABLE)));
  }

  /** The for-of loop over the order, stopping at the first kind that
      applies. */
  method FindApplicable(order: seq<Kind>, html: Value, text: Value, p: Plugin) returns (r: Option<Kind>)
    ensures r == FirstApplicable(order, html, text, p)
  {
    var i := 0;
    while i < |order|
      invariant 0 <= i <= |order|
      invariant FirstApplicable(order[i..], html, text, p) == FirstApplicable(order, html, text, p)
    {
      if Applicable(order[i], html, text, p) {
        return Some(order[i]);
      }
      assert order[i..][1..] == order[i + 1..];
      i := i + 1;
    }
    return None;
  }

  /** The kind tried first is used whenever it applies; the other one only
      when the first does not; nothing is printed when neither applies. */
  lemma AttemptOrder(html: Value, text: Value, prefer: string, p: Plugin)
    requires p.hasTextFn || p.hasHtmlFn
    ensures var first := FirstKind(prefer, |NullishText(html)|, |NullishText(text)|);
            var second := Order(first)[1];
            var r := AndroidAttempt(html, text, prefer, Some(p));
            (Applicable(first, html, text, p) ==> r == Some(Called(first, p)))
            && (!Applicable(first, html, text, p) && Applicable(second, html, text, p) ==> r == Some(Called(second, p)))
            && (!Applicable(first, html, text, p) && !Applicable(second, html, text, p) ==>
                  r == Some(Outcome(false, AndroidMode, Undefined, Str(ERR_NOTHING_APPLICABLE))))
  {
    var order := Order(FirstKind(prefer, |NullishText(html)|, |NullishText(text)|));
    assert order[1..][1..] == [];
  }

  /** A success is only ever a reply of the plugin that reads as success. */
  lemma AttemptOkMeansPrinted(html: Value, text: Value, prefer: string, plugin: Option<Plugin>)
    ensures var r := AndroidAttempt(html, text, prefer, plugin);
            r.Some? && r.value.ok ==>
              exists k :: (Applicable(k, html, text, plugin.value) && r.value == Called(k, plugin.value)
                           && (if k == TextKind then plugin.value.textReply else plugin.value.htmlReply).Returned?)
  {
    var r := AndroidAttempt(html, text, prefer, plugin);
    if r.Some? && r.value.ok {
      var p := plugin.value;
      var order := Order(FirstKind(prefer, |NullishText(html)|, |NullishText(text)|));
      var k := FirstApplicable(order, html, text, p).value;
      assert Applicable(k, html, text, p) && r.value == Called(k, p);
    }
  }

  // ------------------------------------------------------------ printTicketText

  /** What the device answers: the plugin when running on Android (None when
      it is missing), and the outcome of the browser's print dialog. */
  datatype Device = Device(plugin: Option<Plugin>, browser: Outcome)

  const ERR_TICKET_BLANK := "Texto do ticket vazio."
  const ERR_NO_PLUGIN := "AndroidPrinterPlugin não disponível."
  const ERR_PLUGIN_FAILED := "Falha ao imprimir via plugin Android."
  const PRE_OPEN := "<pre style=\"white-space: pre-wrap; font-family: 'Courier New', monospace; font-size: 12px;\">"

  function ModeOf(android: bool): Mode { if android then AndroidMode else BrowserMode }

  /** !payload || !payload.trim() */
  predicate Blank(s: string) { s == "" || Trim(s) == "" }

  /** The text sent to the printer: normalizeText(text) by default,
      String(text ?? "") with { normalize: false }. */
  function TicketPayload(text: Value, normalize: bool, normalizeText: Value -> string): string {
    if normalize then normalizeText(text) else NullishText(text)
  }

  /** The HTML version of a ticket, wrapped by the 58 mm template. */
  function TicketHtml(payload: string, wrap: string -> string): string {
    wrap(PRE_OPEN + EscapeHtml(Str(payload)) + "</pre>")
  }

  /** printTicketText: a blank payload is refused before anything is sent;
      on Android the plugin is asked for text first, elsewhere the browser
      dialog prints the HTML. */
  function PrintTicketText(text: Value, normalize: bool, normalizeText: Value -> string,
                           wrap: string -> string, android: bool, d: Device): (r: Outcome)
    ensures Blank(TicketPayload(text, normalize, normalizeText)) ==> r == Outcome(false, ModeOf(android), Undefined, Str(ERR_TICKET_BLANK))
    ensures !Blank(TicketPayload(text, normalize, normalizeText)) && !android ==> r == d.browser
    ensures !Blank(TicketPayload(text, normalize, normalizeText)) && android ==> r.mode == AndroidMode
    ensures !Blank(TicketPayload(text, normalize, normalizeText)) && android && d.plugin.None?
            ==> r == Outcome(false, AndroidMode, Undefined, Str(ERR_NO_PLUGIN))
  {
    var payload := TicketPayload(text, normalize, normalizeText);
    if Blank(payload) then Outcome(false, ModeOf(android), Undefined, Str(ERR_TICKET_BLANK))
    else if android then
      var res := AndroidAttempt(Str(TicketHtml(payload, wrap)), Str(payload), "text", d.plugin);
      if res.None? then Outcome(false, AndroidMode, Undefined, Str(ERR_NO_PLUGIN))
      else if !res.value.ok then res.value.(error := Or(res.value.error, Str(ERR_PLUGIN_FAILED)))
      else res.value
    else d.browser
  }

  /** A blank ticket fails with "Texto do ticket vazio." whatever the device
      would have answered: nothing is sent. */
  lemma BlankTicketNotPrinted(text: Value, normalize: bool, normalizeText: Value -> string,
                              wrap: string -> string, android: bool, d1: Device, d2: Device)
    requires Blank(TicketPayload(text, normalize, normalizeText))
    ensures PrintTicketText(text, normalize, normalizeText, wrap, android, d1)
            == PrintTicketText(text, normalize, normalizeText, wrap, android, d2)
            == Outcome(false, ModeOf(android), Undefined, Str(ERR_TICKET_BLANK))
  {
  }

  /** On Android a non-blank ticket goes to the plugin's printText whenever
      the plugin exposes it, and the outcome is that call's. */
  lemma TicketPrintsAsText(text: Value, normalize: bool, normalizeText: Value -> string,
                           wrap: string -> string, p: Plugin, browser: Outcome)
    requires !Blank(TicketPayload(text, normalize, normalizeText))
    requires p.hasTextFn
    ensures var o := PrintTicketText(text, normalize, normalizeText, wrap, true, Device(Some(p), browser));
            var c := Called(TextKind, p);
            o.ok == c.ok && o.status == c.status
            && o.error == (if c.ok then c.error else Or(c.error, Str(ERR_PLUGIN_FAILED)))
  {
    var payload := TicketPayload(text, normalize, normalizeText);
    assert Truthy(Str(payload));
    var html := Str(TicketHtml(payload, wrap));
    assert FirstKind("text", |NullishText(html)|, |NullishText(Str(payload))|) == TextKind;
  }

  /** printTicketText succeeds only for a non-blank payload. */
  lemma TicketOkNotBlank(text: Value, normalize: bool, normalizeText: Value -> string,
                         wrap: string -> string, android: bool, d: Device)
    requires PrintTicketText(text, normalize, normalizeText, wrap, android, d).ok
    ensures !Blank(TicketPayload(text, normalize, normalizeText))
  {
  }

  // ------------------------------------------------------------ printReportText

  const REPORT_LINE_WIDTH: nat := 32
  const REPORT_SEPARATOR: string := Repeat('-', REPORT_LINE_WIDTH)
  const DEFAULT_LINES_PER_BLOCK: real := 42.0
  const ERR_REPORT_BLANK := "Texto do relatório vazio."

  /** Number(opts.linesPerBlock || 42) || 42: never zero and never NaN. */
  function LinesPerBlock(opts: Value): (n: Number)
    ensures n.Finite? && n.r != 0.0
    ensures !Truthy(Get(opts, "linesPerBlock")) ==> n == Finite(DEFAULT_LINES_PER_BLOCK)
    ensures Get(opts, "linesPerBlock").Num? && Truthy(Get(opts, "linesPerBlock")) ==>
              n == Get(opts, "linesPerBlock").n
  {
    var x := ToNumber(Or(Get(opts, "linesPerBlock"), NumV(DEFAULT_LINES_PER_BLOCK)));
    if x.Finite? && x.r != 0.0 then x else Finite(DEFAULT_LINES_PER_BLOCK)
  }

  /** String(opts.separator || REPORT_SEPARATOR) */
  function Separator(opts: Value): (s: string)
    ensures !Truthy(Get(opts, "separator")) ==> s == REPORT_SEPARATOR
    ensures Get(opts, "separator").Str? && Truthy(Get(opts, "separator")) ==> s == Get(opts, "separator").s
  {
    var v := Get(opts, "separator");
    if Truthy(v) then ToStr(v) else REPORT_SEPARATOR
  }

  /** A block size the loop can page with: a positive whole number. */
  predicate WholeBlockSize(n: Number) { n.Finite? && n.r >= 1.0 && n.r.Floor as real == n.r }

  function Flatten(bs: seq<seq<string>>): seq<string> {
    if bs == [] then [] else bs[0] + Flatten(bs[1..])
  }

  lemma {:induction false} FlattenSnoc(bs: seq<seq<string>>, b: seq<string>)
    ensures Flatten(bs + [b]) == Flatten(bs) + b
  {
    if bs != [] {
      assert (bs + [b])[1..] == bs[1..] + [b];
      FlattenSnoc(bs[1..], b);
    } else {
      assert bs + [b] == [b];
    }
  }

  /** ceil(n / k) */
  function CeilDiv(n: nat, k: nat): nat
    requires k >= 1
  {
    (n + k - 1) / k
  }

  lemma CeilDivIs(n: nat, k: nat, b: nat)
    requires k >= 1
    requires n <= b * k < n + k
    ensures CeilDiv(n, k) == b
  {
    var x := n + k - 1;
    var q := x / k;
    var d := q - b;
    assert k * q + x % k == x;
    assert k * d == k * q - k * b;
    if d >= 1 {
      MulAtLeast(k, d);
      assert false;
    } else if d <= -1 {
      MulAtLeast(k, -d);
      assert false;
    }
  }

  lemma MulSucc(b: nat, k: nat)
    ensures (b + 1) * k == b * k + k
  {
  }

  lemma MulAtLeast(k: int, d: int)
    requires k >= 1 && d >= 1
    ensures k * d >= k
  {
    assert k * d == k * (d - 1) + k;
  }

  /** The pages of a report: blocks of k lines, in order, only the last one
      possibly shorter, none empty, ceil(n / k) of them. */
  predicate Paged(blocks: seq<seq<string>>, lines: seq<string>, k: nat) {
    k >= 1
    && Flatten(blocks) == lines
    && |blocks| == CeilDiv(|lines|, k)
    && (forall j :: 0 <= j < |blocks| ==> 1 <= |blocks[j]| <= k)
    && (forall j :: 0 <= j < |blocks| - 1 ==> |blocks[j]| == k)
  }

  /** for (i = 0; i < lines.length; i += k) blocks.push(lines.slice(i, i + k)) */
  method SplitBlocks(lines: seq<string>, k: nat) returns (blocks: seq<seq<string>>)
    requires k >= 1
    ensures Paged(blocks, lines, k)
  {
    blocks := [];
    var i := 0;
    while i < |lines|
      invariant i == |blocks| * k
      invariant i < |lines| + k
      invariant Flatten(blocks) == lines[..if i < |lines| then i else |lines|]
      invariant forall j :: 0 <= j < |blocks| ==> 1 <= |blocks[j]| <= k
      invariant forall j :: 0 <= j < |blocks| - 1 ==> |blocks[j]| == k
      invariant i < |lines| ==> forall j :: 0 <= j < |blocks| ==> |blocks[j]| == k
    {
      var end := if i + k < |lines| then i + k else |lines|;
      var block := lines[i..end];
      FlattenSnoc(blocks, block);
      assert lines[..i] + block == lines[..end];
      MulSucc(|blocks|, k);
      blocks := blocks + [block];
      i := i + k;
    }
    assert lines[..|lines|] == lines;
    CeilDivIs(|lines|, k, |blocks|);
  }

  /** `${block.join("\n")}${isLast ? "" : `\n${separator}\n`}` */
  function BlockText(blocks: seq<seq<string>>, j: nat, sep: string): string
    requires j < |blocks|
  {
    Join(blocks[j], "\n") + (if j == |blocks| - 1 then "" else "\n" + sep + "\n")
  }

  /** The loop printed blocks 0 .. sent-1 in order: every one before the last
      sent succeeded, it stopped at a failure or after the final block, and
      the result is the last block's (or `initial` when nothing was sent). */
  predicate StopsAtFirstFailure(blocks: seq<seq<string>>, sep: string, initial: Outcome,
                                printer: (nat, string) -> Outcome, r: Outcome, sent: nat)
  {
    sent <= |blocks|
    && (forall j :: 0 <= j && j + 1 < sent ==> printer(j, BlockText(blocks, j, sep)).ok)
    && (sent < |blocks| ==> sent >= 1 && !printer(sent - 1, BlockText(blocks, sent - 1, sep)).ok)
    && r == (if sent == 0 then initial else printer(sent - 1, BlockText(blocks, sent - 1, sep)))
  }

  /** The printing loop of printReportText; `printer(j, t)` is the outcome of
      printing text t as the j-th ticket. */
  method PrintBlocks(blocks: seq<seq<string>>, sep: string, initial: Outcome,
                     printer: (nat, string) -> Outcome)
    returns (r: Outcome, sent: nat)
    ensures StopsAtFirstFailure(blocks, sep, initial, printer, r, sent)
  {
    r := initial;
    sent := 0;
    var index := 0;
    while index < |blocks|
      invariant 0 <= index <= |blocks| && sent == index
      invariant forall j :: 0 <= j < index ==> printer(j, BlockText(blocks, j, sep)).ok
      invariant r == (if index == 0 then initial else printer(index - 1, BlockText(blocks, index - 1, sep)))
    {
      var result := printer(index, BlockText(blocks, index, sep));
      r := result;
      sent := index + 1;
      if !result.ok {
        return;
      }
      index := index + 1;
    }
  }

  /** Once every block is sent without a failure, the report printed. */
  lemma AllSentWhenOk(blocks: seq<seq<string>>, sep: string, initial: Outcome,
                      printer: (nat, string) -> Outcome, r: Outcome, sent: nat)
    requires StopsAtFirstFailure(blocks, sep, initial, printer, r, sent)
    requires r.ok && blocks != []
    ensures sent == |blocks|
    ensures forall j :: 0 <= j < |blocks| ==> printer(j, BlockText(blocks, j, sep)).ok
  {
  }

  /** The printer's answer for the j-th ticket of a report: printTicketText
      with { normalize: false } on the j-th device reply. */
  function TicketAt(j: nat, t: string, normalizeText: Value -> string, wrap: string -> string,
                    android: bool, devices: nat -> Device): Outcome
  {
    PrintTicketText(Str(t), false, normalizeText, wrap, android, devices(j))
  }

  /** printReportText: a blank report fails before printing; otherwise its
      lines are paged into blocks and printed until the first failure.  The
      pause between blocks is not modelled. */
  method PrintReportText(text: Value, opts: Value, normalizeText: Value -> string,
                         wrap: string -> string, android: bool, devices: nat -> Device)
    returns (r: Outcome, blocks: seq<seq<string>>, sent: nat)
    requires !opts.Null?
    requires WholeBlockSize(LinesPerBlock(opts))
    ensures Blank(normalizeText(text)) ==>
              r == Outcome(false, ModeOf(android), Undefined, Str(ERR_REPORT_BLANK)) && sent == 0
    ensures !Blank(normalizeText(text)) ==>
              Paged(blocks, Split(normalizeText(text), '\n'), LinesPerBlock(opts).r.Floor)
              && StopsAtFirstFailure(blocks, Separator(opts), Outcome(true, ModeOf(android), Undefined, Undefined),
                                     (j: nat, t: string) => TicketAt(j, t, normalizeText, wrap, android, devices), r, sent)
  {
    var k: nat := LinesPerBlock(opts).r.Floor;
    var sep := Separator(opts);
    var normalized := normalizeText(text);
    if Blank(normalized) {
      return Outcome(false, ModeOf(android), Undefined, Str(ERR_REPORT_BLANK)), [], 0;
    }
    var lines := Split(normalized, '\n');
    blocks := SplitBlocks(lines, k);
    r, sent := PrintBlocks(blocks, sep, Outcome(true, ModeOf(android), Undefined, Undefined),
                           (j: nat, t: string) => TicketAt(j, t, normalizeText, wrap, android, devices));
  }

  // ------------------------------------------------------------ the printed strip

  /** The blocks with the separator as an extra line after each but the last. */
  function Separated(bs: seq<seq<string>>, sep: string): seq<seq<string>> {
    if |bs| <= 1 then bs else [bs[0] + [sep]] + Separated(bs[1..], sep)
  }

  /** The block texts from the j-th on, one after the other. */
  function StripFrom(blocks: seq<seq<string>>, j: nat, sep: string): string
    decreases |blocks| - j
  {
    if j >= |blocks| then "" else BlockText(blocks, j, sep) + StripFrom(blocks, j + 1, sep)
  }

  lemma {:induction false} JoinAppend(a: seq<string>, b: seq<string>, sep: string)
    requires a != [] && b != []
    ensures Join(a + b, sep) == Join(a, sep) + sep + Join(b, sep)
  {
    if |a| == 1 {
      JoinCons(a[0], b, sep);
      assert a + b == [a[0]] + b;
    } else {
      assert (a + b) == [a[0]] + (a[1..] + b);
      JoinCons(a[0], a[1..] + b, sep);
      JoinAppend(a[1..], b, sep);
      JoinCons(a[0], a[1..], sep);
      assert a == [a[0]] + a[1..];
    }
  }

  lemma {:induction false} FlattenNonEmpty(bs: seq<seq<string>>)
    requires bs != [] && bs[0] != []
    ensures Flatten(bs) != []
  {
  }

  /** Read one after the other, the printed blocks are the report's lines
      with a separator line after every block but the last. */
  lemma {:induction false} StripLines(blocks: seq<seq<string>>, j: nat, sep: string)
    requires j < |blocks|
    requires forall i :: 0 <= i < |blocks| ==> blocks[i] != []
    ensures StripFrom(blocks, j, sep) == Join(Flatten(Separated(blocks[j..], sep)), "\n")
    decreases |blocks| - j
  {
    var bs := blocks[j..];
    if j == |blocks| - 1 {
      assert bs == [blocks[j]];
      assert Separated(bs, sep) == bs;
      assert bs[1..] == [];
      assert Flatten(bs) == blocks[j];
      assert StripFrom(blocks, j + 1, sep) == "";
    } else {
      StripLines(blocks, j + 1, sep);
      assert bs[1..] == blocks[j + 1..];
      var rest := Flatten(Separated(bs[1..], sep));
      assert Separated(bs[1..], sep)[0] == (if |bs[1..]| <= 1 then blocks[j + 1] else blocks[j + 1] + [sep]);
      FlattenNonEmpty(Separated(bs[1..], sep));
      assert Flatten(Separated(bs, sep)) == (blocks[j] + [sep]) + rest;
      JoinAppend(blocks[j] + [sep], rest, "\n");
      JoinAppend(blocks[j], [sep], "\n");
    }
  }
}
