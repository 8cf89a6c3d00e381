/**
 * `format_signal_message`: turns a signal payload into the text sent to the
 * chat. A `text` key short-circuits everything; otherwise six fixed lines
 * (symbol and timeframe, side, entry, stop-loss, the two take-profits,
 * confidence) are followed by an optional reason line and an optional risk
 * line, and the lines are joined with newlines.
 */
module Formatter {
  import opened Wrappers
  import opened Text
  import opened Values

  /** The formatter's outcome: the message, or the AttributeError raised when `side` is not a string. */
  datatype Formatted = Message(text: string) | SideNotText

  // The defaults `payload.get` falls back to.
  const DefaultSymbol := Str("UNKNOWN")
  const DefaultSide := "N/A"
  const DefaultPrice := Str("N/A")
  const DefaultTimeframe := Str("H1")
  const DefaultConfidence := Str("-")
  const DefaultReason := Str("")
  const DefaultRisk := Null

  // One function per line of the message; the emoji are written as code points.

  /** "📈 {symbol} — {timeframe}" */
  function SymbolLine(symbol: Value, timeframe: Value): string {
    "\U{1F4C8} " + Render(symbol) + " \U{2014} " + Render(timeframe)
  }

  /** "➡️ {side}" */
  function SideLine(side: string): string {
    "\U{27A1}\U{FE0F} " + side
  }

  /** "🎯 Entrée : {entry}" */
  function EntryLine(entry: Value): string {
    "\U{1F3AF} Entr\U{E9}e : " + Render(entry)
  }

  /** "🛑 SL : {sl}" */
  function StopLossLine(sl: Value): string {
    "\U{1F6D1} SL : " + Render(sl)
  }

  /** "🎯 TP1 : {tp1} | TP2 : {tp2}" */
  function TakeProfitLine(tp1: Value, tp2: Value): string {
    "\U{1F3AF} TP1 : " + Render(tp1) + " | TP2 : " + Render(tp2)
  }

  /** "🔎 Confiance : {confidence}" */
  function ConfidenceLine(confidence: Value): string {
    "\U{1F50E} Confiance : " + Render(confidence)
  }

  /** "📝 Raison : {reason}" */
  function ReasonLine(reason: Value): string {
    "\U{1F4DD} Raison : " + Render(reason)
  }

  /** "⚠️ Risque : {risk}% du capital" */
  function RiskLine(risk: Value): string {
    "\U{26A0}\U{FE0F} Risque : " + Render(risk) + "% du capital"
  }

  function Reason(p: Payload): Value { Get(p, "reason", DefaultReason) }
  function Risk(p: Payload): Value { Get(p, "risk", DefaultRisk) }

  /** `payload.get("side", "N/A").upper()`; None where `.upper()` would raise. */
  function DisplayedSide(p: Payload): (r: Option<string>)
    ensures r.Some? <==> "side" !in p || p["side"].Str?
    ensures "side" !in p ==> r == Some(DefaultSide)
    ensures "side" in p && p["side"].Str? ==> r == Some(Upper(p["side"].s))
    ensures r.Some? ==> NoLowerAscii(r.value)
  {
    UpperKeepsUppercase(DefaultSide);
    match Get(p, "side", Str(DefaultSide))
    case Str(s) => Some(Upper(s))
    case _ => None
  }

  /** The six lines every formatted signal has, in order. */
  function FixedLines(p: Payload, side: string): (r: seq<string>)
    ensures |r| == 6
    ensures r[1] == SideLine(side)
  {
    [ SymbolLine(Get(p, "symbol", DefaultSymbol), Get(p, "timeframe", DefaultTimeframe)),
      SideLine(side),
      EntryLine(Get(p, "entry", DefaultPrice)),
      StopLossLine(Get(p, "sl", DefaultPrice)),
      TakeProfitLine(Get(p, "tp1", DefaultPrice), Get(p, "tp2", DefaultPrice)),
      ConfidenceLine(Get(p, "confidence", DefaultConfidence)) ]
  }

  /** The fixed lines, then the reason line if the reason is truthy, then the risk line if risk is not None. */
  function SignalLines(p: Payload, side: string): (r: seq<string>)
    ensures |r| >= 6 && r[..6] == FixedLines(p, side)
    ensures forall i :: 6 <= i < |r| ==> r[i] == ReasonLine(Reason(p)) || r[i] == RiskLine(Risk(p))
  {
    FixedLines(p, side)
    + (if Truthy(Reason(p)) then [ReasonLine(Reason(p))] else [])
    + (if !Risk(p).Null? then [RiskLine(Risk(p))] else [])
  }

  /** What `format_signal_message(p)` returns (or raises). */
  function SignalMessage(p: Payload): (r: Formatted)
    ensures "text" in p ==> r == Message(Render(p["text"]))
    ensures "text" !in p ==> (r == SideNotText <==> "side" in p && !p["side"].Str?)
  {
    if "text" in p then Message(Render(p["text"]))
    else
      match DisplayedSide(p)
      case None => SideNotText
      case Some(side) => Message(Join(SignalLines(p, side), "\n"))
  }

  /** `format_signal_message`, building the list of lines and appending the optional ones in place. */
  method FormatSignalMessage(payload: Payload) returns (r: Formatted)
    ensures r == SignalMessage(payload)
  {
    if "text" in payload {
      return Message(Render(payload["text"]));
    }
    var symbol := Get(payload, "symbol", DefaultSymbol);
    var sideValue := Get(payload, "side", Str(DefaultSide));
    if !sideValue.Str? {
      return SideNotText;
    }
    var side := Upper(sideValue.s);
    var entry := Get(payload, "entry", DefaultPrice);
    var sl := Get(payload, "sl", DefaultPrice);
    var tp1 := Get(payload, "tp1", DefaultPrice);
    var tp2 := Get(payload, "tp2", DefaultPrice);
    var timeframe := Get(payload, "timeframe", DefaultTimeframe);
    var confidence := Get(payload, "confidence", DefaultConfidence);
    var reason := Get(payload, "reason", DefaultReason);
    var risk := Get(payload, "risk", DefaultRisk);

    var lines := [
      SymbolLine(symbol, timeframe),
      SideLine(side),
      EntryLine(entry),
      StopLossLine(sl),
      TakeProfitLine(tp1, tp2),
      ConfidenceLine(confidence)
    ];
    assert lines == FixedLines(payload, side);
    if Truthy(reason) {
      lines := lines + [ReasonLine(reason)];
    }
    if !risk.Null? {
      lines := lines + [RiskLine(risk)];
    }
    assert lines == SignalLines(payload, side);
    return Message(Join(lines, "\n"));
  }

  // ---------------------------------------------------------------------------
  // Properties of the formatter

  /** With a `text` key the message is that value's rendering, whatever it is (even empty) and whatever else is present. */
  lemma TextBypass(p: Payload, q: Payload)
    requires "text" in p && "text" in q && p["text"] == q["text"]
    ensures SignalMessage(p) == Message(Render(p["text"]))
    ensures SignalMessage(p) == SignalMessage(q)
  {
  }

  /** The six lines of the fully defaulted message, as the source spells them out. */
  const DefaultLines := [
    "\U{1F4C8} UNKNOWN \U{2014} H1",
    "\U{27A1}\U{FE0F} N/A",
    "\U{1F3AF} Entr\U{E9}e : N/A",
    "\U{1F6D1} SL : N/A",
    "\U{1F3AF} TP1 : N/A | TP2 : N/A",
    "\U{1F50E} Confiance : -" ]

  /** The empty payload gets the default side, upper-cased to itself, and exactly the six default lines. */
  lemma EmptyPayloadLines()
    ensures DisplayedSide(map[]) == Some("N/A")
    ensures SignalLines(map[], "N/A") == DefaultLines
  {
    DefaultLinesSpelled();
    var p: Payload := map[];
    assert FixedLines(p, DefaultSide) == [
      SymbolLine(DefaultSymbol, DefaultTimeframe), SideLine(DefaultSide), EntryLine(DefaultPrice),
      StopLossLine(DefaultPrice), TakeProfitLine(DefaultPrice, DefaultPrice), ConfidenceLine(DefaultConfidence) ];
    assert !Truthy(Reason(p)) && Risk(p).Null?;
  }

  /** Each line builder, given the defaults, spells out the corresponding default line. */
  lemma DefaultLinesSpelled()
    ensures SymbolLine(DefaultSymbol, DefaultTimeframe) == DefaultLines[0]
    ensures SideLine(DefaultSide) == DefaultLines[1]
    ensures EntryLine(DefaultPrice) == DefaultLines[2]
    ensures StopLossLine(DefaultPrice) == DefaultLines[3]
    ensures TakeProfitLine(DefaultPrice, DefaultPrice) == DefaultLines[4]
    ensures ConfidenceLine(DefaultConfidence) == DefaultLines[5]
  {
  }

  /** The empty payload is formatted, never rejected, into the six default lines joined by newlines. */
  lemma EmptyPayloadMessage()
    ensures SignalMessage(map[]) == Message(
      DefaultLines[0] + "\n" + DefaultLines[1] + "\n" + DefaultLines[2] + "\n"
      + DefaultLines[3] + "\n" + DefaultLines[4] + "\n" + DefaultLines[5])
  {
    EmptyPayloadLines();
    var l := DefaultLines;
    JoinSix(l[0], l[1], l[2], l[3], l[4], l[5], "\n");
    assert [l[0], l[1], l[2], l[3], l[4], l[5]] == l;
  }

  lemma JoinSix(a: string, b: string, c: string, d: string, e: string, f: string, sep: string)
    ensures Join([a, b, c, d, e, f], sep) == a + sep + b + sep + c + sep + d + sep + e + sep + f
  {
    assert [e, f][1..] == [f];
    assert Join([e, f], sep) == e + sep + f;
    assert [d, e, f][1..] == [e, f];
    assert Join([d, e, f], sep) == d + sep + (e + sep + f);
    assert [c, d, e, f][1..] == [d, e, f];
    assert Join([c, d, e, f], sep) == c + sep + (d + sep + (e + sep + f));
    assert [b, c, d, e, f][1..] == [c, d, e, f];
    assert Join([b, c, d, e, f], sep) == b + sep + (c + sep + (d + sep + (e + sep + f)));
    assert [a, b, c, d, e, f][1..] == [b, c, d, e, f];
  }

  /** Six lines, plus one for a truthy reason, plus one for a risk that is not None. */
  lemma LineCount(p: Payload, side: string)
    ensures |SignalLines(p, side)| ==
      6 + (if Truthy(Reason(p)) then 1 else 0) + (if !Risk(p).Null? then 1 else 0)
  {
  }

  /** The fixed lines come first in their order; the reason line, when present, precedes the risk line, and both are last. */
  lemma LineOrder(p: Payload, side: string)
    ensures SignalLines(p, side)[..6] == FixedLines(p, side)
    ensures SignalLines(p, side)[1] == SideLine(side)
    ensures Truthy(Reason(p)) ==> SignalLines(p, side)[6] == ReasonLine(Reason(p))
    ensures !Risk(p).Null? ==>
      SignalLines(p, side)[|SignalLines(p, side)| - 1] == RiskLine(Risk(p))
    ensures !Truthy(Reason(p)) && Risk(p).Null? ==> SignalLines(p, side) == FixedLines(p, side)
  {
  }

  /** The side line shows the side upper-cased; a side already in upper case is shown as given. */
  lemma SideShownUppercase(p: Payload, s: string)
    requires "text" !in p && "side" in p && p["side"] == Str(s)
    ensures DisplayedSide(p) == Some(Upper(s))
    ensures SignalMessage(p) == Message(Join(SignalLines(p, Upper(s)), "\n"))
    ensures NoLowerAscii(s) ==> SignalLines(p, Upper(s))[1] == SideLine(s)
  {
  }

  /** `key` is absent or prints on one line. */
  predicate OneLine(p: Payload, key: string) {
    key in p ==> '\n' !in Render(p[key])
  }

  /** Every field that reaches the signal lines prints on one line. */
  predicate FieldsOnOneLine(p: Payload) {
    && OneLine(p, "symbol") && OneLine(p, "side") && OneLine(p, "entry") && OneLine(p, "sl")
    && OneLine(p, "tp1") && OneLine(p, "tp2") && OneLine(p, "timeframe")
    && OneLine(p, "confidence") && OneLine(p, "reason") && OneLine(p, "risk")
  }

  /** The fixed text of every line is free of line breaks. */
  lemma LiteralsOnOneLine()
    ensures '\n' !in "\U{1F4C8} " && '\n' !in " \U{2014} " && '\n' !in "\U{27A1}\U{FE0F} "
    ensures '\n' !in "\U{1F3AF} Entr\U{E9}e : " && '\n' !in "\U{1F6D1} SL : "
    ensures '\n' !in "\U{1F3AF} TP1 : " && '\n' !in " | TP2 : " && '\n' !in "\U{1F50E} Confiance : "
    ensures '\n' !in "\U{1F4DD} Raison : " && '\n' !in "\U{26A0}\U{FE0F} Risque : " && '\n' !in "% du capital"
  {
  }

  lemma NoNewlineInLines(p: Payload, side: string)
    requires FieldsOnOneLine(p)
    requires '\n' !in side
    ensures forall i :: 0 <= i < |SignalLines(p, side)| ==> '\n' !in SignalLines(p, side)[i]
  {
    NoNewlineInFixedLines(p, side);
    LiteralsOnOneLine();
    var reason := if Truthy(Reason(p)) then [ReasonLine(Reason(p))] else [];
    var risk := if !Risk(p).Null? then [RiskLine(Risk(p))] else [];
    assert forall i :: 0 <= i < |reason| ==> '\n' !in reason[i];
    assert forall i :: 0 <= i < |risk| ==> '\n' !in risk[i];
    assert SignalLines(p, side) == FixedLines(p, side) + reason + risk;
  }

  lemma NoNewlineInFixedLines(p: Payload, side: string)
    requires FieldsOnOneLine(p)
    requires '\n' !in side
    ensures forall i :: 0 <= i < 6 ==> '\n' !in FixedLines(p, side)[i]
  {
    LiteralsOnOneLine();
    var fixed := FixedLines(p, side);
    assert '\n' !in fixed[0] && '\n' !in fixed[1] && '\n' !in fixed[2];
    assert '\n' !in fixed[3] && '\n' !in fixed[4] && '\n' !in fixed[5];
  }

  /**
   * When no field value contains a line break, splitting the message on "\n"
   * gives back exactly the list of lines, and the message does not end in a
   * line break.
   */
  lemma SplitRecoversLines(p: Payload, side: string)
    requires "text" !in p && FieldsOnOneLine(p)
    requires DisplayedSide(p) == Some(side)
    ensures SignalMessage(p).Message?
    ensures Split(SignalMessage(p).text, '\n') == SignalLines(p, side)
    ensures SignalMessage(p).text != [] && SignalMessage(p).text[|SignalMessage(p).text| - 1] != '\n'
  {
    LinesOnOneLine(p, side);
    var lines := SignalLines(p, side);
    SplitJoin(lines, '\n');
    LastLineNonEmpty(p, side);
    JoinEndsWithoutSeparator(lines, '\n');
  }

  /** The side shown and every field print on one line, so every line of the list is a single line. */
  lemma LinesOnOneLine(p: Payload, side: string)
    requires FieldsOnOneLine(p)
    requires DisplayedSide(p) == Some(side)
    ensures forall i :: 0 <= i < |SignalLines(p, side)| ==> '\n' !in SignalLines(p, side)[i]
  {
    UpperKeepsNewlines(Get(p, "side", Str(DefaultSide)).s);
    NoNewlineInLines(p, side);
  }

  /** Every line starts with its label, so the last one is not empty. */
  lemma LastLineNonEmpty(p: Payload, side: string)
    ensures SignalLines(p, side)[|SignalLines(p, side)| - 1] != []
  {
    var lines := SignalLines(p, side);
    if |lines| == 6 {
      assert lines[5] == FixedLines(p, side)[5];
    }
  }

  /** Without the `text` bypass, the message is never empty. */
  lemma FormattedMessageNonEmpty(p: Payload)
    requires "text" !in p && SignalMessage(p).Message?
    ensures |SignalMessage(p).text| > 0
  {
  }
}
