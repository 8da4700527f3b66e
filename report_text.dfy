/** The text layout of the 32-column printed reports: centred titles,
    label/value rows, section titles and line joining. */
module ReportText {
  import opened Text
  import opened JsValue

  const REPORT_LINE_WIDTH: int := 32

  /** A full-width rule of dashes. */
  const REPORT_SEPARATOR: string := Repeat('-', 32)

  /** centerText: the trimmed text after half the spare width of spaces
      (rounded down, none when the text does not fit); nothing is padded on
      the right, and blank text gives "". */
  function CenterText(text: Value, width: int): (r: string)
    ensures var raw := Trim(NullishText(text));
            && (raw == "" ==> r == "")
            && (raw != "" ==>
                  && |r| >= |raw|
                  && r[|r| - |raw|..] == raw
                  && (forall i :: 0 <= i < |r| - |raw| ==> r[i] == ' ')
                  && (width <= |raw| ==> r == raw)
                  && (width > |raw| ==> |r| - |raw| == (width - |raw|) / 2))
  {
    var raw := Trim(NullishText(text));
    if raw == "" then ""
    else
      var padding := if width - |raw| > 0 then (width - |raw|) / 2 else 0;
      Repeat(' ', padding) + raw
  }

  /** The centred text never needs more than the width, unless the text
      itself is wider, and the padding on the left is never more than the
      room left on the right. */
  lemma CenterTextFits(text: Value, width: int)
    ensures var raw := Trim(NullishText(text));
            var r := CenterText(text, width);
            && |r| <= (if width > |raw| then width else |raw|)
            && (width >= |r| ==> 2 * (|r| - |raw|) <= width - |raw|)
  {
  }

  /** The label of a row: String(label ?? "").trim(). */
  function LabelText(name: Value): string {
    Trim(NullishText(name))
  }

  /** The value of a row: "" for null or undefined, else String(value).trim(). */
  function ValueText(value: Value): (s: string)
    ensures Nullish(value) ==> s == ""
  {
    if Nullish(value) then "" else Trim(ToStr(value))
  }

  /** formatRow: the label alone when there is no value; the label and the
      value on one line of exactly the width when at least one space fits
      between them; otherwise the label on one line and the value
      right-aligned on the next. */
  function FormatRow(name: Value, value: Value, width: int): (lines: seq<string>)
    ensures var l := LabelText(name);
            var v := ValueText(value);
            && (v == "" ==> lines == [l])
            && (v != "" && width - |l| - |v| >= 1 ==>
                  && |lines| == 1 && |lines[0]| == width
                  && StartsWith(lines[0], l) && EndsWith(lines[0], v)
                  && forall i :: |l| <= i < width - |v| ==> lines[0][i] == ' ')
            && (v != "" && width - |l| - |v| < 1 ==>
                  && |lines| == 2 && lines[0] == l
                  && EndsWith(lines[1], v)
                  && |lines[1]| == (if |v| >= width then |v| else width))
  {
    var l := LabelText(name);
    var v := ValueText(value);
    if v == "" then [l]
    else
      var space := width - |l| - |v|;
      if space >= 1 then [l + Repeat(' ', space) + v]
      else [l, PadStart(v, width)]
  }

  /** When label and value each fit the width, every line of the row fits
      it too. */
  lemma FormatRowWithinWidth(name: Value, value: Value, width: int)
    requires |LabelText(name)| <= width && |ValueText(value)| <= width
    ensures forall k :: 0 <= k < |FormatRow(name, value, width)| ==> |FormatRow(name, value, width)[k]| <= width
  {
  }

  /** formatSectionTitle: the trimmed text in upper case, "" when blank. */
  function FormatSectionTitle(text: Value): (r: string)
    ensures var title := Trim(NullishText(text));
            && |r| == |title|
            && (r == "" <==> title == "")
            && forall i :: 0 <= i < |r| ==> r[i] == UpperChar(title[i])
  {
    var title := Trim(NullishText(text));
    if title == "" then "" else ToUpper(title)
  }

  /** A section title is already in its final form: formatting it again
      changes nothing. */
  lemma FormatSectionTitleIdempotent(text: Value)
    ensures FormatSectionTitle(Str(FormatSectionTitle(text))) == FormatSectionTitle(text)
  {
    var title := Trim(NullishText(text));
    var r := FormatSectionTitle(text);
    TrimmedEnds(NullishText(text));
    if r != "" {
      UpperCharSpace(title[0]);
      UpperCharSpace(title[|title| - 1]);
    }
    TrimOfTrimmed(r);
    ToUpperIdempotent(title);
  }

  /** The entries joinLines keeps: everything but undefined, null and "". */
  predicate KeptLine(v: Value) {
    !(v.Undefined? || v.Null? || v == Str(""))
  }

  /** The texts of the kept entries, in order. */
  function LineTexts(xs: seq<Value>): (r: seq<string>)
    ensures |r| <= |xs|
  {
    if xs == [] then []
    else (if KeptLine(xs[0]) then [ToStr(xs[0])] else []) + LineTexts(xs[1..])
  }

  /** joinLines: the kept entries joined with newlines; "" for a non-array. */
  function JoinLines(lines: Value): (r: string)
    ensures !lines.Arr? ==> r == ""
  {
    Join(LineTexts(ArrayOrEmpty(lines)), "\n")
  }

  lemma {:induction false} LineTextsAppend(a: seq<Value>, b: seq<Value>)
    ensures LineTexts(a + b) == LineTexts(a) + LineTexts(b)
  {
    if a == [] {
      assert a + b == b;
    } else {
      assert (a + b)[1..] == a[1..] + b;
      LineTextsAppend(a[1..], b);
    }
  }

  /** Dropped entries leave no trace: an entry joinLines does not keep can
      be removed from anywhere in the list without changing the text. */
  lemma DroppedEntryLeavesNoTrace(xs: seq<Value>, ys: seq<Value>, v: Value)
    requires !KeptLine(v)
    ensures JoinLines(Arr(xs + [v] + ys)) == JoinLines(Arr(xs + ys))
  {
    LineTextsAppend(xs + [v], ys);
    LineTextsAppend(xs, [v]);
    LineTextsAppend(xs, ys);
    assert LineTexts([v]) == [] by {
      assert [v][1..] == [];
    }
    assert LineTexts(xs + [v]) == LineTexts(xs);
  }

  /** Splitting the joined text at newlines gives back the kept entries,
      provided there is at least one and none contains a newline. */
  lemma JoinLinesSplits(lines: seq<Value>)
    requires LineTexts(lines) != []
    requires forall k :: 0 <= k < |LineTexts(lines)| ==> NoChar(LineTexts(lines)[k], '\n')
    ensures Split(JoinLines(Arr(lines)), '\n') == LineTexts(lines)
  {
    SplitJoin(LineTexts(lines), '\n');
  }
}
