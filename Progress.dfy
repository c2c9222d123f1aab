/**
 * The progress messages (main.py:49, 67, 78-81, 106, 116-119).
 *
 * The first "Please wait" message always shows one green square, nine white
 * squares and `0%`. The loop `for i in range(1, 11)` then rewrites it as
 * `Please wait... ` followed by `i` green squares, `10 - i` white squares, a
 * space and `i * 10` with a percent sign.
 *
 * `ReadProgress` reads such a text back (the counts of green and white
 * squares and the number), so the lemmas can say what a user sees.
 */
module Progress {
  import opened Wrappers
  import opened Text

  const Green: char := '\U{1F7E9}'
  const White: char := '\U{2B1C}'
  const Lead: string := "Please wait... "

  /** The first message, sent before anything is fetched */
  const WaitText: string := "Please wait... \U{1F7E9}\U{2B1C}\U{2B1C}\U{2B1C}\U{2B1C}\U{2B1C}\U{2B1C}\U{2B1C}\U{2B1C}\U{2B1C} 0%"

  predicate IsGreen(c: char) { c == Green }
  predicate IsWhite(c: char) { c == White }
  predicate IsDigit(c: char) { '0' <= c <= '9' }

  /** `str(n)` for a non-negative integer */
  function Decimal(n: nat): (s: string)
    ensures |s| >= 1 && forall k :: 0 <= k < |s| ==> IsDigit(s[k])
    ensures s[0] == '0' ==> n == 0
    decreases n
  {
    if n < 10 then [('0' as int + n) as char]
    else Decimal(n / 10) + [('0' as int + n % 10) as char]
  }

  /** The number a string of digits denotes */
  function DigitsValue(s: string): nat
    requires forall k :: 0 <= k < |s| ==> IsDigit(s[k])
    decreases |s|
  {
    if s == [] then 0
    else
      assert IsDigit(s[|s| - 1]);
      DigitsValue(s[..|s| - 1]) * 10 + (s[|s| - 1] as int - '0' as int)
  }

  /** Reading back the decimal text of n gives n */
  lemma {:induction false} DecimalValue(n: nat)
    ensures DigitsValue(Decimal(n)) == n
    decreases n
  {
    var s := Decimal(n);
    if n >= 10 {
      DecimalValue(n / 10);
      assert s[..|s| - 1] == Decimal(n / 10);
    }
  }

  /** `"🟩" * i + "⬜" * (10 - i)` */
  function Bar(i: int): string {
    Repeat(Green, i) + Repeat(White, 10 - i)
  }

  /** The text of the edit made at step i of the loop: `f"Please wait... {progress} {i * 10}%"` */
  function ProgressText(i: nat): string {
    Lead + Bar(i) + " " + Decimal(i * 10) + "%"
  }

  /** What a progress text shows */
  datatype Shown = Shown(green: nat, white: nat, percent: nat)

  /** Reads a progress text: the lead, a run of green squares, a run of white squares, a space, a number and `%` */
  function ReadProgress(t: string): Option<Shown> {
    if StartsWith(t, Lead) then ReadBar(t[|Lead|..]) else None
  }

  function ReadBar(r: string): Option<Shown> {
    var g := Span(r, IsGreen);
    var w := Span(r[g..], IsWhite);
    match ReadPercent(r[g..][w..])
    case None => None
    case Some(p) => Some(Shown(g, w, p))
  }

  function ReadPercent(r: string): Option<nat> {
    if r == [] || r[0] != ' ' then None
    else
      var d := Span(r[1..], IsDigit);
      if d == 0 || r[1..][d..] != "%" then None
      else Some(DigitsValue(r[1..][..d]))
  }

  lemma ReadPercentOf(n: nat)
    ensures ReadPercent(" " + Decimal(n) + "%") == Some(n)
  {
    var r := " " + Decimal(n) + "%";
    var digits := Decimal(n);
    assert r[1..] == digits + "%";
    SpanOf(digits, "%", IsDigit);
    SplitAt(digits, "%");
    DecimalValue(n);
  }

  lemma ReadBarOf(g: nat, w: nat, x: string)
    requires x == [] || (x[0] != Green && x[0] != White)
    ensures ReadBar(Repeat(Green, g) + Repeat(White, w) + x) ==
      match ReadPercent(x)
      case None => None
      case Some(p) => Some(Shown(g, w, p))
  {
    var greens := Repeat(Green, g);
    var whites := Repeat(White, w);
    var r := greens + whites + x;
    Assoc(greens, whites, x);
    assert whites + x == [] || !IsGreen((whites + x)[0]);
    SpanOf(greens, whites + x, IsGreen);
    SplitAt(greens, whites + x);
    SpanOf(whites, x, IsWhite);
    SplitAt(whites, x);
  }

  lemma ReadAfterLead(r: string)
    ensures ReadProgress(Lead + r) == ReadBar(r)
  {
    StartsWithConcat(Lead, r);
    SplitAt(Lead, r);
  }

  /**
   * Every edit of the loop reads back as i green squares, `10 - i` white
   * squares (none once i passes 10, since a negative repeat is empty) and
   * `i * 10` percent.
   */
  lemma ReadProgressText(i: nat)
    ensures ReadProgress(ProgressText(i)) == Some(Shown(i, if i <= 10 then 10 - i else 0, i * 10))
  {
    var rest := " " + Decimal(i * 10) + "%";
    assert ProgressText(i) == Lead + (Bar(i) + rest);
    ReadAfterLead(Bar(i) + rest);
    ReadBarOf(i, if i <= 10 then 10 - i else 0, rest);
    ReadPercentOf(i * 10);
  }

  /** During the loop the bar always has ten squares */
  lemma BarLength(i: int)
    requires 0 <= i <= 10
    ensures |Bar(i)| == 10
    ensures forall k :: 0 <= k < 10 ==> Bar(i)[k] == if k < i then Green else White
  {
  }

  /** The first message shows one green square at 0%, a state no step of the loop shows */
  lemma WaitTextShown()
    ensures ReadProgress(WaitText) == Some(Shown(1, 9, 0))
    ensures forall i: nat :: ProgressText(i) != WaitText
  {
    assert WaitText == Lead + (Repeat(Green, 1) + Repeat(White, 9) + (" " + Decimal(0) + "%"));
    StartsWithConcat(Lead, Repeat(Green, 1) + Repeat(White, 9) + (" " + Decimal(0) + "%"));
    SplitAt(Lead, Repeat(Green, 1) + Repeat(White, 9) + (" " + Decimal(0) + "%"));
    ReadBarOf(1, 9, " " + Decimal(0) + "%");
    ReadPercentOf(0);
    forall i: nat
      ensures ProgressText(i) != WaitText
    {
      ReadProgressText(i);
    }
  }

  /** Different steps produce different texts */
  lemma ProgressTextInjective(i: nat, j: nat)
    requires ProgressText(i) == ProgressText(j)
    ensures i == j
  {
    ReadProgressText(i);
    ReadProgressText(j);
  }

  /**
   * The ten edits of the loop, read back: the percentages rise by ten at each
   * step and the last edit shows a full bar at 100%.
   */
  lemma EditsShown(texts: seq<string>)
    requires |texts| == 10 && forall k :: 0 <= k < 10 ==> texts[k] == ProgressText(k + 1)
    ensures forall k :: 0 <= k < 10 ==> ReadProgress(texts[k]) == Some(Shown(k + 1, 9 - k, (k + 1) * 10))
    ensures ReadProgress(texts[9]) == Some(Shown(10, 0, 100))
  {
    forall k | 0 <= k < 10
      ensures ReadProgress(texts[k]) == Some(Shown(k + 1, 9 - k, (k + 1) * 10))
    {
      StepShown(k);
    }
  }

  /** The edit made at loop position k (step k + 1), read back */
  lemma StepShown(k: nat)
    requires k < 10
    ensures ReadProgress(ProgressText(k + 1)) == Some(Shown(k + 1, 9 - k, (k + 1) * 10))
  {
    ReadProgressText(k + 1);
  }

  lemma Append(texts: seq<string>, text: string)
    ensures |texts + [text]| == |texts| + 1
    ensures forall k :: 0 <= k < |texts| ==> (texts + [text])[k] == texts[k]
    ensures (texts + [text])[|texts|] == text
  {
  }

  /**
   * The loop `for i in range(1, 11)`: the texts of its ten edits, in order.
   * What each one shows is given by `ReadProgressText` and `EditsShown`.
   */
  method ProgressEdits() returns (texts: seq<string>)
    ensures |texts| == 10
    ensures forall k :: 0 <= k < 10 ==> texts[k] == ProgressText(k + 1)
  {
    texts := [];
    for i := 1 to 11
      invariant |texts| == i - 1
      invariant forall k :: 0 <= k < i - 1 ==> texts[k] == ProgressText(k + 1)
    {
      var progress := Repeat(Green, i) + Repeat(White, 10 - i);
      var text := Lead + progress + " " + Decimal(i * 10) + "%";
      assert text == ProgressText(i);
      Append(texts, text);
      texts := texts + [text];
    }
  }
}
