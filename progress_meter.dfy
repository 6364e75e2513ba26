/** The batch counter that `ProgressMeter` of train.py puts at the head of each
    progress line: `[i/N]`, with `i` right-aligned to the number of digits of `N`. */
module Progress {

  /** The character of a decimal digit. */
  function DigitChar(d: nat): (c: char)
    requires d < 10
    ensures '0' <= c <= '9'
  {
    ('0' as int + d) as char
  }

  /** The value of a decimal digit character (0 for any other character). */
  function DigitValue(c: char): nat
  {
    if '0' <= c <= '9' then c as int - '0' as int else 0
  }

  /** `str(n)` for a non-negative integer: its decimal digits, most significant first.
      It is never empty, it is one character exactly for the numbers below ten, and
      its last character is the units digit. */
  function DecimalString(n: nat): (s: string)
    ensures |s| >= 1
    ensures n < 10 <==> |s| == 1
    ensures s[|s| - 1] == DigitChar(n % 10)
    decreases n
  {
    if n < 10 then [DigitChar(n)] else DecimalString(n / 10) + [DigitChar(n % 10)]
  }

  /** Reads a string of decimal digits back as a number. */
  function ParseDecimal(s: string): nat
  {
    if s == [] then 0 else 10 * ParseDecimal(s[..|s| - 1]) + DigitValue(s[|s| - 1])
  }

  function Pow10(k: nat): (p: nat)
    ensures p >= 1
  {
    if k == 0 then 1 else 10 * Pow10(k - 1)
  }

  /** `str(n)` is a non-empty run of digits without a leading zero (unless `n` is 0). */
  lemma {:induction false} DecimalIsDigits(n: nat)
    ensures forall k :: 0 <= k < |DecimalString(n)| ==> '0' <= DecimalString(n)[k] <= '9'
    ensures |DecimalString(n)| > 1 ==> DecimalString(n)[0] != '0'
  {
    if n >= 10 {
      DecimalIsDigits(n / 10);
      var s := DecimalString(n / 10);
      assert DecimalString(n)[0] == s[0];
    }
  }

  /** Reading `str(n)` back gives `n`. */
  lemma {:induction false} DecimalRoundTrip(n: nat)
    ensures ParseDecimal(DecimalString(n)) == n
  {
    if n >= 10 {
      var s := DecimalString(n / 10);
      assert (s + [DigitChar(n % 10)])[..|s|] == s;
      DecimalRoundTrip(n / 10);
    }
  }

  /** The length of `str(n)` is the number of decimal digits of `n`:
      the least `d >= 1` with `n < 10^d`. */
  lemma {:induction false} DigitCount(n: nat)
    ensures n < Pow10(|DecimalString(n)|)
    ensures |DecimalString(n)| > 1 ==> Pow10(|DecimalString(n)| - 1) <= n
  {
    if n >= 10 {
      DigitCount(n / 10);
      DecimalIsDigits(n / 10);
      var d := |DecimalString(n / 10)|;
      assert |DecimalString(n)| == d + 1;
      assert n == 10 * (n / 10) + n % 10;
      assert Pow10(d + 1) == 10 * Pow10(d);
      if d > 1 {
        assert Pow10(d) == 10 * Pow10(d - 1);
      }
    }
  }

  /** A smaller number never has more digits. */
  lemma {:induction false} DigitsMonotone(a: nat, b: nat)
    requires a <= b
    ensures |DecimalString(a)| <= |DecimalString(b)|
  {
    if a >= 10 {
      DigitsMonotone(a / 10, b / 10);
    } else {
      DecimalIsDigits(b);
    }
  }

  function Spaces(k: nat): (r: string)
    ensures |r| == k && forall j :: 0 <= j < k ==> r[j] == ' '
  {
    seq(k, _ => ' ')
  }

  /** `'{:Nd}'`-style right alignment, `N` being `width`: spaces in front of `s` up to `width`
      characters; a longer `s` is kept whole, never truncated. */
  function PadLeft(s: string, width: nat): (r: string)
    ensures |r| == if |s| < width then width else |s|
    ensures r[|r| - |s|..] == s
    ensures forall j :: 0 <= j < |r| - |s| ==> r[j] == ' '
  {
    if |s| < width then Spaces(width - |s|) + s else s
  }

  /** The format `_get_batch_fmtstr` builds: `'[' + '{:Nd}' + '/' + total + ']'`,
      with the placeholder's width and the already formatted total. */
  datatype BatchFormat = BatchFormat(width: nat, total: string)

  /** `_get_batch_fmtstr(num_batches)`: the width is the number of digits of
      `num_batches // 1`, and the total is `num_batches` formatted to that width. */
  function GetBatchFmtStr(numBatches: nat): (f: BatchFormat)
    ensures f.width == |DecimalString(numBatches)| >= 1
    ensures numBatches < Pow10(f.width)
    ensures f.width > 1 ==> Pow10(f.width - 1) <= numBatches
    ensures f.total == DecimalString(numBatches)
    ensures ParseDecimal(f.total) == numBatches
  {
    DigitCount(numBatches);
    DecimalIsDigits(numBatches);
    DecimalRoundTrip(numBatches);
    var width := |DecimalString(numBatches / 1)|;
    assert numBatches / 1 == numBatches;
    BatchFormat(width, PadLeft(DecimalString(numBatches), width))
  }

  /** `batch_fmtstr.format(batch)`: bracketed, the index padded to the format's width
      (never cut), then `/` and the total. */
  function FormatBatch(f: BatchFormat, batch: nat): (r: string)
    ensures |r| == (if |DecimalString(batch)| < f.width then f.width else |DecimalString(batch)|)
                   + |f.total| + 3
    ensures r[0] == '[' && r[|r| - 1] == ']'
    ensures r[|r| - |f.total| - 2] == '/'
  {
    "[" + PadLeft(DecimalString(batch), f.width) + "/" + f.total + "]"
  }

  /** The batch counter is `[`, spaces, the digits of the batch, `/`, the digits of
      the total and `]`; the spaces make up the difference in digit count, if any. */
  lemma BatchCounterShape(numBatches: nat, batch: nat)
    ensures FormatBatch(GetBatchFmtStr(numBatches), batch)
              == "[" + Spaces(LeadingSpaces(numBatches, batch)) + DecimalString(batch)
                 + "/" + DecimalString(numBatches) + "]"
  {
    var f := GetBatchFmtStr(numBatches);
    PadLeftIsSpaces(DecimalString(batch), f.width);
    AppendAssoc("[", Spaces(LeadingSpaces(numBatches, batch)), DecimalString(batch));
  }

  /** Padding puts exactly the missing number of spaces in front. */
  lemma PadLeftIsSpaces(s: string, width: nat)
    ensures PadLeft(s, width) == Spaces(if |s| < width then width - |s| else 0) + s
  {
    if |s| >= width {
      assert Spaces(0) + s == s;
    }
  }

  /** Regrouping a concatenation; a helper for `BatchCounterShape`. */
  lemma AppendAssoc<T>(a: seq<T>, b: seq<T>, c: seq<T>)
    ensures a + (b + c) == a + b + c
  {
  }

  /** How many spaces pad the batch index: the digits of the total minus the
      digits of the index, or none when the index is at least as wide. */
  function LeadingSpaces(numBatches: nat, batch: nat): nat
  {
    var d := |DecimalString(numBatches)|;
    var b := |DecimalString(batch)|;
    if b < d then d - b else 0
  }

  /** Every counter of one epoch (`batch <= numBatches`) has the same length, so the
      progress lines line up. */
  lemma BatchCounterAligned(numBatches: nat, batch: nat)
    requires batch <= numBatches
    ensures |FormatBatch(GetBatchFmtStr(numBatches), batch)| == 2 * |DecimalString(numBatches)| + 3
  {
    DigitsMonotone(batch, numBatches);
  }

  /** A batch index wider than the total is printed whole. */
  lemma WideBatchNotTruncated(numBatches: nat, batch: nat)
    requires |DecimalString(batch)| > |DecimalString(numBatches)|
    ensures FormatBatch(GetBatchFmtStr(numBatches), batch)
              == "[" + DecimalString(batch) + "/" + DecimalString(numBatches) + "]"
  {
  }

  /** Joins strings with a separator, as `sep.join(parts)`: nothing for no parts,
      otherwise the first part first, the separator right after it when more follow,
      and the last part last. */
  function Join(sep: string, parts: seq<string>): (r: string)
    ensures parts == [] ==> r == ""
    ensures parts != [] ==> |parts[0]| <= |r| && r[..|parts[0]|] == parts[0]
    ensures |parts| > 1 ==> |parts[0]| + |sep| <= |r| && r[|parts[0]|..|parts[0]| + |sep|] == sep
    ensures parts != [] ==> |parts[|parts| - 1]| <= |r| && r[|r| - |parts[|parts| - 1]|..] == parts[|parts| - 1]
  {
    if parts == [] then ""
    else if |parts| == 1 then parts[0]
    else parts[0] + sep + Join(sep, parts[1..])
  }

  /** A `ProgressMeter`: the batch format fixed at construction and the prefix. The
      wrapped meters are rendered by the caller (their float formatting is not part
      of this model) and handed to `Display` in registration order. */
  datatype ProgressMeter = ProgressMeter(batchFmt: BatchFormat, prefix: string)

  function NewProgressMeter(numBatches: nat, prefix: string := ""): (p: ProgressMeter)
    ensures p.batchFmt.total == DecimalString(numBatches) && p.prefix == prefix
    ensures p.batchFmt.width == |DecimalString(numBatches)|
  {
    ProgressMeter(GetBatchFmtStr(numBatches), prefix)
  }

  /** The line `display(batch)` prints: the prefix and the batch counter, then each
      meter's text, separated by tabs. */
  function Display(p: ProgressMeter, batch: nat, meterTexts: seq<string>): (line: string)
    ensures var head := p.prefix + FormatBatch(p.batchFmt, batch);
            && |head| <= |line| && line[..|head|] == head
            && (meterTexts == [] ==> line == head)
            && (meterTexts != [] ==> line == head + "\t" + Join("\t", meterTexts))
  {
    Join("\t", [p.prefix + FormatBatch(p.batchFmt, batch)] + meterTexts)
  }
}
