/**
 * The text report: a title cell, then one numbered block per saved record.
 * The PDF library is abstracted to the sequence of cells and line breaks the
 * report emits (Arial, size 12); pagination is the library's.
 */
module Report {
  import opened Records

  /** The cells and line breaks emitted into the document. */
  datatype PdfOp =
    | Cell(width: int, height: int, text: string, newLine: bool, centered: bool)
    | MultiCell(width: int, height: int, text: string)
    | LineBreak(height: int)

  /** What the file system or the PDF library did when the report was written. */
  datatype IoStatus = IoOk | IoFailed(detail: string)

  /** The report was written to `path`, or the failure was caught and its message printed. */
  datatype PdfOutcome = Written(path: string, ops: seq<PdfOp>) | Reported(message: string)

  const TITLE: string := "Audio Labeling Report"

  /** The centred title cell and the gap after it. */
  const HEADER: seq<PdfOp> := [Cell(200, 10, TITLE, true, true), LineBreak(10)]

  function DigitChar(d: nat): char
    requires d < 10
  {
    (d + '0' as int) as char
  }

  predicate AllDigits(s: string) {
    forall k :: 0 <= k < |s| ==> '0' <= s[k] <= '9'
  }

  /** Python's `str(n)` for a natural number: its decimal digits, without leading zeros. */
  function NatToString(n: nat): (s: string)
    ensures |s| >= 1 && AllDigits(s)
    ensures s[0] == '0' ==> n == 0
    decreases n
  {
    if n < 10 then [DigitChar(n)] else NatToString(n / 10) + [DigitChar(n % 10)]
  }

  /** The value of a string of decimal digits. */
  function ParseNat(s: string): nat
    requires AllDigits(s)
  {
    if s == [] then 0 else 10 * ParseNat(s[..|s| - 1]) + (s[|s| - 1] as int - '0' as int)
  }

  /** The number printed at the head of a block reads back as that number. */
  lemma {:induction false} ParseNatToString(n: nat)
    ensures ParseNat(NatToString(n)) == n
    decreases n
  {
    if n >= 10 {
      var s := NatToString(n);
      assert s[..|s| - 1] == NatToString(n / 10);
      ParseNatToString(n / 10);
    }
  }

  /** Distinct block numbers are printed differently. */
  lemma NatToStringInjective(m: nat, n: nat)
    requires NatToString(m) == NatToString(n)
    ensures m == n
  {
    ParseNatToString(m);
    ParseNatToString(n);
  }

  /** The text of the block for entry number `i`. */
  function EntryText(i: nat, r: LabelRecord): string {
    NatToString(i) + ". File: " + r.filename + "\n"
    + "   Transcription: " + r.transcription + "\n"
    + "   Labels: " + r.labels + "\n"
    + "   Start Time: " + r.startTime + " sec\n"
    + "   End Time: " + r.endTime + " sec\n"
  }

  /** One block: the multi-line cell and the small gap after it. */
  function Block(i: nat, r: LabelRecord): seq<PdfOp> {
    [MultiCell(0, 10, EntryText(i, r)), LineBreak(2)]
  }

  /** The blocks of `data`, numbered from `first` on. */
  function Blocks(data: seq<LabelRecord>, first: nat): (r: seq<PdfOp>)
    ensures |r| == 2 * |data|
  {
    if data == [] then [] else Block(first, data[0]) + Blocks(data[1..], first + 1)
  }

  /** Everything the report emits for `data`. */
  function ReportOps(data: seq<LabelRecord>): (r: seq<PdfOp>)
    ensures |r| == 2 + 2 * |data| && r[..2] == HEADER
  {
    HEADER + Blocks(data, 1)
  }

  /** Unfolding Blocks once: the first record's block, then the others. */
  lemma BlocksCons(data: seq<LabelRecord>, first: nat)
    requires data != []
    ensures Blocks(data, first) == Block(first, data[0]) + Blocks(data[1..], first + 1)
  {
  }

  lemma {:induction false} BlocksAt(data: seq<LabelRecord>, first: nat, k: nat)
    requires k < |data|
    ensures |Blocks(data, first)| == 2 * |data|
    ensures Blocks(data, first)[2 * k] == MultiCell(0, 10, EntryText(first + k, data[k]))
    ensures Blocks(data, first)[2 * k + 1] == LineBreak(2)
  {
    var rest := Blocks(data[1..], first + 1);
    BlocksCons(data, first);
    if k > 0 {
      BlocksAt(data[1..], first + 1, k - 1);
      assert data[1..][k - 1] == data[k];
      assert (first + 1) + (k - 1) == first + k;
      assert Blocks(data, first)[2 * k] == rest[2 * (k - 1)];
      assert Blocks(data, first)[2 * k + 1] == rest[2 * (k - 1) + 1];
    }
  }

  lemma {:induction false} BlocksSnoc(data: seq<LabelRecord>, first: nat, r: LabelRecord)
    ensures Blocks(data + [r], first) == Blocks(data, first) + Block(first + |data|, r)
  {
    if data != [] {
      assert (data + [r])[1..] == data[1..] + [r];
      BlocksSnoc(data[1..], first + 1, r);
    } else {
      assert [r][1..] == [];
    }
  }

  /**
   * The report opens with the title, and holds exactly one block per record, in
   * record order: block k (from 0) is numbered k + 1 and describes data[k].
   */
  lemma ReportLayout(data: seq<LabelRecord>)
    ensures |ReportOps(data)| == 2 + 2 * |data|
    ensures ReportOps(data)[0] == Cell(200, 10, TITLE, true, true) && ReportOps(data)[1] == LineBreak(10)
    ensures forall k :: 0 <= k < |data| ==>
              ReportOps(data)[2 + 2 * k] == MultiCell(0, 10, EntryText(k + 1, data[k]))
              && ReportOps(data)[3 + 2 * k] == LineBreak(2)
  {
    forall k | 0 <= k < |data|
      ensures ReportOps(data)[2 + 2 * k] == MultiCell(0, 10, EntryText(k + 1, data[k]))
      ensures ReportOps(data)[3 + 2 * k] == LineBreak(2)
    {
      BlocksAt(data, 1, k);
    }
  }

  /** An empty session yields only the title. */
  lemma ReportOfNothing()
    ensures ReportOps([]) == HEADER
  {
  }

  /** Saving one more record extends the report by exactly one block, numbered after the others. */
  lemma ReportAppend(data: seq<LabelRecord>, r: LabelRecord)
    ensures ReportOps(data + [r]) == ReportOps(data) + Block(|data| + 1, r)
  {
    BlocksSnoc(data, 1, r);
  }

  /** Each block starts with its number, which reads back as that number, then a dot. */
  lemma EntryNumbered(i: nat, r: LabelRecord)
    ensures var s := NatToString(i); |s| < |EntryText(i, r)| && EntryText(i, r)[..|s|] == s && ParseNat(s) == i
    ensures EntryText(i, r)[|NatToString(i)|] == '.'
  {
    var head := NatToString(i);
    assert EntryText(i, r)[|head|] == (". File: " + r.filename)[0];
    ParseNatToString(i);
  }

  /** Each block ends with the end-time line. */
  lemma EntryEndsWithEndTime(i: nat, r: LabelRecord)
    ensures var tail := "   End Time: " + r.endTime + " sec\n";
              |tail| <= |EntryText(i, r)| && EntryText(i, r)[|EntryText(i, r)| - |tail|..] == tail
  {
    var tail := "   End Time: " + r.endTime + " sec\n";
    var e := EntryText(i, r);
    var front := e[..|e| - |tail|];
    assert e == front + tail;
  }

  /**
   * Writes the report of `data` to `filename`. Any failure of the file system or
   * of the PDF library is caught and printed; nothing is raised to the caller.
   */
  method GeneratePdf(data: seq<LabelRecord>, filename: string, io: IoStatus) returns (outcome: PdfOutcome)
    ensures io.IoOk? ==> outcome == Written(filename, ReportOps(data))
    ensures io.IoFailed? ==> outcome == Reported("Error generating PDF: " + io.detail)
  {
    var doc := [Cell(200, 10, TITLE, true, true)];
    doc := doc + [LineBreak(10)];
    var i := 0;
    while i < |data|
      invariant 0 <= i <= |data|
      invariant doc == HEADER + Blocks(data[..i], 1)
    {
      BlocksSnoc(data[..i], 1, data[i]);
      assert data[..i + 1] == data[..i] + [data[i]];
      doc := doc + [MultiCell(0, 10, EntryText(i + 1, data[i]))];
      doc := doc + [LineBreak(2)];
      i := i + 1;
    }
    assert data[..i] == data;
    if io.IoFailed? {
      outcome := Reported("Error generating PDF: " + io.detail);
    } else {
      outcome := Written(filename, doc);
    }
  }
}
