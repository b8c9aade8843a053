/** The "%03d" numbers inside the ids the run mints (I-001, C-001, HT-001). */
module Numbering {

  function Digit(d: nat): char
    requires d < 10
  {
    ('0' as int + d) as char
  }

  function DigitValue(c: char): int { c as int - '0' as int }

  function Decimal(n: nat): (s: string)
    ensures s != ""
  {
    if n < 10 then [Digit(n)] else Decimal(n / 10) + [Digit(n % 10)]
  }

  /** "%03d" % n */
  function Padded(n: nat): string {
    var s := Decimal(n);
    if |s| == 1 then "00" + s else if |s| == 2 then "0" + s else s
  }

  function Value(s: string): int {
    if s == "" then 0 else 10 * Value(s[..|s| - 1]) + DigitValue(s[|s| - 1])
  }

  lemma {:induction false} DecimalReadsBack(n: nat)
    ensures Value(Decimal(n)) == n && Value("0" + Decimal(n)) == n && Value("00" + Decimal(n)) == n
    ensures '0' <= Decimal(n)[0] <= '9'
  {
    if n >= 10 {
      DecimalReadsBack(n / 10);
      var front := Decimal(n / 10);
      var s := Decimal(n);
      assert s[..|s| - 1] == front;
      assert ("0" + s)[..|s|] == "0" + front;
      assert ("00" + s)[..|s| + 1] == "00" + front;
    } else {
      var s := [Digit(n)];
      assert s[..0] == "" && ("0" + s)[..1] == "0" && ("00" + s)[..2] == "00";
      assert "0"[..0] == "" && "00"[..1] == "0";
      assert Value("0") == 0 && Value("00") == 0;
    }
  }

  /** Different numbers are written differently, and the text starts with a digit. */
  lemma {:induction false} PaddedIsUnique(m: nat, n: nat)
    ensures Padded(m) == Padded(n) <==> m == n
    ensures Padded(n) != "" && '0' <= Padded(n)[0] <= '9'
  {
    DecimalReadsBack(m);
    DecimalReadsBack(n);
  }

  function ChallengeId(n: nat): string { "C-" + Padded(n) }

  function IssueId(n: nat): string { "I-" + Padded(n) }

  function TaskId(n: nat): string { "HT-" + Padded(n) }

  function CellTaskId(cellId: string): string { "HT-CELL-" + cellId }

  /** Counted ids never clash, and never clash with a cell's id either. */
  lemma {:induction false} IdsAreUnique(m: nat, n: nat, cellId: string)
    ensures ChallengeId(m) == ChallengeId(n) <==> m == n
    ensures IssueId(m) == IssueId(n) <==> m == n
    ensures TaskId(m) == TaskId(n) <==> m == n
    ensures TaskId(n) != CellTaskId(cellId)
  {
    PaddedIsUnique(m, n);
    assert ChallengeId(m)[2..] == Padded(m) && ChallengeId(n)[2..] == Padded(n);
    assert IssueId(m)[2..] == Padded(m) && IssueId(n)[2..] == Padded(n);
    assert TaskId(m)[3..] == Padded(m) && TaskId(n)[3..] == Padded(n);
    assert CellTaskId(cellId)[3] == 'C' && TaskId(n)[3] == Padded(n)[0];
  }

  lemma {:induction false} IssueIdsDiffer(m: nat, n: nat)
    ensures IssueId(m) != "" && (IssueId(m) == IssueId(n) <==> m == n)
  {
    IdsAreUnique(m, n, "");
    assert |IssueId(m)| >= 2;
  }

  lemma {:induction false} DecimalLength(n: nat)
    ensures |Decimal(n)| >= 1
    ensures |Decimal(n)| == 1 <==> n < 10
    ensures |Decimal(n)| == 2 <==> 10 <= n < 100
    ensures |Decimal(n)| == 3 <==> 100 <= n < 1000
    ensures n > 0 ==> Decimal(n)[0] != '0'
    decreases n
  {
    if n >= 10 {
      DecimalLength(n / 10);
    }
  }

  /** "%03d": the number, filled up with zeros to three digits and to no more. */
  lemma {:induction false} PaddedMeans(n: nat)
    ensures Value(Padded(n)) == n
    ensures n < 1000 ==> |Padded(n)| == 3
    ensures n >= 1000 ==> |Padded(n)| > 3 && Padded(n)[0] != '0'
  {
    DecimalReadsBack(n);
    DecimalLength(n);
  }

  /** The first ids of a run. */
  lemma {:induction false} FirstIds()
    ensures ChallengeId(1) == "C-001" && IssueId(1) == "I-001" && TaskId(12) == "HT-012"
    ensures CellTaskId("x") == "HT-CELL-x"
  {
    assert Decimal(1) == "1" && Decimal(12) == "12";
  }
}
