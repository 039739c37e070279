/** Indian financial years, which run from 1 April to 31 March. A year is labelled by
    its first calendar year and the last two digits of the next, as in `2025-26`. The
    store keeps the selected label and answers the start and end dates of the
    labelled year from a fixed table. */
module YearStore {
  import opened Common

  /** `String(n)` for an integer. */
  function IntStr(n: int): (s: string)
    ensures n >= 0 ==> s == NatStr(n)
  {
    if n < 0 then "-" + NatStr(-n) else NatStr(n)
  }

  /** `s.slice(-2)`: the last two characters, or the whole string when it is shorter. */
  function LastTwo(s: string): (r: string)
    ensures |r| == if |s| < 2 then |s| else 2
    ensures r == s[|s| - |r|..]
  {
    if |s| < 2 then s else s[|s| - 2..]
  }

  /** The calendar year in which the financial year holding (`year`, `month`) begins:
      April to December belong to the year that starts in `year`, January to March to
      the one that started the year before. */
  function FirstYear(year: int, month: int): int {
    if month >= 4 then year else year - 1
  }

  /** `getCurrentFinancialYear`, with today's year and month (1 to 12) passed in. Both
      branches build the label of the financial year the date falls in. */
  function CurrentFinancialYear(year: int, month: int): (r: string)
    ensures r == Label(FirstYear(year, month))
  {
    if month >= 4 then
      LabelWithNext(year, year + 1);
      IntStr(year) + "-" + LastTwo(IntStr(year + 1))
    else
      LabelWithNext(year - 1, year);
      IntStr(year - 1) + "-" + LastTwo(IntStr(year))
  }

  /** The label of the financial year beginning in `first`: that year, a dash and
      the last two characters of the year after it. */
  function Label(first: int): string {
    IntStr(first) + "-" + LastTwo(IntStr(first + 1))
  }

  lemma LabelWithNext(first: int, next: int)
    requires next == first + 1
    ensures Label(first) == IntStr(first) + "-" + LastTwo(IntStr(next))
  {
  }

  /** The last two characters of a number of at least two digits are its tens and
      units digits. */
  lemma LastTwoOfNatStr(n: nat)
    requires n >= 10
    ensures LastTwo(NatStr(n)) == [Digit((n / 10) % 10), Digit(n % 10)]
  {
    var t := NatStr(n / 10);
    assert NatStr(n) == t + [Digit(n % 10)];
    assert LastTwo(NatStr(n)) == [t[|t| - 1], Digit(n % 10)];
  }

  lemma TwoDigitsValue(a: nat, b: nat)
    requires a < 10 && b < 10
    ensures AllDigits([Digit(a), Digit(b)])
    ensures DigitsValue([Digit(a), Digit(b)]) == 10 * a + b
  {
    var two := [Digit(a), Digit(b)];
    assert two[..1] == [Digit(a)];
    assert [Digit(a)][..0] == [];
    DigitRoundTrip(a);
    DigitRoundTrip(b);
    assert DigitsValue([Digit(a)]) == a;
  }

  lemma TensAndUnits(n: nat)
    ensures 10 * ((n / 10) % 10) + n % 10 == n % 100
  {
    var q, r := n / 10, n % 10;
    assert n == 10 * q + r;
    assert q == 10 * (q / 10) + q % 10;
    var low := 10 * (q % 10) + r;
    assert n == 100 * (q / 10) + low && 0 <= low < 100;
    ModOfSplit(n, q / 10, low);
  }

  lemma ModOfSplit(n: int, high: int, low: int)
    requires n == 100 * high + low && 0 <= low < 100
    ensures n % 100 == low
  {
  }

  /** The last two decimal digits of a number of at least two digits are its value
      modulo 100. */
  lemma LastTwoDigits(n: nat)
    requires n >= 10
    ensures AllDigits(LastTwo(NatStr(n))) && |LastTwo(NatStr(n))| == 2
    ensures DigitsValue(LastTwo(NatStr(n))) == n % 100
  {
    LastTwoOfNatStr(n);
    TwoDigitsValue((n / 10) % 10, n % 10);
    TensAndUnits(n);
  }

  /** From the year 9 on, the label is the first year in full, a dash and a two-digit
      suffix whose value is the next year modulo 100. */
  lemma LabelSuffix(year: int, month: int)
    requires FirstYear(year, month) >= 9
    ensures var f := FirstYear(year, month);
            var suffix := LastTwo(NatStr(f + 1));
            && CurrentFinancialYear(year, month) == NatStr(f) + "-" + suffix
            && |suffix| == 2 && AllDigits(suffix)
            && DigitsValue(suffix) == (f + 1) % 100
  {
    LastTwoDigits(FirstYear(year, month) + 1);
  }

  /** Index of the first '-' in `s`, or `|s|` when there is none. */
  function DashIndex(s: string): (k: nat)
    ensures k <= |s|
  {
    if s == [] || s[0] == '-' then 0 else 1 + DashIndex(s[1..])
  }

  lemma {:induction false} DashAfterDigits(w: string, rest: string)
    requires AllDigits(w)
    ensures DashIndex(w + "-" + rest) == |w|
  {
    if w != [] {
      assert (w + "-" + rest)[1..] == w[1..] + "-" + rest;
      DashAfterDigits(w[1..], rest);
    }
  }

  /** The decimal part in front of the first dash tells the number. */
  lemma DashSplit(a: nat, b: nat, x: string, y: string)
    requires NatStr(a) + "-" + x == NatStr(b) + "-" + y
    ensures a == b
  {
    var s, t := NatStr(a), NatStr(b);
    DashAfterDigits(s, x);
    DashAfterDigits(t, y);
    assert s == (s + "-" + x)[..|s|];
    assert t == (t + "-" + y)[..|t|];
    NatStrInjective(a, b);
  }

  /** Distinct years of the common era have distinct labels. */
  lemma LabelInjective(f1: nat, f2: nat)
    requires Label(f1) == Label(f2)
    ensures f1 == f2
  {
    DashSplit(f1, f2, LastTwo(IntStr(f1 + 1)), LastTwo(IntStr(f2 + 1)));
  }

  /** Two dates in non-negative years get the same label exactly when they lie in the
      same financial year. */
  lemma LabelIdentifiesYear(y1: int, m1: int, y2: int, m2: int)
    requires FirstYear(y1, m1) >= 0 && FirstYear(y2, m2) >= 0
    ensures CurrentFinancialYear(y1, m1) == CurrentFinancialYear(y2, m2)
        <==> FirstYear(y1, m1) == FirstYear(y2, m2)
  {
    if CurrentFinancialYear(y1, m1) == CurrentFinancialYear(y2, m2) {
      LabelInjective(FirstYear(y1, m1), FirstYear(y2, m2));
    }
  }

  /** An entry of `FINANCIAL_YEARS`. */
  datatype FinancialYear = FinancialYear(labelText: string, start: string, end: string, value: string)

  /** `FINANCIAL_YEARS`, newest first. */
  const FinancialYears: seq<FinancialYear> := [
    FinancialYear("2026-27", "2026-04-01", "2027-03-31", "2026-27"),
    FinancialYear("2025-26", "2025-04-01", "2026-03-31", "2025-26"),
    FinancialYear("2024-25", "2024-04-01", "2025-03-31", "2024-25"),
    FinancialYear("2023-24", "2023-04-01", "2024-03-31", "2023-24"),
    FinancialYear("2022-23", "2022-04-01", "2023-03-31", "2022-23")
  ]

  /** The entry that describes the financial year beginning in `first`. */
  predicate Describes(fy: FinancialYear, first: nat) {
    && fy.value == fy.labelText
    && fy.labelText == Label(first)
    && fy.start == NatStr(first) + "-04-01"
    && fy.end == NatStr(first + 1) + "-03-31"
  }

  /** The decimal texts of the years the table mentions. */
  lemma Year2022()
    ensures NatStr(2022) == "2022"
  {
  }

  lemma Year2023()
    ensures NatStr(2023) == "2023"
  {
  }

  lemma Year2024()
    ensures NatStr(2024) == "2024"
  {
  }

  lemma Year2025()
    ensures NatStr(2025) == "2025"
  {
  }

  lemma Year2026()
    ensures NatStr(2026) == "2026"
  {
  }

  lemma Year2027()
    ensures NatStr(2027) == "2027"
  {
  }

  /** Each entry of the table, one at a time. */
  lemma TableEntry0()
    ensures FinancialYears[0].value == Label(2026)
    ensures FinancialYears[0].value == FinancialYears[0].labelText
    ensures FinancialYears[0].start == NatStr(2026) + "-04-01"
    ensures FinancialYears[0].end == NatStr(2027) + "-03-31"
  {
    Year2026();
    Year2027();
    assert LastTwo("2027") == "27";
  }

  lemma TableEntry1()
    ensures FinancialYears[1].value == Label(2025)
    ensures FinancialYears[1].value == FinancialYears[1].labelText
    ensures FinancialYears[1].start == NatStr(2025) + "-04-01"
    ensures FinancialYears[1].end == NatStr(2026) + "-03-31"
  {
    Year2025();
    Year2026();
    assert LastTwo("2026") == "26";
  }

  lemma TableEntry2()
    ensures FinancialYears[2].value == Label(2024)
    ensures FinancialYears[2].value == FinancialYears[2].labelText
    ensures FinancialYears[2].start == NatStr(2024) + "-04-01"
    ensures FinancialYears[2].end == NatStr(2025) + "-03-31"
  {
    Year2024();
    Year2025();
    assert LastTwo("2025") == "25";
  }

  lemma TableEntry3()
    ensures FinancialYears[3].value == Label(2023)
    ensures FinancialYears[3].value == FinancialYears[3].labelText
    ensures FinancialYears[3].start == NatStr(2023) + "-04-01"
    ensures FinancialYears[3].end == NatStr(2024) + "-03-31"
  {
    Year2023();
    Year2024();
    assert LastTwo("2024") == "24";
  }

  lemma TableEntry4()
    ensures FinancialYears[4].value == Label(2022)
    ensures FinancialYears[4].value == FinancialYears[4].labelText
    ensures FinancialYears[4].start == NatStr(2022) + "-04-01"
    ensures FinancialYears[4].end == NatStr(2023) + "-03-31"
  {
    Year2022();
    Year2023();
    assert LastTwo("2023") == "23";
  }

  /** Every entry's value is its label, the label of the year beginning in
      2026, 2025, ... 2022 in turn, and its dates run from 1 April of that year to
      31 March of the next. */
  lemma TableEntries()
    ensures Describes(FinancialYears[0], 2026) && Describes(FinancialYears[1], 2025)
    ensures Describes(FinancialYears[2], 2024) && Describes(FinancialYears[3], 2023)
    ensures Describes(FinancialYears[4], 2022)
  {
    TableEntry0();
    TableEntry1();
    TableEntry2();
    TableEntry3();
    TableEntry4();
  }

  /** `FINANCIAL_YEARS.find(f => f.value === v)`, as the index of the first match. */
  function Find(fys: seq<FinancialYear>, v: string): (r: Option<nat>)
    ensures r.Some? ==> r.value < |fys| && fys[r.value].value == v
    ensures r.Some? ==> forall j :: 0 <= j < r.value ==> fys[j].value != v
    ensures r.None? ==> forall j :: 0 <= j < |fys| ==> fys[j].value != v
  {
    if fys == [] then None
    else if fys[0].value == v then Some(0)
    else match Find(fys[1..], v)
      case None => None
      case Some(k) => Some(k + 1)
  }

  datatype Dates = Dates(start: string, end: string)

  /** `getFinancialYearDates`: the start and end of the entry whose value is `v`, or
      null when there is none. */
  function FinancialYearDates(v: string): (r: Option<Dates>)
    ensures r.None? <==> forall j :: 0 <= j < |FinancialYears| ==> FinancialYears[j].value != v
    ensures r.Some? ==> exists j :: 0 <= j < |FinancialYears| && FinancialYears[j].value == v
                                 && r.value == Dates(FinancialYears[j].start, FinancialYears[j].end)
  {
    match Find(FinancialYears, v)
    case None => None
    case Some(i) => Some(Dates(FinancialYears[i].start, FinancialYears[i].end))
  }

  /** `find` over a table of five entries, spelled out. */
  lemma FindFive(fys: seq<FinancialYear>, v: string)
    requires |fys| == 5
    ensures Find(fys, v) == if fys[0].value == v then Some(0)
                            else if fys[1].value == v then Some(1)
                            else if fys[2].value == v then Some(2)
                            else if fys[3].value == v then Some(3)
                            else if fys[4].value == v then Some(4)
                            else None
  {
  }

  /** Entry by entry: its value is the label of exactly one year of the common era. */
  lemma Entry0Matches(f: nat)
    ensures FinancialYears[0].value == Label(f) <==> f == 2026
    ensures f == 2026 ==>
              FinancialYears[0].start == NatStr(f) + "-04-01"
              && FinancialYears[0].end == NatStr(f + 1) + "-03-31"
  {
    TableEntry0();
    if FinancialYears[0].value == Label(f) {
      LabelInjective(2026, f);
    }
  }

  lemma Entry1Matches(f: nat)
    ensures FinancialYears[1].value == Label(f) <==> f == 2025
    ensures f == 2025 ==>
              FinancialYears[1].start == NatStr(f) + "-04-01"
              && FinancialYears[1].end == NatStr(f + 1) + "-03-31"
  {
    TableEntry1();
    if FinancialYears[1].value == Label(f) {
      LabelInjective(2025, f);
    }
  }

  lemma Entry2Matches(f: nat)
    ensures FinancialYears[2].value == Label(f) <==> f == 2024
    ensures f == 2024 ==>
              FinancialYears[2].start == NatStr(f) + "-04-01"
              && FinancialYears[2].end == NatStr(f + 1) + "-03-31"
  {
    TableEntry2();
    if FinancialYears[2].value == Label(f) {
      LabelInjective(2024, f);
    }
  }

  lemma Entry3Matches(f: nat)
    ensures FinancialYears[3].value == Label(f) <==> f == 2023
    ensures f == 2023 ==>
              FinancialYears[3].start == NatStr(f) + "-04-01"
              && FinancialYears[3].end == NatStr(f + 1) + "-03-31"
  {
    TableEntry3();
    if FinancialYears[3].value == Label(f) {
      LabelInjective(2023, f);
    }
  }

  lemma Entry4Matches(f: nat)
    ensures FinancialYears[4].value == Label(f) <==> f == 2022
    ensures f == 2022 ==>
              FinancialYears[4].start == NatStr(f) + "-04-01"
              && FinancialYears[4].end == NatStr(f + 1) + "-03-31"
  {
    TableEntry4();
    if FinancialYears[4].value == Label(f) {
      LabelInjective(2022, f);
    }
  }

  /** The label computed for a date in the years the table covers finds that year's
      dates, 1 April of its first year to 31 March of the next. */
  lemma DatesOfCoveredLabel(year: int, month: int)
    requires 2022 <= FirstYear(year, month) <= 2026
    ensures var f := FirstYear(year, month);
            FinancialYearDates(CurrentFinancialYear(year, month))
              == Some(Dates(NatStr(f) + "-04-01", NatStr(f + 1) + "-03-31"))
  {
    var f := FirstYear(year, month);
    var name := CurrentFinancialYear(year, month);
    Entry0Matches(f);
    Entry1Matches(f);
    Entry2Matches(f);
    Entry3Matches(f);
    Entry4Matches(f);
    FindFive(FinancialYears, name);
  }

  /** The label of any other year of the common era finds no dates: from April 2027
      on, the year computed from today's date is missing from the table. */
  lemma DatesOfOtherLabel(year: int, month: int)
    requires FirstYear(year, month) >= 0
    requires !(2022 <= FirstYear(year, month) <= 2026)
    ensures FinancialYearDates(CurrentFinancialYear(year, month)) == None
  {
    var f := FirstYear(year, month);
    Entry0Matches(f);
    Entry1Matches(f);
    Entry2Matches(f);
    Entry3Matches(f);
    Entry4Matches(f);
    FindFive(FinancialYears, CurrentFinancialYear(year, month));
  }

  /** The zustand store: the selected financial year and the table it chooses from. */
  class FinancialYearStore {
    var financialYear: string
    var financialYears: seq<FinancialYear>

    /** The initial state: the financial year of today's date and the full table. */
    constructor (year: int, month: int)
      ensures financialYear == Label(FirstYear(year, month))
      ensures financialYears == FinancialYears
    {
      financialYear := CurrentFinancialYear(year, month);
      financialYears := FinancialYears;
    }

    /** `setFinancialYear`: replaces the selection and nothing else. */
    method SetFinancialYear(year: string)
      modifies this
      ensures financialYear == year
      ensures financialYears == old(financialYears)
    {
      financialYear := year;
    }

    /** `getCurrentFYDates`: the dates of the selected year, looked up in the fixed
        table (not in the `financialYears` field). */
    function CurrentFYDates(): (r: Option<Dates>)
      reads this
      ensures r == FinancialYearDates(financialYear)
      ensures r.None? <==> forall j :: 0 <= j < |FinancialYears| ==> FinancialYears[j].value != financialYear
    {
      match Find(FinancialYears, financialYear)
      case None => None
      case Some(i) => Some(Dates(FinancialYears[i].start, FinancialYears[i].end))
    }
  }
}
