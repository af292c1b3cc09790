/**
 * Feature extraction (`AnomalyDetector._prepare_features` in
 * agents/anomaly_detector.py): a batch of log records becomes a table with one
 * row of eight numbers per record, in input order.
 */
module Features {
  import opened Wrappers
  import opened Records
  import opened PyText

  // ---------------------------------------------------------------------------
  // `re.findall(r'\d+(?:\.\d+)?', s)[0]`: the first number written in a string.
  // ---------------------------------------------------------------------------

  /** A match of the pattern: digits s[start..point], then, when end > point, '.' and digits s[point+1..end]. */
  datatype NumberMatch = NumberMatch(start: nat, point: nat, end: nat)

  predicate AllDigits(s: string, from: nat, to: nat)
    requires from <= to <= |s|
  {
    forall k :: from <= k < to ==> IsDigit(s[k])
  }

  /**
   * What the regular expression engine returns first: the match that starts
   * at the leftmost digit, with the longest digit run (greedy `\d+`), and with
   * the fraction taken whenever a '.' followed by a digit comes next.
   */
  predicate IsFirstMatch(s: string, m: NumberMatch)
  {
    && m.start < m.point <= m.end <= |s|
    && (forall k :: 0 <= k < m.start ==> !IsDigit(s[k]))
    && AllDigits(s, m.start, m.point)
    && (m.point == |s| || !IsDigit(s[m.point]))
    && (if m.point + 1 < |s| && s[m.point] == '.' && IsDigit(s[m.point + 1])
        then m.point + 1 < m.end && AllDigits(s, m.point + 1, m.end) && (m.end == |s| || !IsDigit(s[m.end]))
        else m.end == m.point)
  }

  function FirstDigitFrom(s: string, i: nat): (j: nat)
    requires i <= |s|
    ensures i <= j <= |s|
    ensures forall k :: i <= k < j ==> !IsDigit(s[k])
    ensures j < |s| ==> IsDigit(s[j])
    decreases |s| - i
  {
    if i < |s| && !IsDigit(s[i]) then FirstDigitFrom(s, i + 1) else i
  }

  function DigitRunEnd(s: string, i: nat): (j: nat)
    requires i <= |s|
    ensures i <= j <= |s|
    ensures AllDigits(s, i, j)
    ensures j == |s| || !IsDigit(s[j])
    decreases |s| - i
  {
    if i < |s| && IsDigit(s[i]) then DigitRunEnd(s, i + 1) else i
  }

  /** The scan the regular expression performs; None when `s` holds no digit. */
  function FindNumber(s: string): (m: Option<NumberMatch>)
    ensures m.None? <==> forall k :: 0 <= k < |s| ==> !IsDigit(s[k])
    ensures m.Some? ==> IsFirstMatch(s, m.value)
  {
    var start := FirstDigitFrom(s, 0);
    if start == |s| then None
    else
      var point := DigitRunEnd(s, start);
      if point + 1 < |s| && s[point] == '.' && IsDigit(s[point + 1])
      then Some(NumberMatch(start, point, DigitRunEnd(s, point + 1)))
      else Some(NumberMatch(start, point, point))
  }

  /** The first-match conditions pin the match down: there is only one. */
  lemma FirstMatchUnique(s: string, m1: NumberMatch, m2: NumberMatch)
    requires IsFirstMatch(s, m1) && IsFirstMatch(s, m2)
    ensures m1 == m2
  {
    assert IsDigit(s[m1.start]) && IsDigit(s[m2.start]);
    assert m1.point == |s| || !IsDigit(s[m1.point]);
    assert m2.point == |s| || !IsDigit(s[m2.point]);
    if m1.end > m1.point {
      assert m1.end == |s| || !IsDigit(s[m1.end]);
      assert m2.end == |s| || !IsDigit(s[m2.end]);
    }
  }

  /** The value of a digit string, most significant digit first. */
  function DigitsValue(d: string): nat
    requires forall k :: 0 <= k < |d| ==> IsDigit(d[k])
  {
    if d == [] then 0 else DigitsValue(d[..|d| - 1]) * 10 + DigitValue(d[|d| - 1])
  }

  function Pow10(n: nat): (p: nat)
    ensures p >= 1
  {
    if n == 0 then 1 else 10 * Pow10(n - 1)
  }

  /** `float(match)`, as an exact rational. */
  function MatchValue(s: string, m: NumberMatch): (x: real)
    requires IsFirstMatch(s, m)
    ensures x >= 0.0
  {
    var whole := DigitsValue(s[m.start..m.point]);
    if m.end == m.point then whole as real
    else whole as real + FractionValue(s[m.point + 1..m.end])
  }

  /** The digits after the point, as the fraction they write: "25" gives 25/100. */
  function FractionValue(f: string): (x: real)
    requires forall k :: 0 <= k < |f| ==> IsDigit(f[k])
    ensures 0.0 <= x
  {
    DigitsValue(f) as real / Pow10(|f|) as real
  }

  /**
   * `safe_extract_number`: missing or NaN gives 0; a string gives its first
   * number, or 0 when it has none; a number gives itself (`float(value) if
   * value else 0` is the value either way).  `float()` of a Timestamp raises
   * TypeError: None.
   */
  function SafeExtractNumber(v: Option<Field>): (x: Option<real>)
    ensures IsMissing(v) ==> x == Some(0.0)
    ensures v.Some? && v.value.Num? ==> x == Some(v.value.x)
    ensures v.Some? && v.value.Str? ==> x.Some? && x.value >= 0.0
    ensures v.Some? && v.value.Str? && FindNumber(v.value.s).None? ==> x == Some(0.0)
    ensures v.Some? && v.value.Str? && FindNumber(v.value.s).Some? ==>
      x == Some(MatchValue(v.value.s, FindNumber(v.value.s).value))
    ensures x.None? <==> v.Some? && v.value.Time?
  {
    match v
    case None => Some(0.0)
    case Some(NaN) => Some(0.0)
    case Some(Str(s)) =>
      (match FindNumber(s)
       case None => Some(0.0)
       case Some(m) => Some(MatchValue(s, m)))
    case Some(Num(x)) => Some(x)
    case Some(Time(_)) => None
  }

  /** `str(n)` for a natural number. */
  function DecimalText(n: nat): (d: string)
    ensures |d| >= 1 && forall k :: 0 <= k < |d| ==> IsDigit(d[k])
  {
    if n < 10 then ['0' + n as char] else DecimalText(n / 10) + ['0' + (n % 10) as char]
  }

  lemma {:induction false} DecimalTextValue(n: nat)
    ensures DigitsValue(DecimalText(n)) == n
  {
    if n >= 10 {
      var d := DecimalText(n);
      assert d[..|d| - 1] == DecimalText(n / 10);
      DecimalTextValue(n / 10);
    }
  }

  /**
   * A natural number written out and followed by a unit that does not start
   * with a digit or a '.' (such as "%", "ms" or nothing) is read back as that
   * number: "45%" gives 45 and "120ms" gives 120.
   */
  lemma ExtractWrittenNumber(n: nat, unit: string)
    requires unit == [] || (!IsDigit(unit[0]) && unit[0] != '.')
    ensures SafeExtractNumber(Some(Str(DecimalText(n) + unit))) == Some(n as real)
  {
    var d := DecimalText(n);
    var s := d + unit;
    var m := NumberMatch(0, |d|, |d|);
    assert IsFirstMatch(s, m) by {
      assert forall k :: 0 <= k < |d| ==> s[k] == d[k];
    }
    var found := FindNumber(s).value;
    FirstMatchUnique(s, found, m);
    assert s[0..|d|] == d;
    DecimalTextValue(n);
  }

  /** In digits, '.', digits and a tail that does not start with a digit, the match is the whole numeral. */
  lemma DecimalIsFirstMatch(d: string, f: string, unit: string)
    requires |d| >= 1 && forall k :: 0 <= k < |d| ==> IsDigit(d[k])
    requires |f| >= 1 && forall k :: 0 <= k < |f| ==> IsDigit(f[k])
    requires unit == [] || !IsDigit(unit[0])
    ensures FindNumber(d + "." + f + unit) == Some(NumberMatch(0, |d|, |d| + 1 + |f|))
  {
    var s := d + "." + f + unit;
    var m := NumberMatch(0, |d|, |d| + 1 + |f|);
    assert forall k :: 0 <= k < |d| ==> s[k] == d[k];
    assert s[|d|] == '.';
    assert forall k :: |d| + 1 <= k < |d| + 1 + |f| ==> s[k] == f[k - |d| - 1];
    if |unit| > 0 {
      assert s[|d| + 1 + |f|] == unit[0];
    }
    assert IsFirstMatch(s, m);
    FirstMatchUnique(s, FindNumber(s).value, m);
  }

  /**
   * A decimal numeral with a fraction, followed by a unit that does not start
   * with a digit, is read back as its value: "12.25ms" gives 12 + 25/100.
   */
  lemma ExtractWrittenDecimal(n: nat, f: string, unit: string)
    requires |f| >= 1 && forall k :: 0 <= k < |f| ==> IsDigit(f[k])
    requires unit == [] || !IsDigit(unit[0])
    ensures SafeExtractNumber(Some(Str(DecimalText(n) + "." + f + unit))) == Some(n as real + FractionValue(f))
  {
    var d := DecimalText(n);
    var s := d + "." + f + unit;
    var m := NumberMatch(0, |d|, |d| + 1 + |f|);
    DecimalIsFirstMatch(d, f, unit);
    DecimalTextValue(n);
    var x := MatchValue(s, m);
    assert x == n as real + FractionValue(f) by {
      assert s[m.start..m.point] == d;
      assert s[m.point + 1..m.end] == f;
    }
    assert SafeExtractNumber(Some(Str(s))) == Some(x);
  }

  lemma ExtractSignIgnored()
    ensures SafeExtractNumber(Some(Str("-5"))) == Some(5.0)
  {
    var m := NumberMatch(1, 2, 2);
    assert IsFirstMatch("-5", m);
    FirstMatchUnique("-5", FindNumber("-5").value, m);
    assert "-5"[1..2] == ['5'];
    assert DigitsValue(['5']) == 5 by {
      assert ['5'][..0] == [];
    }
  }

  lemma ExtractNoDigits()
    ensures SafeExtractNumber(Some(Str("abc"))) == Some(0.0)
  {
    assert FindNumber("abc").None? by {
      assert forall k :: 0 <= k < 3 ==> !IsDigit("abc"[k]);
    }
  }

  lemma ExtractFraction()
    ensures SafeExtractNumber(Some(Str("1.5ms"))) == Some(1.5)
  {
    var f := NumberMatch(0, 1, 3);
    assert IsFirstMatch("1.5ms", f);
    FirstMatchUnique("1.5ms", FindNumber("1.5ms").value, f);
    assert "1.5ms"[0..1] == ['1'] && "1.5ms"[2..3] == ['5'];
    assert DigitsValue(['1']) == 1 && DigitsValue(['5']) == 5 by {
      assert ['1'][..0] == [] && ['5'][..0] == [];
    }
  }

  /** Only the digits are read: "-5" gives 5, "abc" gives 0 and "1.5ms" gives 1.5. */
  lemma ExtractExamples()
    ensures SafeExtractNumber(Some(Str("-5"))) == Some(5.0)
    ensures SafeExtractNumber(Some(Str("abc"))) == Some(0.0)
    ensures SafeExtractNumber(Some(Str("1.5ms"))) == Some(1.5)
  {
    ExtractSignIgnored();
    ExtractNoDigits();
    ExtractFraction();
  }

  // ---------------------------------------------------------------------------
  // Columns of the DataFrame built from the batch.
  // ---------------------------------------------------------------------------

  /** Whether the DataFrame has the column: some record has the key. */
  predicate HasColumn(logs: seq<Record>, key: string) {
    exists i :: 0 <= i < |logs| && key in logs[i]
  }

  /** Some record holds a string in the column. */
  predicate HasStringCell(logs: seq<Record>, key: string) {
    exists i :: 0 <= i < |logs| && key in logs[i] && logs[i][key].Str?
  }

  /** Some record holds a number in the column. */
  predicate HasNumberCell(logs: seq<Record>, key: string) {
    exists i :: 0 <= i < |logs| && key in logs[i] && logs[i][key].Num?
  }

  /** Some record holds a Timestamp in the column. */
  predicate HasTimeCell(logs: seq<Record>, key: string) {
    exists i :: 0 <= i < |logs| && key in logs[i] && logs[i][key].Time?
  }

  /**
   * Whether the `.str` accessor accepts the column: only an object column
   * does. A string anywhere makes the column object dtype; so does a mix of
   * numbers and Timestamps. Numbers and NaN alone give a float column, and
   * Timestamps and NaN alone a datetime column, and `.str` raises on both.
   */
  predicate StrAccepts(logs: seq<Record>, key: string) {
    HasStringCell(logs, key) || (HasNumberCell(logs, key) && HasTimeCell(logs, key))
  }

  /** A column holding a number in one record and a Timestamp in another is accepted. */
  lemma MixedColumnAccepted(logs: seq<Record>, key: string, i: nat, j: nat)
    requires i < |logs| && j < |logs| && key in logs[i] && key in logs[j]
    requires logs[i][key].Num? && logs[j][key].Time?
    ensures StrAccepts(logs, key)
  {
    assert HasNumberCell(logs, key);
    assert HasTimeCell(logs, key);
  }

  /** `column.str.rstrip(chars).apply(safe_extract_number)` at one cell: a non-string becomes NaN, hence 0. */
  function StrippedNumber(v: Option<Field>, chars: set<char>): (x: real)
    ensures x >= 0.0
    ensures !(v.Some? && v.value.Str?) ==> x == 0.0
  {
    match v
    case Some(Str(s)) => SafeExtractNumber(Some(Str(RStrip(s, chars)))).value
    case _ => 0.0
  }

  /**
   * A written number followed by unit characters that are all stripped is read
   * as that number: "45%" stripped of '%' gives 45, "120ms" stripped of 'm'
   * and 's' gives 120.
   */
  lemma StrippedWrittenNumber(n: nat, unit: string, chars: set<char>)
    requires forall c :: c in chars ==> !IsDigit(c)
    requires forall k :: 0 <= k < |unit| ==> unit[k] in chars
    ensures StrippedNumber(Some(Str(DecimalText(n) + unit)), chars) == n as real
  {
    var d := DecimalText(n);
    assert IsDigit(d[|d| - 1]);
    RStripSuffix(d, unit, chars);
    ExtractWrittenNumber(n, []);
    assert d + [] == d;
  }

  // ---------------------------------------------------------------------------
  // Categorical codes: `pd.Categorical(column).codes`.
  // ---------------------------------------------------------------------------

  /** The distinct non-missing values of a column. */
  function Categories(logs: seq<Record>, key: string): set<Field>
  {
    set i | 0 <= i < |logs| && key in logs[i] && !logs[i][key].NaN? :: logs[i][key]
  }

  /**
   * The order pandas sorts categories in: numbers (and Timestamps) by value
   * before strings, strings in code-point order.  Numbers and Timestamps
   * cannot be compared with each other.
   */
  predicate SortBefore(a: Field, b: Field) {
    match (a, b)
    case (Num(x), Num(y)) => x < y
    case (Time(s), Time(t)) => s < t
    case (Str(x), Str(y)) => LexLess(x, y)
    case (Num(_), Str(_)) => true
    case (Time(_), Str(_)) => true
    case _ => false
  }

  /** Sorting fails (TypeError) when a column mixes numbers and Timestamps. */
  predicate Sortable(cats: set<Field>) {
    !((exists a :: a in cats && a.Num?) && (exists b :: b in cats && b.Time?))
  }

  /** The index of the first record whose cell is `v`. */
  function FirstSeen(logs: seq<Record>, key: string, v: Field): (i: nat)
    requires v in Categories(logs, key)
    ensures i < |logs| && key in logs[i] && logs[i][key] == v
    ensures forall j :: 0 <= j < i ==> !(key in logs[j] && logs[j][key] == v)
  {
    if key in logs[0] && logs[0][key] == v then 0
    else
      assert v in Categories(logs[1..], key) by {
        var i :| 0 <= i < |logs| && key in logs[i] && !logs[i][key].NaN? && logs[i][key] == v;
        assert logs[1..][i - 1] == logs[i];
      }
      FirstSeen(logs[1..], key, v) + 1
  }

  /**
   * The order of the categories: sorted when pandas can sort them, otherwise
   * (pandas catches the TypeError and factorizes unsorted) order of first appearance.
   */
  predicate CategoryBefore(logs: seq<Record>, key: string, a: Field, b: Field)
    requires a in Categories(logs, key) && b in Categories(logs, key)
  {
    if Sortable(Categories(logs, key)) then SortBefore(a, b)
    else FirstSeen(logs, key, a) < FirstSeen(logs, key, b)
  }

  /** The code of a cell: -1 when missing, otherwise the number of categories before it. */
  function CategoryCode(logs: seq<Record>, key: string, v: Option<Field>): (c: int)
    requires !IsMissing(v) ==> v.value in Categories(logs, key)
    ensures c == -1 <==> IsMissing(v)
  {
    if IsMissing(v) then -1
    else |set w | w in Categories(logs, key) && CategoryBefore(logs, key, w, v.value)|
  }

  lemma SortBeforeIsStrictOrder(cats: set<Field>, a: Field, b: Field, c: Field)
    requires Sortable(cats) && a in cats && b in cats && c in cats
    requires !a.NaN? && !b.NaN? && !c.NaN?
    ensures !SortBefore(a, a)
    ensures SortBefore(a, b) && SortBefore(b, c) ==> SortBefore(a, c)
    ensures a != b ==> SortBefore(a, b) || SortBefore(b, a)
  {
    if a.Str? {
      LexLessIrreflexive(a.s);
      if b.Str? && c.Str? && SortBefore(a, b) && SortBefore(b, c) {
        LexLessTransitive(a.s, b.s, c.s);
      }
      if b.Str? && a != b {
        LexLessTotal(a.s, b.s);
      }
    }
  }

  /** The category order is a strict total order on the categories. */
  lemma CategoryOrder(logs: seq<Record>, key: string, a: Field, b: Field, c: Field)
    requires a in Categories(logs, key) && b in Categories(logs, key) && c in Categories(logs, key)
    ensures !CategoryBefore(logs, key, a, a)
    ensures CategoryBefore(logs, key, a, b) && CategoryBefore(logs, key, b, c) ==> CategoryBefore(logs, key, a, c)
    ensures a != b ==> CategoryBefore(logs, key, a, b) || CategoryBefore(logs, key, b, a)
  {
    var cats := Categories(logs, key);
    if Sortable(cats) {
      SortBeforeIsStrictOrder(cats, a, b, c);
    } else if a != b {
      var i, j := FirstSeen(logs, key, a), FirstSeen(logs, key, b);
      assert i != j;
    }
  }

  lemma {:induction false} SubsetNoLarger<T>(a: set<T>, b: set<T>)
    requires a <= b
    ensures |a| <= |b|
    decreases |a|
  {
    if a != {} {
      var x :| x in a;
      SubsetNoLarger(a - {x}, b - {x});
    }
  }

  lemma ProperSubsetSmaller<T>(a: set<T>, b: set<T>)
    requires a < b
    ensures |a| < |b|
  {
    assert b - a != {};
    var x :| x in b - a;
    SubsetNoLarger(a, b - {x});
  }

  /** The set of categories ordered before `v`; its size is the code of `v`. */
  function Below(logs: seq<Record>, key: string, v: Field): (r: set<Field>)
    requires v in Categories(logs, key)
    ensures !v.NaN? && CategoryCode(logs, key, Some(v)) == |r|
  {
    set w | w in Categories(logs, key) && CategoryBefore(logs, key, w, v)
  }

  lemma CodeInRange(logs: seq<Record>, key: string, a: Field)
    requires a in Categories(logs, key)
    ensures 0 <= CategoryCode(logs, key, Some(a)) < |Categories(logs, key)|
  {
    CategoryOrder(logs, key, a, a, a);
    assert Below(logs, key, a) < Categories(logs, key) by {
      assert a !in Below(logs, key, a);
    }
    ProperSubsetSmaller(Below(logs, key, a), Categories(logs, key));
  }

  lemma CodeMonotone(logs: seq<Record>, key: string, a: Field, b: Field)
    requires a in Categories(logs, key) && b in Categories(logs, key)
    requires CategoryBefore(logs, key, a, b)
    ensures CategoryCode(logs, key, Some(a)) < CategoryCode(logs, key, Some(b))
  {
    var below, belowB := Below(logs, key, a), Below(logs, key, b);
    forall w | w in below ensures w in belowB {
      CategoryOrder(logs, key, w, a, b);
    }
    CategoryOrder(logs, key, a, a, a);
    assert a in belowB && a !in below;
    assert below < belowB;
    ProperSubsetSmaller(below, belowB);
  }

  /**
   * Codes are the positions in the category order: each code lies in
   * [0, number of categories), an earlier category has a smaller code, and so
   * equal cells get equal codes and different cells different codes.
   */
  lemma CategoryCodesArePositions(logs: seq<Record>, key: string, a: Field, b: Field)
    requires a in Categories(logs, key) && b in Categories(logs, key)
    ensures 0 <= CategoryCode(logs, key, Some(a)) < |Categories(logs, key)|
    ensures CategoryBefore(logs, key, a, b) ==> CategoryCode(logs, key, Some(a)) < CategoryCode(logs, key, Some(b))
    ensures CategoryCode(logs, key, Some(a)) == CategoryCode(logs, key, Some(b)) <==> a == b
  {
    CodeInRange(logs, key, a);
    if CategoryBefore(logs, key, a, b) {
      CodeMonotone(logs, key, a, b);
    }
    if a != b {
      CategoryOrder(logs, key, a, b, a);
      if CategoryBefore(logs, key, b, a) {
        CodeMonotone(logs, key, b, a);
      } else {
        CodeMonotone(logs, key, a, b);
      }
    }
  }

  // ---------------------------------------------------------------------------
  // The feature table.
  // ---------------------------------------------------------------------------

  /** One row of the table `_prepare_features` returns. */
  datatype FeatureRow = FeatureRow(
    levelCode: int, serviceCode: int,
    cpuUsage: real, memoryUsage: real, responseTime: real, executionTime: real,
    hasError: int, isBlocked: int)

  /** The columns of the table, in order. */
  const FeatureNames: seq<string> := [
    "level_code", "service_code", "cpu_usage", "memory_usage",
    "response_time", "execution_time", "has_error", "is_blocked"]

  const RequiredColumns: seq<string> := ["timestamp", "level", "service", "message"]

  const ErrorLevels: set<string> := {"ERROR", "CRITICAL", "WARNING"}

  datatype FeatureError =
    | MissingColumns(names: seq<string>)  // ValueError("Missing required columns: ...")
    | NoColumn(name: string)              // KeyError: no record has the key
    | NotNumeric(name: string)            // TypeError: float() of a Timestamp
    | NotStrings(name: string)            // AttributeError: `.str` on a column that is not of object dtype

  /** `X.iloc[idx].to_dict()`: the row as (column name, value) pairs in column order. */
  function NamedFeatures(f: FeatureRow): (named: seq<(string, real)>)
    ensures |named| == |FeatureNames| == 8
    ensures forall k :: 0 <= k < 8 ==> named[k].0 == FeatureNames[k]
  {
    [("level_code", f.levelCode as real), ("service_code", f.serviceCode as real),
     ("cpu_usage", f.cpuUsage), ("memory_usage", f.memoryUsage),
     ("response_time", f.responseTime), ("execution_time", f.executionTime),
     ("has_error", f.hasError as real), ("is_blocked", f.isBlocked as real)]
  }

  /** The names in `cols` that no record of the batch has, in the order of `cols`. */
  function MissingOf(logs: seq<Record>, cols: seq<string>): (m: seq<string>)
    ensures forall c :: c in m <==> c in cols && !HasColumn(logs, c)
  {
    if cols == [] then []
    else (if HasColumn(logs, cols[0]) then [] else [cols[0]]) + MissingOf(logs, cols[1..])
  }

  /** In an empty batch every column is missing. */
  lemma {:induction false} MissingOfEmpty(logs: seq<Record>, cols: seq<string>)
    requires |logs| == 0
    ensures MissingOf(logs, cols) == cols
  {
    if cols != [] {
      MissingOfEmpty(logs, cols[1..]);
    }
  }

  /** No cell of the column is a Timestamp, so `float()` accepts every cell. */
  predicate Numeric(logs: seq<Record>, key: string) {
    forall i :: 0 <= i < |logs| && key in logs[i] ==> !logs[i][key].Time?
  }

  /** A cell that is present and not NaN is one of its column's categories. */
  lemma CellIsCategory(logs: seq<Record>, i: nat, key: string)
    requires i < |logs|
    ensures !IsMissing(Get(logs[i], key)) ==> Get(logs[i], key).value in Categories(logs, key)
  {
  }

  /** The category code of record `i`'s cell in column `key`. */
  function CellCode(logs: seq<Record>, i: nat, key: string): int
    requires i < |logs|
  {
    CellIsCategory(logs, i, key);
    CategoryCode(logs, key, Get(logs[i], key))
  }

  /** The features of record `i` of the batch. */
  function Row(logs: seq<Record>, i: nat): FeatureRow
    requires i < |logs| && Numeric(logs, "cpu_usage")
  {
    var level := Get(logs[i], "level");
    var message := Get(logs[i], "message");
    FeatureRow(
      CellCode(logs, i, "level"),
      CellCode(logs, i, "service"),
      SafeExtractNumber(Get(logs[i], "cpu_usage")).value,
      StrippedNumber(Get(logs[i], "memory_usage"), {'%'}),
      StrippedNumber(Get(logs[i], "response_time"), {'m', 's'}),
      StrippedNumber(Get(logs[i], "execution_time"), {'m', 's'}),
      if level.Some? && level.value.Str? && level.value.s in ErrorLevels then 1 else 0,
      if message.Some? && message.value.Str? && ContainsIgnoreCase(message.value.s, "blocked") then 1 else 0)
  }

  /** The batch is not empty and has every required column, so the check at line 19 passes. */
  predicate ColumnsPresent(logs: seq<Record>) {
    |logs| > 0 && MissingOf(logs, RequiredColumns) == []
  }

  /** Past the column check, `cpu_usage` exists and every cell of it goes through `float()`. */
  predicate CpuReadable(logs: seq<Record>) {
    ColumnsPresent(logs) && HasColumn(logs, "cpu_usage") && Numeric(logs, "cpu_usage")
  }

  /** Each column read through `.str` holds at least one string. */
  predicate StringsReadable(logs: seq<Record>) {
    && StrAccepts(logs, "memory_usage") && StrAccepts(logs, "response_time")
    && StrAccepts(logs, "execution_time") && StrAccepts(logs, "message")
  }

  /**
   * `_prepare_features`: the required-column check, then the columns in the
   * order the source computes them, each of which can raise.
   */
  function PrepareFeatures(logs: seq<Record>): (r: Result<seq<FeatureRow>, FeatureError>)
    ensures r.Ok? <==> CpuReadable(logs) && StringsReadable(logs)
    ensures r == Err(NoColumn("cpu_usage")) <==> ColumnsPresent(logs) && !HasColumn(logs, "cpu_usage")
    ensures r == Err(NotNumeric("cpu_usage")) <==>
      ColumnsPresent(logs) && HasColumn(logs, "cpu_usage") && !Numeric(logs, "cpu_usage")
    ensures r == Err(NoColumn("memory_usage")) <==> CpuReadable(logs) && !HasColumn(logs, "memory_usage")
    ensures r == Err(NotStrings("memory_usage")) <==>
      CpuReadable(logs) && HasColumn(logs, "memory_usage") && !StrAccepts(logs, "memory_usage")
    ensures r == Err(NoColumn("response_time")) <==>
      CpuReadable(logs) && StrAccepts(logs, "memory_usage") && !HasColumn(logs, "response_time")
    ensures r == Err(NotStrings("response_time")) <==>
      && CpuReadable(logs) && StrAccepts(logs, "memory_usage")
      && HasColumn(logs, "response_time") && !StrAccepts(logs, "response_time")
    ensures r == Err(NoColumn("execution_time")) <==>
      && CpuReadable(logs) && StrAccepts(logs, "memory_usage") && StrAccepts(logs, "response_time")
      && !HasColumn(logs, "execution_time")
    ensures r == Err(NotStrings("execution_time")) <==>
      && CpuReadable(logs) && StrAccepts(logs, "memory_usage") && StrAccepts(logs, "response_time")
      && HasColumn(logs, "execution_time") && !StrAccepts(logs, "execution_time")
    ensures r == Err(NotStrings("message")) <==>
      && CpuReadable(logs) && StrAccepts(logs, "memory_usage") && StrAccepts(logs, "response_time")
      && StrAccepts(logs, "execution_time") && !StrAccepts(logs, "message")
    ensures r.Err? && r.error.MissingColumns? <==> exists c :: c in RequiredColumns && !HasColumn(logs, c)
    ensures r.Err? && r.error.MissingColumns? ==>
      forall c :: c in r.error.names <==> c in RequiredColumns && !HasColumn(logs, c)
    ensures |logs| == 0 ==> r == Err(MissingColumns(RequiredColumns))
    ensures r.Ok? ==> Numeric(logs, "cpu_usage") && |r.value| == |logs|
    ensures r.Ok? ==> forall i :: 0 <= i < |logs| ==> r.value[i] == Row(logs, i)
  {
    var missing := MissingOf(logs, RequiredColumns);
    if |logs| == 0 then
      MissingOfEmpty(logs, RequiredColumns);
      Err(MissingColumns(missing))
    else if missing != [] then
      assert missing[0] in missing;
      Err(MissingColumns(missing))
    else if !HasColumn(logs, "cpu_usage") then Err(NoColumn("cpu_usage"))
    else if !Numeric(logs, "cpu_usage") then Err(NotNumeric("cpu_usage"))
    else if !HasColumn(logs, "memory_usage") then Err(NoColumn("memory_usage"))
    else if !StrAccepts(logs, "memory_usage") then Err(NotStrings("memory_usage"))
    else if !HasColumn(logs, "response_time") then Err(NoColumn("response_time"))
    else if !StrAccepts(logs, "response_time") then Err(NotStrings("response_time"))
    else if !HasColumn(logs, "execution_time") then Err(NoColumn("execution_time"))
    else if !StrAccepts(logs, "execution_time") then Err(NotStrings("execution_time"))
    else if !StrAccepts(logs, "message") then Err(NotStrings("message"))
    else Ok(seq(|logs|, i requires 0 <= i < |logs| => Row(logs, i)))
  }

  /**
   * A batch shaped like the generated logs is accepted: its first record has
   * the required columns, `cpu_usage`, and strings in the four columns read
   * through `.str`, and no `cpu_usage` cell is a Timestamp.
   */
  lemma PrepareAcceptsGeneratedShape(logs: seq<Record>)
    requires |logs| > 0 && Numeric(logs, "cpu_usage") && "cpu_usage" in logs[0]
    requires forall c :: c in RequiredColumns ==> c in logs[0]
    requires "memory_usage" in logs[0] && logs[0]["memory_usage"].Str?
    requires "response_time" in logs[0] && logs[0]["response_time"].Str?
    requires "execution_time" in logs[0] && logs[0]["execution_time"].Str?
    requires "message" in logs[0] && logs[0]["message"].Str?
    ensures PrepareFeatures(logs).Ok? && |PrepareFeatures(logs).value| == |logs|
  {
    var m := MissingOf(logs, RequiredColumns);
    forall c | c in RequiredColumns
      ensures HasColumn(logs, c)
    {
      assert c in logs[0];
    }
    assert forall k :: 0 <= k < |m| ==> m[k] in m;
    assert HasColumn(logs, "cpu_usage") by {
      assert "cpu_usage" in logs[0];
    }
  }

  /**
   * A batch whose `memory_usage` is a number in one record and a Timestamp in
   * the other, and holds no string, still builds: the column is of object
   * dtype, and `.str.rstrip` turns both cells into NaN, so 0.
   */
  lemma MixedMemoryColumnBuilds(base: Record)
    requires forall c :: c in RequiredColumns ==> c in base
    requires "cpu_usage" in base && base["cpu_usage"].Num?
    requires "response_time" in base && base["response_time"].Str?
    requires "execution_time" in base && base["execution_time"].Str?
    requires "message" in base && base["message"].Str?
    ensures var logs := [base["memory_usage" := Num(50.0)], base["memory_usage" := Time(5)]];
      && !HasStringCell(logs, "memory_usage")
      && PrepareFeatures(logs).Ok? && |PrepareFeatures(logs).value| == 2
      && PrepareFeatures(logs).value[0].memoryUsage == 0.0 && PrepareFeatures(logs).value[1].memoryUsage == 0.0
  {
    var logs := [base["memory_usage" := Num(50.0)], base["memory_usage" := Time(5)]];
    MixedColumnAccepted(logs, "memory_usage", 0, 1);
    forall c | c in RequiredColumns
      ensures HasColumn(logs, c)
    {
      assert c in logs[0];
    }
    var m := MissingOf(logs, RequiredColumns);
    assert forall k :: 0 <= k < |m| ==> m[k] in m;
    assert HasColumn(logs, "cpu_usage") by {
      assert "cpu_usage" in logs[0];
    }
    assert Numeric(logs, "cpu_usage") by {
      forall i | 0 <= i < |logs| && "cpu_usage" in logs[i]
        ensures !logs[i]["cpu_usage"].Time?
      {
        assert logs[i]["cpu_usage"] == base["cpu_usage"];
      }
    }
    assert HasStringCell(logs, "response_time") by {
      assert logs[0]["response_time"] == base["response_time"];
    }
    assert HasStringCell(logs, "execution_time") by {
      assert logs[0]["execution_time"] == base["execution_time"];
    }
    assert HasStringCell(logs, "message") by {
      assert logs[0]["message"] == base["message"];
    }
  }

  /**
   * What each column of a row means: the two flags are 0/1 and say whether the
   * level is ERROR, CRITICAL or WARNING and whether the message contains
   * "blocked" in any letter case; a code is -1 exactly for a missing cell and
   * otherwise a position among the column's categories; the three stripped
   * measurements are never negative and are 0 for a cell that is not a string.
   */
  lemma RowMeaning(logs: seq<Record>, i: nat)
    requires i < |logs| && Numeric(logs, "cpu_usage")
    ensures var f := Row(logs, i);
      && (f.hasError == 1 <==> "level" in logs[i] && logs[i]["level"].Str? && logs[i]["level"].s in ErrorLevels)
      && (f.hasError == 0 || f.hasError == 1)
      && (f.isBlocked == 1 <==> "message" in logs[i] && logs[i]["message"].Str?
                                 && exists k :: MatchesAt(logs[i]["message"].s, "blocked", k))
      && (f.isBlocked == 0 || f.isBlocked == 1)
      && (f.levelCode == -1 <==> IsMissing(Get(logs[i], "level")))
      && -1 <= f.levelCode < |Categories(logs, "level")|
      && (f.serviceCode == -1 <==> IsMissing(Get(logs[i], "service")))
      && -1 <= f.serviceCode < |Categories(logs, "service")|
      && f.cpuUsage == SafeExtractNumber(Get(logs[i], "cpu_usage")).value
      && f.memoryUsage >= 0.0 && f.responseTime >= 0.0 && f.executionTime >= 0.0
  {
    CellIsCategory(logs, i, "level");
    CellIsCategory(logs, i, "service");
    if !IsMissing(Get(logs[i], "level")) {
      CodeInRange(logs, "level", Get(logs[i], "level").value);
    }
    if !IsMissing(Get(logs[i], "service")) {
      CodeInRange(logs, "service", Get(logs[i], "service").value);
    }
  }

  /** Within one batch two records get the same level code exactly when their level cells agree
      (both missing, or the same value); likewise for the service code. */
  lemma SameCodeIffSameCell(logs: seq<Record>, i: nat, j: nat, key: string)
    requires i < |logs| && j < |logs|
    ensures CellCode(logs, i, key) == CellCode(logs, j, key)
      <==> (IsMissing(Get(logs[i], key)) && IsMissing(Get(logs[j], key))) || Get(logs[i], key) == Get(logs[j], key)
  {
    CellIsCategory(logs, i, key);
    CellIsCategory(logs, j, key);
    var a, b := Get(logs[i], key), Get(logs[j], key);
    if !IsMissing(a) && !IsMissing(b) {
      CategoryCodesArePositions(logs, key, a.value, b.value);
    } else if !IsMissing(a) {
      CodeInRange(logs, key, a.value);
    } else if !IsMissing(b) {
      CodeInRange(logs, key, b.value);
    }
  }

  /** A memory cell "abc%" has no number: its feature is 0. */
  lemma UnparseableMemoryIsZero()
    ensures StrippedNumber(Some(Str("abc%")), {'%'}) == 0.0
  {
    assert RStrip("abc%", {'%'}) == "abc" by {
      assert "abc%"[..3] == "abc";
    }
    assert FindNumber("abc").None? by {
      assert forall k :: 0 <= k < 3 ==> !IsDigit("abc"[k]);
    }
  }
}
