/**
 * The admin backend's metric routes: the date conversions, the choice of the date
 * filter, and the grouping of an app's invocation logs by model and of its jobs by
 * status.  The DynamoDB query is a parameter: the items it returns, in order.
 */
module MetricRoutes {
  import Text
  import opened Wrappers

  // ---------------------------------------------------------------------
  // Calendar dates and their texts.
  // ---------------------------------------------------------------------

  predicate IsDigits(s: string)
  {
    forall i :: 0 <= i < |s| ==> '0' <= s[i] <= '9'
  }

  /** Python's int() of a part, restricted to non-empty runs of decimal digits. */
  predicate IsNumeral(s: string)
  {
    |s| > 0 && IsDigits(s)
  }

  function Pow10(k: nat): (r: nat)
    ensures r >= 1
  {
    if k == 0 then 1 else 10 * Pow10(k - 1)
  }

  function Zeros(n: nat): (r: string)
    ensures |r| == n && forall i :: 0 <= i < n ==> r[i] == '0'
  {
    seq(n, _ => '0')
  }

  /** `%0<width>d`: the decimal digits of n, zero-padded on the left to at least width. */
  function Pad(n: nat, width: nat): (r: string)
    ensures IsDigits(r) && |r| >= width
  {
    var ds := Text.Decimal(n);
    if |ds| >= width then ds else Zeros(width - |ds|) + ds
  }

  lemma {:induction false} DecimalLength(n: nat, w: nat)
    requires 1 <= w && n < Pow10(w)
    ensures |Text.Decimal(n)| <= w
  {
    if n >= 10 {
      DecimalLength(n / 10, w - 1);
    }
  }

  /** A number below 10^w pads to exactly w digits. */
  lemma PadLength(n: nat, w: nat)
    requires 1 <= w && n < Pow10(w)
    ensures |Pad(n, w)| == w
  {
    DecimalLength(n, w);
  }

  lemma {:induction false} ZerosValue(k: nat)
    ensures Text.DecimalValue(Zeros(k)) == 0
  {
    if k > 0 {
      ZerosValue(k - 1);
      assert Zeros(k)[..k - 1] == Zeros(k - 1);
    }
  }

  lemma {:induction false} LeadingZeros(k: nat, ds: string)
    requires IsDigits(ds)
    ensures Text.DecimalValue(Zeros(k) + ds) == Text.DecimalValue(ds)
  {
    if ds == [] {
      assert Zeros(k) + ds == Zeros(k);
      ZerosValue(k);
    } else {
      var last := |ds| - 1;
      LeadingZeros(k, ds[..last]);
      assert (Zeros(k) + ds)[..k + last] == Zeros(k) + ds[..last];
    }
  }

  /** Reading a padded number back gives the number. */
  lemma PadValue(n: nat, w: nat)
    ensures Text.DecimalValue(Pad(n, w)) == n
  {
    Text.DecimalRoundTrip(n);
    var ds := Text.Decimal(n);
    if |ds| < w {
      LeadingZeros(w - |ds|, ds);
    }
  }

  predicate IsLeap(y: int)
  {
    y % 4 == 0 && (y % 100 != 0 || y % 400 == 0)
  }

  function DaysInMonth(y: int, m: int): int
    requires 1 <= m <= 12
  {
    if m == 2 then (if IsLeap(y) then 29 else 28)
    else if m == 4 || m == 6 || m == 9 || m == 11 then 30
    else 31
  }

  /** A date Python's datetime accepts. */
  predicate ValidDate(y: int, m: int, d: int)
  {
    1 <= y <= 9999 && 1 <= m <= 12 && 1 <= d <= DaysInMonth(y, m)
  }

  /** The date written as `%Y-%m-%d`. */
  function DateText(y: nat, m: nat, d: nat): string
  {
    Pad(y, 4) + "-" + Pad(m, 2) + "-" + Pad(d, 2)
  }

  /** The three parts of a date text, each read back as its number. */
  lemma DateTextParts(y: nat, m: nat, d: nat)
    ensures Text.Split(DateText(y, m, d), '-') == [Pad(y, 4), Pad(m, 2), Pad(d, 2)]
    ensures Text.DecimalValue(Pad(y, 4)) == y && Text.DecimalValue(Pad(m, 2)) == m && Text.DecimalValue(Pad(d, 2)) == d
  {
    var py, pm, pd := Pad(y, 4), Pad(m, 2), Pad(d, 2);
    assert DateText(y, m, d) == py + ['-'] + (pm + ['-'] + pd);
    Text.SplitConcat(py, pm + ['-'] + pd, '-');
    Text.SplitConcat(pm, pd, '-');
    Text.SplitNoSep(py, '-');
    Text.SplitNoSep(pm, '-');
    Text.SplitNoSep(pd, '-');
    PadValue(y, 4);
    PadValue(m, 2);
    PadValue(d, 2);
  }

  // ---------------------------------------------------------------------
  // convert_to_iso8601
  // ---------------------------------------------------------------------

  function InvalidDate(s: string): HttpError
  {
    HttpError(400, "Invalid date format: " + s + ". Expected format is yyyy-dd-mm.")
  }

  /**
   * convert_to_iso8601: the first three '-'-separated parts are read as year, month and
   * day (whatever the route's comment says), and the date is written with a midnight
   * UTC time. Fewer than three parts, a non-numeric part or a date that does not exist is 400.
   */
  function ConvertToIso8601(s: string): (r: Result<string, HttpError>)
    ensures r.Err? ==> r.error == InvalidDate(s)
  {
    var parts := Text.Split(s, '-');
    if |parts| < 3 || !IsNumeral(parts[0]) || !IsNumeral(parts[1]) || !IsNumeral(parts[2]) then Err(InvalidDate(s))
    else
      var y, m, d := Text.DecimalValue(parts[0]), Text.DecimalValue(parts[1]), Text.DecimalValue(parts[2]);
      if !ValidDate(y, m, d) then Err(InvalidDate(s)) else Ok(DateText(y, m, d) + "T00:00:00Z")
  }

  /** A date-time as section 5.6 of RFC 3339 writes it, in UTC: `YYYY-MM-DDTHH:MM:SSZ`. */
  predicate IsRfc3339DateTime(t: string)
  {
    |t| == 20 && t[4] == '-' && t[7] == '-' && t[10] == 'T' && t[13] == ':' && t[16] == ':' && t[19] == 'Z'
    && IsDigits(t[0..4]) && IsDigits(t[5..7]) && IsDigits(t[8..10])
    && IsDigits(t[11..13]) && IsDigits(t[14..16]) && IsDigits(t[17..19])
  }

  /** A date with a four-digit year and two-digit month and day, at midnight UTC, is an RFC 3339 date-time. */
  lemma MidnightIsRfc3339(y: nat, m: nat, d: nat)
    requires y < 10000 && m < 100 && d < 100
    ensures IsRfc3339DateTime(DateText(y, m, d) + "T00:00:00Z")
  {
    assert Pow10(2) == 100 && Pow10(4) == 10000;
    PadLength(y, 4);
    PadLength(m, 2);
    PadLength(d, 2);
    MidnightShape(Pad(y, 4), Pad(m, 2), Pad(d, 2));
  }

  lemma MidnightShape(py: string, pm: string, pd: string)
    requires |py| == 4 && |pm| == 2 && |pd| == 2 && IsDigits(py) && IsDigits(pm) && IsDigits(pd)
    ensures IsRfc3339DateTime(py + "-" + pm + "-" + pd + "T00:00:00Z")
  {
    var t := py + "-" + pm + "-" + pd + "T00:00:00Z";
    assert t[0..4] == py && t[5..7] == pm && t[8..10] == pd;
    assert t[10..20] == "T00:00:00Z";
    assert t[11..13] == "00" && t[14..16] == "00" && t[17..19] == "00";
  }

  /** Every converted date is an RFC 3339 date-time. */
  lemma ConvertedIsRfc3339(s: string)
    ensures ConvertToIso8601(s).Ok? ==> IsRfc3339DateTime(ConvertToIso8601(s).value)
  {
    var parts := Text.Split(s, '-');
    if |parts| >= 3 && IsNumeral(parts[0]) && IsNumeral(parts[1]) && IsNumeral(parts[2]) {
      var y, m, d := Text.DecimalValue(parts[0]), Text.DecimalValue(parts[1]), Text.DecimalValue(parts[2]);
      if ValidDate(y, m, d) {
        MidnightIsRfc3339(y, m, d);
      }
    }
  }

  /**
   * A `%Y-%m-%d` text converts exactly when it names a real date, and then to that date at
   * midnight UTC. Read as the comment's yyyy-dd-mm, 2024-31-12 is therefore refused.
   */
  lemma ConvertDateText(y: nat, m: nat, d: nat)
    ensures ConvertToIso8601(DateText(y, m, d)).Ok? <==> ValidDate(y, m, d)
    ensures ValidDate(y, m, d) ==> ConvertToIso8601(DateText(y, m, d)) == Ok(DateText(y, m, d) + "T00:00:00Z")
  {
    DateTextParts(y, m, d);
  }

  // ---------------------------------------------------------------------
  // convert_to_dynamodb_timestamp and the date filter
  // ---------------------------------------------------------------------

  /**
   * strptime with `%Y-%m-%d`: a four-digit year, a one- or two-digit month 1..12 and day
   * 1..31, nothing else, and then a date datetime accepts. The error is the text of the
   * ValueError strptime raises.
   */
  function ParseYmd(s: string): (r: Result<(nat, nat, nat), string>)
    ensures r.Ok? ==> ValidDate(r.value.0, r.value.1, r.value.2)
  {
    var parts := Text.Split(s, '-');
    if |parts| != 3 || |parts[0]| != 4 || !IsDigits(parts[0])
       || !(1 <= |parts[1]| <= 2) || !IsDigits(parts[1]) || !(1 <= |parts[2]| <= 2) || !IsDigits(parts[2])
       || !(1 <= Text.DecimalValue(parts[1]) <= 12) || !(1 <= Text.DecimalValue(parts[2]) <= 31)
    then Err("time data '" + s + "' does not match format '%Y-%m-%d'")
    else
      var y, m, d := Text.DecimalValue(parts[0]), Text.DecimalValue(parts[1]), Text.DecimalValue(parts[2]);
      if y == 0 then Err("year 0 is out of range")
      else if !ValidDate(y, m, d) then Err("day is out of range for month")
      else Ok((y, m, d))
  }

  /** A valid date written `%Y-%m-%d` parses back to itself. */
  lemma ParseDateText(y: nat, m: nat, d: nat)
    requires ValidDate(y, m, d)
    ensures ParseYmd(DateText(y, m, d)) == Ok((y, m, d))
  {
    DateTextParts(y, m, d);
    PadLength(y, 4);
    PadLength(m, 2);
    PadLength(d, 2);
    DaysAtMost31(y, m);
    var parts := Text.Split(DateText(y, m, d), '-');
    assert |parts| == 3 && parts[0] == Pad(y, 4) && parts[1] == Pad(m, 2) && parts[2] == Pad(d, 2);
  }

  lemma DaysAtMost31(y: int, m: int)
    requires 1 <= m <= 12
    ensures DaysInMonth(y, m) <= 31
  {
  }

  /** convert_to_dynamodb_timestamp: the parsed date at midnight, with microseconds. */
  function ConvertToDynamoDbTimestamp(s: string): (r: Result<string, string>)
    ensures r.Ok? ==> exists y: nat, m: nat, d: nat :: ValidDate(y, m, d) && r.value == DateText(y, m, d) + "T00:00:00.000000"
    ensures r.Err? <==> ParseYmd(s).Err?
  {
    var ymd :- ParseYmd(s);
    Ok(DateText(ymd.0, ymd.1, ymd.2) + "T00:00:00.000000")
  }

  /** A valid date written `%Y-%m-%d` becomes that date at midnight with microseconds. */
  lemma TimestampOfDateText(y: nat, m: nat, d: nat)
    requires ValidDate(y, m, d)
    ensures ConvertToDynamoDbTimestamp(DateText(y, m, d)) == Ok(DateText(y, m, d) + "T00:00:00.000000")
  {
    ParseDateText(y, m, d);
  }

  /** A filter on one attribute of the queried items. */
  datatype DateFilter =
    | NoFilter
    | Between(field: string, low: string, high: string)
    | AtLeast(field: string, low: string)
    | AtMost(field: string, high: string)

  /**
   * The filter a metrics route builds: between when both dates are given, at least the
   * start or at most the end when only one is, none otherwise. The start is converted
   * first; a conversion error is the route's error.
   */
  function ChooseFilter(field: string, startDate: Option<string>, endDate: Option<string>): (r: Result<DateFilter, string>)
    ensures r.Ok? && TruthyString(startDate) && TruthyString(endDate) ==> r.value.Between?
    ensures r.Ok? && TruthyString(startDate) && !TruthyString(endDate) ==> r.value.AtLeast?
    ensures r.Ok? && !TruthyString(startDate) && TruthyString(endDate) ==> r.value.AtMost?
    ensures !TruthyString(startDate) && !TruthyString(endDate) ==> r == Ok(NoFilter)
    ensures r.Ok? && !r.value.NoFilter? ==> r.value.field == field
    ensures r.Ok? && (r.value.Between? || r.value.AtLeast?) ==>
      TruthyString(startDate) && ConvertToDynamoDbTimestamp(startDate.value) == Ok(r.value.low)
    ensures r.Ok? && (r.value.Between? || r.value.AtMost?) ==>
      TruthyString(endDate) && ConvertToDynamoDbTimestamp(endDate.value) == Ok(r.value.high)
    ensures r.Err? <==>
      (TruthyString(startDate) && ConvertToDynamoDbTimestamp(startDate.value).Err?) ||
      (TruthyString(endDate) && ConvertToDynamoDbTimestamp(endDate.value).Err?)
    ensures TruthyString(startDate) && ConvertToDynamoDbTimestamp(startDate.value).Err? ==>
      r == Err(ConvertToDynamoDbTimestamp(startDate.value).error)
    ensures (!(TruthyString(startDate) && ConvertToDynamoDbTimestamp(startDate.value).Err?) &&
             TruthyString(endDate) && ConvertToDynamoDbTimestamp(endDate.value).Err?) ==>
      r == Err(ConvertToDynamoDbTimestamp(endDate.value).error)
  {
    var low :- if TruthyString(startDate) then ConvertToDynamoDbTimestamp(startDate.value) else Ok("");
    var high :- if TruthyString(endDate) then ConvertToDynamoDbTimestamp(endDate.value) else Ok("");
    if TruthyString(startDate) && TruthyString(endDate) then Ok(Between(field, low, high))
    else if TruthyString(startDate) then Ok(AtLeast(field, low))
    else if TruthyString(endDate) then Ok(AtMost(field, high))
    else Ok(NoFilter)
  }

  /** The attribute filtered on: timestamp for logs and extraction/chunking jobs, created_at for vector stores and vectorization jobs. */
  datatype MetricsTable = Invocations | ExtractionJobs | ChunkingJobs | VectorStores | VectorizationJobs

  function FilterField(t: MetricsTable): (f: string)
    ensures t == Invocations || t == ExtractionJobs || t == ChunkingJobs ==> f == "timestamp"
    ensures t == VectorStores || t == VectorizationJobs ==> f == "created_at"
  {
    if t == VectorStores || t == VectorizationJobs then "created_at" else "timestamp"
  }

  /** DynamoDB's string order: lexicographic on characters. */
  predicate LexLe(a: string, b: string)
  {
    a == [] || (b != [] && (a[0] < b[0] || (a[0] == b[0] && LexLe(a[1..], b[1..]))))
  }

  /** Whether an item's attribute value passes the filter. */
  predicate Passes(f: DateFilter, value: string)
  {
    match f
    case NoFilter => true
    case Between(_, low, high) => LexLe(low, value) && LexLe(value, high)
    case AtLeast(_, low) => LexLe(low, value)
    case AtMost(_, high) => LexLe(value, high)
  }

  // ---------------------------------------------------------------------
  // get_invocations: grouping by model.
  // ---------------------------------------------------------------------

  /** An invocation log item as the query returns it. */
  datatype InvocationLog = InvocationLog(modelId: string, modelName: string, status: string, inputTokens: Option<int>, outputTokens: Option<int>)

  /** The per-model totals of get_invocations. */
  datatype ModelTotals = ModelTotals(totalCount: nat, totalInputTokens: int, totalOutputTokens: int, statusCounts: map<string, nat>, modelName: string)

  /** `int(v) if v else 0`: an absent or zero token count adds nothing. */
  function Tokens(v: Option<int>): int
  {
    if v.Some? then v.value else 0
  }

  /** The groups after one more log: its model's totals and status count go up. */
  function AddInvocation(groups: map<string, ModelTotals>, log: InvocationLog): map<string, ModelTotals>
  {
    var cur := if log.modelId in groups then groups[log.modelId] else ModelTotals(0, 0, 0, map[], "");
    var counts := cur.statusCounts;
    var n := if log.status in counts then counts[log.status] else 0;
    groups[log.modelId := ModelTotals(
      cur.totalCount + 1,
      cur.totalInputTokens + Tokens(log.inputTokens),
      cur.totalOutputTokens + Tokens(log.outputTokens),
      counts[log.status := n + 1],
      log.modelName)]
  }

  /** The groups of a sequence of logs, folded in query order. */
  function GroupedInvocations(logs: seq<InvocationLog>): map<string, ModelTotals>
  {
    if logs == [] then map[] else AddInvocation(GroupedInvocations(logs[..|logs| - 1]), logs[|logs| - 1])
  }

  /** The loop of get_invocations. */
  method GroupInvocations(logs: seq<InvocationLog>) returns (groups: map<string, ModelTotals>)
    ensures groups == GroupedInvocations(logs)
  {
    groups := map[];
    var i := 0;
    while i < |logs|
      invariant 0 <= i <= |logs|
      invariant groups == GroupedInvocations(logs[..i])
    {
      assert logs[..i + 1][..i] == logs[..i];
      groups := AddInvocation(groups, logs[i]);
      i := i + 1;
    }
    assert logs[..|logs|] == logs;
  }

  /** The model ids of the logs, in order. */
  function ModelIds(logs: seq<InvocationLog>): (r: seq<string>)
    ensures |r| == |logs| && forall i :: 0 <= i < |logs| ==> r[i] == logs[i].modelId
  {
    if logs == [] then [] else ModelIds(logs[..|logs| - 1]) + [logs[|logs| - 1].modelId]
  }

  /** The statuses of the logs of one model, in order. */
  function StatusesOf(logs: seq<InvocationLog>, m: string): seq<string>
  {
    if logs == [] then []
    else StatusesOf(logs[..|logs| - 1], m) + (if logs[|logs| - 1].modelId == m then [logs[|logs| - 1].status] else [])
  }

  /** The number of occurrences of k in xs. */
  function Occ(xs: seq<string>, k: string): nat
  {
    if xs == [] then 0 else Occ(xs[..|xs| - 1], k) + (if xs[|xs| - 1] == k then 1 else 0)
  }

  function InputSum(logs: seq<InvocationLog>, m: string): int
  {
    if logs == [] then 0
    else InputSum(logs[..|logs| - 1], m) + (if logs[|logs| - 1].modelId == m then Tokens(logs[|logs| - 1].inputTokens) else 0)
  }

  function OutputSum(logs: seq<InvocationLog>, m: string): int
  {
    if logs == [] then 0
    else OutputSum(logs[..|logs| - 1], m) + (if logs[|logs| - 1].modelId == m then Tokens(logs[|logs| - 1].outputTokens) else 0)
  }

  /** The model name of the last log of model m. */
  function LastName(logs: seq<InvocationLog>, m: string): string
  {
    if logs == [] then ""
    else if logs[|logs| - 1].modelId == m then logs[|logs| - 1].modelName
    else LastName(logs[..|logs| - 1], m)
  }

  /**
   * A model has a group exactly when some log is for it. Its total_count is its number of
   * logs, its token totals are sums, its model_name is the last one seen, and each status
   * count is the number of its logs with that status.
   */
  lemma {:induction false} GroupedFacts(logs: seq<InvocationLog>, m: string, s: string)
    ensures m in GroupedInvocations(logs) <==> m in ModelIds(logs)
    ensures m in GroupedInvocations(logs) ==>
      var g := GroupedInvocations(logs)[m];
      && g.totalCount == Occ(ModelIds(logs), m) == |StatusesOf(logs, m)|
      && g.totalInputTokens == InputSum(logs, m)
      && g.totalOutputTokens == OutputSum(logs, m)
      && g.modelName == LastName(logs, m)
      && (s in g.statusCounts <==> s in StatusesOf(logs, m))
      && (s in g.statusCounts ==> g.statusCounts[s] == Occ(StatusesOf(logs, m), s))
  {
    if logs != [] {
      var init := logs[..|logs| - 1];
      var last := logs[|logs| - 1];
      GroupedFacts(init, m, s);
      assert ModelIds(logs) == ModelIds(init) + [last.modelId];
      assert ModelIds(logs)[..|logs| - 1] == ModelIds(init);
      StatusesLength(init, m);
      if last.modelId == m {
        var st := StatusesOf(logs, m);
        assert st == StatusesOf(init, m) + [last.status];
        OccSnoc(StatusesOf(init, m), last.status, s);
        assert GroupedInvocations(logs) == AddInvocation(GroupedInvocations(init), last);
        var counts := GroupedInvocations(logs)[m].statusCounts;
        if m !in GroupedInvocations(init) {
          OccAbsent(ModelIds(init), m);
          EmptyTokenSums(init, m);
          assert StatusesOf(init, m) == [];
          assert counts == map[last.status := 1];
        } else {
          var old_counts := GroupedInvocations(init)[m].statusCounts;
          if s !in old_counts {
            OccAbsent(StatusesOf(init, m), s);
          }
        }
      } else {
        assert StatusesOf(logs, m) == StatusesOf(init, m);
      }
    }
  }

  /** Appending one item adds one occurrence exactly when it is the key. */
  lemma OccSnoc(xs: seq<string>, x: string, k: string)
    ensures Occ(xs + [x], k) == Occ(xs, k) + (if x == k then 1 else 0)
  {
    assert (xs + [x])[..|xs|] == xs;
  }

  /** A key that does not occur has count 0. */
  lemma {:induction false} OccAbsent(xs: seq<string>, k: string)
    requires k !in xs
    ensures Occ(xs, k) == 0
  {
    if xs != [] {
      assert xs[..|xs| - 1] <= xs;
      OccAbsent(xs[..|xs| - 1], k);
    }
  }

  lemma {:induction false} EmptyTokenSums(logs: seq<InvocationLog>, m: string)
    requires m !in ModelIds(logs)
    ensures InputSum(logs, m) == 0 && OutputSum(logs, m) == 0
  {
    if logs != [] {
      assert ModelIds(logs)[..|logs| - 1] == ModelIds(logs[..|logs| - 1]);
      EmptyTokenSums(logs[..|logs| - 1], m);
    }
  }

  /** A model has as many statuses as logs. */
  lemma {:induction false} StatusesLength(logs: seq<InvocationLog>, m: string)
    ensures |StatusesOf(logs, m)| == Occ(ModelIds(logs), m)
  {
    if logs != [] {
      StatusesLength(logs[..|logs| - 1], m);
      assert ModelIds(logs)[..|logs| - 1] == ModelIds(logs[..|logs| - 1]);
    }
  }

  /** The sum of the occurrence counts of the given keys. */
  function SumOcc(xs: seq<string>, keys: seq<string>): nat
  {
    if keys == [] then 0 else Occ(xs, keys[0]) + SumOcc(xs, keys[1..])
  }

  predicate Distinct(keys: seq<string>)
  {
    forall i, j :: 0 <= i < j < |keys| ==> keys[i] != keys[j]
  }

  lemma {:induction false} SumOccSnoc(xs: seq<string>, x: string, keys: seq<string>)
    requires Distinct(keys)
    ensures SumOcc(xs + [x], keys) == SumOcc(xs, keys) + (if x in keys then 1 else 0)
  {
    if keys != [] {
      assert (xs + [x])[..|xs + [x]| - 1] == xs;
      SumOccSnoc(xs, x, keys[1..]);
      assert x in keys[1..] ==> x != keys[0] by {
        if x in keys[1..] {
          var j :| 0 <= j < |keys[1..]| && keys[1..][j] == x;
          assert keys[j + 1] == x;
        }
      }
      assert x in keys <==> x == keys[0] || x in keys[1..] by {
        assert keys == [keys[0]] + keys[1..];
      }
    }
  }

  /**
   * Counting each of a list of distinct keys that covers every element counts every element
   * once: the total_count values sum to the number of logs, and a model's status counts sum
   * to its total_count.
   */
  lemma {:induction false} CountsCoverAll(xs: seq<string>, keys: seq<string>)
    requires Distinct(keys)
    requires forall x :: x in xs ==> x in keys
    ensures SumOcc(xs, keys) == |xs|
  {
    if xs == [] {
      EmptySumOcc(keys);
    } else {
      var init := xs[..|xs| - 1];
      assert xs == init + [xs[|xs| - 1]];
      CountsCoverAll(init, keys);
      SumOccSnoc(init, xs[|xs| - 1], keys);
    }
  }

  lemma {:induction false} EmptySumOcc(keys: seq<string>)
    ensures SumOcc([], keys) == 0
  {
    if keys != [] {
      EmptySumOcc(keys[1..]);
    }
  }

  /** The total_count values of the given models' groups, added up (0 for a model without a group). */
  function TotalCountSum(groups: map<string, ModelTotals>, models: seq<string>): nat
  {
    if models == [] then 0
    else (if models[0] in groups then groups[models[0]].totalCount else 0) + TotalCountSum(groups, models[1..])
  }

  /** The given statuses' counts, added up (0 for a status without a count). */
  function StatusCountSum(counts: map<string, nat>, statuses: seq<string>): nat
  {
    if statuses == [] then 0
    else (if statuses[0] in counts then counts[statuses[0]] else 0) + StatusCountSum(counts, statuses[1..])
  }

  lemma {:induction false} TotalCountSumIsOcc(logs: seq<InvocationLog>, models: seq<string>)
    ensures TotalCountSum(GroupedInvocations(logs), models) == SumOcc(ModelIds(logs), models)
  {
    if models != [] {
      TotalCountSumIsOcc(logs, models[1..]);
      GroupedFacts(logs, models[0], "");
      if models[0] !in GroupedInvocations(logs) {
        OccAbsent(ModelIds(logs), models[0]);
      }
    }
  }

  lemma {:induction false} StatusCountSumIsOcc(logs: seq<InvocationLog>, m: string, statuses: seq<string>)
    requires m in GroupedInvocations(logs)
    ensures StatusCountSum(GroupedInvocations(logs)[m].statusCounts, statuses) == SumOcc(StatusesOf(logs, m), statuses)
  {
    if statuses != [] {
      StatusCountSumIsOcc(logs, m, statuses[1..]);
      GroupedFacts(logs, m, statuses[0]);
      if statuses[0] !in GroupedInvocations(logs)[m].statusCounts {
        OccAbsent(StatusesOf(logs, m), statuses[0]);
      }
    }
  }

  /** Every log is counted in exactly one group: the total_count values add up to the number of logs. */
  lemma TotalsAddUp(logs: seq<InvocationLog>, models: seq<string>)
    requires Distinct(models)
    requires forall m :: m in models <==> m in GroupedInvocations(logs)
    ensures TotalCountSum(GroupedInvocations(logs), models) == |logs|
  {
    TotalCountSumIsOcc(logs, models);
    forall x | x in ModelIds(logs)
      ensures x in models
    {
      GroupedFacts(logs, x, "");
    }
    CountsCoverAll(ModelIds(logs), models);
  }

  /** Every log of a model is counted under exactly one status: its status counts add up to its total_count. */
  lemma StatusCountsAddUp(logs: seq<InvocationLog>, m: string, statuses: seq<string>)
    requires m in GroupedInvocations(logs)
    requires Distinct(statuses)
    requires forall s :: s in statuses <==> s in GroupedInvocations(logs)[m].statusCounts
    ensures StatusCountSum(GroupedInvocations(logs)[m].statusCounts, statuses) == GroupedInvocations(logs)[m].totalCount
  {
    StatusCountSumIsOcc(logs, m, statuses);
    forall x | x in StatusesOf(logs, m)
      ensures x in statuses
    {
      GroupedFacts(logs, m, x);
    }
    CountsCoverAll(StatusesOf(logs, m), statuses);
    GroupedFacts(logs, m, "");
  }

  /** The response of a grouping route: the groups and a last_evaluated_key that is always None. */
  datatype Metrics<T> = Metrics(items: map<string, T>, lastEvaluatedKey: Option<string>)

  /** A stored item together with its app id and the date attribute the filter reads. */
  datatype Stored<T> = Stored(appId: string, stamp: string, item: T)

  /** The query of a metrics route: the app's items that pass the filter, in table order. */
  function Query<T>(table: seq<Stored<T>>, appId: string, f: DateFilter): (r: seq<T>)
    ensures |r| <= |table|
    ensures forall x :: x in r ==> exists e :: e in table && e.item == x && e.appId == appId && Passes(f, e.stamp)
    ensures forall e :: e in table && e.appId == appId && Passes(f, e.stamp) ==> e.item in r
  {
    if table == [] then []
    else
      var rest := Query(table[..|table| - 1], appId, f);
      var last := table[|table| - 1];
      assert forall e :: e in table ==> e in table[..|table| - 1] || e == last by {
        assert table == table[..|table| - 1] + [last];
      }
      if last.appId == appId && Passes(f, last.stamp) then rest + [last.item] else rest
  }

  /**
   * The query keeps table order and drops nothing it should keep: the result for two runs of
   * the table is the two results one after the other, and one entry yields its item exactly
   * when it is the app's and passes the filter.
   */
  lemma {:induction false} QueryConcat<T>(t1: seq<Stored<T>>, t2: seq<Stored<T>>, appId: string, f: DateFilter)
    ensures Query(t1 + t2, appId, f) == Query(t1, appId, f) + Query(t2, appId, f)
    ensures forall e: Stored<T> :: Query([e], appId, f) == (if e.appId == appId && Passes(f, e.stamp) then [e.item] else [])
  {
    QueryOne<T>(appId, f);
    if t2 == [] {
      assert t1 + t2 == t1 && Query(t2, appId, f) == [];
      assert Query(t1, appId, f) + [] == Query(t1, appId, f);
    } else {
      var init, last := t2[..|t2| - 1], t2[|t2| - 1];
      assert t1 + t2 == (t1 + init) + [last];
      assert t2 == init + [last];
      QuerySnoc(t1 + init, last, appId, f);
      QuerySnoc(init, last, appId, f);
      QueryConcat(t1, init, appId, f);
      var tail := (if last.appId == appId && Passes(f, last.stamp) then [last.item] else []);
      Regroup(Query(t1, appId, f), Query(init, appId, f), tail);
    }
  }

  lemma Regroup<X>(a: seq<X>, b: seq<X>, c: seq<X>)
    ensures a + b + c == a + (b + c)
  {
  }

  /** One more entry at the end of the table adds its item at the end exactly when it qualifies. */
  lemma QuerySnoc<T>(t: seq<Stored<T>>, e: Stored<T>, appId: string, f: DateFilter)
    ensures Query(t + [e], appId, f) == Query(t, appId, f) + (if e.appId == appId && Passes(f, e.stamp) then [e.item] else [])
  {
    assert (t + [e])[..|t + [e]| - 1] == t;
  }

  lemma QueryOne<T>(appId: string, f: DateFilter)
    ensures forall e: Stored<T> :: Query([e], appId, f) == (if e.appId == appId && Passes(f, e.stamp) then [e.item] else [])
  {
    forall e: Stored<T>
      ensures Query([e], appId, f) == (if e.appId == appId && Passes(f, e.stamp) then [e.item] else [])
    {
      assert [e][..0] == [];
    }
  }

  /** get_invocations: the filter, the query, the grouping; a conversion error is 500. */
  method GetInvocations(table: seq<Stored<InvocationLog>>, appId: string, startDate: Option<string>, endDate: Option<string>)
    returns (r: Result<Metrics<ModelTotals>, HttpError>)
    ensures ChooseFilter("timestamp", startDate, endDate).Err? ==>
      r == Err(HttpError(500, "An error occurred: " + ChooseFilter("timestamp", startDate, endDate).error))
    ensures ChooseFilter("timestamp", startDate, endDate).Ok? ==>
      r == Ok(Metrics(GroupedInvocations(Query(table, appId, ChooseFilter("timestamp", startDate, endDate).value)), None))
  {
    var f := ChooseFilter(FilterField(Invocations), startDate, endDate);
    if f.Err? {
      return Err(HttpError(500, "An error occurred: " + f.error));
    }
    var logs := Query(table, appId, f.value);
    var groups := GroupInvocations(logs);
    return Ok(Metrics(groups, None));
  }

  // ---------------------------------------------------------------------
  // The job routes: grouping by status.
  // ---------------------------------------------------------------------

  /**
   * A job's status and counters: completed_file_count/total_file_count/failed_file_count
   * for extraction and vectorization jobs, completed_files/total_file_count/failed_files
   * for chunking jobs.
   */
  datatype JobCounts = JobCounts(status: string, completed: int, total: int, failed: int)

  /** The per-status totals of the job routes. */
  datatype StatusTotals = StatusTotals(totalCount: nat, completed: int, total: int, failed: int)

  function AddJob(groups: map<string, StatusTotals>, job: JobCounts): map<string, StatusTotals>
  {
    var cur := if job.status in groups then groups[job.status] else StatusTotals(0, 0, 0, 0);
    groups[job.status := StatusTotals(cur.totalCount + 1, cur.completed + job.completed, cur.total + job.total, cur.failed + job.failed)]
  }

  function GroupedJobs(jobs: seq<JobCounts>): map<string, StatusTotals>
  {
    if jobs == [] then map[] else AddJob(GroupedJobs(jobs[..|jobs| - 1]), jobs[|jobs| - 1])
  }

  /** The loop of get_extraction_jobs, get_chunking_jobs and get_vectorization_jobs. */
  method GroupJobs(jobs: seq<JobCounts>) returns (groups: map<string, StatusTotals>)
    ensures groups == GroupedJobs(jobs)
  {
    groups := map[];
    var i := 0;
    while i < |jobs|
      invariant 0 <= i <= |jobs|
      invariant groups == GroupedJobs(jobs[..i])
    {
      assert jobs[..i + 1][..i] == jobs[..i];
      groups := AddJob(groups, jobs[i]);
      i := i + 1;
    }
    assert jobs[..|jobs|] == jobs;
  }

  function Statuses(jobs: seq<JobCounts>): (r: seq<string>)
    ensures |r| == |jobs| && forall i :: 0 <= i < |jobs| ==> r[i] == jobs[i].status
  {
    if jobs == [] then [] else Statuses(jobs[..|jobs| - 1]) + [jobs[|jobs| - 1].status]
  }

  /** The completed, total and failed sums over the jobs in status s. */
  function JobSums(jobs: seq<JobCounts>, s: string): (int, int, int)
  {
    if jobs == [] then (0, 0, 0)
    else
      var prev := JobSums(jobs[..|jobs| - 1], s);
      var j := jobs[|jobs| - 1];
      if j.status == s then (prev.0 + j.completed, prev.1 + j.total, prev.2 + j.failed) else prev
  }

  /** A status has a group exactly when some job has it; its count and sums are over those jobs. */
  lemma {:induction false} GroupedJobsFacts(jobs: seq<JobCounts>, s: string)
    ensures s in GroupedJobs(jobs) <==> s in Statuses(jobs)
    ensures s in GroupedJobs(jobs) ==>
      var g := GroupedJobs(jobs)[s];
      g.totalCount == Occ(Statuses(jobs), s) && (g.completed, g.total, g.failed) == JobSums(jobs, s)
  {
    if jobs != [] {
      var init := jobs[..|jobs| - 1];
      GroupedJobsFacts(init, s);
      assert Statuses(jobs)[..|jobs| - 1] == Statuses(init);
      if s !in GroupedJobs(init) {
        OccAbsent(Statuses(init), s);
        EmptyJobSums(init, s);
      }
    }
  }

  lemma {:induction false} EmptyJobSums(jobs: seq<JobCounts>, s: string)
    requires s !in Statuses(jobs)
    ensures JobSums(jobs, s) == (0, 0, 0)
  {
    if jobs != [] {
      assert Statuses(jobs)[..|jobs| - 1] == Statuses(jobs[..|jobs| - 1]);
      EmptyJobSums(jobs[..|jobs| - 1], s);
    }
  }

  /**
   * get_extraction_jobs, get_chunking_jobs and get_vectorization_jobs: the filter on the
   * table's date attribute, the query, the grouping by status; a conversion error is 500.
   */
  method GetJobs(t: MetricsTable, table: seq<Stored<JobCounts>>, appId: string, startDate: Option<string>, endDate: Option<string>)
    returns (r: Result<Metrics<StatusTotals>, HttpError>)
    requires t == ExtractionJobs || t == ChunkingJobs || t == VectorizationJobs
    ensures ChooseFilter(FilterField(t), startDate, endDate).Err? ==>
      r == Err(HttpError(500, "An error occurred: " + ChooseFilter(FilterField(t), startDate, endDate).error))
    ensures ChooseFilter(FilterField(t), startDate, endDate).Ok? ==>
      r == Ok(Metrics(GroupedJobs(Query(table, appId, ChooseFilter(FilterField(t), startDate, endDate).value)), None))
  {
    var f := ChooseFilter(FilterField(t), startDate, endDate);
    if f.Err? {
      return Err(HttpError(500, "An error occurred: " + f.error));
    }
    var jobs := Query(table, appId, f.value);
    var groups := GroupJobs(jobs);
    return Ok(Metrics(groups, None));
  }

  /** get_vector_stores: the app's stores whose created_at passes the filter, in table order. */
  method GetVectorStores<T>(table: seq<Stored<T>>, appId: string, startDate: Option<string>, endDate: Option<string>)
    returns (r: Result<seq<T>, HttpError>)
    ensures ChooseFilter("created_at", startDate, endDate).Err? ==>
      r == Err(HttpError(500, "An error occurred: " + ChooseFilter("created_at", startDate, endDate).error))
    ensures ChooseFilter("created_at", startDate, endDate).Ok? ==>
      r == Ok(Query(table, appId, ChooseFilter("created_at", startDate, endDate).value))
  {
    var f := ChooseFilter(FilterField(VectorStores), startDate, endDate);
    if f.Err? {
      return Err(HttpError(500, "An error occurred: " + f.error));
    }
    var stores := [];
    var i := 0;
    while i < |table|
      invariant 0 <= i <= |table|
      invariant stores == Query(table[..i], appId, f.value)
    {
      assert table[..i + 1][..i] == table[..i];
      if table[i].appId == appId && Passes(f.value, table[i].stamp) {
        stores := stores + [table[i].item];
      }
      i := i + 1;
    }
    assert table[..|table|] == table;
    return Ok(stores);
  }

  /** get_vector_indexes: every index stored under the vector store id, in table order, with no date filter. */
  method GetVectorIndexes<T(!new)>(table: seq<(string, T)>, vectorStoreId: string) returns (r: seq<T>)
    ensures r == IndexesOf(table, vectorStoreId)
  {
    r := [];
    var i := 0;
    while i < |table|
      invariant 0 <= i <= |table|
      invariant r == IndexesOf(table[..i], vectorStoreId)
    {
      assert table[..i + 1][..i] == table[..i];
      if table[i].0 == vectorStoreId {
        r := r + [table[i].1];
      }
      i := i + 1;
    }
    assert table[..|table|] == table;
  }

  /** The indexes stored under a vector store id, in table order. */
  function IndexesOf<T(!new)>(table: seq<(string, T)>, vectorStoreId: string): (r: seq<T>)
    ensures |r| <= |table|
    ensures forall x :: x in r <==> exists j :: 0 <= j < |table| && table[j] == (vectorStoreId, x)
  {
    if table == [] then []
    else
      var rest := IndexesOf(table[..|table| - 1], vectorStoreId);
      var last := table[|table| - 1];
      assert forall j :: 0 <= j < |table| - 1 ==> table[..|table| - 1][j] == table[j];
      if last.0 == vectorStoreId then rest + [last.1] else rest
  }

  /**
   * One entry per stored index, in table order: the result for two runs of the table is the
   * two results one after the other, and one row yields its index exactly when it is under the id.
   */
  lemma {:induction false} IndexesConcat<T(!new)>(t1: seq<(string, T)>, t2: seq<(string, T)>, vectorStoreId: string)
    ensures IndexesOf(t1 + t2, vectorStoreId) == IndexesOf(t1, vectorStoreId) + IndexesOf(t2, vectorStoreId)
    ensures forall row: (string, T) :: IndexesOf([row], vectorStoreId) == (if row.0 == vectorStoreId then [row.1] else [])
  {
    IndexesOne<T>(vectorStoreId);
    if t2 == [] {
      assert t1 + t2 == t1 && IndexesOf(t2, vectorStoreId) == [];
      assert IndexesOf(t1, vectorStoreId) + [] == IndexesOf(t1, vectorStoreId);
    } else {
      var init, last := t2[..|t2| - 1], t2[|t2| - 1];
      assert t1 + t2 == (t1 + init) + [last];
      assert t2 == init + [last];
      IndexesSnoc(t1 + init, last, vectorStoreId);
      IndexesSnoc(init, last, vectorStoreId);
      IndexesConcat(t1, init, vectorStoreId);
      var tail := (if last.0 == vectorStoreId then [last.1] else []);
      Regroup(IndexesOf(t1, vectorStoreId), IndexesOf(init, vectorStoreId), tail);
    }
  }

  /** One more row at the end of the table adds its index at the end exactly when it is under the id. */
  lemma IndexesSnoc<T(!new)>(t: seq<(string, T)>, row: (string, T), vectorStoreId: string)
    ensures IndexesOf(t + [row], vectorStoreId) == IndexesOf(t, vectorStoreId) + (if row.0 == vectorStoreId then [row.1] else [])
  {
    assert (t + [row])[..|t + [row]| - 1] == t;
  }

  lemma IndexesOne<T(!new)>(vectorStoreId: string)
    ensures forall row: (string, T) :: IndexesOf([row], vectorStoreId) == (if row.0 == vectorStoreId then [row.1] else [])
  {
    forall row: (string, T)
      ensures IndexesOf([row], vectorStoreId) == (if row.0 == vectorStoreId then [row.1] else [])
    {
      assert [row][..0] == [];
    }
  }
}
