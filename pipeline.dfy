/** The forecast-report pipeline that both the dashboard tab and the standalone
    tool run, with what differs between the two copies (the lookup tables, the
    fallback texts, the narrative fields, the report template) left to the
    modules that instantiate it. */
module Pipeline {
  import opened PyDict

  datatype Option<T> = None | Some(value: T)

  // ---------------------------------------------------------------------------
  // Lookups: analyze_industry and analyze_metrics
  // ---------------------------------------------------------------------------

  /** The fixed texts of one copy: the industry insights and their fallback,
      the metric summaries and their fallback. */
  datatype Tables = Tables(
    industryInsights: map<string, string>,
    noInsights: string,
    metricSummaries: map<string, string>,
    noData: string)

  /** `analyze_industry`: the insight filed under the industry; any other
      string gets the fallback text. */
  function AnalyzeIndustry(t: Tables, industry: string): (r: string)
    ensures industry in t.industryInsights ==> r == t.industryInsights[industry]
    ensures industry !in t.industryInsights ==> r == t.noInsights
  {
    GetOr(t.industryInsights, industry, t.noInsights)
  }

  /** The value `analyze_metrics` stores for one metric: its summary, or the
      fallback text for a metric the table does not know. */
  function MetricSummary(t: Tables, metric: string): (r: string)
    ensures metric in t.metricSummaries ==> r == t.metricSummaries[metric]
    ensures metric !in t.metricSummaries ==> r == t.noData
  {
    GetOr(t.metricSummaries, metric, t.noData)
  }

  /** The dict `analyze_metrics` returns: `results[m] = ...` for each listed
      metric, in list order, starting from `{}`. */
  function MetricAnalysis(t: Tables, metrics: seq<string>): Dict<string, string>
  {
    if metrics == [] then Empty()
    else
      var m := metrics[|metrics| - 1];
      Put(MetricAnalysis(t, metrics[..|metrics| - 1]), m, MetricSummary(t, m))
  }

  /** `analyze_metrics`: fills `results` in place, one metric per iteration. */
  method AnalyzeMetrics(t: Tables, metrics: seq<string>) returns (results: Dict<string, string>)
    ensures results == MetricAnalysis(t, metrics)
  {
    var keys: seq<string> := [];
    var vals: map<string, string> := map[];
    for i := 0 to |metrics|
      invariant RawDict(keys, vals) == MetricAnalysis(t, metrics[..i])
    {
      var m := metrics[i];
      if m !in vals {
        keys := keys + [m];
      }
      vals := vals[m := MetricSummary(t, m)];
      assert metrics[..i + 1][..i] == metrics[..i];
    }
    assert metrics[..|metrics|] == metrics;
    results := RawDict(keys, vals);
  }

  /** The result maps exactly the requested metrics, each to its summary or
      the fallback. */
  lemma {:induction false} MetricAnalysisMap(t: Tables, metrics: seq<string>)
    ensures forall m :: m in MetricAnalysis(t, metrics).vals <==> m in metrics
    ensures forall m :: m in MetricAnalysis(t, metrics).vals ==>
              MetricAnalysis(t, metrics).vals[m] == MetricSummary(t, m)
  {
    if metrics != [] {
      var prefix, last := metrics[..|metrics| - 1], metrics[|metrics| - 1];
      MetricAnalysisMap(t, prefix);
      assert metrics == prefix + [last];
    }
  }

  /** Position of the first occurrence of x in s. */
  function FirstIndex<T(==)>(s: seq<T>, x: T): (i: nat)
    requires x in s
    ensures i < |s| && s[i] == x
    ensures forall k :: 0 <= k < i ==> s[k] != x
  {
    if s[0] == x then 0 else 1 + FirstIndex(s[1..], x)
  }

  /** The first occurrence is the one with no occurrence before it. */
  lemma FirstIndexAt<T>(s: seq<T>, x: T, i: nat)
    requires i < |s| && s[i] == x
    requires forall k :: 0 <= k < i ==> s[k] != x
    ensures FirstIndex(s, x) == i
  {
    var j := FirstIndex(s, x);
    assert j <= i;
    assert s[j] == x;
  }

  /** Appending to a list does not move the first occurrence of what it already held. */
  lemma FirstIndexAppend<T>(s: seq<T>, y: T, x: T)
    requires x in s
    ensures FirstIndex(s + [y], x) == FirstIndex(s, x)
  {
    var i, j := FirstIndex(s + [y], x), FirstIndex(s, x);
    assert (s + [y])[j] == x;
    assert forall k :: 0 <= k < |s| ==> (s + [y])[k] == s[k];
  }

  /** Every key is listed in s, and the keys stand in the order in which they
      first occur in s. */
  ghost predicate InFirstOccurrenceOrder<T>(keys: seq<T>, s: seq<T>)
  {
    && (forall i :: 0 <= i < |keys| ==> keys[i] in s)
    && (forall i, j :: 0 <= i < j < |keys| ==> FirstIndex(s, keys[i]) < FirstIndex(s, keys[j]))
  }

  /** Listing one more item keeps the order of the keys already there. */
  lemma OrderAppendOld<T>(keys: seq<T>, s: seq<T>, y: T)
    requires InFirstOccurrenceOrder(keys, s)
    ensures InFirstOccurrenceOrder(keys, s + [y])
  {
    forall i | 0 <= i < |keys|
      ensures keys[i] in s + [y] && FirstIndex(s + [y], keys[i]) == FirstIndex(s, keys[i])
    {
      FirstIndexAppend(s, y, keys[i]);
    }
  }

  /** Listing an item for the first time puts it after every key already there. */
  lemma OrderAppendNew<T>(keys: seq<T>, s: seq<T>, y: T)
    requires InFirstOccurrenceOrder(keys, s) && y !in s
    ensures InFirstOccurrenceOrder(keys + [y], s + [y])
  {
    OrderAppendOld(keys, s, y);
    var s', keys' := s + [y], keys + [y];
    assert FirstIndex(s', y) == |s|;
    forall i | 0 <= i < |keys|
      ensures keys'[i] == keys[i] && FirstIndex(s', keys[i]) < |s|
    {
      FirstIndexAppend(s, y, keys[i]);
    }
  }

  /** The result's keys follow the order in which the metrics first occur in
      the request. */
  lemma {:induction false} MetricAnalysisOrder(t: Tables, metrics: seq<string>)
    ensures InFirstOccurrenceOrder(MetricAnalysis(t, metrics).keys, metrics)
  {
    if metrics != [] {
      var prefix, m := metrics[..|metrics| - 1], metrics[|metrics| - 1];
      assert metrics == prefix + [m];
      MetricAnalysisOrder(t, prefix);
      MetricAnalysisMap(t, prefix);
      var before := MetricAnalysis(t, prefix).keys;
      if m in prefix {
        OrderAppendOld(before, prefix, m);
      } else {
        OrderAppendNew(before, prefix, m);
      }
    }
  }

  /** A metric listed again is written over with the same text, so the
      result is unchanged. */
  lemma MetricAnalysisRepeat(t: Tables, metrics: seq<string>, m: string)
    requires m in metrics
    ensures MetricAnalysis(t, metrics + [m]) == MetricAnalysis(t, metrics)
  {
    assert (metrics + [m])[..|metrics|] == metrics;
    MetricAnalysisMap(t, metrics);
    PutSame(MetricAnalysis(t, metrics), m);
  }


  // ---------------------------------------------------------------------------
  // The forecast dict: generate_forecast's echoed fields and random draws
  // ---------------------------------------------------------------------------

  /** What the user picked in the form. */
  datatype Request = Request(
    industry: string,
    metrics: seq<string>,
    marketCondition: string,
    investmentGoal: string,
    timeFrame: string)

  const RISK_LEVELS := ["Low", "Moderate", "High"]

  /** The two random draws, passed in: `round(random.uniform(3.0, 15.0), 2)`
      as a count of hundredths, and the index `random.choice` picks. */
  datatype Draw = Draw(growthHundredths: nat, riskIndex: nat)

  predicate ValidDraw(d: Draw)
  {
    300 <= d.growthHundredths <= 1500 && d.riskIndex < |RISK_LEVELS|
  }

  /** The keys either copy of `generate_forecast` writes; KeyName gives each
      one's spelling as a dict key. */
  datatype Key =
    | Industry | AnalyzedMetrics | MarketCondition | InvestmentGoal | TimeFrame
    | GrowthRate | RiskLevel
    | MarketTrendAnalysis | CompanyFinancialProjection | InvestmentStrategyRecommendations | ModelCritique

  function KeyName(k: Key): string
  {
    match k
    case Industry => "Industry"
    case AnalyzedMetrics => "Analyzed Metrics"
    case MarketCondition => "Market Condition"
    case InvestmentGoal => "Investment Goal"
    case TimeFrame => "Time Frame"
    case GrowthRate => "Forecast Growth Rate (%)"
    case RiskLevel => "Risk Level"
    case MarketTrendAnalysis => "Market Trend Analysis"
    case CompanyFinancialProjection => "Company Financial Projection"
    case InvestmentStrategyRecommendations => "Investment Strategy Recommendations"
    case ModelCritique => "Model Critique"
  }

  /** No two keys share a spelling, so a dict keyed by the spellings and a
      map keyed by Key hold the same entries. */
  lemma KeyNamesDistinct(k1: Key, k2: Key)
    requires k1 != k2
    ensures KeyName(k1) != KeyName(k2)
  {
  }

  /** The values a forecast dict holds: strings, the rounded growth rate and
      the list of metrics. */
  datatype Value = Text(text: string) | Rate(hundredths: nat) | Names(names: seq<string>)

  type Forecast = map<Key, Value>

  const CORE_KEYS := {Industry, AnalyzedMetrics, MarketCondition, InvestmentGoal, TimeFrame, GrowthRate, RiskLevel}

  /** The seven entries both copies of `generate_forecast` put in their dict:
      the five request fields, read back unchanged, then a growth rate that
      prints as the drawn value and one of the three risk levels. */
  function ForecastCore(req: Request, draw: Draw): (f: Forecast)
    requires ValidDraw(draw)
    ensures f.Keys == CORE_KEYS
    ensures RequestOf(f) == Some(req)
    ensures ParseRate(Show(f[GrowthRate])) == Some(draw.growthHundredths)
    ensures Show(f[RiskLevel]) in RISK_LEVELS && f[RiskLevel] == Text(RISK_LEVELS[draw.riskIndex])
  {
    RateRoundTrip(draw.growthHundredths);
    map[
      Industry := Text(req.industry),
      AnalyzedMetrics := Names(req.metrics),
      MarketCondition := Text(req.marketCondition),
      InvestmentGoal := Text(req.investmentGoal),
      TimeFrame := Text(req.timeFrame),
      GrowthRate := Rate(draw.growthHundredths),
      RiskLevel := Text(RISK_LEVELS[draw.riskIndex])]
  }

  /** Reads the five echoed request fields back out of a forecast dict. */
  function RequestOf(f: Forecast): Option<Request>
  {
    if && Industry in f && f[Industry].Text?
       && AnalyzedMetrics in f && f[AnalyzedMetrics].Names?
       && MarketCondition in f && f[MarketCondition].Text?
       && InvestmentGoal in f && f[InvestmentGoal].Text?
       && TimeFrame in f && f[TimeFrame].Text?
    then Some(Request(f[Industry].text, f[AnalyzedMetrics].names, f[MarketCondition].text,
                      f[InvestmentGoal].text, f[TimeFrame].text))
    else None
  }

  /** Adding entries under keys other than the seven leaves those seven, and
      so the request read back, as they were. */
  lemma ExtendForecast(core: Forecast, extra: Forecast)
    requires core.Keys == CORE_KEYS && extra.Keys !! CORE_KEYS
    ensures (core + extra).Keys == CORE_KEYS + extra.Keys
    ensures RequestOf(core + extra) == RequestOf(core)
    ensures forall k :: k in CORE_KEYS ==> (core + extra)[k] == core[k]
    ensures forall k :: k in extra ==> (core + extra)[k] == extra[k]
  {
  }

  // ---------------------------------------------------------------------------
  // Printing values: what an f-string placeholder shows
  // ---------------------------------------------------------------------------

  predicate IsDigit(c: char)
  {
    '0' <= c <= '9'
  }

  predicate AllDigits(s: string)
  {
    forall i :: 0 <= i < |s| ==> IsDigit(s[i])
  }

  function DigitValue(c: char): nat
    requires IsDigit(c)
  {
    c as int - '0' as int
  }

  function DigitChar(d: nat): (c: char)
    requires d < 10
    ensures IsDigit(c) && DigitValue(c) == d
  {
    ('0' as int + d) as char
  }

  /** `str(n)` for a non-negative integer. */
  function NatToString(n: nat): (s: string)
    ensures |s| >= 1 && AllDigits(s)
    ensures n > 0 ==> s[0] != '0'
    ensures n == 0 ==> s == "0"
    decreases n
  {
    if n < 10 then [DigitChar(n)] else NatToString(n / 10) + [DigitChar(n % 10)]
  }

  /** The number a string of decimal digits denotes. */
  function ParseNat(s: string): nat
    requires AllDigits(s)
  {
    if s == [] then 0 else ParseNat(s[..|s| - 1]) * 10 + DigitValue(s[|s| - 1])
  }

  lemma {:induction false} ParseNatToString(n: nat)
    ensures ParseNat(NatToString(n)) == n
  {
    var s := NatToString(n);
    if n >= 10 {
      assert s[..|s| - 1] == NatToString(n / 10);
      ParseNatToString(n / 10);
    }
  }

  /** `str(round(x, 2))` for x = h / 100. Python prints the shortest decimal
      that reads back as the same float: the whole part, a point, and the
      hundredths with a trailing zero dropped (3.0, 3.5, 3.05). */
  function FormatRate(h: nat): string
  {
    NatToString(h / 100) + "." + FracDigits(h % 100)
  }

  /** Reads a decimal with a whole part and one or two fraction digits as a
      count of hundredths; anything else is not such a number. */
  function ParseRate(s: string): Option<nat>
  {
    if '.' !in s then None
    else
      var p := FirstIndex(s, '.');
      var whole, frac := s[..p], s[p + 1..];
      if whole != [] && AllDigits(whole) && 1 <= |frac| <= 2 && AllDigits(frac)
      then Some(DecimalValue(whole, frac))
      else None
  }

  /** The value in hundredths of `whole.frac`, where frac has one or two digits. */
  function DecimalValue(whole: string, frac: string): nat
    requires AllDigits(whole) && 1 <= |frac| <= 2 && AllDigits(frac)
  {
    ParseNat(whole) * 100 + (if |frac| == 1 then 10 * DigitValue(frac[0]) else ParseNat(frac))
  }

  /** The fraction digits FormatRate prints for the hundredths. */
  function FracDigits(cents: nat): (frac: string)
    requires cents < 100
    ensures 1 <= |frac| <= 2 && AllDigits(frac)
    ensures |frac| == 1 <==> cents % 10 == 0
    ensures frac[0] == DigitChar(cents / 10)
  {
    if cents % 10 == 0 then [DigitChar(cents / 10)]
    else [DigitChar(cents / 10), DigitChar(cents % 10)]
  }

  /** The fraction digits read back as the hundredths. */
  lemma FracDigitsValue(cents: nat)
    requires cents < 100
    ensures DecimalValue("0", FracDigits(cents)) == cents
  {
    var frac := FracDigits(cents);
    if |frac| == 2 {
      assert frac[..1] == [DigitChar(cents / 10)];
      assert [DigitChar(cents / 10)][..0] == [];
      assert ParseNat(frac[..1]) == cents / 10;
    }
  }

  /** A whole part of digits, a point and one or two fraction digits parse as
      whole * 100 plus the fraction in hundredths. */
  lemma ParseRateOf(whole: string, frac: string, s: string)
    requires whole != [] && AllDigits(whole) && 1 <= |frac| <= 2 && AllDigits(frac)
    requires s == whole + "." + frac
    ensures ParseRate(s) == Some(DecimalValue(whole, frac))
  {
    assert s[|whole|] == '.';
    forall k | 0 <= k < |whole|
      ensures s[k] != '.'
    {
      assert s[k] == whole[k];
    }
    FirstIndexAt(s, '.', |whole|);
    assert s[..|whole|] == whole;
    assert s[|whole| + 1..] == frac;
  }

  /** The printed growth rate is a decimal with at most two fraction digits
      that denotes exactly the drawn value. */
  lemma RateRoundTrip(h: nat)
    ensures ParseRate(FormatRate(h)) == Some(h)
  {
    ParseRateOf(NatToString(h / 100), FracDigits(h % 100), FormatRate(h));
    ParseNatToString(h / 100);
    FracDigitsValue(h % 100);
  }

  /** `str(v)`, which is what an f-string placeholder prints. A list prints
      as its items' quoted forms between brackets. */
  function Show(v: Value): string
  {
    match v
    case Text(s) => s
    case Rate(h) => FormatRate(h)
    case Names(ns) => "[" + QuotedList(ns) + "]"
  }

  function QuotedList(ns: seq<string>): string
  {
    if ns == [] then ""
    else if |ns| == 1 then "'" + ns[0] + "'"
    else "'" + ns[0] + "', " + QuotedList(ns[1..])
  }

  const MISSING := "N/A"

  // ---------------------------------------------------------------------------
  // Text assembled from pieces
  // ---------------------------------------------------------------------------

  /** `needle` stands in `hay` starting at position `at`. */
  predicate Occurs(needle: string, hay: string, at: nat)
  {
    at + |needle| <= |hay| && hay[at..at + |needle|] == needle
  }

  /** What occurs in a string still occurs, shifted, once text is put around it. */
  lemma OccursWithin(needle: string, hay: string, at: nat, before: string, after: string)
    requires Occurs(needle, hay, at)
    ensures Occurs(needle, before + hay + after, |before| + at)
  {
    var s := before + hay + after;
    assert s[|before| + at..|before| + at + |needle|] == hay[at..at + |needle|];
  }

  /** A string stands at the start of any string it begins. */
  lemma OccursPrefix(p: string, rest: string)
    ensures Occurs(p, p + rest, 0)
  {
    assert (p + rest)[0..|p|] == p;
  }

  /** A string stands at the end of any string it ends. */
  lemma OccursSuffix(p: string, rest: string)
    ensures Occurs(rest, p + rest, |p|)
  {
    assert (p + rest)[|p|..|p| + |rest|] == rest;
  }

  /** What occurs inside a piece occurs in the text the piece occurs in. */
  lemma OccursInside(needle: string, piece: string, hay: string, a: nat, b: nat)
    requires Occurs(needle, piece, a) && Occurs(piece, hay, b)
    ensures Occurs(needle, hay, b + a)
  {
    forall k | 0 <= k < |needle|
      ensures hay[b + a + k] == needle[k]
    {
      assert hay[b..b + |piece|][a + k] == piece[a + k];
      assert piece[a..a + |needle|][k] == needle[k];
    }
  }

  /** The pieces joined in order, the last one appended last. */
  function Concat(parts: seq<string>): string
  {
    if parts == [] then "" else Concat(parts[..|parts| - 1]) + parts[|parts| - 1]
  }

  /** Where the j-th piece starts in the joined text. */
  function Offset(parts: seq<string>, j: nat): nat
    requires j <= |parts|
  {
    |Concat(parts[..j])|
  }

  lemma {:induction false} ConcatAppend(a: seq<string>, b: seq<string>)
    ensures Concat(a + b) == Concat(a) + Concat(b)
  {
    if b == [] {
      assert a + b == a;
    } else {
      var b', x := b[..|b| - 1], b[|b| - 1];
      assert (a + b)[..|a + b| - 1] == a + b';
      assert (a + b)[|a + b| - 1] == x;
      ConcatAppend(a, b');
      assert Concat(b) == Concat(b') + x;
    }
  }

  /** Text is itself at position 0. */
  lemma OccursSelf(x: string)
    ensures Occurs(x, x, 0)
  {
    assert x[0..|x|] == x;
  }

  /** The whole text is the first j pieces joined, then the rest joined. */
  lemma ConcatSplit(parts: seq<string>, j: nat)
    requires j <= |parts|
    ensures Concat(parts) == Concat(parts[..j]) + Concat(parts[j..])
  {
    assert parts == parts[..j] + parts[j..];
    ConcatAppend(parts[..j], parts[j..]);
  }

  lemma PieceEnd(parts: seq<string>, i: nat)
    requires i < |parts|
    ensures Concat(parts[..i + 1]) == Concat(parts[..i]) + parts[i]
  {
    var before := parts[..i + 1];
    assert before[..|before| - 1] == parts[..i];
  }

  /** Piece i stands where it starts, and the next piece starts where it ends. */
  lemma PieceStart(parts: seq<string>, i: nat)
    requires i < |parts|
    ensures Occurs(parts[i], Concat(parts), Offset(parts, i))
    ensures Offset(parts, i) + |parts[i]| == Offset(parts, i + 1)
  {
    var x := parts[i];
    PieceEnd(parts, i);
    ConcatSplit(parts, i + 1);
    OccursSelf(x);
    OccursWithin(x, x, 0, Concat(parts[..i]), Concat(parts[i + 1..]));
  }

  /** Piece i ends before piece j starts, for any later j. */
  lemma OffsetBefore(parts: seq<string>, i: nat, j: nat)
    requires i < j <= |parts|
    ensures Offset(parts, i) + |parts[i]| <= Offset(parts, j)
  {
    assert parts[..j] == parts[..i] + [parts[i]] + parts[i + 1..j];
    ConcatAppend(parts[..i] + [parts[i]], parts[i + 1..j]);
    ConcatAppend(parts[..i], [parts[i]]);
  }

  /** Piece i stands where it starts, and every later piece starts after it ends. */
  lemma PieceAt(parts: seq<string>, i: nat)
    requires i < |parts|
    ensures Occurs(parts[i], Concat(parts), Offset(parts, i))
    ensures forall j :: i < j <= |parts| ==> Offset(parts, i) + |parts[i]| <= Offset(parts, j)
  {
    PieceStart(parts, i);
    forall j | i < j <= |parts|
      ensures Offset(parts, i) + |parts[i]| <= Offset(parts, j)
    {
      OffsetBefore(parts, i, j);
    }
  }

  /** Two texts standing one right after the other stand together. */
  lemma OccursAdjacent(p: string, q: string, hay: string, at: nat, next: nat)
    requires Occurs(p, hay, at) && Occurs(q, hay, next) && next == at + |p|
    ensures Occurs(p + q, hay, at)
  {
    forall k | 0 <= k < |p| + |q|
      ensures hay[at + k] == (p + q)[k]
    {
      if k < |p| {
        assert hay[at..at + |p|][k] == p[k];
      } else {
        assert hay[at + |p|..at + |p| + |q|][k - |p|] == q[k - |p|];
      }
    }
    assert hay[at..at + |p + q|] == p + q;
  }

  /** Two neighbouring pieces stand together where the first one starts. */
  lemma PairAt(parts: seq<string>, i: nat)
    requires i + 1 < |parts|
    ensures Occurs(parts[i] + parts[i + 1], Concat(parts), Offset(parts, i))
  {
    PieceStart(parts, i);
    PieceStart(parts, i + 1);
    OccursAdjacent(parts[i], parts[i + 1], Concat(parts), Offset(parts, i), Offset(parts, i + 1));
  }

  /** One piece of an f-string: literal text, or a placeholder
      `{forecast_result.get("<key>", "N/A")}`. */
  datatype Piece = Literal(text: string) | Placeholder(key: Key)

  /** What a piece prints for a forecast dict: a missing key prints "N/A". */
  function Render(p: Piece, f: Forecast): string
  {
    match p
    case Literal(s) => s
    case Placeholder(k) => Show(GetOr(f, k, Text(MISSING)))
  }

  function Rendered(template: seq<Piece>, f: Forecast): (r: seq<string>)
    ensures |r| == |template|
    ensures forall i :: 0 <= i < |r| ==> r[i] == Render(template[i], f)
  {
    seq(|template|, i requires 0 <= i < |template| => Render(template[i], f))
  }

  /** The keys a template's placeholders look up. */
  function KeysRead(template: seq<Piece>): set<Key>
  {
    set i | 0 <= i < |template| && template[i].Placeholder? :: template[i].key
  }

  /** When every key a template reads is in the dict, no placeholder prints
      the "N/A" default: each prints the dict's own value. */
  lemma NoDefault(template: seq<Piece>, f: Forecast)
    requires KeysRead(template) <= f.Keys
    ensures forall i :: 0 <= i < |template| && template[i].Placeholder? ==>
              template[i].key in f && Render(template[i], f) == Show(f[template[i].key])
  {
    forall i | 0 <= i < |template| && template[i].Placeholder?
      ensures template[i].key in f
    {
      assert template[i].key in KeysRead(template);
    }
  }

  // ---------------------------------------------------------------------------
  // The report: first f-string, one bullet per analysed metric, second f-string
  // ---------------------------------------------------------------------------

  const METRICS_HEADING := "## Selected Metrics Analysis:"
  const FORECAST_HEADING := "## Forecast Results:"

  /** `f"- **{metric}:** {description}\n"` */
  function Bullet(metric: string, description: string): string
  {
    "- **" + metric + ":** " + description + "\n"
  }

  /** One bullet per entry of the metric analysis, in its key order. */
  function BulletList(analysis: Dict<string, string>): (r: seq<string>)
    ensures |r| == |analysis.keys|
    ensures forall i :: 0 <= i < |r| ==> r[i] == Bullet(analysis.keys[i], analysis.vals[analysis.keys[i]])
  {
    var items := Items(analysis);
    seq(|items|, i requires 0 <= i < |items| => Bullet(items[i].0, items[i].1))
  }

  /** The report's pieces: the first template's, the bullets, the second template's. */
  function ReportParts(head: seq<Piece>, tail: seq<Piece>, f: Forecast, analysis: Dict<string, string>): seq<string>
  {
    Rendered(head, f) + BulletList(analysis) + Rendered(tail, f)
  }

  function ReportText(head: seq<Piece>, tail: seq<Piece>, f: Forecast, analysis: Dict<string, string>): string
  {
    Concat(ReportParts(head, tail, f, analysis))
  }

  /** `for metric, description in metric_analysis.items(): report += f"..."` */
  method AppendMetricLines(report: string, analysis: Dict<string, string>) returns (out: string)
    ensures out == report + Concat(BulletList(analysis))
  {
    var items := Items(analysis);
    ghost var bullets := BulletList(analysis);
    out := report;
    for i := 0 to |items|
      invariant out == report + Concat(bullets[..i])
    {
      var (metric, description) := items[i];
      assert bullets[i] == Bullet(metric, description);
      PieceEnd(bullets, i);
      out := out + Bullet(metric, description);
    }
    assert bullets[..|items|] == bullets;
  }

  /** The button handler's report: the first template filled in, the metric
      bullets appended one by one, then the second template filled in. */
  method RenderReport(head: seq<Piece>, tail: seq<Piece>, f: Forecast, analysis: Dict<string, string>)
    returns (report: string)
    ensures report == ReportText(head, tail, f, analysis)
  {
    report := Concat(Rendered(head, f));
    report := AppendMetricLines(report, analysis);
    report := report + Concat(Rendered(tail, f));
    ConcatAppend(Rendered(head, f), BulletList(analysis));
    ConcatAppend(Rendered(head, f) + BulletList(analysis), Rendered(tail, f));
  }

  /** Piece i of the first template is piece i of the report. */
  lemma HeadPiece(head: seq<Piece>, tail: seq<Piece>, f: Forecast, analysis: Dict<string, string>, i: nat)
    requires i < |head|
    ensures ReportParts(head, tail, f, analysis)[i] == Render(head[i], f)
  {
  }

  /** Piece i of the second template comes after the first template and the bullets. */
  lemma TailPiece(head: seq<Piece>, tail: seq<Piece>, f: Forecast, analysis: Dict<string, string>, i: nat)
    requires i < |tail|
    ensures |ReportParts(head, tail, f, analysis)| == |head| + |analysis.keys| + |tail|
    ensures ReportParts(head, tail, f, analysis)[|head| + |analysis.keys| + i] == Render(tail[i], f)
  {
  }

  /** The i-th metric bullet is the piece right after the first template's i pieces. */
  lemma BulletPiece(head: seq<Piece>, tail: seq<Piece>, f: Forecast, analysis: Dict<string, string>, i: nat)
    requires i < |analysis.keys|
    ensures ReportParts(head, tail, f, analysis)[|head| + i] == Bullet(analysis.keys[i], analysis.vals[analysis.keys[i]])
  {
  }

  /** A literal piece of the first template stands at its offset in the report. */
  lemma HeadLiteralAt(head: seq<Piece>, tail: seq<Piece>, f: Forecast, analysis: Dict<string, string>, i: nat)
    requires i < |head| && head[i].Literal?
    ensures Occurs(head[i].text, ReportText(head, tail, f, analysis), Offset(ReportParts(head, tail, f, analysis), i))
  {
    var parts := ReportParts(head, tail, f, analysis);
    HeadPiece(head, tail, f, analysis, i);
    PieceStart(parts, i);
  }

  /** A literal piece of the second template stands at its offset in the report. */
  lemma TailLiteralAt(head: seq<Piece>, tail: seq<Piece>, f: Forecast, analysis: Dict<string, string>, i: nat)
    requires i < |tail| && tail[i].Literal?
    ensures var parts := ReportParts(head, tail, f, analysis);
      Occurs(tail[i].text, ReportText(head, tail, f, analysis), Offset(parts, |head| + |analysis.keys| + i))
  {
    var parts := ReportParts(head, tail, f, analysis);
    TailPiece(head, tail, f, analysis, i);
    PieceStart(parts, |head| + |analysis.keys| + i);
  }

  /** When every key both templates read is in the dict, every placeholder of
      the report prints the dict's own value, never the "N/A" default. */
  lemma NoMissing(head: seq<Piece>, tail: seq<Piece>, f: Forecast, analysis: Dict<string, string>)
    requires KeysRead(head) <= f.Keys && KeysRead(tail) <= f.Keys
    ensures forall i :: 0 <= i < |head| && head[i].Placeholder? ==>
              head[i].key in f && ReportParts(head, tail, f, analysis)[i] == Show(f[head[i].key])
    ensures forall i :: 0 <= i < |tail| && tail[i].Placeholder? ==>
              tail[i].key in f && ReportParts(head, tail, f, analysis)[|head| + |analysis.keys| + i] == Show(f[tail[i].key])
  {
    NoDefault(head, f);
    NoDefault(tail, f);
    forall i | 0 <= i < |head| && head[i].Placeholder?
      ensures ReportParts(head, tail, f, analysis)[i] == Show(f[head[i].key])
    {
      HeadPiece(head, tail, f, analysis, i);
    }
    forall i | 0 <= i < |tail| && tail[i].Placeholder?
      ensures ReportParts(head, tail, f, analysis)[|head| + |analysis.keys| + i] == Show(f[tail[i].key])
    {
      TailPiece(head, tail, f, analysis, i);
    }
  }

  /** Text inside the value a placeholder of the second template prints is
      text of the report, shifted by where the placeholder's piece starts. */
  lemma TailFieldContains(head: seq<Piece>, tail: seq<Piece>, f: Forecast, analysis: Dict<string, string>,
                          i: nat, key: Key, k: nat, needle: string, at: nat)
    requires i < |tail| && tail[i] == Placeholder(key) && key in f
    requires k == |head| + |analysis.keys| + i
    requires Occurs(needle, Show(f[key]), at)
    ensures k < |ReportParts(head, tail, f, analysis)|
    ensures Occurs(needle, ReportText(head, tail, f, analysis), Offset(ReportParts(head, tail, f, analysis), k) + at)
  {
    var parts := ReportParts(head, tail, f, analysis);
    TailPiece(head, tail, f, analysis, i);
    PieceStart(parts, k);
    OccursInside(needle, parts[k], Concat(parts), at, Offset(parts, k));
  }

  /** Non-empty pieces lo..hi start strictly after a non-empty piece h before
      them starts, and strictly before a piece t after them starts. */
  lemma StartsBetween(parts: seq<string>, h: nat, lo: nat, hi: nat, t: nat)
    requires h < lo <= hi <= t < |parts| && parts[h] != []
    requires forall j :: lo <= j < hi ==> parts[j] != []
    ensures forall j :: lo <= j < hi ==> Offset(parts, h) < Offset(parts, j) < Offset(parts, t)
  {
    forall j | lo <= j < hi
      ensures Offset(parts, h) < Offset(parts, j) < Offset(parts, t)
    {
      OffsetBefore(parts, h, j);
      OffsetBefore(parts, j, t);
    }
  }

  /** Every metric bullet starts after a non-empty literal piece h of the first
      template starts, and before any piece t of the second template starts. */
  lemma BulletsBetween(head: seq<Piece>, tail: seq<Piece>, f: Forecast, analysis: Dict<string, string>,
                        h: nat, lo: nat, t: nat, at: nat)
    requires h < |head| && head[h].Literal? && head[h].text != [] && t < |tail|
    requires lo == |head| && at == |head| + |analysis.keys| + t
    ensures forall j :: lo <= j < lo + |analysis.keys| ==>
              Offset(ReportParts(head, tail, f, analysis), h) < Offset(ReportParts(head, tail, f, analysis), j)
                < Offset(ReportParts(head, tail, f, analysis), at)
  {
    var parts, n := ReportParts(head, tail, f, analysis), |analysis.keys|;
    HeadPiece(head, tail, f, analysis, h);
    TailPiece(head, tail, f, analysis, t);
    forall j | lo <= j < lo + n
      ensures parts[j] != []
    {
      BulletPiece(head, tail, f, analysis, j - lo);
    }
    StartsBetween(parts, h, lo, lo + n, at);
  }

  /** In any report the i-th metric bullet stands where its piece starts, and
      every later bullet or template piece starts after it ends. */
  lemma ReportBullet(head: seq<Piece>, tail: seq<Piece>, f: Forecast, analysis: Dict<string, string>, i: nat)
    requires i < |analysis.keys|
    ensures var parts := ReportParts(head, tail, f, analysis);
      && parts[|head| + i] == Bullet(analysis.keys[i], analysis.vals[analysis.keys[i]])
      && Occurs(parts[|head| + i], ReportText(head, tail, f, analysis), Offset(parts, |head| + i))
      && forall j :: |head| + i < j <= |parts| ==> Offset(parts, |head| + i) < Offset(parts, j)
  {
    var parts := ReportParts(head, tail, f, analysis);
    PieceAt(parts, |head| + i);
  }
}
