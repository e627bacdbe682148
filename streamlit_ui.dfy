/** The "Financial Forecasting Report" tab of the dashboard: its lookup
    tables and fallbacks, its forecast with narrative fields, and the Markdown
    report its "Generate Forecast" button builds. */
module StreamlitUi {
  import opened PyDict
  import opened Pipeline

  /** The choices the form offers. */
  const INDUSTRY_OPTIONS := ["Technology", "Healthcare", "Manufacturing", "Finance", "Retail"]
  const METRIC_OPTIONS := ["Revenue Growth", "Profit Margins", "Cash Flow", "Market Cap", "P/E Ratio"]
  const INVESTMENT_GOALS := ["Short-term Gains", "Long-term Stability", "Risk Management"]
  const TIME_FRAME_OPTIONS := ["Quarterly", "Annual", "5-Year Outlook"]

  const NO_INSIGHTS := "No insights available."
  const NO_DATA := "No data available."

  const TEXTS := Tables(
    map[
      "Technology" := "High innovation, rapid change, and potential volatility characterize the tech sector.",
      "Healthcare" := "Steady growth, regulatory oversight, and high demand for services define the healthcare industry.",
      "Manufacturing" := "Capital-intensive with cyclical demand, manufacturing trends are influenced by global supply chains.",
      "Finance" := "Highly sensitive to interest rates and economic cycles, the finance sector is dynamic and regulated.",
      "Retail" := "Driven by consumer spending and market trends, the retail sector faces both growth opportunities and challenges."],
    NO_INSIGHTS,
    map[
      "Revenue Growth" := "Measures how quickly a company's sales are growing.",
      "Profit Margins" := "Indicates profitability relative to revenue.",
      "Cash Flow" := "Reflects liquidity and the company's ability to fund operations.",
      "Market Cap" := "Represents the company's overall market value.",
      "P/E Ratio" := "Evaluates the company's share price relative to its earnings."],
    NO_DATA)

  // ---------------------------------------------------------------------------
  // analyze_industry and analyze_metrics
  // ---------------------------------------------------------------------------

  /** `analyze_industry`: every industry the form offers has its own sentence,
      and exactly the strings it does not offer get the fallback. */
  function AnalyzeIndustry(industry: string): (r: string)
    ensures industry in INDUSTRY_OPTIONS ==> r == TEXTS.industryInsights[industry]
    ensures r == NO_INSIGHTS <==> industry !in INDUSTRY_OPTIONS
  {
    Pipeline.AnalyzeIndustry(TEXTS, industry)
  }

  /** A metric gets the fallback exactly when the form does not offer it. */
  lemma MetricFallback(metric: string)
    ensures metric in METRIC_OPTIONS ==> MetricSummary(TEXTS, metric) == TEXTS.metricSummaries[metric]
    ensures MetricSummary(TEXTS, metric) == NO_DATA <==> metric !in METRIC_OPTIONS
  {
    assert TEXTS.metricSummaries.Keys == set m | m in METRIC_OPTIONS;
  }

  /** `analyze_metrics`: the keys are exactly the requested metrics, in order
      of first request, and each value is its sentence or the fallback. */
  method AnalyzeMetrics(metrics: seq<string>) returns (results: Dict<string, string>)
    ensures results == MetricAnalysis(TEXTS, metrics)
    ensures forall m :: m in results.vals <==> m in metrics
    ensures forall m :: m in results.vals ==>
              (results.vals[m] == NO_DATA <==> m !in METRIC_OPTIONS)
  {
    results := Pipeline.AnalyzeMetrics(TEXTS, metrics);
    MetricAnalysisMap(TEXTS, metrics);
    forall m | m in results.vals
      ensures results.vals[m] == NO_DATA <==> m !in METRIC_OPTIONS
    {
      MetricFallback(m);
    }
  }

  // ---------------------------------------------------------------------------
  // generate_forecast
  // ---------------------------------------------------------------------------

  function LowerChar(c: char): char
  {
    if 'A' <= c <= 'Z' then (c as int + 32) as char else c
  }

  /** `s.lower()` on ASCII text: letters A to Z become a to z, every other
      character stays. */
  function Lower(s: string): (r: string)
    ensures |r| == |s|
    ensures forall i :: 0 <= i < |r| ==> !('A' <= r[i] <= 'Z')
    ensures forall i :: 0 <= i < |s| && !('A' <= s[i] <= 'Z') ==> r[i] == s[i]
    ensures forall i :: 0 <= i < |s| && 'A' <= s[i] <= 'Z' ==> r[i] as int == s[i] as int + 32
  {
    if s == [] then [] else [LowerChar(s[0])] + Lower(s[1..])
  }

  /** Lower-casing twice is lower-casing once. */
  lemma LowerIdempotent(s: string)
    ensures Lower(Lower(s)) == Lower(s)
  {
    assert forall i :: 0 <= i < |s| ==> Lower(Lower(s))[i] == Lower(s)[i];
  }

  const TREND_LEAD := "In the "
  const PROJECTION_LEAD := "Based on selected metrics, the company's financials project stable revenue growth with improving profit margins over the "
  const STRATEGY_LEAD := "To achieve "
  const MODEL_CRITIQUE := "The report provides coherent insights with clear financial terminology. However, integration with real-time data and further prompt refinement would enhance actionable recommendations."

  const TREND_TAIL := " sector, current trends show moderate growth driven by key factors including innovation and regulatory shifts."
  const PROJECTION_TAIL := " period."
  const STRATEGY_MIDDLE := ", a diversified approach is recommended that leverages sector-specific strengths in "

  /** The market trend sentence opens with "In the " and the industry. */
  function MarketTrend(industry: string): (s: string)
    ensures Occurs(TREND_LEAD + industry, s, 0)
    ensures Occurs(industry, s, |TREND_LEAD|)
  {
    OccursPrefix(TREND_LEAD + industry, TREND_TAIL);
    OccursWithin(industry, industry, 0, TREND_LEAD, TREND_TAIL);
    TREND_LEAD + industry + TREND_TAIL
  }

  /** The projection sentence opens with its fixed lead and the time frame
      in lower case. */
  function Projection(timeFrame: string): (s: string)
    ensures Occurs(PROJECTION_LEAD + Lower(timeFrame), s, 0)
    ensures Occurs(Lower(timeFrame), s, |PROJECTION_LEAD|)
  {
    OccursPrefix(PROJECTION_LEAD + Lower(timeFrame), PROJECTION_TAIL);
    OccursWithin(Lower(timeFrame), Lower(timeFrame), 0, PROJECTION_LEAD, PROJECTION_TAIL);
    PROJECTION_LEAD + Lower(timeFrame) + PROJECTION_TAIL
  }

  /** The strategy sentence opens with "To achieve " and the goal in lower
      case, and ends with the industry and a full stop. */
  function Strategy(investmentGoal: string, industry: string): (s: string)
    ensures Occurs(STRATEGY_LEAD + Lower(investmentGoal), s, 0)
    ensures Occurs(Lower(investmentGoal), s, |STRATEGY_LEAD|)
    ensures |s| > |industry| && Occurs(industry + ".", s, |s| - |industry| - 1)
  {
    OccursPrefix(STRATEGY_LEAD + Lower(investmentGoal), STRATEGY_MIDDLE + (industry + "."));
    OccursWithin(Lower(investmentGoal), Lower(investmentGoal), 0, STRATEGY_LEAD, STRATEGY_MIDDLE + (industry + "."));
    OccursSuffix(STRATEGY_MIDDLE, industry + ".");
    OccursSuffix(STRATEGY_LEAD + Lower(investmentGoal), STRATEGY_MIDDLE + (industry + "."));
    OccursInside(industry + ".", STRATEGY_MIDDLE + (industry + "."),
                 STRATEGY_LEAD + Lower(investmentGoal) + (STRATEGY_MIDDLE + (industry + ".")),
                 |STRATEGY_MIDDLE|, |STRATEGY_LEAD + Lower(investmentGoal)|);
    STRATEGY_LEAD + Lower(investmentGoal) + (STRATEGY_MIDDLE + (industry + "."))
  }

  const NARRATIVE_KEYS := {MarketTrendAnalysis, CompanyFinancialProjection, InvestmentStrategyRecommendations, ModelCritique}

  /** The four narrative entries `generate_forecast` adds to the seven. */
  function Narrative(req: Request): (n: Forecast)
    ensures n.Keys == NARRATIVE_KEYS
    ensures Occurs(TREND_LEAD + req.industry, Show(n[MarketTrendAnalysis]), 0)
    ensures Occurs(PROJECTION_LEAD + Lower(req.timeFrame), Show(n[CompanyFinancialProjection]), 0)
    ensures Occurs(STRATEGY_LEAD + Lower(req.investmentGoal), Show(n[InvestmentStrategyRecommendations]), 0)
    ensures Occurs(req.industry, Show(n[MarketTrendAnalysis]), |TREND_LEAD|)
    ensures Occurs(Lower(req.timeFrame), Show(n[CompanyFinancialProjection]), |PROJECTION_LEAD|)
    ensures Occurs(Lower(req.investmentGoal), Show(n[InvestmentStrategyRecommendations]), |STRATEGY_LEAD|)
    ensures var s := Show(n[InvestmentStrategyRecommendations]);
              |s| > |req.industry| && Occurs(req.industry + ".", s, |s| - |req.industry| - 1)
    ensures n[ModelCritique] == Text(MODEL_CRITIQUE)
  {
    map[
      MarketTrendAnalysis := Text(MarketTrend(req.industry)),
      CompanyFinancialProjection := Text(Projection(req.timeFrame)),
      InvestmentStrategyRecommendations := Text(Strategy(req.investmentGoal, req.industry)),
      ModelCritique := Text(MODEL_CRITIQUE)]
  }

  /** The narrative keys are not among the seven. */
  lemma NarrativeApart()
    ensures NARRATIVE_KEYS !! CORE_KEYS
  {
  }

  /** `generate_forecast`: eleven entries; the five request fields come back
      unchanged, the growth rate prints as the drawn value and the risk is one
      of the three levels, the narrative names the inputs and the critique is
      the same text whatever the input. */
  function GenerateForecast(req: Request, draw: Draw): (f: Forecast)
    requires ValidDraw(draw)
    ensures f.Keys == CORE_KEYS + NARRATIVE_KEYS
    ensures RequestOf(f) == Some(req)
    ensures ParseRate(Show(f[GrowthRate])) == Some(draw.growthHundredths)
    ensures Show(f[RiskLevel]) in RISK_LEVELS && f[RiskLevel] == Text(RISK_LEVELS[draw.riskIndex])
    ensures forall k :: k in NARRATIVE_KEYS ==> f[k] == Narrative(req)[k]
  {
    var core, extra := ForecastCore(req, draw), Narrative(req);
    NarrativeApart();
    ExtendForecast(core, extra);
    core + extra
  }

  /** The narrative of a generated forecast names the industry in the market
      trend, the lower-cased time frame in the projection, and the lower-cased
      goal and then the industry in the strategy; the critique is the fixed text. */
  lemma ForecastNarrative(req: Request, draw: Draw)
    requires ValidDraw(draw)
    ensures Occurs(TREND_LEAD + req.industry, Show(GenerateForecast(req, draw)[MarketTrendAnalysis]), 0)
    ensures Occurs(PROJECTION_LEAD + Lower(req.timeFrame), Show(GenerateForecast(req, draw)[CompanyFinancialProjection]), 0)
    ensures Occurs(STRATEGY_LEAD + Lower(req.investmentGoal),
                   Show(GenerateForecast(req, draw)[InvestmentStrategyRecommendations]), 0)
    ensures Occurs(req.industry, Show(GenerateForecast(req, draw)[MarketTrendAnalysis]), |TREND_LEAD|)
    ensures Occurs(Lower(req.timeFrame), Show(GenerateForecast(req, draw)[CompanyFinancialProjection]), |PROJECTION_LEAD|)
    ensures Occurs(Lower(req.investmentGoal), Show(GenerateForecast(req, draw)[InvestmentStrategyRecommendations]), |STRATEGY_LEAD|)
    ensures |Show(GenerateForecast(req, draw)[InvestmentStrategyRecommendations])| > |req.industry|
    ensures Occurs(req.industry + ".", Show(GenerateForecast(req, draw)[InvestmentStrategyRecommendations]),
                   |Show(GenerateForecast(req, draw)[InvestmentStrategyRecommendations])| - |req.industry| - 1)
    ensures Show(GenerateForecast(req, draw)[ModelCritique]) == MODEL_CRITIQUE
  {
    var f, n := GenerateForecast(req, draw), Narrative(req);
    assert f[MarketTrendAnalysis] == n[MarketTrendAnalysis];
    assert f[CompanyFinancialProjection] == n[CompanyFinancialProjection];
    assert f[InvestmentStrategyRecommendations] == n[InvestmentStrategyRecommendations];
    assert f[ModelCritique] == n[ModelCritique];
  }

  // ---------------------------------------------------------------------------
  // The report
  // ---------------------------------------------------------------------------

  const DETAIL_HEADING := "### Detailed Analysis:"
  const CRITIQUE_HEADING := "## Model Critique:"

  /** The f-string the report starts with: title, the industry, goal and
      time-frame lines, a rule and the metrics heading. */
  const HEAD := [
    Literal("\n# AI-Generated Financial Forecasting and Analysis Report\n\n"),
    Literal("**Industry Focus:** "), Placeholder(Industry),
    Literal("  \n**Investment Goal:** "), Placeholder(InvestmentGoal),
    Literal("  \n**Time Frame:** "), Placeholder(TimeFrame),
    Literal("  \n\n---\n\n"),
    Literal(METRICS_HEADING),
    Literal("\n")]

  /** The f-string appended after the metric bullets: forecast results,
      detailed analysis and model critique. */
  const TAIL := [
    Literal("\n\n---\n\n"),
    Literal(FORECAST_HEADING),
    Literal("\n- **Forecast Growth Rate (%):** "), Placeholder(GrowthRate),
    Literal("%  \n- **Risk Level:** "), Placeholder(RiskLevel),
    Literal("  \n- **Market Condition:** "), Placeholder(MarketCondition),
    Literal("  \n\n"),
    Literal(DETAIL_HEADING),
    Literal("\n- **Market Trend Analysis:**  \n  "), Placeholder(MarketTrendAnalysis),
    Literal("\n  \n- **Company Financial Projection:**  \n  "), Placeholder(CompanyFinancialProjection),
    Literal("\n  \n- **Investment Strategy Recommendations:**  \n  "), Placeholder(InvestmentStrategyRecommendations),
    Literal("\n\n---\n\n"),
    Literal(CRITIQUE_HEADING),
    Literal("\n"), Placeholder(ModelCritique),
    Literal("\n\n---\n")]

  /** The header pieces of the first template. */
  lemma HeadShape()
    ensures |HEAD| == 10
    ensures HEAD[1] == Literal("**Industry Focus:** ") && HEAD[2] == Placeholder(Industry)
    ensures HEAD[3] == Literal("  \n**Investment Goal:** ") && HEAD[4] == Placeholder(InvestmentGoal)
    ensures HEAD[5] == Literal("  \n**Time Frame:** ") && HEAD[6] == Placeholder(TimeFrame)
    ensures HEAD[8] == Literal(METRICS_HEADING)
  {
  }

  /** Where the four headings stand in the two templates. */
  lemma HeadingPieces()
    ensures |HEAD| == 10 && HEAD[8] == Literal(METRICS_HEADING)
    ensures TAIL[1] == Literal(FORECAST_HEADING) && TAIL[9] == Literal(DETAIL_HEADING) && TAIL[17] == Literal(CRITIQUE_HEADING)
  {
  }

  /** The forecast-results pieces of the second template. */
  lemma ResultsShape()
    ensures |TAIL| == 21
    ensures TAIL[3] == Placeholder(GrowthRate) && TAIL[5] == Placeholder(RiskLevel)
    ensures TAIL[6] == Literal("  \n- **Market Condition:** ") && TAIL[7] == Placeholder(MarketCondition)
  {
  }

  /** The detailed-analysis and critique placeholders of the second template. */
  lemma NarrativeShape()
    ensures |TAIL| == 21
    ensures TAIL[11] == Placeholder(MarketTrendAnalysis) && TAIL[13] == Placeholder(CompanyFinancialProjection)
    ensures TAIL[15] == Placeholder(InvestmentStrategyRecommendations) && TAIL[19] == Placeholder(ModelCritique)
  {
  }

  /** The first template reads only request fields; the second reads the
      forecast's other entries too. */
  lemma TemplateKeys()
    ensures KeysRead(HEAD) <= CORE_KEYS
    ensures KeysRead(TAIL) <= CORE_KEYS + NARRATIVE_KEYS
  {
  }

  /** The report's pieces, in order. */
  function Parts(f: Forecast, analysis: Dict<string, string>): seq<string>
  {
    ReportParts(HEAD, TAIL, f, analysis)
  }

  /** The Markdown report for a forecast and a metric analysis. */
  function Report(f: Forecast, analysis: Dict<string, string>): string
  {
    ReportText(HEAD, TAIL, f, analysis)
  }

  /** The report as the button handler builds it. */
  method RenderReport(f: Forecast, analysis: Dict<string, string>) returns (report: string)
    ensures report == Report(f, analysis)
    ensures report == Concat(Parts(f, analysis))
  {
    report := Pipeline.RenderReport(HEAD, TAIL, f, analysis);
  }

  /** The four headings stand where their pieces start. */
  lemma HeadingsAt(f: Forecast, analysis: Dict<string, string>)
    ensures Occurs(METRICS_HEADING, Report(f, analysis), Offset(Parts(f, analysis), 8))
    ensures Occurs(FORECAST_HEADING, Report(f, analysis), Offset(Parts(f, analysis), 11 + |analysis.keys|))
    ensures Occurs(DETAIL_HEADING, Report(f, analysis), Offset(Parts(f, analysis), 19 + |analysis.keys|))
    ensures Occurs(CRITIQUE_HEADING, Report(f, analysis), Offset(Parts(f, analysis), 27 + |analysis.keys|))
  {
    HeadingPieces();
    HeadLiteralAt(HEAD, TAIL, f, analysis, 8);
    TailLiteralAt(HEAD, TAIL, f, analysis, 1);
    TailLiteralAt(HEAD, TAIL, f, analysis, 9);
    TailLiteralAt(HEAD, TAIL, f, analysis, 17);
  }

  /** The sections come in this order: the metrics heading, the metric
      bullets, then forecast results, detailed analysis and model critique. */
  lemma SectionOrder(f: Forecast, analysis: Dict<string, string>)
    ensures forall j :: 10 <= j < 10 + |analysis.keys| ==>
              Offset(Parts(f, analysis), 8) < Offset(Parts(f, analysis), j) < Offset(Parts(f, analysis), 11 + |analysis.keys|)
    ensures Offset(Parts(f, analysis), 8) < Offset(Parts(f, analysis), 11 + |analysis.keys|)
    ensures Offset(Parts(f, analysis), 11 + |analysis.keys|) < Offset(Parts(f, analysis), 19 + |analysis.keys|)
    ensures Offset(Parts(f, analysis), 19 + |analysis.keys|) < Offset(Parts(f, analysis), 27 + |analysis.keys|)
  {
    HeadingPieces();
    BulletsBetween(HEAD, TAIL, f, analysis, 8, 10, 1, 11 + |analysis.keys|);
    HeadingOrder(f, analysis);
  }

  /** The headings' pieces come in the order of the sections they open. */
  lemma HeadingOrder(f: Forecast, analysis: Dict<string, string>)
    ensures Offset(Parts(f, analysis), 8) < Offset(Parts(f, analysis), 11 + |analysis.keys|)
    ensures Offset(Parts(f, analysis), 11 + |analysis.keys|) < Offset(Parts(f, analysis), 19 + |analysis.keys|)
    ensures Offset(Parts(f, analysis), 19 + |analysis.keys|) < Offset(Parts(f, analysis), 27 + |analysis.keys|)
  {
    var parts, n := Parts(f, analysis), |analysis.keys|;
    HeadingPieces();
    HeadPiece(HEAD, TAIL, f, analysis, 8);
    TailPiece(HEAD, TAIL, f, analysis, 1);
    TailPiece(HEAD, TAIL, f, analysis, 9);
    OffsetBefore(parts, 8, 11 + n);
    OffsetBefore(parts, 11 + n, 19 + n);
    OffsetBefore(parts, 19 + n, 27 + n);
  }

  /** Under the metrics heading the report shows one bullet per analysed
      metric, in the analysis's key order, each after the one before. */
  lemma ReportBullets(f: Forecast, analysis: Dict<string, string>, i: nat)
    requires i < |analysis.keys|
    ensures Occurs(Bullet(analysis.keys[i], analysis.vals[analysis.keys[i]]), Report(f, analysis), Offset(Parts(f, analysis), 10 + i))
    ensures forall j :: 10 + i < j < 10 + |analysis.keys| ==> Offset(Parts(f, analysis), 10 + i) < Offset(Parts(f, analysis), j)
  {
    HeadingPieces();
    ReportBullet(HEAD, TAIL, f, analysis, i);
  }

  /** The header shows the request a forecast echoes: the industry, investment
      goal and time frame, each right after its label. A generated forecast
      echoes its request (`GenerateForecast`). */
  lemma ReportHeader(f: Forecast, analysis: Dict<string, string>, req: Request)
    requires RequestOf(f) == Some(req)
    ensures Occurs("**Industry Focus:** " + req.industry, Report(f, analysis), Offset(Parts(f, analysis), 1))
    ensures Occurs("  \n**Investment Goal:** " + req.investmentGoal, Report(f, analysis), Offset(Parts(f, analysis), 3))
    ensures Occurs("  \n**Time Frame:** " + req.timeFrame, Report(f, analysis), Offset(Parts(f, analysis), 5))
  {
    var parts := Parts(f, analysis);
    HeadShape();
    forall i | 1 <= i <= 6
      ensures parts[i] == Render(HEAD[i], f)
    {
      HeadPiece(HEAD, TAIL, f, analysis, i);
    }
    PairAt(parts, 1);
    PairAt(parts, 3);
    PairAt(parts, 5);
  }

  /** For a generated forecast the results section shows the growth rate, which
      reads back as the drawn value, the risk level, one of the three, and the
      requested market condition after its label. */
  lemma ReportResults(req: Request, draw: Draw, analysis: Dict<string, string>)
    requires ValidDraw(draw)
    ensures ParseRate(Parts(GenerateForecast(req, draw), analysis)[13 + |analysis.keys|]) == Some(draw.growthHundredths)
    ensures Parts(GenerateForecast(req, draw), analysis)[15 + |analysis.keys|] in RISK_LEVELS
    ensures Occurs("  \n- **Market Condition:** " + req.marketCondition,
                   Report(GenerateForecast(req, draw), analysis),
                   Offset(Parts(GenerateForecast(req, draw), analysis), 16 + |analysis.keys|))
  {
    var f := GenerateForecast(req, draw);
    var parts, n := Parts(f, analysis), |analysis.keys|;
    ResultsShape();
    TailPiece(HEAD, TAIL, f, analysis, 3);
    TailPiece(HEAD, TAIL, f, analysis, 5);
    TailPiece(HEAD, TAIL, f, analysis, 6);
    TailPiece(HEAD, TAIL, f, analysis, 7);
    PairAt(parts, 16 + n);
  }

  /** The market trend the report shows names whatever the forecast's market
      trend names: for a generated forecast (`ForecastNarrative`), the industry. */
  lemma ReportTrend(f: Forecast, analysis: Dict<string, string>, industry: string)
    requires MarketTrendAnalysis in f && Occurs(industry, Show(f[MarketTrendAnalysis]), |TREND_LEAD|)
    ensures Occurs(industry, Report(f, analysis), Offset(Parts(f, analysis), 21 + |analysis.keys|) + |TREND_LEAD|)
  {
    HeadingPieces();
    NarrativeShape();
    TailFieldContains(HEAD, TAIL, f, analysis, 11, MarketTrendAnalysis, 21 + |analysis.keys|, industry, |TREND_LEAD|);
  }

  /** The projection the report shows names whatever the forecast's projection
      names: for a generated forecast, the lower-cased time frame. */
  lemma ReportProjection(f: Forecast, analysis: Dict<string, string>, timeFrame: string)
    requires CompanyFinancialProjection in f && Occurs(timeFrame, Show(f[CompanyFinancialProjection]), |PROJECTION_LEAD|)
    ensures Occurs(timeFrame, Report(f, analysis), Offset(Parts(f, analysis), 23 + |analysis.keys|) + |PROJECTION_LEAD|)
  {
    HeadingPieces();
    NarrativeShape();
    TailFieldContains(HEAD, TAIL, f, analysis, 13, CompanyFinancialProjection, 23 + |analysis.keys|, timeFrame, |PROJECTION_LEAD|);
  }

  /** The strategy the report shows names whatever the forecast's strategy
      names: for a generated forecast, the lower-cased investment goal. */
  lemma ReportStrategy(f: Forecast, analysis: Dict<string, string>, goal: string)
    requires InvestmentStrategyRecommendations in f
    requires Occurs(goal, Show(f[InvestmentStrategyRecommendations]), |STRATEGY_LEAD|)
    ensures Occurs(goal, Report(f, analysis), Offset(Parts(f, analysis), 25 + |analysis.keys|) + |STRATEGY_LEAD|)
  {
    HeadingPieces();
    NarrativeShape();
    TailFieldContains(HEAD, TAIL, f, analysis, 15, InvestmentStrategyRecommendations, 25 + |analysis.keys|, goal, |STRATEGY_LEAD|);
  }

  /** For a generated forecast the model critique section prints the fixed
      critique, whatever the request. */
  lemma ReportCritique(req: Request, draw: Draw, analysis: Dict<string, string>)
    requires ValidDraw(draw)
    ensures Parts(GenerateForecast(req, draw), analysis)[29 + |analysis.keys|] == MODEL_CRITIQUE
  {
    var f := GenerateForecast(req, draw);
    HeadingPieces();
    NarrativeShape();
    ForecastNarrative(req, draw);
    TailPiece(HEAD, TAIL, f, analysis, 19);
  }

  /** Every field the report reads is in the forecast this tab generates, so
      no placeholder ever prints the "N/A" default: each prints the forecast's
      own value. */
  lemma NoMissingField(req: Request, draw: Draw, analysis: Dict<string, string>)
    requires ValidDraw(draw)
    ensures forall i :: 0 <= i < |HEAD| && HEAD[i].Placeholder? ==>
              HEAD[i].key in GenerateForecast(req, draw) &&
              Parts(GenerateForecast(req, draw), analysis)[i] == Show(GenerateForecast(req, draw)[HEAD[i].key])
    ensures forall i :: 0 <= i < |TAIL| && TAIL[i].Placeholder? ==>
              TAIL[i].key in GenerateForecast(req, draw) &&
              Parts(GenerateForecast(req, draw), analysis)[|HEAD| + |analysis.keys| + i]
                == Show(GenerateForecast(req, draw)[TAIL[i].key])
  {
    TemplateKeys();
    NoMissing(HEAD, TAIL, GenerateForecast(req, draw), analysis);
  }

  /** The "Generate Forecast" button: analyse the industry and the metrics,
      generate the forecast and build the report from the forecast and the
      metric analysis (the industry insight is computed but not shown). */
  method GenerateReport(req: Request, draw: Draw)
    returns (insight: string, analysis: Dict<string, string>, forecast: Forecast, report: string)
    requires ValidDraw(draw)
    ensures insight == AnalyzeIndustry(req.industry)
    ensures analysis == MetricAnalysis(TEXTS, req.metrics)
    ensures forecast == GenerateForecast(req, draw) && RequestOf(forecast) == Some(req)
    ensures report == Report(forecast, analysis)
  {
    insight := AnalyzeIndustry(req.industry);
    analysis := AnalyzeMetrics(req.metrics);
    forecast := GenerateForecast(req, draw);
    report := RenderReport(forecast, analysis);
  }
}
