/** The stand-alone "Financial Analysis & Forecasting Tool" page: its lookup
    tables and shorter fallbacks, its seven-entry forecast and the Markdown
    report its "Generate Forecast" button builds. */
module FinancialAnalysis {
  import opened PyDict
  import opened Pipeline

  /** The choices the form offers. */
  const INDUSTRY_OPTIONS := ["Technology", "Healthcare", "Manufacturing", "Finance", "Retail"]
  const METRIC_OPTIONS := ["Revenue Growth", "Profit Margins", "Cash Flow", "Market Cap", "P/E Ratio"]

  /** The fallbacks of this page carry no full stop, and the metric one is shorter
      than the dashboard's. */
  const NO_INSIGHTS := "No insights available"
  const NO_DATA := "No data"

  const TEXTS := Tables(
    map[
      "Technology" := "High innovation, but also high volatility",
      "Healthcare" := "Steady growth, regulated environment",
      "Manufacturing" := "Capital intensive, cyclical demand",
      "Finance" := "Sensitive to interest rates & regulations",
      "Retail" := "Consumer-driven, heavily influenced by market trends"],
    NO_INSIGHTS,
    map[
      "Revenue Growth" := "Measures how quickly a company's sales are growing",
      "Profit Margins" := "Shows profitability relative to revenue",
      "Cash Flow" := "Indicates liquidity & operational health",
      "Market Cap" := "Represents the company's valuation on the stock market",
      "P/E Ratio" := "Price-to-Earnings, used to gauge valuation"],
    NO_DATA)

  // ---------------------------------------------------------------------------
  // analyze_industry and analyze_metrics
  // ---------------------------------------------------------------------------

  /** `analyze_industry`: every industry the form offers has its own sentence,
      and exactly the strings it does not offer get the fallback. */
  function AnalyzeIndustry(industry: string): (r: string)
    ensures industry in INDUSTRY_OPTIONS ==> r == TEXTS.industryInsights[industry]
    ensures r == NO_INSIGHTS <==> industry !in INDUSTRY_OPTIONS
  {
    Pipeline.AnalyzeIndustry(TEXTS, industry)
  }

  /** A metric gets the fallback exactly when the form does not offer it. */
  lemma MetricFallback(metric: string)
    ensures metric in METRIC_OPTIONS ==> MetricSummary(TEXTS, metric) == TEXTS.metricSummaries[metric]
    ensures MetricSummary(TEXTS, metric) == NO_DATA <==> metric !in METRIC_OPTIONS
  {
    assert TEXTS.metricSummaries.Keys == set m | m in METRIC_OPTIONS;
  }

  /** `analyze_metrics`: the keys are exactly the requested metrics, in order
      of first request, and each value is its sentence or the fallback. */
  method AnalyzeMetrics(metrics: seq<string>) returns (results: Dict<string, string>)
    ensures results == MetricAnalysis(TEXTS, metrics)
    ensures forall m :: m in results.vals <==> m in metrics
    ensures forall m :: m in results.vals ==>
              (results.vals[m] == NO_DATA <==> m !in METRIC_OPTIONS)
  {
    results := Pipeline.AnalyzeMetrics(TEXTS, metrics);
    MetricAnalysisMap(TEXTS, metrics);
    forall m | m in results.vals
      ensures results.vals[m] == NO_DATA <==> m !in METRIC_OPTIONS
    {
      MetricFallback(m);
    }
  }

  // ---------------------------------------------------------------------------
  // generate_forecast
  // ---------------------------------------------------------------------------

  /** `generate_forecast`: exactly the seven entries, with no narrative; the
      five request fields come back unchanged, the growth rate prints as the
      drawn value and the risk is one of the three levels. */
  function GenerateForecast(req: Request, draw: Draw): (f: Forecast)
    requires ValidDraw(draw)
    ensures f.Keys == CORE_KEYS
    ensures RequestOf(f) == Some(req)
    ensures ParseRate(Show(f[GrowthRate])) == Some(draw.growthHundredths)
    ensures Show(f[RiskLevel]) in RISK_LEVELS && f[RiskLevel] == Text(RISK_LEVELS[draw.riskIndex])
  {
    ForecastCore(req, draw)
  }

  // ---------------------------------------------------------------------------
  // The report
  // ---------------------------------------------------------------------------

  /** The f-string the report starts with: title, the industry, goal and
      time-frame lines, a rule and the metrics heading. */
  const HEAD := [
    Literal("\n# Financial Analysis Report\n\n"),
    Literal("**Industry:** "), Placeholder(Industry),
    Literal("  \n**Investment Goal:** "), Placeholder(InvestmentGoal),
    Literal("  \n**Time Frame:** "), Placeholder(TimeFrame),
    Literal("  \n\n---\n\n"),
    Literal(METRICS_HEADING),
    Literal("\n")]

  /** The f-string appended after the metric bullets: the forecast results,
      closed by a rule and the indentation of the closing quotes. */
  const TAIL := [
    Literal("\n\n"),
    Literal(FORECAST_HEADING),
    Literal("\n- **Forecast Growth Rate (%):** "), Placeholder(GrowthRate),
    Literal("%  \n- **Risk Level:** "), Placeholder(RiskLevel),
    Literal("  \n- **Market Condition:** "), Placeholder(MarketCondition),
    Literal("\n\n---\n    ")]

  /** The pieces of the first template the lemmas below refer to. */
  lemma HeadShape()
    ensures |HEAD| == 10
    ensures HEAD[1] == Literal("**Industry:** ") && HEAD[2] == Placeholder(Industry)
    ensures HEAD[3] == Literal("  \n**Investment Goal:** ") && HEAD[4] == Placeholder(InvestmentGoal)
    ensures HEAD[5] == Literal("  \n**Time Frame:** ") && HEAD[6] == Placeholder(TimeFrame)
    ensures HEAD[8] == Literal(METRICS_HEADING)
  {
  }

  /** The pieces of the second template the lemmas below refer to. */
  lemma TailShape()
    ensures |TAIL| == 9
    ensures TAIL[1] == Literal(FORECAST_HEADING)
    ensures TAIL[2] == Literal("\n- **Forecast Growth Rate (%):** ") && TAIL[3] == Placeholder(GrowthRate)
    ensures TAIL[4] == Literal("%  \n- **Risk Level:** ") && TAIL[5] == Placeholder(RiskLevel)
    ensures TAIL[6] == Literal("  \n- **Market Condition:** ") && TAIL[7] == Placeholder(MarketCondition)
  {
  }

  /** Where the two headings stand in the templates. */
  lemma HeadingPieces()
    ensures |HEAD| == 10 && HEAD[8] == Literal(METRICS_HEADING) && TAIL[1] == Literal(FORECAST_HEADING)
  {
  }

  /** Both templates read only entries of the seven. */
  lemma TemplateKeys()
    ensures KeysRead(HEAD) <= CORE_KEYS
    ensures KeysRead(TAIL) <= CORE_KEYS
  {
  }

  /** The report's pieces, in order. */
  function Parts(f: Forecast, analysis: Dict<string, string>): seq<string>
  {
    ReportParts(HEAD, TAIL, f, analysis)
  }

  /** The Markdown report for a forecast and a metric analysis. */
  function Report(f: Forecast, analysis: Dict<string, string>): string
  {
    ReportText(HEAD, TAIL, f, analysis)
  }

  /** The report as the button handler builds it. */
  method RenderReport(f: Forecast, analysis: Dict<string, string>) returns (report: string)
    ensures report == Report(f, analysis)
    ensures report == Concat(Parts(f, analysis))
  {
    report := Pipeline.RenderReport(HEAD, TAIL, f, analysis);
  }

  /** The two headings stand where their pieces start. */
  lemma HeadingsAt(f: Forecast, analysis: Dict<string, string>)
    ensures Occurs(METRICS_HEADING, Report(f, analysis), Offset(Parts(f, analysis), 8))
    ensures Occurs(FORECAST_HEADING, Report(f, analysis), Offset(Parts(f, analysis), 11 + |analysis.keys|))
  {
    HeadingPieces();
    HeadLiteralAt(HEAD, TAIL, f, analysis, 8);
    TailLiteralAt(HEAD, TAIL, f, analysis, 1);
  }

  /** The metrics heading comes first, then the metric bullets, then the
      forecast results heading. */
  lemma SectionOrder(f: Forecast, analysis: Dict<string, string>)
    ensures forall j :: 10 <= j < 10 + |analysis.keys| ==>
              Offset(Parts(f, analysis), 8) < Offset(Parts(f, analysis), j) < Offset(Parts(f, analysis), 11 + |analysis.keys|)
    ensures Offset(Parts(f, analysis), 8) < Offset(Parts(f, analysis), 11 + |analysis.keys|)
  {
    var parts, n := Parts(f, analysis), |analysis.keys|;
    HeadingPieces();
    HeadPiece(HEAD, TAIL, f, analysis, 8);
    OffsetBefore(parts, 8, 11 + n);
    BulletsBetween(HEAD, TAIL, f, analysis, 8, 10, 1, 11 + n);
  }

  /** Under the metrics heading the report shows one bullet per analysed
      metric, in the analysis's key order, each after the one before. */
  lemma ReportBullets(f: Forecast, analysis: Dict<string, string>, i: nat)
    requires i < |analysis.keys|
    ensures Occurs(Bullet(analysis.keys[i], analysis.vals[analysis.keys[i]]), Report(f, analysis), Offset(Parts(f, analysis), 10 + i))
    ensures forall j :: 10 + i < j < 10 + |analysis.keys| ==> Offset(Parts(f, analysis), 10 + i) < Offset(Parts(f, analysis), j)
  {
    HeadShape();
    ReportBullet(HEAD, TAIL, f, analysis, i);
  }

  /** The header shows the request a forecast echoes: the industry, investment
      goal and time frame, each right after its label. A generated forecast
      echoes its request (`GenerateForecast`). */
  lemma ReportHeader(f: Forecast, analysis: Dict<string, string>, req: Request)
    requires RequestOf(f) == Some(req)
    ensures Occurs("**Industry:** " + req.industry, Report(f, analysis), Offset(Parts(f, analysis), 1))
    ensures Occurs("  \n**Investment Goal:** " + req.investmentGoal, Report(f, analysis), Offset(Parts(f, analysis), 3))
    ensures Occurs("  \n**Time Frame:** " + req.timeFrame, Report(f, analysis), Offset(Parts(f, analysis), 5))
  {
    var parts := Parts(f, analysis);
    HeadShape();
    forall i | 1 <= i <= 6
      ensures parts[i] == Render(HEAD[i], f)
    {
      HeadPiece(HEAD, TAIL, f, analysis, i);
    }
    PairAt(parts, 1);
    PairAt(parts, 3);
    PairAt(parts, 5);
  }

  /** For a generated forecast the results section shows the growth rate, which
      reads back as the drawn value, the risk level, one of the three, and the
      requested market condition, each after its label. */
  lemma ReportResults(req: Request, draw: Draw, analysis: Dict<string, string>)
    requires ValidDraw(draw)
    ensures ParseRate(Parts(GenerateForecast(req, draw), analysis)[13 + |analysis.keys|]) == Some(draw.growthHundredths)
    ensures Parts(GenerateForecast(req, draw), analysis)[15 + |analysis.keys|] in RISK_LEVELS
    ensures Occurs("  \n- **Market Condition:** " + req.marketCondition,
                   Report(GenerateForecast(req, draw), analysis),
                   Offset(Parts(GenerateForecast(req, draw), analysis), 16 + |analysis.keys|))
  {
    var f := GenerateForecast(req, draw);
    var parts, n := Parts(f, analysis), |analysis.keys|;
    TailShape();
    TailPiece(HEAD, TAIL, f, analysis, 3);
    TailPiece(HEAD, TAIL, f, analysis, 5);
    TailPiece(HEAD, TAIL, f, analysis, 6);
    TailPiece(HEAD, TAIL, f, analysis, 7);
    PairAt(parts, 16 + n);
  }

  /** Every field the report reads is in the forecast this page generates, so
      no placeholder ever prints the "N/A" default: each prints the forecast's
      own value. */
  lemma NoMissingField(req: Request, draw: Draw, analysis: Dict<string, string>)
    requires ValidDraw(draw)
    ensures forall i :: 0 <= i < |HEAD| && HEAD[i].Placeholder? ==>
              HEAD[i].key in GenerateForecast(req, draw) &&
              Parts(GenerateForecast(req, draw), analysis)[i] == Show(GenerateForecast(req, draw)[HEAD[i].key])
    ensures forall i :: 0 <= i < |TAIL| && TAIL[i].Placeholder? ==>
              TAIL[i].key in GenerateForecast(req, draw) &&
              Parts(GenerateForecast(req, draw), analysis)[|HEAD| + |analysis.keys| + i]
                == Show(GenerateForecast(req, draw)[TAIL[i].key])
  {
    TemplateKeys();
    NoMissing(HEAD, TAIL, GenerateForecast(req, draw), analysis);
  }

  /** The "Generate Forecast" button: analyse the industry and the metrics,
      generate the forecast and build the report from the forecast and the
      metric analysis (the insight is only displayed, not put in the report). */
  method GenerateReport(req: Request, draw: Draw)
    returns (insight: string, analysis: Dict<string, string>, forecast: Forecast, report: string)
    requires ValidDraw(draw)
    ensures insight == AnalyzeIndustry(req.industry)
    ensures analysis == MetricAnalysis(TEXTS, req.metrics)
    ensures forecast == GenerateForecast(req, draw) && RequestOf(forecast) == Some(req)
    ensures report == Report(forecast, analysis)
  {
    insight := AnalyzeIndustry(req.industry);
    analysis := AnalyzeMetrics(req.metrics);
    forecast := GenerateForecast(req, draw);
    report := RenderReport(forecast, analysis);
  }
}
