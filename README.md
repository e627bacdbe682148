# Mock forecast-report pipeline

This project models the mock forecast-report pipeline of a financial analysis
dashboard, written in Dafny. The pipeline exists twice:

- in the "Financial Forecasting Report" tab of `streamlit_ui.py`;
- in the stand-alone page `financial_analysis.py`.

Both copies take the same five form fields:

- an industry;
- the selected metrics;
- a market condition;
- an investment goal;
- a time frame.

From these fields each copy:

1. looks up an insight sentence for the industry (`analyze_industry`);
2. builds a dict from each selected metric to a summary sentence (`analyze_metrics`);
3. builds the forecast dict (`generate_forecast`). It echoes the five fields and adds a random growth rate and a random risk level. The dashboard copy also adds four narrative sentences;
4. builds a Markdown report when the "Generate Forecast" button is pressed.

The report has three parts:

- a header f-string;
- one `- **metric:** description` bullet per entry of the metric dict, in the dict's order;
- a closing f-string that reads forecast fields with `.get(key, "N/A")`.

Files:

- `pydict.dfy` (module `PyDict`): a Python dict with insertion-ordered keys. It is stored as a key sequence plus a map, and covers `d[k] = v`, `.get` and `.items()`.
- `pipeline.dfy` (module `Pipeline`): the generic pipeline, parameterised by the lookup tables and fallback texts. It holds:
  - the metric-analysis loop;
  - the forecast entries both copies share;
  - how values print in an f-string, including the growth rate's decimal form and the parser it round-trips through;
  - f-string templates (`Piece`);
  - the bullet loop;
  - generic facts about where pieces of a joined text stand.
- `streamlit_ui.dfy` (module `StreamlitUi`) and `financial_analysis.dfy` (module `FinancialAnalysis`): one instance per source file. Each holds its own tables, fallbacks, forecast, report templates and report lemmas.

The two random draws are passed in as a `Draw`:

- the growth rate as a count of hundredths, 300 to 1500;
- the risk level as an index into `["Low", "Moderate", "High"]`.

A report is proved about through `Parts`, the list of printed pieces. `Offset(parts, j)` is where piece j starts in the joined text, and `Occurs(needle, text, at)` says that needle stands at position at.

## Model

| member | source | states |
|---|---|---|
| PyDict.Put | streamlit_ui.py:141 | `results[m] = v`: m maps to v and every other key keeps its value. A new key goes to the end of the key order; an existing key keeps its place. |
| PyDict.PutSame | streamlit_ui.py:141 | Storing again the value a key already has leaves the dict unchanged. |
| PyDict.Items | streamlit_ui.py:171 | `items()` yields one pair per key, in key order, each with that key's value. |
| PyDict.Empty | streamlit_ui.py:139 | `{}`: no keys. |
| PyDict.GetOr | streamlit_ui.py:126 | `.get(k, default)`: definition; its two cases are stated by Pipeline.AnalyzeIndustry and Pipeline.MetricSummary. |
| Pipeline.AnalyzeIndustry | streamlit_ui.py:126 | A listed industry gets its table sentence; any other string gets the copy's fallback. |
| Pipeline.MetricSummary | streamlit_ui.py:141 | A listed metric gets its table sentence; any other string gets the copy's fallback. |
| Pipeline.MetricAnalysis | streamlit_ui.py:139-142 | The dict `analyze_metrics` returns, as successive `results[m] = ...` writes: definition; properties proved in Pipeline.MetricAnalysisMap, Pipeline.MetricAnalysisOrder and Pipeline.MetricAnalysisRepeat. |
| Pipeline.AnalyzeMetrics | streamlit_ui.py:139-142 | The in-place loop over the metrics builds exactly the dict that successive `results[m] = ...` writes define. |
| Pipeline.MetricAnalysisMap | streamlit_ui.py:139-142 | The result's keys are exactly the requested metrics, and each maps to its summary or the fallback. |
| Pipeline.MetricAnalysisOrder | streamlit_ui.py:139-141 | Every result key was requested, and the keys appear in the order in which the metrics first occur in the request. |
| Pipeline.MetricAnalysisRepeat | streamlit_ui.py:140-141 | Requesting a metric again writes the same text over it, so the result does not change. |
| Pipeline.KeyName | streamlit_ui.py:101-111 | The spelling of each forecast key: definition; Pipeline.KeyNamesDistinct proves no two keys share one. |
| Pipeline.KeyNamesDistinct | streamlit_ui.py:100-112 | Different keys have different spellings, so a map keyed by Key holds the same entries as the forecast dict. |
| Pipeline.ForecastCore | financial_analysis.py:15-23 | The seven shared entries have exactly the seven keys. The five request fields read back unchanged. The growth rate prints as a decimal that parses back to the drawn value. The risk level is the drawn one of Low, Moderate and High. |
| Pipeline.ExtendForecast | streamlit_ui.py:100-112 | Adding entries under other keys leaves the seven entries, and so the echoed request, as they were. |
| Pipeline.NatToString | streamlit_ui.py:179 | `str()` of the integer part of the rate: at least one digit, no leading zero unless the number is 0, which prints "0"; Pipeline.ParseNatToString proves it reads back. |
| Pipeline.FormatRate | streamlit_ui.py:179 | `str()` of the rounded rate: the integer part, a point and the fraction digits of Pipeline.FracDigits; definition; properties proved in Pipeline.FracDigits and Pipeline.RateRoundTrip. |
| Pipeline.FracDigits | streamlit_ui.py:106 | A rounded float prints one or two fraction digits, all of them digits. It prints one digit exactly when the hundredths digit is zero (`3.5`, not `3.50`), and the first digit is the tenths. |
| Pipeline.FracDigitsValue | streamlit_ui.py:106 | The printed fraction digits read back as the hundredths. |
| Pipeline.ParseNatToString | streamlit_ui.py:106 | The printed integer part reads back as the integer. |
| Pipeline.ParseRateOf | streamlit_ui.py:106 | Digits, a point and one or two digits parse as the whole part times 100 plus the fraction in hundredths. |
| Pipeline.RateRoundTrip | streamlit_ui.py:106 | The printed growth rate parses back to exactly the drawn number of hundredths. |
| Pipeline.Show | streamlit_ui.py:163-196 | What a placeholder prints for each kind of value: definition; properties proved in Pipeline.RateRoundTrip and Pipeline.NoDefault. |
| Pipeline.QuotedList | streamlit_ui.py:102 | The items of `str()` of the metrics list, each quoted, separated by ", ": definition (this value is never put into a report). |
| Pipeline.Render | streamlit_ui.py:163 | A literal prints itself; a placeholder prints `forecast_result.get(key, "N/A")`: definition; properties proved in Pipeline.NoDefault. |
| Pipeline.Rendered | streamlit_ui.py:160-170 | A template prints one piece per template element, each as Pipeline.Render prints it. |
| Pipeline.NoDefault | streamlit_ui.py:163-165 | When a template's keys are all in the dict, no placeholder falls back to the "N/A" default; each prints the dict's own value. |
| Pipeline.Bullet | streamlit_ui.py:172 | `f"- **{metric}:** {description}\n"`: definition; properties proved in Pipeline.ReportBullet. |
| Pipeline.BulletList | streamlit_ui.py:171-172 | One bullet per dict entry, in key order, made from that key and its value. |
| Pipeline.AppendMetricLines | streamlit_ui.py:171-172 | The `report +=` loop appends exactly the bullets, in key order. |
| Pipeline.RenderReport | streamlit_ui.py:160-199 | The report string equals the joined pieces: header template, bullets, closing template. |
| Pipeline.NoMissing | financial_analysis.py:114-130 | When both templates' keys are in the forecast, every placeholder in the report prints the forecast's value. |
| Pipeline.TailFieldContains | streamlit_ui.py:185-191 | Text inside a value printed by a closing-template placeholder stands in the report at that piece's offset plus its position in the value. |
| Pipeline.BulletsBetween | streamlit_ui.py:169-178 | Every bullet starts after the metrics heading starts and before a given piece of the closing template starts. |
| Pipeline.ReportBullet | streamlit_ui.py:171-172 | The i-th bullet stands where its piece starts, and every later piece starts after it. |
| StreamlitUi.AnalyzeIndustry | streamlit_ui.py:119-126 | Each of the five offered industries gets its sentence. The result is "No insights available." exactly when the industry is not one of the five. |
| StreamlitUi.MetricFallback | streamlit_ui.py:132-141 | Each offered metric gets its sentence. The result is "No data available." exactly when the metric is not offered. |
| StreamlitUi.AnalyzeMetrics | streamlit_ui.py:128-142 | The keys are exactly the requested metrics. A value is "No data available." exactly for unknown metrics. The result is the dict built in request order. |
| StreamlitUi.Lower | streamlit_ui.py:109 | `lower()` keeps the length, maps A-Z to a-z, keeps every other character and leaves no capital letter. |
| StreamlitUi.LowerIdempotent | streamlit_ui.py:109-110 | Lower-casing twice gives the same text as lower-casing once. |
| StreamlitUi.MarketTrend | streamlit_ui.py:108 | The market-trend sentence opens with "In the " followed by the industry, so the industry stands at position `|TREND_LEAD|`. |
| StreamlitUi.Projection | streamlit_ui.py:109 | The projection sentence opens with its fixed lead followed by the lower-cased time frame. |
| StreamlitUi.Strategy | streamlit_ui.py:110 | The strategy sentence opens with "To achieve " followed by the lower-cased goal, and ends with the industry and a full stop. |
| StreamlitUi.Narrative | streamlit_ui.py:108-111 | Exactly the four narrative keys. Each sentence opens with its lead followed by its input, and the strategy ends with the industry. The critique is the fixed text. |
| StreamlitUi.GenerateForecast | streamlit_ui.py:95-113 | Exactly eleven keys. The five request fields read back unchanged. The growth rate parses back to the draw, and the risk level is the drawn one of the three. The narrative entries are the narrative of the request. |
| StreamlitUi.ForecastNarrative | streamlit_ui.py:108-111 | In a generated forecast, the trend opens with "In the " and the industry, the projection with its lead and the lower-cased time frame, and the strategy with "To achieve " and the lower-cased goal, ending with the industry. The critique is the same whatever the request. |
| StreamlitUi.Report | streamlit_ui.py:160-199 | The dashboard report text: definition; properties proved in StreamlitUi.HeadingsAt, StreamlitUi.SectionOrder, StreamlitUi.ReportHeader and the other report lemmas below. |
| StreamlitUi.RenderReport | streamlit_ui.py:160-199 | The handler's report is the joined pieces of the two templates around the bullets. |
| StreamlitUi.HeadingsAt | streamlit_ui.py:169-195 | The four headings stand in the report where their pieces start: metrics, Forecast Results, Detailed Analysis, Model Critique. |
| StreamlitUi.SectionOrder | streamlit_ui.py:169-195 | The metrics heading comes first, then every bullet, then Forecast Results, Detailed Analysis and Model Critique, in that order. |
| StreamlitUi.HeadingOrder | streamlit_ui.py:169-195 | The four headings start at strictly increasing positions. |
| StreamlitUi.ReportBullets | streamlit_ui.py:171-172 | Bullet i stands in the report at its piece's offset, before every later bullet. |
| StreamlitUi.ReportHeader | streamlit_ui.py:163-165 | The industry, investment goal and time frame of the echoed request each stand right after their labels. |
| StreamlitUi.ReportResults | streamlit_ui.py:179-181 | The printed growth rate parses back to the draw. The printed risk level is one of the three. The market condition stands after its label. |
| StreamlitUi.ReportTrend | streamlit_ui.py:184-185 | The industry a forecast's trend names appears in the report's Detailed Analysis at the matching offset. |
| StreamlitUi.ReportProjection | streamlit_ui.py:187-188 | The time frame a forecast's projection names appears in the report at the matching offset. |
| StreamlitUi.ReportStrategy | streamlit_ui.py:190-191 | The goal a forecast's strategy names appears in the report at the matching offset. |
| StreamlitUi.ReportCritique | streamlit_ui.py:195-196 | For a generated forecast, the critique piece is the fixed critique, whatever the request. |
| StreamlitUi.NoMissingField | streamlit_ui.py:163-196 | Every key the report reads is in the generated forecast, so no placeholder falls back to the "N/A" default; each prints the forecast's own value. |
| StreamlitUi.GenerateReport | streamlit_ui.py:147-199 | The button computes the insight, the metric dict and the forecast, which echoes the request. The report is built from the forecast and the metric dict. |
| FinancialAnalysis.AnalyzeIndustry | financial_analysis.py:26-38 | Each offered industry gets its short sentence. The result is "No insights available" (no full stop) exactly for the others. |
| FinancialAnalysis.MetricFallback | financial_analysis.py:44-53 | Each offered metric gets its sentence. The result is "No data" exactly for the others. |
| FinancialAnalysis.AnalyzeMetrics | financial_analysis.py:40-54 | The keys are exactly the requested metrics. A value is "No data" exactly for unknown metrics. The result is the dict built in request order. |
| FinancialAnalysis.GenerateForecast | financial_analysis.py:10-24 | Exactly the seven keys, with no narrative. The request fields read back unchanged. The growth rate parses back to the draw, and the risk level is the drawn one of the three. |
| FinancialAnalysis.Report | financial_analysis.py:111-133 | The stand-alone page's report text: definition; properties proved in FinancialAnalysis.HeadingsAt, FinancialAnalysis.SectionOrder, FinancialAnalysis.ReportHeader and the other report lemmas below. |
| FinancialAnalysis.RenderReport | financial_analysis.py:111-133 | The handler's report is the joined pieces of the two templates around the bullets. |
| FinancialAnalysis.HeadingsAt | financial_analysis.py:120-127 | The metrics and Forecast Results headings stand where their pieces start. |
| FinancialAnalysis.SectionOrder | financial_analysis.py:120-127 | The metrics heading comes first, then every bullet, then Forecast Results. |
| FinancialAnalysis.ReportBullets | financial_analysis.py:122-123 | Bullet i stands in the report at its piece's offset, before every later bullet. |
| FinancialAnalysis.ReportHeader | financial_analysis.py:114-116 | The industry, investment goal and time frame of the echoed request each stand right after their labels. |
| FinancialAnalysis.ReportResults | financial_analysis.py:127-130 | The printed growth rate parses back to the draw. The printed risk level is one of the three. The market condition stands after its label. |
| FinancialAnalysis.NoMissingField | financial_analysis.py:114-130 | Every key the report reads is in the seven-entry forecast, so no placeholder falls back to the "N/A" default; each prints the forecast's own value. |
| FinancialAnalysis.GenerateReport | financial_analysis.py:82-133 | The button computes the insight, the metric dict and the forecast, which echoes the request. The report is built from the forecast and the metric dict. |

## Left out

- `app.py`, `fetch_data.py`, `test.py` and `load.py` are not part of this model. They are HTTP, scraping, market-data libraries, web routes and environment loading.
- Streamlit widgets, plotting and display calls are not modelled. This covers the form widgets, `st.markdown`, `st.download_button`, `st.json` and `st.write`. It also covers the stock and news tab (streamlit_ui.py:23-64) and the refined-prompts display (streamlit_ui.py:207-229).
- `random.uniform`, `round` and `random.choice` are not modelled. Their outcomes are the `Draw` parameter: hundredths in [300, 1500] and an index below 3. The floating-point draw and its rounding are not modelled.
- `Pipeline.FracDigits` models the float repr only for two-decimal values in this range: the integer part, a point, then one or two fraction digits with a trailing zero dropped.
- `StreamlitUi.Lower` maps only ASCII A-Z. Python's Unicode case mapping is not modelled; the form offers ASCII text only.
- `Pipeline.Show` prints the metrics list as `['a', 'b']` without Python's quote escaping. That value is never put into a report.
- The sources use CRLF line endings. Python reads the triple-quoted f-strings with `\n`, and the model uses `\n`.
- `StreamlitUi.ReportTrend`, `StreamlitUi.ReportProjection` and `StreamlitUi.ReportStrategy` are stated for any forecast whose narrative sentence contains the value. For a generated forecast, `StreamlitUi.ForecastNarrative` supplies that hypothesis.
- `StreamlitUi.AnalyzeMetrics` and `FinancialAnalysis.AnalyzeMetrics` do not state the key order in their own contracts. `Pipeline.MetricAnalysisOrder` proves it for the dict they return.
- The industry insight is computed by both handlers. The dashboard never shows it and the stand-alone page only displays it, so the model returns it and puts it in no report.
- The metrics are modelled as a list, as the code takes them, not as a set. A repeated metric keeps its first position (`Pipeline.MetricAnalysisRepeat`).
- The two copies' fallback texts differ: "No insights available." and "No data available." in the dashboard, "No insights available" and "No data" on the stand-alone page. Each instance uses its own.
- The forecast dict's key order is not modelled (a forecast is a map keyed by Key), because the report reads the forecast only through `.get`.
