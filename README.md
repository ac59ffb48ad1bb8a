# dataGPT: the filter, chart-dispatch, report and analysis logic in Dafny

dataGPT is a Streamlit page. You paste a Google Sheets link and it loads the
sheet as a table. It then offers one multiselect filter per column and draws
the filtered table as one of eight chart types. It offers the chart as HTML
and the data as CSV for download. It can also ask a remote service ("NNeural")
for a written analysis of the chart, shown inside a report template.

This project models the four pieces of `app.py` that branch and can be
specified. Each piece has its own module:

- `Filters` (`filters.dfy`), the per-column filter. This is the main part.
  - `DefaultFilters` is the first loop (lines 131-135). It builds the
    `filters` dictionary in column order. Each column's list defaults to that
    column's distinct values, taken from the unfiltered table (`Tables.Unique`
    models pandas `unique()`).
  - `ApplyFilters` is the second loop (lines 137-138). It reassigns the row
    sequence `data` once per selected column, and `Narrow` models one
    `isin` narrowing step.
  - Both are methods with loop invariants. `DefaultFilters` is proved to give
    each column the list of its distinct values (`ListsColumn`), which covers
    every cell (`Covers`). `ApplyFilters` is proved equal to the
    specification function `Where`. The properties are lemmas about `Where`: exact
    membership with multiplicities, order-preserving subsequence,
    idempotence, the default selection keeping every row, and an empty list
    emptying the table.
- `Charts` (`charts.dfy`), chart-type dispatch.
  - The eight select-box labels map to a `ChartKind` datatype.
  - Each kind has a drawing library: plotly or matplotlib/seaborn.
  - `TotalsOverlay` gives the `show_totals` overlay of each branch.
  - `Render` records what each branch hands to the library: the axis columns
    it passes, whether it passes the whole table (the heatmap's
    `data.corr()`), title, axis titles, colour, bins and overlay.
  - `Downloads` gives the download buttons offered. Its `drawn` argument
    says whether the drawing call returned; when it raised, the handler at
    line 251 is reached and no button is shown.
- `Report` (`report.dfy`), `format_response`. It is a total function of the
  template name. `ExtractAnalysis` is its inverse: it gets the analysis text
  back out of the report.
- `Analysis` (`analysis.dfy`), the "Analisar Dados com IA" action.
  - It builds the login request and the chat request, with the prompt, the
    `data` records and `chart_info`.
  - `ReadLogin` and `ReadChat` say how each response is read.
  - `RequestAnalysis` is the sequence authenticate-then-send. HTTP is the
    parameter `server: HttpRequest -> HttpResponse`, and the method returns
    the requests it issued alongside the result.

`Tables` (`tables.dfy`) holds the table representation: ordered column names
and rows keyed by column name. `Strings` (`strings.dfy`) holds substring
occurrence and Python's rendering of `None` in an f-string. `Wrappers`
(`wrappers.dfy`) holds `Option` and `Result`.

Behaviour of the code worth noting:

- A login answered with status 200 but without an `access_token` field does
  not raise (line 34). The token is then `None`, and the chat request carries
  `Authorization: Bearer None` (`PyStr`).
- A chat answer without a `response` field likewise yields `None` (line 53).
  The page then formats the text "None".
- The heatmap branch (lines 187-191) checks no column: it hands the whole
  filtered table to `data.corr()` whatever the axis columns are.
- Line 205 only decides whether the HTML download button is shown; for the
  matplotlib charts it is simply not shown.
- When the x and y columns are the same, the plotly branches build the labels
  dictionary `{x: x_label, y: y_label}`, which has only one key. Both axes
  then show the y label (`Charts.SameColumnShowsYLabel`).
- The prompt is in Portuguese: "Analisar os dados de {x} vs {y} com o título
  {title}."
- `send_prompt_to_nneural` takes `api_key` but does not use it. The chat
  request in the model does not depend on it.

## Model

| member | source | states |
|---|---|---|
| `Tables.Unique` | app.py:132 | a column's distinct values: no value twice, and exactly the values the column takes |
| `Tables.UniqueFirstAppearance` | app.py:132 | `unique()` lists the values in the order of their first appearance in the column |
| `Filters.UniqueListsColumn` | app.py:132 | `data[column].unique()` lists each value of the column once and no other value; every row's cell is in it |
| `Filters.DefaultFilters` | app.py:128-135 | the default `filters` has one entry per column, and each lists that column's distinct values, so every cell of the table is selected |
| `Filters.Narrow` | app.py:138 | one `isin` narrowing step is `Where` for a selection of that single column |
| `Filters.ApplyFilters` | app.py:137-138 | narrowing once per selected column, in column order, leaves the columns unchanged and yields `Where` over all columns: exactly the input rows whose cell in every selected column is in its list; a well-formed table stays well-formed |
| `Filters.WhereExtend` | app.py:137-138 | narrowing by one more column is the logical AND of that column's `isin` with the columns already done; an unselected column changes nothing |
| `Filters.WhereCounts` | app.py:138 | each row occurs in the output as often as in the input if it passes every selection, and not at all otherwise |
| `Filters.WhereMembers` | app.py:137-138 | when every selected column is a table column, a row is in the output iff it is in the input and matches every selection |
| `Filters.WhereIsSubsequence` | app.py:138 | filtering never adds or reorders rows: the output is a subsequence of the input |
| `Filters.WhereIdempotent` | app.py:137-138 | applying the same selection to the filtered rows changes nothing |
| `Filters.WhereKeepsPassing` | app.py:137-138 | when every row passes, the output is the input unchanged |
| `Filters.CoveringSelectionKeepsAll` | app.py:132-138 | with the default selection, or any selection listing every value of each column, filtering returns the table unchanged |
| `Filters.EmptySelectionEmpties` | app.py:134-138 | an empty list for any column leaves zero rows, with no error |
| `Filters.RegionExample` | app.py:137-138 | regions A and B, Region filtered to ["A"]: only the A row remains; Region filtered to []: no rows remain |
| `Charts.KindOf` | app.py:145-203 | a label selects a branch iff it is one of the eight select-box options, and the branch's label is that text |
| `Charts.OptionsSelectBranches` | app.py:145 | there are eight options, each selects its own branch, and each chart kind is selected by its own label |
| `Charts.TotalsOverlay` | app.py:156-195 | an overlay appears only when `show_totals` is ticked; value labels exactly on the plotly charts, count labels exactly on the histogram |
| `Charts.Render` | app.py:153-203 | a drawing branch is taken iff both axis columns are non-empty and the label names a branch; it goes to its kind's library, with the user's title and the overlay of `TotalsOverlay`; only the heatmap is handed the whole table |
| `Charts.OverlayPlacement` | app.py:154-203 | without `show_totals` there is no overlay; with it, `%{y}` value labels go on exactly the plotly charts, `'outside'` exactly for Barra and `'top center'` exactly for Linha, Dispersão and Áreas; the histogram gets count labels; box plot, heatmap and violin get none |
| `Charts.OffersHtmlExport` | app.py:205 | the HTML download is offered iff the chart type is a plotly one (Linha, Barra, Dispersão, Áreas) |
| `Charts.Downloads` | app.py:153-223 | with no axis column, or when the drawing call raised, there are no downloads; otherwise exactly two buttons, the HTML chart first and the CSV of the filtered data, when the chart is plotly, and the CSV button alone otherwise |
| `Charts.HeatmapIgnoresAxesAndColor` | app.py:187-191 | the heatmap takes no axis column, label or colour, only the whole table: any two choices with the same title draw the same figure |
| `Charts.HistogramReadsOnlyY` | app.py:169-179 | the histogram reads only the y column, in 30 bins, whatever the x column |
| `Charts.SameColumnShowsYLabel` | app.py:154-155 | on a plotly chart whose two axes are one column, both axes show the y label |
| `Report.FormatResponse` | app.py:57-80 | the report holds the analysis text verbatim, right after the template's opening, and is exactly as long as opening, text and closing together |
| `Report.ExtractAnalysis` | app.py:57-80 | whatever text it recovers from a document formats back to that same document |
| `Report.ExtractFormatted` | app.py:57-80 | for every template name, the analysis text comes back out of its report unchanged |
| `Report.FormatInjective` | app.py:57-80 | two analysis texts give the same report only if they are equal |
| `Report.HeadingLineShown` | app.py:58-80 | every report contains its template's `<h1>` line and heading text |
| `Report.HeadingShown` | app.py:57-80 | "Template 1" shows "Relatório de Análise de Dados"; "Template 2" shows "Data Analysis Report"; any other name shows the "Report" heading; all show the analysis text |
| `Report.FallbackUniform` | app.py:74-80 | every name other than the two templates gets one and the same wrapper |
| `Analysis.LoginRequest` | app.py:22-31 | the login posts to `{api_base_url}/login` (the configured base URL, `None` when unset, followed by `/login`), with the JSON content-type header, a JSON object with exactly the keys email and password, holding the configured credentials (`null` when unset) |
| `Analysis.Authenticate` | app.py:21-36 | authentication succeeds iff the login's status is 200 with a JSON body, and the token is then its `access_token` field or `None`; any other status fails with that status and body |
| `Analysis.ReadLogin` | app.py:31-36 | the login succeeds iff the status is 200 (and the body is JSON), and the token is then the `access_token` field or `None`; any other status fails with that status and body |
| `Analysis.RejectedLoginStops` | app.py:33-36 | a login answered with any status other than 200 fails with an authentication error carrying that status and body |
| `Analysis.ReadChat` | app.py:50-55 | the analysis succeeds iff the status is 200 (and the body is JSON), with the `response` field or `None`; any other status fails with that status and body |
| `Analysis.ChatRequest` | app.py:39-50 | the analysis posts to `{api_base_url}/chat`, with the headers `Authorization: Bearer <token>` and the JSON content type, a body with exactly the keys prompt, data and chart_info, holding the prompt, the table's records and the chart settings |
| `Analysis.Records` | app.py:46 | `data` is a JSON array with one record per row of the filtered table |
| `Analysis.RecordReadsBack` | app.py:46 | a row's record, read back, gives the row's cells on the table's columns |
| `Analysis.RecordsReadBack` | app.py:44-47 | the `data` payload, read back, gives exactly the filtered table's rows, in order |
| `Analysis.Prompt` | app.py:231 | the prompt starts with the fixed words "Analisar os dados de " and ends with a full stop |
| `Analysis.PromptPlacesParts` | app.py:231 | the prompt is "Analisar os dados de ", the x column, " vs ", the y column, " com o título ", the title and a full stop, each verbatim and one after the other |
| `Analysis.ChartInfo` | app.py:233-240 | `chart_info` is a JSON object of six fields, holding the chart type and the title under their keys |
| `Analysis.ChartInfoFields` | app.py:233-240 | `chart_info` has exactly the keys chart_type, title, x_axis_label, y_axis_label, color and show_totals, in that order, each holding its setting |
| `Analysis.AnalyseFiltered` | app.py:137-138 | the table is narrowed by the selection and stays well-formed; the chat request, when sent, carries the filtered rows as its `data`; the result is the chat response's reading, or the failed login |
| `Analysis.RequestAnalysis` | app.py:229-244 | the login request always goes first. The chat request is sent iff authentication succeeded, and then carries that token, the prompt, the records and `chart_info`. A failed login is the result. Success means both statuses were 200, and the result is the chat response's `response` field |

## Left out

- Everything Streamlit draws is left out: page setup, CSS, logo, titles, sidebar widgets, spinner, `st.error` (lines 83-119, 124-125, 140-151, 210-227, 245-254). The user's multiselect choices enter as the `sel` argument of `ApplyFilters`. `DefaultFilters` models the widgets' defaults, the state before the user has touched them.
- Loading the sheet (`utils.get_csv_export_url`, `utils.load_data`, line 123) is left out. `utils.py` is not part of this model, so URL rewriting, fetching and type inference are absent, and a table is given as a value.
- Cells are text, whole numbers or missing. Floating-point cells, dates, and pandas' handling of NaN in `isin` are not modelled.
- `CellJson`: an empty cell is sent as JSON `null` in the model. pandas hands an empty cell over as a float NaN, which Python's JSON encoder does not write as `null`: depending on the `requests` version the post is refused before sending or the body holds a bare `NaN`, which is not valid JSON. So for a table with an empty cell, `RequestAnalysis`, `AnalyseFiltered` and `RecordsReadBack` describe a payload the page does not send. Library serialisation of floats is outside this model.
- The plotting calls (plotly, matplotlib, seaborn) and `data.corr()` are left out; they are library code and floating point. `Render` records only what each branch passes to them. The histogram's count labels are recorded as present, without their positions (`v + 0.5`) or values.
- `Render`: describes only the case where the branch's drawing call returns. A library call can raise: the heatmap's `data.corr()` on a text column under pandas 2, for one. Line 251 then catches it, and the page draws no figure. Which tables make a library call raise is not modelled.
- `Downloads`: when the drawing call raised, the page skips lines 205-223 and shows no button. The model takes this as the `drawn` argument, not as a property of the table.
- `RequestAnalysis`: the "Analisar Dados com IA" button (line 229) is not shown either when the drawing call raised. The model describes the request cycle once the button was pressed.
- `pio.write_html` and `data.to_csv` are opaque serialisers. The model says which downloads are offered (`Downloads`), not their bytes.
- Loading the environment (`load_dotenv`, `os.getenv`, lines 15-19) is a `ServiceConfig` value. A variable that is not set is `None`, rendered "None" in URLs and `null` in the login body.
- The HTTP transport and JSON parsing are left out. `requests.post` is the `server` function, which is deterministic and never raises, so connection errors and timeouts are absent. A response's JSON body is reduced to its string-valued fields, and a body that does not parse gives `NotJson`.
- The text of the exception messages ("Erro na autenticação: …", "Erro na solicitação: …") is not modelled. The errors carry the status and body those messages contain.
- Showing the formatted report on the page (lines 245-247) is left out. `format_response` itself is modelled as `Report.FormatResponse`.
- `Filters.ApplyFilters` iterates over the table's columns and narrows by those that have a selection. In the page the `filters` dictionary has exactly the columns as keys, in column order (lines 131-135), so this is the same sequence of narrowing steps.
