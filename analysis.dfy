/**
 * The "analyse with AI" action: log in to the analysis service with the
 * fixed credentials, then post the prompt, the filtered table and the chart
 * settings with the bearer token, and read the analysis text back. The HTTP
 * transport is a parameter: `server` gives the response to each request.
 */
module Analysis {
  import opened Wrappers
  import opened Strings
  import opened Tables
  import opened Charts
  import Filters

  /** A JSON document as the request bodies carry it; objects keep their key order. */
  datatype Json =
    | JNull
    | JBool(b: bool)
    | JInt(i: int)
    | JString(s: string)
    | JArray(items: seq<Json>)
    | JObject(fields: seq<(string, Json)>)

  /** The settings read from the environment at start-up; each may be unset. */
  datatype ServiceConfig = ServiceConfig(
    apiKey: Option<string>,
    email: Option<string>,
    password: Option<string>,
    apiBaseUrl: Option<string>)

  datatype HttpRequest = Post(url: string, headers: seq<(string, string)>, body: Json)

  /**
   * A response: its status, its body text, and the string fields of its body
   * when the body parses as a JSON object (`None` when `.json()` would raise).
   */
  datatype HttpResponse = HttpResponse(status: int, text: string, json: Option<map<string, string>>)

  /** Why the action failed; the page shows the error and keeps the table. */
  datatype Error =
    | AuthenticationError(status: int, body: string)
    | RequestError(status: int, body: string)
    | NotJson(body: string)

  /** A setting that may be unset, as a JSON value (`None` becomes `null`). */
  function OptionalJson(o: Option<string>): Json
  {
    match o
    case Some(s) => JString(s)
    case None => JNull
  }

  /** `dict.get(key)`: the field when present, else `None`. */
  function Get(fields: map<string, string>, key: string): (r: Option<string>)
    ensures r.Some? <==> key in fields
    ensures r.Some? ==> r.value == fields[key]
  {
    if key in fields then Some(fields[key]) else None
  }

  // ---------------------------------------------------------------- login

  /** The login request: the fixed credentials posted to `{api_base_url}/login`. */
  function LoginRequest(cfg: ServiceConfig): (r: HttpRequest)
    ensures OccursAt(r.url, PyStr(cfg.apiBaseUrl), 0) && |r.url| == |PyStr(cfg.apiBaseUrl)| + 6
    ensures OccursAt(r.url, "/login", |r.url| - 6)
    ensures r.headers == [("Content-Type", "application/json")]
    ensures r.body.JObject? && Keys(r.body.fields) == ["email", "password"]
    ensures Lookup(r.body.fields, "email") == Some(OptionalJson(cfg.email))
    ensures Lookup(r.body.fields, "password") == Some(OptionalJson(cfg.password))
  {
    Post(PyStr(cfg.apiBaseUrl) + "/login",
         [("Content-Type", "application/json")],
         JObject([("email", OptionalJson(cfg.email)), ("password", OptionalJson(cfg.password))]))
  }

  /**
   * `authenticate()` after the post: status 200 yields the `access_token`
   * field, which may be absent; any other status raises with status and body.
   */
  function ReadLogin(resp: HttpResponse): (r: Result<Option<string>, Error>)
    ensures r.Success? <==> resp.status == 200 && resp.json.Some?
    ensures resp.status != 200 ==> r == Failure(AuthenticationError(resp.status, resp.text))
    ensures r.Success? ==> r.value == Get(resp.json.value, "access_token")
  {
    if resp.status == 200 then
      match resp.json
      case None => Failure(NotJson(resp.text))
      case Some(fields) => Success(Get(fields, "access_token"))
    else
      Failure(AuthenticationError(resp.status, resp.text))
  }

  /**
   * `authenticate()`: post the login request; status 200 with a JSON body
   * gives the token, any other status the authentication error.
   */
  function Authenticate(cfg: ServiceConfig, server: HttpRequest -> HttpResponse): (r: Result<Option<string>, Error>)
    ensures r.Success? <==> server(LoginRequest(cfg)).status == 200 && server(LoginRequest(cfg)).json.Some?
    ensures server(LoginRequest(cfg)).status != 200 ==>
      r == Failure(AuthenticationError(server(LoginRequest(cfg)).status, server(LoginRequest(cfg)).text))
    ensures r.Success? ==> r.value == Get(server(LoginRequest(cfg)).json.value, "access_token")
  {
    ReadLogin(server(LoginRequest(cfg)))
  }

  // ------------------------------------------------------------ the payload

  /** The fixed words of the prompt. */
  const PromptLead: string := "Analisar os dados de "
  const PromptVs: string := " vs "
  const PromptTitle: string := " com o título "

  /** The prompt sent with every analysis, built from the two axis columns and the title. */
  function Prompt(x: string, y: string, title: string): (p: string)
    ensures OccursAt(p, PromptLead, 0)
    ensures |p| > 0 && p[|p| - 1] == '.'
  {
    PromptLead + x + PromptVs + y + PromptTitle + title + "."
  }

  /** The `chart_info` object: the chart settings under six fixed keys. */
  function ChartInfo(chartType: string, s: ChartSettings): (j: Json)
    ensures j.JObject? && |j.fields| == 6
    ensures Lookup(j.fields, "chart_type") == Some(JString(chartType))
    ensures Lookup(j.fields, "title") == Some(JString(s.title))
  {
    JObject([
      ("chart_type", JString(chartType)),
      ("title", JString(s.title)),
      ("x_axis_label", JString(s.xLabel)),
      ("y_axis_label", JString(s.yLabel)),
      ("color", JString(s.color)),
      ("show_totals", JBool(s.showTotals))])
  }

  /** The keys of a JSON object's fields, in order. */
  function Keys(fields: seq<(string, Json)>): (ks: seq<string>)
    ensures |ks| == |fields|
    ensures forall i | 0 <= i < |fields| :: ks[i] == fields[i].0
  {
    seq(|fields|, i requires 0 <= i < |fields| => fields[i].0)
  }

  /** The value stored under `key` in a JSON object's fields (the first, if repeated). */
  function Lookup(fields: seq<(string, Json)>, key: string): Option<Json>
  {
    if fields == [] then None
    else if fields[0].0 == key then Some(fields[0].1)
    else Lookup(fields[1..], key)
  }

  /**
   * A cell as it appears in the `data` records: text as a JSON string, a
   * number as a JSON number, and an empty cell as `null` (see README, Left out).
   */
  function CellJson(v: Value): Json
  {
    match v
    case Text(s) => JString(s)
    case Number(n) => JInt(n)
    case Missing => JNull
  }

  /** One row as a record: a JSON object with one field per column, in column order. */
  function Record(columns: seq<string>, row: Row): Json
    requires forall c | c in columns :: c in row
  {
    JObject(seq(|columns|, j requires 0 <= j < |columns| => (columns[j], CellJson(row[columns[j]]))))
  }

  /** `data.to_dict(orient='records')`: the table as a JSON array of row records. */
  function Records(t: Table): (j: Json)
    requires WellFormed(t)
    ensures j.JArray? && |j.items| == |t.rows|
  {
    JArray(seq(|t.rows|, i requires 0 <= i < |t.rows| => Record(t.columns, t.rows[i])))
  }

  // ------------------------------------------------------------- chat call

  /** The analysis request: prompt, records and chart settings, with the bearer token. */
  function ChatRequest(cfg: ServiceConfig, token: Option<string>, prompt: string, t: Table, chartInfo: Json): (r: HttpRequest)
    requires WellFormed(t)
    ensures OccursAt(r.url, PyStr(cfg.apiBaseUrl), 0) && |r.url| == |PyStr(cfg.apiBaseUrl)| + 5
    ensures OccursAt(r.url, "/chat", |r.url| - 5)
    ensures |r.headers| == 2 && r.headers[0] == ("Authorization", "Bearer " + PyStr(token))
    ensures r.headers[1] == ("Content-Type", "application/json")
    ensures r.body.JObject? && Keys(r.body.fields) == ["prompt", "data", "chart_info"]
    ensures Lookup(r.body.fields, "prompt") == Some(JString(prompt))
    ensures Lookup(r.body.fields, "data") == Some(Records(t))
    ensures Lookup(r.body.fields, "chart_info") == Some(chartInfo)
  {
    var payload := [("prompt", JString(prompt)), ("data", Records(t)), ("chart_info", chartInfo)];
    LookupFirst(payload, "chart_info", 2);
    Post(PyStr(cfg.apiBaseUrl) + "/chat",
         [("Authorization", "Bearer " + PyStr(token)), ("Content-Type", "application/json")],
         JObject(payload))
  }

  /**
   * `send_prompt_to_nneural` after the post: status 200 yields the `response`
   * field, which may be absent; any other status raises with status and body.
   */
  function ReadChat(resp: HttpResponse): (r: Result<Option<string>, Error>)
    ensures r.Success? <==> resp.status == 200 && resp.json.Some?
    ensures resp.status != 200 ==> r == Failure(RequestError(resp.status, resp.text))
    ensures r.Success? ==> r.value == Get(resp.json.value, "response")
  {
    if resp.status == 200 then
      match resp.json
      case None => Failure(NotJson(resp.text))
      case Some(fields) => Success(Get(fields, "response"))
    else
      Failure(RequestError(resp.status, resp.text))
  }

  /**
   * The button's action: authenticate, and only if that succeeded send the
   * analysis request with the token obtained. `sent` lists the requests
   * issued, in order; `result` is the analysis text or the error raised.
   */
  method RequestAnalysis(cfg: ServiceConfig, server: HttpRequest -> HttpResponse, t: Table,
                         chartType: string, x: string, y: string, s: ChartSettings)
    returns (result: Result<Option<string>, Error>, sent: seq<HttpRequest>)
    requires WellFormed(t)
    ensures 1 <= |sent| <= 2 && sent[0] == LoginRequest(cfg)
    ensures |sent| == 2 <==> Authenticate(cfg, server).Success?
    ensures Authenticate(cfg, server).Failure? ==> result == Failure(Authenticate(cfg, server).error)
    ensures |sent| == 2 ==>
      && sent[1] == ChatRequest(cfg, Authenticate(cfg, server).value, Prompt(x, y, s.title), t, ChartInfo(chartType, s))
      && result == ReadChat(server(sent[1]))
    ensures result.Success? ==>
      && |sent| == 2
      && server(sent[0]).status == 200 && server(sent[1]).status == 200
      && result.value == Get(server(sent[1]).json.value, "response")
  {
    var prompt := Prompt(x, y, s.title);
    var chartInfo := ChartInfo(chartType, s);
    var login := LoginRequest(cfg);
    sent := [login];
    var token := ReadLogin(server(login));
    if token.Failure? {
      result := Failure(token.error);
      return;
    }
    var chat := ChatRequest(cfg, token.value, prompt, t, chartInfo);
    sent := sent + [chat];
    result := ReadChat(server(chat));
  }

  /**
   * The page's order of work: narrow the table by the sidebar selection,
   * then run the analysis on the narrowed table. The chat request, when sent,
   * carries the filtered rows as its `data`.
   */
  method AnalyseFiltered(cfg: ServiceConfig, server: HttpRequest -> HttpResponse, t: Table, sel: Filters.Selection,
                         chartType: string, x: string, y: string, s: ChartSettings)
    returns (filtered: Table, result: Result<Option<string>, Error>, sent: seq<HttpRequest>)
    requires WellFormed(t)
    requires forall c | c in sel :: c in t.columns
    ensures filtered.columns == t.columns && filtered.rows == Filters.Where(t.rows, t.columns, sel)
    ensures WellFormed(filtered)
    ensures 1 <= |sent| <= 2 && sent[0] == LoginRequest(cfg)
    ensures |sent| == 2 <==> Authenticate(cfg, server).Success?
    ensures |sent| == 2 ==> sent[1].body.JObject? && Lookup(sent[1].body.fields, "data") == Some(Records(filtered))
    ensures |sent| == 2 ==> result == ReadChat(server(sent[1]))
    ensures |sent| == 1 ==> result == Failure(Authenticate(cfg, server).error)
  {
    filtered := Filters.ApplyFilters(t, sel);
    result, sent := RequestAnalysis(cfg, server, filtered, chartType, x, y, s);
  }

  // ------------------------------------------------------------ properties

  /**
   * A rejected login raises with its status and body. (That no analysis
   * request follows is `RequestAnalysis`'s contract.)
   */
  lemma RejectedLoginStops(cfg: ServiceConfig, server: HttpRequest -> HttpResponse)
    requires server(LoginRequest(cfg)).status != 200
    ensures Authenticate(cfg, server)
      == Failure(AuthenticationError(server(LoginRequest(cfg)).status, server(LoginRequest(cfg)).text))
  {
  }

  /**
   * The prompt names the x column, the y column and the title verbatim, each
   * at an offset fixed by the fixed words and the parts before it, and ends
   * with a full stop.
   */
  lemma PromptPlacesParts(x: string, y: string, title: string)
    ensures OccursAt(Prompt(x, y, title), x, |PromptLead|)
    ensures OccursAt(Prompt(x, y, title), PromptVs, |PromptLead| + |x|)
    ensures OccursAt(Prompt(x, y, title), y, |PromptLead| + |x| + |PromptVs|)
    ensures OccursAt(Prompt(x, y, title), PromptTitle, |PromptLead| + |x| + |PromptVs| + |y|)
    ensures OccursAt(Prompt(x, y, title), title, |PromptLead| + |x| + |PromptVs| + |y| + |PromptTitle|)
    ensures |Prompt(x, y, title)| == |PromptLead| + |x| + |PromptVs| + |y| + |PromptTitle| + |title| + 1
    ensures Prompt(x, y, title)[|Prompt(x, y, title)| - 1] == '.'
  {
  }

  /** `chart_info` has exactly six keys, and each carries its setting. */
  lemma ChartInfoFields(chartType: string, s: ChartSettings)
    ensures ChartInfo(chartType, s).JObject?
    ensures Keys(ChartInfo(chartType, s).fields)
      == ["chart_type", "title", "x_axis_label", "y_axis_label", "color", "show_totals"]
    ensures Lookup(ChartInfo(chartType, s).fields, "chart_type") == Some(JString(chartType))
    ensures Lookup(ChartInfo(chartType, s).fields, "title") == Some(JString(s.title))
    ensures Lookup(ChartInfo(chartType, s).fields, "x_axis_label") == Some(JString(s.xLabel))
    ensures Lookup(ChartInfo(chartType, s).fields, "y_axis_label") == Some(JString(s.yLabel))
    ensures Lookup(ChartInfo(chartType, s).fields, "color") == Some(JString(s.color))
    ensures Lookup(ChartInfo(chartType, s).fields, "show_totals") == Some(JBool(s.showTotals))
  {
    var f := ChartInfo(chartType, s).fields;
    LookupFirst(f, "x_axis_label", 2);
    LookupFirst(f, "y_axis_label", 3);
    LookupFirst(f, "color", 4);
    LookupFirst(f, "show_totals", 5);
  }

  /** Lookup finds the value at the first field with the key. */
  lemma {:induction false} LookupFirst(fields: seq<(string, Json)>, key: string, i: nat)
    requires i < |fields| && fields[i].0 == key
    requires forall j | 0 <= j < i :: fields[j].0 != key
    ensures Lookup(fields, key) == Some(fields[i].1)
  {
    if i > 0 {
      LookupFirst(fields[1..], key, i - 1);
    }
  }

  // ------------------------------------------------- reading the records back

  /** A JSON value as a cell, if it is one. */
  function CellOf(j: Json): Option<Value>
  {
    match j
    case JString(s) => Some(Text(s))
    case JInt(n) => Some(Number(n))
    case JNull => Some(Missing)
    case _ => None
  }

  /** The row a record's fields describe: the last field for a key wins, as in a dict. */
  function FieldsToRow(fields: seq<(string, Json)>): Option<Row>
  {
    if fields == [] then Some(map[])
    else
      match (FieldsToRow(fields[..|fields| - 1]), CellOf(fields[|fields| - 1].1))
      case (Some(row), Some(v)) => Some(row[fields[|fields| - 1].0 := v])
      case _ => None
  }

  /** The rows an array of records describes, as the service would read `data`. */
  function RowsOf(records: seq<Json>): Option<seq<Row>>
  {
    if records == [] then Some([])
    else
      match (records[0], RowsOf(records[1..]))
      case (JObject(fields), Some(rest)) =>
        (match FieldsToRow(fields)
         case Some(row) => Some([row] + rest)
         case None => None)
      case _ => None
  }

  /** The fields of a record, read back, give the row on exactly its columns. */
  lemma {:induction false} RecordReadsBack(columns: seq<string>, row: Row)
    requires forall c | c in columns :: c in row
    ensures Record(columns, row).JObject?
    ensures FieldsToRow(Record(columns, row).fields) == Some(map c | c in columns && c in row :: row[c])
  {
    var fields := Record(columns, row).fields;
    if columns != [] {
      var init := columns[..|columns| - 1];
      var last := columns[|columns| - 1];
      RecordReadsBack(init, row);
      assert fields[..|fields| - 1] == Record(init, row).fields;
      assert CellOf(fields[|fields| - 1].1) == Some(row[last]);
      var m := map c | c in init && c in row :: row[c];
      assert (map c | c in columns && c in row :: row[c]) == m[last := row[last]] by {
        forall c ensures c in columns <==> c in init || c == last {
          assert columns == init + [last];
        }
      }
    }
  }

  /** The `data` payload carries the filtered table without loss: reading it back gives the rows. */
  lemma {:induction false} RecordsReadBack(t: Table)
    requires WellFormed(t)
    ensures RowsOf(Records(t).items) == Some(t.rows)
    decreases |t.rows|
  {
    if t.rows != [] {
      var rest := Table(t.columns, t.rows[1..]);
      RecordsReadBack(rest);
      var items := Records(t).items;
      assert items[1..] == Records(rest).items;
      var row := t.rows[0];
      assert RowFits(row, t.columns);
      RecordReadsBack(t.columns, row);
      assert (map c | c in t.columns && c in row :: row[c]) == row;
      assert t.rows == [row] + t.rows[1..];
    } else {
      assert Records(t).items == [];
    }
  }
}
