/** The list endpoint (`backend/read_manutencao.php`): a GET request with two
    optional filters, `coxo_id` and `data_manut`, becomes one parameterized
    SELECT on `tb_coxos`, and the rows it returns become the response. */
module ReadManutencao {
  import opened Php
  import opened Database

  const BaseQuery := "SELECT id, coxo_id, data_manut" + " FROM tb_coxos WHERE 1=1"
  const CoxoIdClause := " AND coxo_id = ?"
  const DataManutClause := " AND data_manut = ?"

  const InvalidAccess := "Acesso inválido."
  const Found := "Dados encontrados."
  const NotFound := "Nenhum registro encontrado."

  /** The JSON object the endpoint prints: `data` is `null` or the rows. */
  datatype Response = Response(success: bool, message: string, data: Option<seq<Row>>)

  /** How a request ends: the handler prints a response, or the driver
      raises an error or an exception that the process-wide handlers
      installed at the top of the file take over (those handlers are not part
      of this model). */
  datatype Outcome = Reply(response: Response) | Fault

  /** The optional filters, as the handler reads them from the query string. */
  function CoxoIdFilter(request: Request): Option<string> { Input(request.query, "coxo_id") }
  function DataManutFilter(request: Request): Option<string> { Input(request.query, "data_manut") }

  /** The base query has no placeholder, each filter clause exactly one. */
  lemma FragmentPlaceholders()
    ensures Placeholders(BaseQuery) == 0
    ensures Placeholders(CoxoIdClause) == 1
    ensures Placeholders(DataManutClause) == 1
  {
    BaseHasNoPlaceholder();
    NoPlaceholders(BaseQuery);
    CoxoIdClauseEndsInPlaceholder();
    ClausePlaceholder(CoxoIdClause);
    DataManutClauseEndsInPlaceholder();
    ClausePlaceholder(DataManutClause);
  }

  lemma BaseHasNoPlaceholder()
    ensures '?' !in BaseQuery
  {
  }

  lemma CoxoIdClauseEndsInPlaceholder()
    ensures CoxoIdClause != [] && CoxoIdClause[|CoxoIdClause| - 1] == '?'
    ensures '?' !in CoxoIdClause[..|CoxoIdClause| - 1]
  {
  }

  lemma DataManutClauseEndsInPlaceholder()
    ensures DataManutClause != [] && DataManutClause[|DataManutClause| - 1] == '?'
    ensures '?' !in DataManutClause[..|DataManutClause| - 1]
  {
  }

  /** The SQL text for a choice of active filters. It is a function of which
      filters are active alone, so no filter value can reach the SQL text. */
  function QueryText(byCoxoId: bool, byDataManut: bool): (sql: string)
    ensures |BaseQuery| <= |sql| && sql[..|BaseQuery|] == BaseQuery
  {
    BaseQuery + (if byCoxoId then CoxoIdClause else "") + (if byDataManut then DataManutClause else "")
  }

  /** The values bound for the active filters, in clause order. */
  function FilterArgs(coxoId: Option<string>, dataManut: Option<string>): (args: seq<Value>)
    ensures |args| == (if IsTruthy(coxoId) then 1 else 0) + (if IsTruthy(dataManut) then 1 else 0)
    ensures forall k :: 0 <= k < |args| ==> args[k].Text? && args[k].text != "" && args[k].text != "0"
    ensures IsTruthy(coxoId) ==> args[0] == Text(coxoId.value)
    ensures IsTruthy(dataManut) ==> args[|args| - 1] == Text(dataManut.value)
  {
    (if IsTruthy(coxoId) then [Text(coxoId.value)] else [])
    + (if IsTruthy(dataManut) then [Text(dataManut.value)] else [])
  }

  /** The bind type string for `n` string values. */
  function TextTypes(n: nat): (types: string)
    ensures |types| == n && forall k :: 0 <= k < n ==> types[k] == 's'
  {
    seq(n, _ => 's')
  }

  /** There is one placeholder in the query for each bound value. */
  lemma QueryPlaceholders(coxoId: Option<string>, dataManut: Option<string>)
    ensures Placeholders(QueryText(IsTruthy(coxoId), IsTruthy(dataManut))) == |FilterArgs(coxoId, dataManut)|
  {
    var a, b := IsTruthy(coxoId), IsTruthy(dataManut);
    FragmentPlaceholders();
    var c := if a then CoxoIdClause else "";
    var d := if b then DataManutClause else "";
    PlaceholdersAppend(BaseQuery, c);
    PlaceholdersAppend(BaseQuery + c, d);
    assert Placeholders("") == 0;
  }

  /** A filter parameter that is blank, or is `"0"` once trimmed, is treated
      as if it had not been sent: the same SQL text and the same bound values. */
  lemma FalsyFilterIgnored(request: Request, key: string, raw: string)
    requires key == "coxo_id" || key == "data_manut"
    requires Blank(raw) || Trim(raw) == "0"
    ensures var sent := request.(query := request.query[key := raw]);
      var omitted := request.(query := request.query - {key});
      && QueryText(IsTruthy(CoxoIdFilter(sent)), IsTruthy(DataManutFilter(sent)))
         == QueryText(IsTruthy(CoxoIdFilter(omitted)), IsTruthy(DataManutFilter(omitted)))
      && FilterArgs(CoxoIdFilter(sent), DataManutFilter(sent))
         == FilterArgs(CoxoIdFilter(omitted), DataManutFilter(omitted))
  {
    var sent := request.(query := request.query[key := raw]);
    InputTruthy(sent.query, key);
    assert !IsTruthy(Input(sent.query, key));
  }

  /** Listing by one unit: a padded `coxo_id` is trimmed, selects the
      `coxo_id` clause alone, and is bound as the only value. */
  lemma ExampleFilterByCoxoId()
    ensures var request := Request("GET", map["coxo_id" := "C1 "], map[]);
      && QueryText(IsTruthy(CoxoIdFilter(request)), IsTruthy(DataManutFilter(request))) == BaseQuery + CoxoIdClause
      && FilterArgs(CoxoIdFilter(request), DataManutFilter(request)) == [Text("C1")]
  {
    assert KeptUntil("C1 ", 0, 2) == 2;
    assert Trim("C1 ") == "C1";
  }

  /** Builds the query, the bound values and the bind type string, appending
      one clause, one value and one `'s'` for each truthy filter, `coxo_id`
      first. */
  method BuildQuery(coxoId: Option<string>, dataManut: Option<string>)
    returns (query: string, params: seq<Value>, types: string)
    ensures query == QueryText(IsTruthy(coxoId), IsTruthy(dataManut))
    ensures params == FilterArgs(coxoId, dataManut)
    ensures Placeholders(query) == |params| == |types|
    ensures types == TextTypes(|params|) && TypesDescribe(types, params)
    ensures !IsTruthy(coxoId) && !IsTruthy(dataManut) ==> query == BaseQuery && params == []
    ensures IsTruthy(coxoId) && IsTruthy(dataManut) ==>
      query == BaseQuery + CoxoIdClause + DataManutClause
      && params == [Text(coxoId.value), Text(dataManut.value)]
  {
    query := BaseQuery;
    params := [];
    types := "";
    if IsTruthy(coxoId) {
      query := query + CoxoIdClause;
      params := params + [Text(coxoId.value)];
      types := types + "s";
    }
    if IsTruthy(dataManut) {
      query := query + DataManutClause;
      params := params + [Text(dataManut.value)];
      types := types + "s";
    }
    QueryPlaceholders(coxoId, dataManut);
  }

  /** Handles one request against the database oracle `db`, returning how it
      ends and the driver calls it made. */
  method Handle(request: Request, db: Oracle) returns (outcome: Outcome, calls: seq<Call>)
    // Anything but GET: refused before any database call.
    ensures request.verb != "GET" ==>
      outcome == Reply(Response(false, InvalidAccess, None)) && calls == []
    // Connection failure: the driver's warning or exception ends the request
    // in the process-wide handlers, and nothing else is attempted.
    ensures request.verb == "GET" && IsTruthy(db.connectError) ==>
      outcome == Fault && calls == [Connect]
    // Connected: the statement prepared is the query for the active filters.
    ensures request.verb == "GET" && !IsTruthy(db.connectError) ==>
      |calls| >= 2
      && calls[..2] == [Connect, Prepare(QueryText(IsTruthy(CoxoIdFilter(request)), IsTruthy(DataManutFilter(request))))]
    // A failed prepare leaves no statement to call: the request faults.
    ensures request.verb == "GET" && !IsTruthy(db.connectError) && !db.prepares ==>
      outcome == Fault && |calls| == 2
    // Prepared: bind only when a filter is active, then execute and fetch.
    ensures request.verb == "GET" && !IsTruthy(db.connectError) && db.prepares ==>
      var args := FilterArgs(CoxoIdFilter(request), DataManutFilter(request));
      calls[2..] == (if args == [] then [] else [Bind(TextTypes(|args|), args)]) + [Execute, GetResult]
    // The response: success with the rows exactly when some row came back.
    ensures request.verb == "GET" && !IsTruthy(db.connectError) && db.prepares ==>
      && outcome.Reply?
      && (outcome.response.success <==> db.result.Some? && |db.result.value| > 0)
      && (outcome.response.success ==> outcome.response == Response(true, Found, db.result))
      && (!outcome.response.success ==> outcome.response == Response(false, NotFound, None))
  {
    var response := Response(false, "", None);
    calls := [];
    if request.verb == "GET" {
      var coxoId := CoxoIdFilter(request);
      var dataManut := DataManutFilter(request);

      calls := calls + [Connect];
      if IsTruthy(db.connectError) {
        // `new mysqli` warns (or throws, in strict reporting mode) before
        // `connect_error` is tested, and the handlers installed at the top of
        // the file end the request.
        return Fault, calls;
      }

      var query, params, types := BuildQuery(coxoId, dataManut);

      calls := calls + [Prepare(query)];
      if !db.prepares {
        return Fault, calls;
      }
      if params != [] {
        calls := calls + [Bind(types, params)];
      }
      calls := calls + [Execute];
      calls := calls + [GetResult];
      var result := db.result;

      if result.Some? && |result.value| > 0 {
        response := response.(success := true, message := Found, data := result);
      } else {
        response := response.(message := NotFound);
      }
      outcome := Reply(response);
    } else {
      response := response.(message := InvalidAccess);
      outcome := Reply(response);
    }
  }
}
