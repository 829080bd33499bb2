/** The write endpoint (`backend/insert_manutencao.php`): a POST request with
    three required form fields becomes one parameterized statement on
    `tb_coxos`, an UPDATE when an id is set and an INSERT otherwise. */
module InsertManutencao {
  import opened Php
  import opened Database

  /** The two statements, written as fragments that hold no `?` or end at
      their only one, so that their placeholders can be counted. */
  const InsertSql := InsertInto + "?" + NextValue + NextValue + ")"
  const InsertInto := "INSERT INTO tb_coxos" + " (coxo_id, data_manut, usuario)" + " VALUES ("
  const NextValue := ", ?"
  const UpdateSql := UpdateTable + SetCoxoId + SetDataManut + SetUsuario + WhereId
  const UpdateTable := "UPDATE tb_coxos"
  const SetCoxoId := " SET coxo_id = ?"
  const SetDataManut := ", data_manut = ?"
  const SetUsuario := ", usuario = ?"
  const WhereId := " WHERE id = ?"

  const InvalidAccess := "Acesso inválido."
  const MissingFields := "Erro: coxo_id, Data e Usuário são obrigatórios."
  const ConnectionErrorPrefix := "Erro de conexão: "
  const PrepareErrorPrefix := "Erro na preparação da consulta: "
  const ExecuteErrorPrefix := "Erro ao registrar: "
  const Updated := "Manutenção atualizada com sucesso!"
  const Registered := "Manutenção registrada com sucesso!"

  /** The handler reads `$id` without ever assigning it, so it is `null`. */
  const UndefinedId: Option<int> := None

  /** The JSON object the endpoint prints. */
  datatype Response = Response(success: bool, message: string)

  /** The three form fields, as the handler reads them. */
  function CoxoIdField(request: Request): Option<string> { Input(request.form, "coxo_idPost") }
  function DataManutField(request: Request): Option<string> { Input(request.form, "data_manutPost") }
  function UsuarioField(request: Request): Option<string> { Input(request.form, "usuarioPost") }

  /** Every required field is present and truthy once trimmed. */
  predicate Complete(request: Request)
  {
    IsTruthy(CoxoIdField(request)) && IsTruthy(DataManutField(request)) && IsTruthy(UsuarioField(request))
  }

  /** The fields are complete exactly when each of the three was sent, is
      not made only of blanks, and is not `"0"` once trimmed. */
  lemma CompleteIff(request: Request)
    ensures Complete(request) <==>
      Filled(request.form, "coxo_idPost") && Filled(request.form, "data_manutPost") && Filled(request.form, "usuarioPost")
  {
    InputTruthy(request.form, "coxo_idPost");
    InputTruthy(request.form, "data_manutPost");
    InputTruthy(request.form, "usuarioPost");
  }

  /** A registration with padded fields: each field is trimmed, the request
      is complete, and the three trimmed values are the ones bound. */
  lemma ExampleRegistration()
    ensures var request := Request("POST", map[],
      map["coxo_idPost" := " C1", "data_manutPost" := "2024-01-01", "usuarioPost" := "alice\n"]);
      && Complete(request)
      && WriteArgs(request, UndefinedId) == [Text("C1"), Text("2024-01-01"), Text("alice")]
  {
    assert Trim(" C1") == "C1";
    assert Trim("2024-01-01") == "2024-01-01";
    assert KeptUntil("alice\n", 0, 5) == 5;
    assert Trim("alice\n") == "alice";
  }

  /** A user that is empty or made only of blanks makes the request
      incomplete, whatever the other two fields hold. */
  lemma BlankUserIsMissing(request: Request)
    requires "usuarioPost" in request.form && Blank(request.form["usuarioPost"])
    ensures !Complete(request)
  {
    TrimEmptyIffBlank(request.form["usuarioPost"]);
  }

  /** The request passes every check before execution: a POST with all
      three fields, a connection and a prepared statement. */
  predicate Executes(request: Request, db: Oracle)
  {
    request.verb == "POST" && Complete(request) && !IsTruthy(db.connectError) && db.prepares
  }

  /** The `bind_param` type string: three strings, and an integer id for an
      UPDATE. */
  function WriteTypes(id: Option<int>): (types: string)
    ensures |types| == if IsTruthyInt(id) then 4 else 3
    ensures types[..3] == "sss"
    ensures IsTruthyInt(id) ==> types[3] == 'i'
  {
    if IsTruthyInt(id) then "sssi" else "sss"
  }

  /** The arguments bound to the prepared statement: the three fields, in
      column order, and the id after them for an UPDATE. */
  function WriteArgs(request: Request, id: Option<int>): (args: seq<Value>)
    requires Complete(request)
    ensures |args| == if IsTruthyInt(id) then 4 else 3
    ensures args[..3] == [Text(CoxoIdField(request).value), Text(DataManutField(request).value), Text(UsuarioField(request).value)]
    ensures forall k :: 0 <= k < 3 ==> args[k].text != "" && args[k].text != "0"
    ensures TypesDescribe(WriteTypes(id), args)
  {
    [Text(CoxoIdField(request).value), Text(DataManutField(request).value), Text(UsuarioField(request).value)]
    + (if IsTruthyInt(id) then [Integer(id.value)] else [])
  }

  /** The INSERT has one placeholder per column it fills. */
  lemma InsertPlaceholders()
    ensures Placeholders(InsertSql) == 3
  {
    InsertIntoHasNoPlaceholder();
    NextValuePlaceholder();
    NoPlaceholders(")");
    PlaceholdersAppend(InsertInto, "?");
    PlaceholdersAppend(InsertInto + "?", NextValue);
    PlaceholdersAppend(InsertInto + "?" + NextValue, NextValue);
    PlaceholdersAppend(InsertInto + "?" + NextValue + NextValue, ")");
  }

  lemma InsertIntoHasNoPlaceholder()
    ensures Placeholders(InsertInto) == 0
  {
    assert '?' !in InsertInto;
    NoPlaceholders(InsertInto);
  }

  lemma NextValuePlaceholder()
    ensures Placeholders(NextValue) == 1
  {
    ClausePlaceholder(NextValue);
  }

  /** The UPDATE has one placeholder per column it sets and one for the id. */
  lemma UpdatePlaceholders()
    ensures Placeholders(UpdateSql) == 4
  {
    NoPlaceholders(UpdateTable);
    SetPlaceholders();
    PlaceholdersAppend(UpdateTable, SetCoxoId);
    PlaceholdersAppend(UpdateTable + SetCoxoId, SetDataManut);
    PlaceholdersAppend(UpdateTable + SetCoxoId + SetDataManut, SetUsuario);
    PlaceholdersAppend(UpdateTable + SetCoxoId + SetDataManut + SetUsuario, WhereId);
  }

  lemma SetPlaceholders()
    ensures Placeholders(SetCoxoId) == 1 && Placeholders(SetDataManut) == 1
    ensures Placeholders(SetUsuario) == 1 && Placeholders(WhereId) == 1
  {
    SetCoxoIdPlaceholder();
    SetDataManutPlaceholder();
    SetUsuarioPlaceholder();
    WhereIdPlaceholder();
  }

  lemma SetCoxoIdPlaceholder() ensures Placeholders(SetCoxoId) == 1 { ClausePlaceholder(SetCoxoId); }
  lemma SetDataManutPlaceholder() ensures Placeholders(SetDataManut) == 1 { ClausePlaceholder(SetDataManut); }
  lemma SetUsuarioPlaceholder() ensures Placeholders(SetUsuario) == 1 { ClausePlaceholder(SetUsuario); }
  lemma WhereIdPlaceholder() ensures Placeholders(WhereId) == 1 { ClausePlaceholder(WhereId); }

  /** The statement chosen for an id has one placeholder for each bound
      value, and the type string one letter for each. */
  lemma WritePlaceholders(request: Request, id: Option<int>)
    requires Complete(request)
    ensures Placeholders(if IsTruthyInt(id) then UpdateSql else InsertSql) == |WriteArgs(request, id)| == |WriteTypes(id)|
  {
    if IsTruthyInt(id) {
      UpdatePlaceholders();
    } else {
      InsertPlaceholders();
    }
  }

  /** Handles one request for a given value of `$id` against the database
      oracle `db`, returning the response and the driver calls made. */
  method HandleWithId(request: Request, id: Option<int>, db: Oracle) returns (response: Response, calls: seq<Call>)
    // Anything but POST: refused before any database call.
    ensures request.verb != "POST" ==> response == Response(false, InvalidAccess) && calls == []
    // A missing or falsy field: refused before connecting.
    ensures request.verb == "POST" && !Complete(request) ==>
      response == Response(false, MissingFields) && calls == []
    // Connection failure: reported, nothing else is attempted.
    ensures request.verb == "POST" && Complete(request) && IsTruthy(db.connectError) ==>
      response == Response(false, ConnectionErrorPrefix + db.connectError.value) && calls == [Connect]
    // Connected: UPDATE when the id is truthy, INSERT otherwise.
    ensures request.verb == "POST" && Complete(request) && !IsTruthy(db.connectError) ==>
      |calls| >= 2 && calls[..2] == [Connect, Prepare(if IsTruthyInt(id) then UpdateSql else InsertSql)]
    // A failed prepare is reported and nothing is executed.
    ensures request.verb == "POST" && Complete(request) && !IsTruthy(db.connectError) && !db.prepares ==>
      response == Response(false, PrepareErrorPrefix + db.error) && |calls| == 2
    // Prepared: bind the fields (and the id for an UPDATE), then execute.
    ensures Executes(request, db) ==>
      calls == [Connect, Prepare(if IsTruthyInt(id) then UpdateSql else InsertSql), Bind(WriteTypes(id), WriteArgs(request, id)), Execute]
    // Success exactly when the statement was executed and execute returned true.
    ensures response.success <==> Executes(request, db) && db.executes
    ensures response.success ==> response.message == if IsTruthyInt(id) then Updated else Registered
    ensures Executes(request, db) && !db.executes ==> response.message == ExecuteErrorPrefix + db.stmtError
  {
    response := Response(false, "");
    calls := [];
    if request.verb == "POST" {
      var coxoId := CoxoIdField(request);
      var dataManut := DataManutField(request);
      var usuario := UsuarioField(request);

      if !IsTruthy(coxoId) || !IsTruthy(dataManut) || !IsTruthy(usuario) {
        response := response.(message := MissingFields);
        return;
      }

      calls := calls + [Connect];
      if IsTruthy(db.connectError) {
        response := response.(message := ConnectionErrorPrefix + db.connectError.value);
        return;
      }

      if IsTruthyInt(id) {
        calls := calls + [Prepare(UpdateSql)];
        if !db.prepares {
          response := response.(message := PrepareErrorPrefix + db.error);
          return;
        }
        calls := calls + [Bind("sssi", [Text(coxoId.value), Text(dataManut.value), Text(usuario.value), Integer(id.value)])];
        assert [Text(coxoId.value), Text(dataManut.value), Text(usuario.value), Integer(id.value)] == WriteArgs(request, id);
        assert calls == [Connect, Prepare(UpdateSql), Bind(WriteTypes(id), WriteArgs(request, id))];
      } else {
        calls := calls + [Prepare(InsertSql)];
        if !db.prepares {
          response := response.(message := PrepareErrorPrefix + db.error);
          return;
        }
        calls := calls + [Bind("sss", [Text(coxoId.value), Text(dataManut.value), Text(usuario.value)])];
        assert [Text(coxoId.value), Text(dataManut.value), Text(usuario.value)] == WriteArgs(request, id);
        assert calls == [Connect, Prepare(InsertSql), Bind(WriteTypes(id), WriteArgs(request, id))];
      }

      calls := calls + [Execute];
      if db.executes {
        response := response.(success := true);
        response := response.(message := if IsTruthyInt(id) then Updated else Registered);
      } else {
        response := response.(message := ExecuteErrorPrefix + db.stmtError);
      }
    } else {
      response := response.(message := InvalidAccess);
    }
  }

  /** The handler as written: `$id` is undefined, so every accepted request
      binds the three fields, in column order, to the INSERT. */
  method Handle(request: Request, db: Oracle) returns (response: Response, calls: seq<Call>)
    ensures request.verb != "POST" ==> response == Response(false, InvalidAccess) && calls == []
    ensures request.verb == "POST" && !Complete(request) ==>
      response == Response(false, MissingFields) && calls == []
    ensures request.verb == "POST" && Complete(request) && IsTruthy(db.connectError) ==>
      response == Response(false, ConnectionErrorPrefix + db.connectError.value) && calls == [Connect]
    ensures request.verb == "POST" && Complete(request) && !IsTruthy(db.connectError) ==>
      |calls| >= 2 && calls[..2] == [Connect, Prepare(InsertSql)]
    ensures request.verb == "POST" && Complete(request) && !IsTruthy(db.connectError) && !db.prepares ==>
      response == Response(false, PrepareErrorPrefix + db.error) && |calls| == 2
    ensures Executes(request, db) ==>
      calls == [Connect, Prepare(InsertSql),
                Bind("sss", [Text(CoxoIdField(request).value), Text(DataManutField(request).value),
                             Text(UsuarioField(request).value)]),
                Execute]
    ensures response.success <==> Executes(request, db) && db.executes
    ensures response.success ==> response.message == Registered
    ensures Executes(request, db) && !db.executes ==> response.message == ExecuteErrorPrefix + db.stmtError
  {
    response, calls := HandleWithId(request, UndefinedId, db);
    if Executes(request, db) {
      assert WriteTypes(UndefinedId) == "sss";
      assert WriteArgs(request, UndefinedId) ==
        [Text(CoxoIdField(request).value), Text(DataManutField(request).value), Text(UsuarioField(request).value)];
    }
  }
}
