# Maintenance records: request handlers

A model of the two PHP endpoints of a small service that records and lists
maintenance events ("manutenção") of troughs ("coxos") in the table
`tb_coxos`:

- `backend/read_manutencao.php` answers a GET request with two optional
  filters, `coxo_id` and `data_manut`. It builds one SELECT from a fixed
  base text, adding a ` AND col = ?` clause, a bound value and an `'s'` type
  letter for each filter that is truthy in PHP's sense once trimmed. It then
  turns the rows that come back into `{success, message, data}`.
- `backend/insert_manutencao.php` answers a POST request with three form
  fields, `coxo_idPost`, `data_manutPost` and `usuarioPost`. It refuses the
  request unless all three are truthy once trimmed. It then prepares an
  UPDATE when `$id` is truthy and an INSERT otherwise, binds the fields and
  reports how the execution went as `{success, message}`.

Each handler is an imperative Dafny method (`ReadManutencao.Handle`,
`InsertManutencao.HandleWithId`) that overwrites a local response step by
step, as the PHP code does, and returns early where the PHP code calls
`exit`. The
database is an oracle (`Database.Oracle`): whether the connection fails and
with what text, whether `prepare` returns a statement, what `execute` returns
and what `get_result` gives back. Each handler also returns the driver calls
it made (`Database.Call`). So the contracts can say what is never called:
nothing on a refused request, nothing after a failed connection, no bind when
no filter is active.

Modules:

- `Php` (`php.dfy`): `trim` with its default character list (space, tab,
  line feed, carriage return, NUL, vertical tab), PHP truthiness (`null`,
  `""` and `"0"` are false), and `isset($p[$k]) ? trim($p[$k]) : null` as
  `Input`.
- `Database` (`database.dfy`): rows, bound values, driver calls, the oracle,
  and the count of `?` placeholders in an SQL text.
- `ReadManutencao` (`read_manutencao.dfy`): the query builder `BuildQuery`,
  the SQL text as a function of which filters are active (`QueryText`), and
  the handler.
- `InsertManutencao` (`insert_manutencao.dfy`): the required-field check
  (`Complete`), the statement choice and bound values, and the handler.
  `HandleWithId` takes `$id` as a parameter so that both branches are
  modelled. `Handle` is the endpoint as written: `$id` is never assigned, so
  PHP reads it as `null` (`UndefinedId`), and the INSERT is always chosen.

Behaviour of the code that is easy to misread, and what the model does:

- The list endpoint installs an error handler and an exception handler
  (`backend/read_manutencao.php:3-18`) that print an HTTP 500 reply and
  exit. A failed `new mysqli` either warns or, in strict reporting mode,
  throws, and one of these handlers ends the request before `connect_error`
  is tested. So the "Erro de conexão: " branch at lines 34-38 is never
  reached. The model ends a failed connection of the list endpoint with
  `Outcome.Fault`. The write endpoint installs no handler, so its own
  `connect_error` check does run when the driver only warns.
- The list endpoint does not check the result of `prepare`. When it fails,
  the next driver call is made on `false`, raises an error, and the
  process-wide handler takes over. The model ends such a request with
  `Outcome.Fault`.
- The list endpoint ignores what `execute` returns. Its answer depends only
  on what `get_result` gives back. In mysqli's report-off mode, which the
  model follows, a failed execution therefore reads as
  "Nenhum registro encontrado.", not as an error: `ReadManutencao.Handle`
  never mentions `db.executes`.
- The write endpoint requires `data_manut` as well as `coxo_id` and
  `usuario`. It refuses a field whose trimmed value is `"0"`, just as it
  refuses an empty one. In the same way, a list filter `"0"` is ignored.

## Model

| member | source | states |
|---|---|---|
| `Php.KeptFrom` | backend/read_manutencao.php:29-30 | the index where `trim` stops stripping at the front: everything before it is a trim character, and the character at it is not |
| `Php.KeptUntil` | backend/read_manutencao.php:29-30 | the index where `trim` stops stripping at the back: everything from it on is a trim character, and the character before it is not |
| `Php.Trim` | backend/insert_manutencao.php:12-14 | the trimmed value is no longer than the input and neither starts nor ends with a trim character |
| `Php.TrimIsSlice` | backend/insert_manutencao.php:12-14 | `trim` removes a run of trim characters at each end and keeps the middle of the value unchanged |
| `Php.TrimOfPadded` | backend/insert_manutencao.php:12-14 | a value made of trim characters, then a middle with no trim character at either end, then trim characters, trims to exactly that middle |
| `Php.TrimKeepsClean` | backend/insert_manutencao.php:12-14 | a value with nothing to strip at either end is left as it is |
| `Php.TrimIdempotent` | backend/insert_manutencao.php:12-14 | trimming an already trimmed value changes nothing |
| `Php.TrimEmptyIffBlank` | backend/insert_manutencao.php:12-16 | the trimmed value is empty exactly when every character is a trim character |
| `Php.Input` | backend/read_manutencao.php:29-30 | `isset($p[$k]) ? trim($p[$k]) : null`: null exactly when the key was not sent; otherwise no longer than what was sent and with no trim character at either end |
| `Php.IsTruthy` | backend/insert_manutencao.php:16 | the value an `if` on a nullable string tests: `null`, `""` and `"0"` are false, every other string is true |
| `Php.IsTruthyInt` | backend/insert_manutencao.php:30 | the value `if ($id)` tests: `null` and `0` are false, every other integer is true |
| `Php.InputTruthy` | backend/insert_manutencao.php:12-16 | an input tests true exactly when it was sent, is not all blanks and is not `"0"` once trimmed |
| `Database.PlaceholdersAppend` | backend/read_manutencao.php:46-51 | appending SQL text adds up the `?` placeholders of the two parts |
| `Database.NoPlaceholders` | backend/read_manutencao.php:41 | a text without `?` holds no placeholder |
| `Database.ClausePlaceholder` | backend/read_manutencao.php:46-51 | a fragment whose only `?` is its last character holds one placeholder |
| `ReadManutencao.CoxoIdFilter` | backend/read_manutencao.php:29 | the `coxo_id` query parameter, trimmed, or `null` when it was not sent |
| `ReadManutencao.DataManutFilter` | backend/read_manutencao.php:30 | the `data_manut` query parameter, trimmed, or `null` when it was not sent |
| `ReadManutencao.FragmentPlaceholders` | backend/read_manutencao.php:41-51 | the base query holds no `?`, each filter clause exactly one |
| `ReadManutencao.QueryText` | backend/read_manutencao.php:41-54 | the SQL text always starts with the base query `SELECT id, coxo_id, data_manut FROM tb_coxos WHERE 1=1`, and is a function of which filters are active, not of their values |
| `ReadManutencao.FilterArgs` | backend/read_manutencao.php:45-54 | one bound value per truthy filter, `coxo_id` first and `data_manut` last, each a string that is neither `""` nor `"0"` |
| `ReadManutencao.TextTypes` | backend/read_manutencao.php:43-53 | the `$types` string after `n` appended filters: `n` letters, each `'s'` |
| `ReadManutencao.QueryPlaceholders` | backend/read_manutencao.php:42-54 | the query holds one `?` for each bound value |
| `ReadManutencao.FalsyFilterIgnored` | backend/read_manutencao.php:29-54 | a filter that is blank or `"0"` once trimmed gives the same SQL text and the same bound values as a filter not sent |
| `ReadManutencao.ExampleFilterByCoxoId` | backend/read_manutencao.php:29-48 | a padded `coxo_id` filter is trimmed, selects the `coxo_id` clause alone and is the only bound value |
| `ReadManutencao.BuildQuery` | backend/read_manutencao.php:41-54 | the built query is the text for the truthy filters; the values are bound in clause order, `coxo_id` first; placeholders, values and type letters are equal in number and every type letter is `'s'`; with no truthy filter the query is the base text and nothing is bound |
| `ReadManutencao.Handle` | backend/read_manutencao.php:3-78 | non-GET is refused with "Acesso inválido." and no call; a failed connection ends in the process-wide handlers (`Fault`) and nothing else is called; otherwise the prepared SQL is the query for the truthy filters; a failed prepare faults; bind happens only with a truthy filter; success with the rows exactly when the result is non-null with at least one row, and otherwise "Nenhum registro encontrado." with `data` null |
| `InsertManutencao.CoxoIdField` | backend/insert_manutencao.php:12 | the `coxo_idPost` form field, trimmed, or `null` when it was not sent |
| `InsertManutencao.DataManutField` | backend/insert_manutencao.php:13 | the `data_manutPost` form field, trimmed, or `null` when it was not sent |
| `InsertManutencao.UsuarioField` | backend/insert_manutencao.php:14 | the `usuarioPost` form field, trimmed, or `null` when it was not sent |
| `InsertManutencao.Complete` | backend/insert_manutencao.php:16 | the required-field check passes: all three trimmed fields are truthy |
| `InsertManutencao.CompleteIff` | backend/insert_manutencao.php:12-16 | the three fields pass the check exactly when each was sent, is not all blanks and is not `"0"` once trimmed |
| `InsertManutencao.BlankUserIsMissing` | backend/insert_manutencao.php:14-20 | an empty or blank `usuarioPost` makes the request incomplete |
| `InsertManutencao.ExampleRegistration` | backend/insert_manutencao.php:12-47 | padded fields are trimmed, the request is complete and the trimmed values are bound |
| `InsertManutencao.WriteTypes` | backend/insert_manutencao.php:38-47 | the `bind_param` type string: three `'s'`, then an `'i'` for the id when `$id` is truthy (`"sss"` or `"sssi"`) |
| `InsertManutencao.InsertPlaceholders` | backend/insert_manutencao.php:41 | the INSERT holds three placeholders |
| `InsertManutencao.UpdatePlaceholders` | backend/insert_manutencao.php:32 | the UPDATE holds four placeholders |
| `InsertManutencao.WritePlaceholders` | backend/insert_manutencao.php:30-48 | the statement chosen for `$id` holds one placeholder per bound value and per type letter |
| `InsertManutencao.WriteArgs` | backend/insert_manutencao.php:38-47 | the bound values are the three trimmed fields in column order, each truthy, followed by the id for an UPDATE; the type string `"sss"` or `"sssi"` describes them letter by letter |
| `InsertManutencao.HandleWithId` | backend/insert_manutencao.php:9-63 | non-POST is refused with "Acesso inválido."; an incomplete request is refused with the required-fields message before any connection; a connection error is reported and nothing else is called; UPDATE is prepared when `$id` is truthy, INSERT otherwise; a failed prepare is reported and nothing is executed; otherwise the fields (and the id for an UPDATE) are bound and the statement executed; success exactly when the statement was executed and `execute` returned true, with the updated or registered message, and otherwise "Erro ao registrar: " with the statement error |
| `InsertManutencao.Handle` | backend/insert_manutencao.php:30-55 | with `$id` never assigned, every connected request prepares the INSERT and binds `"sss"` with coxo_id, data_manut and usuario in that order; success exactly when execution returns true, with "Manutenção registrada com sucesso!" |

## Left out

- The process-wide error and exception handlers of the list endpoint are not modelled: `Outcome.Fault` marks where they take over, but the HTTP 500 response they print is not modelled.
- `json_encode`, `echo`, `header()` and `http_response_code()` are output plumbing; a response is the record `{success, message, data}`.
- The database itself: which rows match a filter, what is stored by an INSERT or an UPDATE, and in what order rows come back. The handlers only pass these through, so the oracle supplies them.
- `ReadManutencao.Handle`: the `connect_error` check at `backend/read_manutencao.php:34-38` is not modelled as reachable. It would run only if `new mysqli` neither warned nor threw, and it always does one or the other. A failed connection ends in `Fault` instead.
- The mysqli error-reporting mode: both endpoints are modelled in report-off mode, where failed driver calls return `false` and do not throw. For the write endpoint the model follows the code's explicit checks of `connect_error` and `prepare`. In strict reporting mode the driver throws on these failures instead, and the uncaught exception ends the request; this is not modelled. The warning the driver prints beside the JSON reply in report-off mode is not modelled either.
- `ReadManutencao.Handle` follows report-off mode for `execute` and `get_result` (`backend/read_manutencao.php:60-61`). In strict reporting mode a failed `execute` or `get_result` throws, and the exception handler at lines 11-18 ends the request with an HTTP 500 reply. The model instead answers "Nenhum registro encontrado.".
- The hard-coded server name, credentials and database name are configuration constants with no behaviour.
- Closing the statement and the connection, and anything across requests or concurrent requests.
- The warning PHP emits when it reads the undefined `$id`. Only its value, `null`, is modelled.
- A request parameter sent as an array (`coxo_id[]=…`) makes `trim` raise an error. In the model every parameter is a string.
- PHP strings are byte strings. The model uses character sequences, which is the same for `trim` because every character it strips is a single ASCII byte.
