/** The database as the handlers see it: an oracle that decides how each
    driver call turns out, and the calls a handler makes on it. What the
    database itself does with a statement is not modelled. */
module Database {
  import opened Php

  /** One row of `SELECT id, coxo_id, data_manut FROM tb_coxos`. */
  datatype Row = Row(id: int, coxoId: string, dataManut: string)

  /** A value handed to `bind_param`. */
  datatype Value = Text(text: string) | Integer(n: int)

  /** A call a handler makes on the driver, in the order it makes them. */
  datatype Call =
    | Connect                                  // new mysqli(...)
    | Prepare(sql: string)                     // $conn->prepare($sql)
    | Bind(types: string, args: seq<Value>)    // $stmt->bind_param($types, ...$args)
    | Execute                                  // $stmt->execute()
    | GetResult                                // $stmt->get_result()

  /** How the driver answers each call of one request. */
  datatype Oracle = Oracle(
    connectError: Option<string>,  // $conn->connect_error
    prepares: bool,                // whether $conn->prepare returns a statement
    error: string,                 // $conn->error after a failed prepare
    executes: bool,                // what $stmt->execute() returns
    stmtError: string,             // $stmt->error after a failed execute
    result: Option<seq<Row>>)      // $stmt->get_result(): false, or the rows of the result set

  /** The type string of `bind_param` describes its arguments one by one:
      `'s'` for a string, `'i'` for an integer. */
  predicate TypesDescribe(types: string, args: seq<Value>)
  {
    && |types| == |args|
    && forall k :: 0 <= k < |args| ==>
         (types[k] == 's' <==> args[k].Text?) && (types[k] == 'i' <==> args[k].Integer?)
  }

  /** The number of `?` placeholders in an SQL text. */
  function Placeholders(sql: string): nat
  {
    if sql == [] then 0 else (if sql[0] == '?' then 1 else 0) + Placeholders(sql[1..])
  }

  lemma {:induction false} PlaceholdersAppend(a: string, b: string)
    ensures Placeholders(a + b) == Placeholders(a) + Placeholders(b)
  {
    if a == [] {
      assert a + b == b;
    } else {
      assert (a + b)[0] == a[0];
      assert (a + b)[1..] == a[1..] + b;
      PlaceholdersAppend(a[1..], b);
    }
  }

  lemma {:induction false} NoPlaceholders(sql: string)
    requires '?' !in sql
    ensures Placeholders(sql) == 0
  {
    if sql != [] {
      assert sql[0] != '?';
      NoPlaceholders(sql[1..]);
    }
  }

  /** A fragment whose only `?` is its last character holds one placeholder. */
  lemma ClausePlaceholder(clause: string)
    requires clause != [] && clause[|clause| - 1] == '?' && '?' !in clause[..|clause| - 1]
    ensures Placeholders(clause) == 1
  {
    var n := |clause| - 1;
    assert clause == clause[..n] + [clause[n]];
    PlaceholdersAppend(clause[..n], [clause[n]]);
    NoPlaceholders(clause[..n]);
  }
}
