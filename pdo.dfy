/**
 * The database driver the connection talks to, reduced to the calls the
 * connection makes. Its real work (opening a handle, compiling SQL, talking
 * to the server) is outside the model; what remains is what the connection
 * can observe: a prepare call yields a new statement for exactly the text it
 * was given, and an executed statement hands out the first-column values of
 * its result one at a time. Ghost logs record which calls were made, so that
 * the connection's contracts can count them.
 */
module Pdo {
  import opened PhpValues

  /** A prepared statement and, after execution, its result cursor. */
  class Statement {
    /** The handle that prepared the statement; it belongs to that handle alone. */
    const driver: Driver
    /** The SQL text the statement was prepared from. */
    const query: string
    /** The parameter lists of every execution so far, in order. */
    ghost var executions: seq<seq<Value>>
    /** The first-column values of the current result not fetched yet. */
    var pending: seq<Value>

    constructor (driver: Driver, query: string)
      ensures this.driver == driver && this.query == query && executions == [] && pending == []
    {
      this.driver := driver;
      this.query := query;
      executions := [];
      pending := [];
    }

    /**
     * Runs the statement with positional parameters. What the database
     * answers is not computed here: `rows` is the first column of the result
     * set it returns, in result order.
     */
    method Execute(params: seq<Value>, rows: seq<Value>)
      modifies this
      ensures executions == old(executions) + [params]
      ensures pending == rows
    {
      executions := executions + [params];
      pending := rows;
    }

    /** Fetches the first column of the next row, or false once the result is used up. */
    method FetchColumn() returns (v: Value)
      modifies this`pending
      ensures old(pending) == [] ==> v == Bool(false) && pending == []
      ensures old(pending) != [] ==> v == old(pending)[0] && pending == old(pending)[1..]
    {
      if pending == [] {
        v := Bool(false);
      } else {
        v := pending[0];
        pending := pending[1..];
      }
    }
  }

  /** An open database handle. */
  class Driver {
    const dsn: string
    const user: Value
    const password: Value
    /** The handle raises an exception on every error. */
    const raisesErrors: bool
    /** Rows are fetched as name-to-value arrays by default. */
    const fetchesAssociative: bool
    /** Every text handed to Prepare so far, in call order. */
    ghost var prepared: seq<string>

    constructor (dsn: string, user: Value, password: Value, raisesErrors: bool, fetchesAssociative: bool)
      ensures this.dsn == dsn && this.user == user && this.password == password
      ensures this.raisesErrors == raisesErrors && this.fetchesAssociative == fetchesAssociative
      ensures prepared == []
    {
      this.dsn := dsn;
      this.user := user;
      this.password := password;
      this.raisesErrors := raisesErrors;
      this.fetchesAssociative := fetchesAssociative;
      prepared := [];
    }

    /** Compiles `query`; every call yields a new statement. */
    method Prepare(query: string) returns (s: Statement)
      modifies this
      ensures fresh(s) && s.driver == this && s.query == query && s.executions == [] && s.pending == []
      ensures prepared == old(prepared) + [query]
    {
      s := new Statement(this, query);
      prepared := prepared + [query];
    }
  }
}
