/** The database as Upsert sees it: the calls it makes on the connection, the
    transaction and the prepared copy statement, recorded in order, each
    answered by an oracle that decides whether the call fails. */
module Sql {
  import opened Wrappers
  import opened RowConversion

  /** One call into `database/sql`. */
  datatype Command =
    | Begin                                             // db.Begin()
    | TxnExec(sql: string)                              // txn.Exec(sql)
    | PrepareCopyIn(table: string, columns: seq<string>) // txn.Prepare(pq.CopyIn(table, columns...))
    | StmtExec(args: seq<Field>)                        // stmt.Exec(args...)
    | StmtClose                                         // stmt.Close()
    | Commit                                            // txn.Commit()
    | DbExec(sql: string)                               // db.Exec(sql)
    | Rollback                                          // txn.Rollback()

  /** The database's answer to a call, given every call issued before it:
      `None` for success, or the error the call returns. */
  type Responder = (seq<Command>, Command) -> Option<Error>

  class Database {
    const respond: Responder
    var trace: seq<Command>

    constructor (respond: Responder)
      ensures this.respond == respond && trace == []
    {
      this.respond := respond;
      trace := [];
    }

    /** Issues one call: it is appended to the trace and answered. */
    method Issue(c: Command) returns (err: Option<Error>)
      modifies this
      ensures trace == old(trace) + [c]
      ensures err == respond(old(trace), c)
    {
      err := respond(trace, c);
      trace := trace + [c];
    }
  }
}
