/**
 * The mock connection of the test harness (lib/connection.js): a data holder
 * for a client and a server, with `respond` and `reset_transaction` attached
 * by `createConnection`.
 */
module MockConnection {
  import opened Js

  /** The transaction object a test hangs on a connection; `reset_transaction` writes its `resetting` flag. */
  class Transaction {
    var resetting: Value

    constructor (resetting: Value)
      ensures this.resetting == resetting
    {
      this.resetting := resetting;
    }
  }

  /** What `connection.transaction` holds: never assigned, `null`, or a transaction object. */
  datatype TransactionSlot = Unset | Cleared | Current(txn: Transaction)  // Cleared is `null`

  /** One call of the `done` callback, with the transaction slot the callback saw. */
  datatype DoneCall = DoneCall(callee: Value, transaction: TransactionSlot)

  class Connection {
    var client: Value
    var server: Value
    var relaying: bool
    var notes: map<string, Value>
    var transaction: TransactionSlot

    /** `new Connection(client, server)`. */
    constructor (client: Value, server: Value)
      ensures this.client == client && this.server == server
      ensures !relaying && notes == map[] && transaction == Unset
    {
      this.client := client;
      this.server := server;
      this.relaying := false;
      this.notes := map[];
      this.transaction := Unset;
    }

    /** `respond(code, msg, func)`: the reply code and message are ignored and `func`'s result returned. */
    method Respond(code: int, msg: string, func: () -> Value) returns (r: Value)
      ensures r == func()
    {
      r := func();
    }

    /**
     * `reset_transaction(done)`: a transaction whose `resetting` is exactly
     * `false` is marked as resetting and kept; in every other case the
     * transaction is dropped to `null`. A truthy `done` is then called once;
     * `calls` records what it saw.
     */
    method ResetTransaction(done: Value) returns (calls: seq<DoneCall>)
      modifies this, if transaction.Current? && transaction.txn.resetting == Bool(false) then {transaction.txn} else {}
      ensures old(transaction).Current? && old(transaction.txn.resetting) == Bool(false) ==>
        transaction == old(transaction) && transaction.txn.resetting == Bool(true)
      ensures !(old(transaction).Current? && old(transaction.txn.resetting) == Bool(false)) ==>
        transaction == Cleared
      ensures old(transaction).Current? && old(transaction.txn.resetting) != Bool(false) ==>
        old(transaction).txn.resetting == old(transaction.txn.resetting)
      ensures calls == if Truthy(done) then [DoneCall(done, transaction)] else []
      ensures client == old(client) && server == old(server) && relaying == old(relaying) && notes == old(notes)
    {
      if transaction.Current? && transaction.txn.resetting == Bool(false) {
        transaction.txn.resetting := Bool(true);
      } else {
        transaction := Cleared;
      }
      calls := [];
      if Truthy(done) {
        calls := calls + [DoneCall(done, transaction)];
      }
    }
  }

  /** `createConnection(client, server)`: an `undefined` client or server becomes `{}`; any other value, `null` included, is kept. */
  method CreateConnection(client: Value, server: Value) returns (c: Connection)
    ensures fresh(c)
    ensures c.client == (if client == Undefined then EmptyObject else client)
    ensures c.server == (if server == Undefined then EmptyObject else server)
    ensures !c.relaying && c.notes == map[] && c.transaction == Unset
  {
    var cl := client;
    if cl == Undefined {
      cl := EmptyObject;
    }
    var sv := server;
    if sv == Undefined {
      sv := EmptyObject;
    }
    c := new Connection(cl, sv);
  }
}
