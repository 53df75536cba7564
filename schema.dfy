/** The persisted records of the application's document store
    (convex/schema.ts) and the store itself.  Document ids are strings for
    users; a simulation's id is its position in the insertion-ordered
    simulations table. */
module Schema {
  import opened Wrappers
  import opened JsNumber

  type UserId = string

  /** A row of the users table; every field is optional. */
  datatype User = User(
    name: Option<string>,
    email: Option<string>,
    image: Option<string>,
    credits: Option<Num>)

  /** A row of the append-only transactions ledger. */
  datatype Transaction = Transaction(
    userId: UserId,
    amount: Num,
    credits: Num,
    status: string,
    createdAt: int)

  /** A row of the simulations table. */
  datatype Simulation = Simulation(
    userId: UserId,
    name: string,
    status: string,
    createdAt: int)

  /** A snapshot of the three tables the modelled code reads and writes. */
  datatype Tables = Tables(
    users: map<UserId, User>,
    transactions: seq<Transaction>,
    simulations: seq<Simulation>)

  /** The document store.  Mutations change its fields in place. */
  class Database {
    var users: map<UserId, User>
    var transactions: seq<Transaction>
    var simulations: seq<Simulation>

    function Snapshot(): Tables
      reads this
    {
      Tables(users, transactions, simulations)
    }

    constructor (initialUsers: map<UserId, User>)
      ensures Snapshot() == Tables(initialUsers, [], [])
    {
      users := initialUsers;
      transactions := [];
      simulations := [];
    }
  }
}
