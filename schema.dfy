/**
 * The rows of the store's tables, as the loyalty program reads and writes them, and an
 * in-memory stand-in for the store itself. Columns the program never reads or writes
 * (`two_factor_enabled`, clinic addresses, row ids the store generates) are not modelled.
 * Timestamps are ISO-8601 strings, as the row types declare them.
 */
module Schema {
  import opened Wrappers
  import Json

  type Timestamp = string

  /** A row of `users`. `role` is kept as text: the router also handles values outside the three roles. */
  datatype User = User(
    id: string,
    email: string,
    name: string,
    phone_number: Option<string>,
    points_balance: int,
    role: string,
    clinic_id: Option<string>,
    created_at: Timestamp)

  /** A row of `clinics`; `kind` is the `type` column. */
  datatype Clinic = Clinic(id: string, name: string, kind: string)

  /** A row of `transactions`: one visit, its bill and the points it earned. */
  datatype Transaction = Transaction(
    user_id: string,
    clinic_id: string,
    bill_amount: real,
    points_earned: int,
    created_at: Timestamp)

  /** A row of `redemptions`: points given up and the cash they offset. */
  datatype Redemption = Redemption(
    user_id: string,
    clinic_id: string,
    points_redeemed: int,
    cash_value_offset: real,
    created_at: Timestamp)

  /** A row of `promotions`. */
  datatype Promotion = Promotion(
    title: string,
    description: string,
    start_date: Timestamp,
    end_date: Timestamp,
    target_segment_criteria: Json.Value,
    is_active: bool,
    created_at: Timestamp)

  /** The `created_at` column each table's newest-first queries order by. */
  function UserTime(u: User): Timestamp { u.created_at }
  function TransactionTime(t: Transaction): Timestamp { t.created_at }
  function RedemptionTime(r: Redemption): Timestamp { r.created_at }
  function PromotionTime(p: Promotion): Timestamp { p.created_at }

  /** A row of `system_config`; `updated_at` is None where the store's default applies. */
  datatype ConfigRow = ConfigRow(
    id: string,
    points_per_dollar: real,
    points_per_dollar_value: real,
    updated_at: Option<Timestamp>)

  /** A snapshot of every table. */
  datatype Tables = Tables(
    users: seq<User>,
    clinics: seq<Clinic>,
    transactions: seq<Transaction>,
    redemptions: seq<Redemption>,
    promotions: seq<Promotion>,
    configs: seq<ConfigRow>)

  /** The store: one sequence of rows per table, in the order the store returns them. */
  class Database {
    var users: seq<User>
    var clinics: seq<Clinic>
    var transactions: seq<Transaction>
    var redemptions: seq<Redemption>
    var promotions: seq<Promotion>
    var configs: seq<ConfigRow>

    constructor (initial: Tables)
      ensures State() == initial
    {
      users, clinics, transactions := initial.users, initial.clinics, initial.transactions;
      redemptions, promotions, configs := initial.redemptions, initial.promotions, initial.configs;
    }

    function State(): Tables
      reads this
    {
      Tables(users, clinics, transactions, redemptions, promotions, configs)
    }
  }

  /**
   * What `.single()` yields: the row when the query matched exactly one, and no data
   * (an error) when it matched none or several.
   */
  function Single<T>(rows: seq<T>): (r: Option<T>)
    ensures r.Some? <==> |rows| == 1
    ensures r.Some? ==> r.value == rows[0]
  {
    if |rows| == 1 then Some(rows[0]) else None
  }

  /** `update({ points_balance: balance }).eq('id', id)`: every row with that id gets the new balance. */
  function SetBalance(users: seq<User>, id: string, balance: int): (r: seq<User>)
    ensures |r| == |users|
    ensures forall i :: 0 <= i < |users| ==>
      r[i] == if users[i].id == id then users[i].(points_balance := balance) else users[i]
  {
    seq(|users|, i requires 0 <= i < |users| =>
      if users[i].id == id then users[i].(points_balance := balance) else users[i])
  }
}
