/**
 * The points ledger as the staff terminal writes it: the point and cash formulas, the two
 * table writes a successful award or redemption performs, and what those writes do to the
 * agreement between a customer's stored balance and the rows recorded for them.
 *
 * The terminal computes the new balance from its own copy of the customer (the snapshot
 * taken at lookup time) and does not re-read the stored balance, and the row insert and the
 * balance write are two separate store calls. The lemmas below state both consequences.
 */
module Ledger {
  import opened Wrappers
  import opened Text
  import opened Folds
  import opened Schema

  /** The two conversion rates of `system_config`. */
  datatype Rates = Rates(points_per_dollar: real, points_per_dollar_value: real)

  /** The rates a dashboard uses until the stored configuration has been loaded. */
  const DefaultRates := Rates(1.0, 0.01)

  /** The customer record a staff lookup returns (the selected columns of `users`). */
  datatype Customer = Customer(
    id: string,
    name: string,
    email: string,
    phone_number: Option<string>,
    points_balance: int)

  function AsCustomer(u: User): (c: Customer)
    ensures c.id == u.id && c.points_balance == u.points_balance
  {
    Customer(u.id, u.name, u.email, u.phone_number, u.points_balance)
  }

  /** `Math.floor(amount * points_per_dollar)`: the whole points a bill earns. */
  function PointsEarned(amount: real, rates: Rates): (p: int)
    ensures p as real <= amount * rates.points_per_dollar < p as real + 1.0
    ensures amount >= 0.0 && rates.points_per_dollar >= 0.0 ==> p >= 0
  {
    (amount * rates.points_per_dollar).Floor
  }

  /** `points * points_per_dollar_value`: the cash a redemption offsets. */
  function CashValue(points: int, rates: Rates): (cash: real)
    ensures points >= 0 && rates.points_per_dollar_value >= 0.0 ==> cash >= 0.0
    ensures rates.points_per_dollar_value > 0.0 ==> (cash > 0.0 <==> points > 0)
  {
    points as real * rates.points_per_dollar_value
  }

  lemma PointsEarnedMonotonic(a: real, b: real, rates: Rates)
    requires a <= b && rates.points_per_dollar >= 0.0
    ensures PointsEarned(a, rates) <= PointsEarned(b, rates)
  {
    assert a * rates.points_per_dollar <= b * rates.points_per_dollar;
  }

  /** What a configuration fetch loads: the rates of the single `system_config` row, if there is exactly one. */
  function LoadedRates(configs: seq<ConfigRow>): (r: Option<Rates>)
    ensures r.Some? <==> |configs| == 1
    ensures r.Some? ==> r.value == Rates(configs[0].points_per_dollar, configs[0].points_per_dollar_value)
  {
    match Single(configs)
    case Some(row) => Some(Rates(row.points_per_dollar, row.points_per_dollar_value))
    case None => None
  }

  /** Worked examples: $100 at the default rate earns 100 points, 60 points offset $0.60, and $50 at 2 points per dollar earns 100. */
  lemma WorkedExamples()
    ensures PointsEarned(100.0, DefaultRates) == 100
    ensures CashValue(60, DefaultRates) == 0.6
    ensures PointsEarned(50.0, Rates(2.0, 0.02)) == 100
  {
  }

  // ---------------------------------------------------------------- ledger sums

  /** The filter `.eq('user_id', uid)` on `transactions`. */
  function TransactionOf(uid: string): Transaction -> bool {
    (t: Transaction) => t.user_id == uid
  }

  /** The filter `.eq('user_id', uid)` on `redemptions`. */
  function RedemptionOf(uid: string): Redemption -> bool {
    (r: Redemption) => r.user_id == uid
  }

  /** The rows of `transactions` that belong to `uid`, in store order. */
  function TransactionsOf(txs: seq<Transaction>, uid: string): seq<Transaction> {
    Filter(txs, TransactionOf(uid))
  }

  /** The rows of `redemptions` that belong to `uid`, in store order. */
  function RedemptionsOf(reds: seq<Redemption>, uid: string): seq<Redemption> {
    Filter(reds, RedemptionOf(uid))
  }

  function PointsEarnedOf(t: Transaction): int { t.points_earned }
  function PointsRedeemedOf(r: Redemption): int { r.points_redeemed }

  /** The points credited to `uid` by the rows of `transactions`. */
  function Earned(txs: seq<Transaction>, uid: string): int {
    SumInt(TransactionsOf(txs, uid), PointsEarnedOf)
  }

  /** The points debited from `uid` by the rows of `redemptions`. */
  function Redeemed(reds: seq<Redemption>, uid: string): int {
    SumInt(RedemptionsOf(reds, uid), PointsRedeemedOf)
  }

  lemma EarnedAppend(txs: seq<Transaction>, row: Transaction, uid: string)
    ensures Earned(txs + [row], uid) == Earned(txs, uid) + (if row.user_id == uid then row.points_earned else 0)
  {
    assert (txs + [row])[..|txs|] == txs;
    var mine := TransactionsOf(txs, uid);
    if row.user_id == uid {
      assert TransactionsOf(txs + [row], uid) == mine + [row];
      assert (mine + [row])[..|mine|] == mine;
    } else {
      assert TransactionsOf(txs + [row], uid) == mine;
    }
  }

  lemma RedeemedAppend(reds: seq<Redemption>, row: Redemption, uid: string)
    ensures Redeemed(reds + [row], uid) == Redeemed(reds, uid) + (if row.user_id == uid then row.points_redeemed else 0)
  {
    assert (reds + [row])[..|reds|] == reds;
    var mine := RedemptionsOf(reds, uid);
    if row.user_id == uid {
      assert RedemptionsOf(reds + [row], uid) == mine + [row];
      assert (mine + [row])[..|mine|] == mine;
    } else {
      assert RedemptionsOf(reds + [row], uid) == mine;
    }
  }

  /** Every stored row of `uid` holds `opening` plus what the ledger rows credit minus what they debit. */
  ghost predicate Reconciled(t: Tables, uid: string, opening: int) {
    forall i :: 0 <= i < |t.users| && t.users[i].id == uid ==>
      t.users[i].points_balance == opening + Earned(t.transactions, uid) - Redeemed(t.redemptions, uid)
  }

  /** The snapshot agrees with every stored row of its customer. */
  ghost predicate SnapshotCurrent(t: Tables, c: Customer) {
    forall i :: 0 <= i < |t.users| && t.users[i].id == c.id ==> t.users[i].points_balance == c.points_balance
  }

  ghost predicate Stored(t: Tables, uid: string) {
    exists i :: 0 <= i < |t.users| && t.users[i].id == uid
  }

  // ---------------------------------------------------------------- the writes of the two handlers

  /** The row an award inserts. */
  function EarnRow(c: Customer, clinic: string, amount: real, rates: Rates, now: Timestamp): Transaction {
    Transaction(c.id, clinic, amount, PointsEarned(amount, rates), now)
  }

  /** The row a redemption inserts. */
  function RedeemRow(c: Customer, clinic: string, points: int, rates: Rates, now: Timestamp): Redemption {
    Redemption(c.id, clinic, points, CashValue(points, rates), now)
  }

  /** The tables after an award whose insert and balance write both succeeded. */
  function AwardWrite(t: Tables, c: Customer, clinic: string, amount: real, rates: Rates, now: Timestamp): (r: Tables)
    ensures r.transactions == t.transactions + [EarnRow(c, clinic, amount, rates, now)]
    ensures r.users == SetBalance(t.users, c.id, c.points_balance + PointsEarned(amount, rates))
    ensures r.redemptions == t.redemptions && r.configs == t.configs && r.promotions == t.promotions && r.clinics == t.clinics
  {
    t.(transactions := t.transactions + [EarnRow(c, clinic, amount, rates, now)],
       users := SetBalance(t.users, c.id, c.points_balance + PointsEarned(amount, rates)))
  }

  /** The tables after a redemption whose insert and balance write both succeeded. */
  function RedeemWrite(t: Tables, c: Customer, clinic: string, points: int, rates: Rates, now: Timestamp): (r: Tables)
    ensures r.redemptions == t.redemptions + [RedeemRow(c, clinic, points, rates, now)]
    ensures r.users == SetBalance(t.users, c.id, c.points_balance - points)
    ensures r.transactions == t.transactions && r.configs == t.configs && r.promotions == t.promotions && r.clinics == t.clinics
  {
    t.(redemptions := t.redemptions + [RedeemRow(c, clinic, points, rates, now)],
       users := SetBalance(t.users, c.id, c.points_balance - points))
  }

  // ---------------------------------------------------------------- what the writes preserve

  /** From a current snapshot, a complete award keeps the customer's stored balance equal to the ledger's. */
  lemma AwardKeepsReconciled(t: Tables, c: Customer, clinic: string, amount: real, rates: Rates, now: Timestamp, opening: int)
    requires Reconciled(t, c.id, opening) && SnapshotCurrent(t, c)
    ensures Reconciled(AwardWrite(t, c, clinic, amount, rates, now), c.id, opening)
    ensures SnapshotCurrent(AwardWrite(t, c, clinic, amount, rates, now),
                            c.(points_balance := c.points_balance + PointsEarned(amount, rates)))
  {
    EarnedAppend(t.transactions, EarnRow(c, clinic, amount, rates, now), c.id);
  }

  /** From a current snapshot, a complete redemption keeps the customer's stored balance equal to the ledger's. */
  lemma RedeemKeepsReconciled(t: Tables, c: Customer, clinic: string, points: int, rates: Rates, now: Timestamp, opening: int)
    requires Reconciled(t, c.id, opening) && SnapshotCurrent(t, c)
    ensures Reconciled(RedeemWrite(t, c, clinic, points, rates, now), c.id, opening)
    ensures SnapshotCurrent(RedeemWrite(t, c, clinic, points, rates, now),
                            c.(points_balance := c.points_balance - points))
  {
    RedeemedAppend(t.redemptions, RedeemRow(c, clinic, points, rates, now), c.id);
  }

  /** The writes for one customer leave every other customer's rows and ledger untouched. */
  lemma WritesTouchOnlyTheirCustomer(t: Tables, c: Customer, uid: string, clinic: string, amount: real, points: int, rates: Rates, now: Timestamp, opening: int)
    requires uid != c.id && Reconciled(t, uid, opening)
    ensures Reconciled(AwardWrite(t, c, clinic, amount, rates, now), uid, opening)
    ensures Reconciled(RedeemWrite(t, c, clinic, points, rates, now), uid, opening)
  {
    EarnedAppend(t.transactions, EarnRow(c, clinic, amount, rates, now), uid);
    RedeemedAppend(t.redemptions, RedeemRow(c, clinic, points, rates, now), uid);
  }

  /**
   * A redemption that passed the balance check (`points <= snapshot`) with a non-negative point count
   * stores a non-negative balance.
   */
  lemma RedeemStoresNonNegative(t: Tables, c: Customer, clinic: string, points: int, rates: Rates, now: Timestamp)
    requires 0 <= points <= c.points_balance
    ensures forall i :: 0 <= i < |t.users| && t.users[i].id == c.id ==>
      RedeemWrite(t, c, clinic, points, rates, now).users[i].points_balance >= 0
  {
  }

  /** The balance check does not reject a negative point count: such a redemption credits the customer. */
  lemma NegativeRedemptionCredits(t: Tables, c: Customer, clinic: string, points: int, rates: Rates, now: Timestamp)
    requires points < 0 <= c.points_balance && Stored(t, c.id)
    ensures !(points > c.points_balance)
    ensures exists i :: (0 <= i < |t.users| && t.users[i].id == c.id
                         && RedeemWrite(t, c, clinic, points, rates, now).users[i].points_balance > c.points_balance)
  {
  }

  // ---------------------------------------------------------------- what the writes do not guarantee

  /**
   * Two awards issued from the same snapshot (two terminals, or one terminal before its snapshot was
   * replaced) both insert their rows, but the stored balance only reflects the second: the first award's
   * points are lost and the stored balance no longer matches the ledger.
   */
  lemma StaleSnapshotLosesAward(t: Tables, c: Customer, clinic: string, a1: real, a2: real, rates: Rates, now1: Timestamp, now2: Timestamp, opening: int)
    requires Reconciled(t, c.id, opening) && SnapshotCurrent(t, c) && Stored(t, c.id)
    requires PointsEarned(a1, rates) != 0
    ensures var t2 := AwardWrite(AwardWrite(t, c, clinic, a1, rates, now1), c, clinic, a2, rates, now2);
      && Earned(t2.transactions, c.id) == Earned(t.transactions, c.id) + PointsEarned(a1, rates) + PointsEarned(a2, rates)
      && (forall i :: 0 <= i < |t2.users| && t2.users[i].id == c.id ==>
            t2.users[i].points_balance == c.points_balance + PointsEarned(a2, rates))
      && !Reconciled(t2, c.id, opening)
  {
    var t1 := AwardWrite(t, c, clinic, a1, rates, now1);
    var t2 := AwardWrite(t1, c, clinic, a2, rates, now2);
    var e, r := Earned(t.transactions, c.id), Redeemed(t.redemptions, c.id);
    var i :| 0 <= i < |t.users| && t.users[i].id == c.id;
    assert Earned(t2.transactions, c.id) == e + PointsEarned(a1, rates) + PointsEarned(a2, rates) by {
      EarnedAppend(t.transactions, EarnRow(c, clinic, a1, rates, now1), c.id);
      EarnedAppend(t1.transactions, EarnRow(c, clinic, a2, rates, now2), c.id);
    }
    assert Redeemed(t2.redemptions, c.id) == r;
    assert c.points_balance == opening + e - r by {
      assert t.users[i].points_balance == c.points_balance;
    }
    assert t2.users[i].points_balance == c.points_balance + PointsEarned(a2, rates);
  }

  /**
   * Two redemptions issued from the same snapshot each pass the balance check on their own; when together
   * they exceed the balance, both rows are recorded and the ledger falls below zero while the stored
   * balance shows only the second debit.
   */
  lemma StaleSnapshotOverRedeems(t: Tables, c: Customer, clinic: string, p1: int, p2: int, rates: Rates, now1: Timestamp, now2: Timestamp, opening: int)
    requires Reconciled(t, c.id, opening) && SnapshotCurrent(t, c) && Stored(t, c.id)
    requires 0 < p1 <= c.points_balance && 0 < p2 <= c.points_balance && p1 + p2 > c.points_balance
    ensures var t2 := RedeemWrite(RedeemWrite(t, c, clinic, p1, rates, now1), c, clinic, p2, rates, now2);
      && opening + Earned(t2.transactions, c.id) - Redeemed(t2.redemptions, c.id) < 0
      && (forall i :: 0 <= i < |t2.users| && t2.users[i].id == c.id ==>
            t2.users[i].points_balance == c.points_balance - p2 >= 0)
  {
    var t1 := RedeemWrite(t, c, clinic, p1, rates, now1);
    var t2 := RedeemWrite(t1, c, clinic, p2, rates, now2);
    var e, r := Earned(t.transactions, c.id), Redeemed(t.redemptions, c.id);
    var i :| 0 <= i < |t.users| && t.users[i].id == c.id;
    assert Redeemed(t2.redemptions, c.id) == r + p1 + p2 by {
      RedeemedAppend(t.redemptions, RedeemRow(c, clinic, p1, rates, now1), c.id);
      RedeemedAppend(t1.redemptions, RedeemRow(c, clinic, p2, rates, now2), c.id);
    }
    assert Earned(t2.transactions, c.id) == e;
    assert c.points_balance == opening + e - r by {
      assert t.users[i].points_balance == c.points_balance;
    }
  }

  /**
   * When the row insert succeeds and the balance write then fails, the transaction row stays: the ledger
   * credits points that the stored balance does not show.
   */
  lemma HalfWrittenAwardDiverges(t: Tables, c: Customer, clinic: string, amount: real, rates: Rates, now: Timestamp, opening: int)
    requires Reconciled(t, c.id, opening) && Stored(t, c.id) && PointsEarned(amount, rates) != 0
    ensures !Reconciled(t.(transactions := t.transactions + [EarnRow(c, clinic, amount, rates, now)]), c.id, opening)
  {
    EarnedAppend(t.transactions, EarnRow(c, clinic, amount, rates, now), c.id);
    var i :| 0 <= i < |t.users| && t.users[i].id == c.id;
  }

  /** The same for a redemption whose balance write fails after its row was recorded. */
  lemma HalfWrittenRedemptionDiverges(t: Tables, c: Customer, clinic: string, points: int, rates: Rates, now: Timestamp, opening: int)
    requires Reconciled(t, c.id, opening) && Stored(t, c.id) && points != 0
    ensures !Reconciled(t.(redemptions := t.redemptions + [RedeemRow(c, clinic, points, rates, now)]), c.id, opening)
  {
    RedeemedAppend(t.redemptions, RedeemRow(c, clinic, points, rates, now), c.id);
    var i :| 0 <= i < |t.users| && t.users[i].id == c.id;
  }
}
