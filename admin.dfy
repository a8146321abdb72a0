/**
 * The administrator's dashboard: the program-wide analytics and the customer list it folds out of
 * the tables, the save of the earning and redemption rates, and the creation of promotions.
 */
module Admin {
  import opened Wrappers
  import opened Text
  import opened Folds
  import opened Schema
  import opened Ledger
  import Json

  // ---------------------------------------------------------------- points in circulation

  predicate IsCustomer(u: User) { u.role == "customer" }
  function Balance(u: User): int { u.points_balance }
  function CustomerBalance(u: User): int { if IsCustomer(u) then u.points_balance else 0 }

  /** `pointsData?.reduce((sum, user) => sum + user.points_balance, 0) || 0`. */
  function PointsInCirculation(data: Option<seq<User>>): (total: int)
    ensures data.None? ==> total == 0
    ensures data == Some([]) ==> total == 0
  {
    match data
    case None => 0
    case Some(rows) => SumInt(rows, Balance)
  }

  /** Over the customer rows of the store, the points in circulation are the balances of all customers. */
  lemma CirculationIsCustomerBalances(users: seq<User>)
    ensures PointsInCirculation(Some(Filter(users, IsCustomer))) == SumInt(users, CustomerBalance)
  {
    SumIntFilter(users, IsCustomer, Balance, CustomerBalance);
  }

  // ---------------------------------------------------------------- per-clinic statistics

  /** A row of the analytics query `transactions.select('clinic_id, clinics (name), bill_amount')`. */
  datatype ClinicRow = ClinicRow(clinic_name: Option<string>, bill_amount: real)

  /** One entry of `clinicStats`. */
  datatype ClinicStat = ClinicStat(name: string, revenue: real, count: nat)

  /** The name of the clinic with id `id`, as the `clinics (name)` join yields it. */
  function ClinicName(clinics: seq<Clinic>, id: string): Option<string> {
    if clinics == [] then None
    else if clinics[0].id == id then Some(clinics[0].name)
    else ClinicName(clinics[1..], id)
  }

  /** The analytics query over the store. */
  function ClinicRows(t: Tables): seq<ClinicRow> {
    seq(|t.transactions|, i requires 0 <= i < |t.transactions| =>
      ClinicRow(ClinicName(t.clinics, t.transactions[i].clinic_id), t.transactions[i].bill_amount))
  }

  /** `transaction.clinics?.name || 'Unknown'`: the group a row is counted in. */
  function Label(r: ClinicRow): (name: string)
    ensures name != []
    ensures name != "Unknown" ==> r.clinic_name == Some(name)
    ensures r.clinic_name.Some? && r.clinic_name.value != [] ==> name == r.clinic_name.value
    ensures (r.clinic_name.None? || r.clinic_name.value == []) ==> name == "Unknown"
  {
    if r.clinic_name.Some? && r.clinic_name.value != [] then r.clinic_name.value else "Unknown"
  }

  function Bill(r: ClinicRow): real { r.bill_amount }
  function Revenue(s: ClinicStat): real { s.revenue }
  function Visits(s: ClinicStat): int { s.count }

  /** The reference definitions of a group's figures: the bills and the rows labelled `name`. */
  function BillAt(name: string): ClinicRow -> real {
    (r: ClinicRow) => if Label(r) == name then r.bill_amount else 0.0
  }

  function LabelIs(name: string): ClinicRow -> bool {
    (r: ClinicRow) => Label(r) == name
  }

  predicate HasName(stats: seq<ClinicStat>, name: string) {
    exists i :: 0 <= i < |stats| && stats[i].name == name
  }

  predicate DistinctNames(stats: seq<ClinicStat>) {
    forall i, j :: 0 <= i < j < |stats| ==> stats[i].name != stats[j].name
  }

  /** One step of the reduce: the group `name` is created at the end if new, then gets the bill and one more visit. */
  function Tally(acc: seq<ClinicStat>, name: string, bill: real): seq<ClinicStat> {
    if acc == [] then [ClinicStat(name, bill, 1)]
    else if acc[0].name == name then [acc[0].(revenue := acc[0].revenue + bill, count := acc[0].count + 1)] + acc[1..]
    else [acc[0]] + Tally(acc[1..], name, bill)
  }

  /** `clinicData.reduce(...)`, with the groups in the order of their first row. */
  function ClinicStats(rows: seq<ClinicRow>): seq<ClinicStat> {
    if rows == [] then []
    else Tally(ClinicStats(rows[..|rows| - 1]), Label(rows[|rows| - 1]), rows[|rows| - 1].bill_amount)
  }

  lemma {:induction false} TallySpec(acc: seq<ClinicStat>, name: string, bill: real)
    requires DistinctNames(acc)
    ensures var r := Tally(acc, name, bill);
      && |r| == (if HasName(acc, name) then |acc| else |acc| + 1)
      && (forall i :: 0 <= i < |acc| ==>
            && r[i].name == acc[i].name
            && r[i].revenue == acc[i].revenue + (if acc[i].name == name then bill else 0.0)
            && r[i].count == acc[i].count + (if acc[i].name == name then 1 else 0))
      && (!HasName(acc, name) ==> r[|acc|] == ClinicStat(name, bill, 1))
  {
    if acc != [] && acc[0].name != name {
      var tail := acc[1..];
      TallySpec(tail, name, bill);
      assert HasName(acc, name) <==> HasName(tail, name) by {
        if HasName(acc, name) {
          var i :| 0 <= i < |acc| && acc[i].name == name;
          assert tail[i - 1].name == name;
        }
        if HasName(tail, name) {
          var i :| 0 <= i < |tail| && tail[i].name == name;
          assert acc[i + 1].name == name;
        }
      }
    }
  }

  /** Each group's revenue is the sum of the bills of the rows with its name, and its count the number of those rows. */
  ghost predicate Figures(rows: seq<ClinicRow>, s: seq<ClinicStat>) {
    forall i :: 0 <= i < |s| ==>
      s[i].revenue == SumReal(rows, BillAt(s[i].name)) && s[i].count == Count(rows, LabelIs(s[i].name))
  }

  /** Every group has a row. */
  ghost predicate Witnessed(rows: seq<ClinicRow>, s: seq<ClinicStat>) {
    forall i :: 0 <= i < |s| ==> exists k :: 0 <= k < |rows| && Label(rows[k]) == s[i].name
  }

  /** Every row is counted in a group. */
  ghost predicate Covered(rows: seq<ClinicRow>, s: seq<ClinicStat>) {
    forall k :: 0 <= k < |rows| ==> HasName(s, Label(rows[k]))
  }

  /** A name without a group has no bills and no rows. */
  ghost predicate Absent(rows: seq<ClinicRow>, s: seq<ClinicStat>) {
    forall n :: !HasName(s, n) ==> SumReal(rows, BillAt(n)) == 0.0 && Count(rows, LabelIs(n)) == 0
  }

  /**
   * Each group is one clinic name: its revenue is the sum of the bills of the rows with that name and
   * its count the number of those rows. Every row is counted in a group, and every group has a row.
   */
  lemma {:induction false} ClinicStatsSpec(rows: seq<ClinicRow>)
    ensures var s := ClinicStats(rows);
      DistinctNames(s) && Figures(rows, s) && Witnessed(rows, s) && Covered(rows, s) && Absent(rows, s)
  {
    if rows != [] {
      var init, last := rows[..|rows| - 1], rows[|rows| - 1];
      var s0 := ClinicStats(init);
      var s := ClinicStats(rows);
      ClinicStatsSpec(init);
      TallySpec(s0, Label(last), last.bill_amount);
      assert forall k :: 0 <= k < |init| ==> rows[k] == init[k];
      TallyDistinct(s0, Label(last), last.bill_amount);
      TallyFigures(rows, s0, s);
      TallyWitnessed(rows, s0, s);
      TallyCovered(rows, s0, s);
      TallyAbsent(rows, s0, s);
    }
  }

  lemma TallyFigures(rows: seq<ClinicRow>, s0: seq<ClinicStat>, s: seq<ClinicStat>)
    requires rows != [] && DistinctNames(s0) && Figures(rows[..|rows| - 1], s0)
    requires var n := Label(rows[|rows| - 1]);
      !HasName(s0, n) ==> SumReal(rows[..|rows| - 1], BillAt(n)) == 0.0 && Count(rows[..|rows| - 1], LabelIs(n)) == 0
    requires s == Tally(s0, Label(rows[|rows| - 1]), rows[|rows| - 1].bill_amount)
    ensures Figures(rows, s)
  {
    var last := rows[|rows| - 1];
    TallySpec(s0, Label(last), last.bill_amount);
    forall i | 0 <= i < |s|
      ensures s[i].revenue == SumReal(rows, BillAt(s[i].name)) && s[i].count == Count(rows, LabelIs(s[i].name))
    {
      var n := s[i].name;
      if i < |s0| {
        FiguresStep(rows, n, s0[i].revenue, s0[i].count);
      } else {
        assert !HasName(s0, n);
        FiguresStep(rows, n, 0.0, 0);
      }
    }
  }

  lemma TallyDistinct(s0: seq<ClinicStat>, name: string, bill: real)
    requires DistinctNames(s0)
    ensures DistinctNames(Tally(s0, name, bill))
  {
    var s := Tally(s0, name, bill);
    TallySpec(s0, name, bill);
    forall i, j | 0 <= i < j < |s| ensures s[i].name != s[j].name {
      if j == |s0| {
        assert !HasName(s0, name);
      }
    }
  }

  /** One more row adds its bill and one visit to the figures of its own label, and nothing to the others. */
  lemma FiguresStep(rows: seq<ClinicRow>, n: string, revenue: real, count: nat)
    requires rows != []
    requires revenue == SumReal(rows[..|rows| - 1], BillAt(n)) && count == Count(rows[..|rows| - 1], LabelIs(n))
    ensures SumReal(rows, BillAt(n)) == revenue + (if Label(rows[|rows| - 1]) == n then rows[|rows| - 1].bill_amount else 0.0)
    ensures Count(rows, LabelIs(n)) == count + (if Label(rows[|rows| - 1]) == n then 1 else 0)
  {
  }

  lemma TallyWitnessed(rows: seq<ClinicRow>, s0: seq<ClinicStat>, s: seq<ClinicStat>)
    requires rows != [] && DistinctNames(s0) && Witnessed(rows[..|rows| - 1], s0)
    requires s == Tally(s0, Label(rows[|rows| - 1]), rows[|rows| - 1].bill_amount)
    ensures Witnessed(rows, s)
  {
    var init, last := rows[..|rows| - 1], rows[|rows| - 1];
    TallySpec(s0, Label(last), last.bill_amount);
    forall i | 0 <= i < |s| ensures exists k :: 0 <= k < |rows| && Label(rows[k]) == s[i].name {
      if i < |s0| {
        var k :| 0 <= k < |init| && Label(init[k]) == s0[i].name;
        assert rows[k] == init[k];
      } else {
        assert Label(rows[|rows| - 1]) == s[i].name;
      }
    }
  }

  lemma TallyCovered(rows: seq<ClinicRow>, s0: seq<ClinicStat>, s: seq<ClinicStat>)
    requires rows != [] && DistinctNames(s0) && Covered(rows[..|rows| - 1], s0)
    requires s == Tally(s0, Label(rows[|rows| - 1]), rows[|rows| - 1].bill_amount)
    ensures Covered(rows, s)
  {
    var init, last := rows[..|rows| - 1], rows[|rows| - 1];
    TallySpec(s0, Label(last), last.bill_amount);
    forall k | 0 <= k < |rows| ensures HasName(s, Label(rows[k])) {
      if k < |init| {
        assert rows[k] == init[k];
        var i :| 0 <= i < |s0| && s0[i].name == Label(init[k]);
        assert s[i].name == Label(rows[k]);
      } else if HasName(s0, Label(last)) {
        var i :| 0 <= i < |s0| && s0[i].name == Label(last);
        assert s[i].name == Label(rows[k]);
      } else {
        assert s[|s0|].name == Label(rows[k]);
      }
    }
  }

  lemma TallyAbsent(rows: seq<ClinicRow>, s0: seq<ClinicStat>, s: seq<ClinicStat>)
    requires rows != [] && DistinctNames(s0) && Absent(rows[..|rows| - 1], s0)
    requires s == Tally(s0, Label(rows[|rows| - 1]), rows[|rows| - 1].bill_amount)
    ensures Absent(rows, s)
  {
    var last := rows[|rows| - 1];
    TallySpec(s0, Label(last), last.bill_amount);
    forall n | !HasName(s, n) ensures SumReal(rows, BillAt(n)) == 0.0 && Count(rows, LabelIs(n)) == 0 {
      assert !HasName(s0, n) && n != Label(last);
    }
  }

  /** Tallying a row adds its bill to the revenue and one to the visits summed over all groups. */
  lemma {:induction false} TallyTotals(acc: seq<ClinicStat>, name: string, bill: real)
    ensures SumReal(Tally(acc, name, bill), Revenue) == SumReal(acc, Revenue) + bill
    ensures SumInt(Tally(acc, name, bill), Visits) == SumInt(acc, Visits) + 1
  {
    if acc == [] {
      assert [ClinicStat(name, bill, 1)][..0] == [];
    } else {
      var head, tail := acc[0], acc[1..];
      assert acc == [head] + tail;
      SumRealAppend([head], tail, Revenue);
      SumIntAppend([head], tail, Visits);
      assert [head][..0] == [];
      if head.name == name {
        var bumped := head.(revenue := head.revenue + bill, count := head.count + 1);
        SumRealAppend([bumped], tail, Revenue);
        SumIntAppend([bumped], tail, Visits);
        assert [bumped][..0] == [];
      } else {
        TallyTotals(tail, name, bill);
        SumRealAppend([head], Tally(tail, name, bill), Revenue);
        SumIntAppend([head], Tally(tail, name, bill), Visits);
      }
    }
  }

  /** The groups' revenues add up to the total of all bills, and their counts to the number of rows. */
  lemma {:induction false} ClinicStatsTotals(rows: seq<ClinicRow>)
    ensures SumReal(ClinicStats(rows), Revenue) == SumReal(rows, Bill)
    ensures SumInt(ClinicStats(rows), Visits) == |rows|
  {
    if rows != [] {
      var init, last := rows[..|rows| - 1], rows[|rows| - 1];
      ClinicStatsTotals(init);
      TallyTotals(ClinicStats(init), Label(last), last.bill_amount);
    }
  }

  /** The index the descending sort puts first: the earliest group of largest revenue (the sort is stable). */
  function FirstMax(stats: seq<ClinicStat>): (k: nat)
    requires stats != []
    ensures k < |stats|
    ensures forall j :: 0 <= j < |stats| ==> stats[j].revenue <= stats[k].revenue
    ensures forall j :: 0 <= j < k ==> stats[j].revenue < stats[k].revenue
  {
    if |stats| == 1 then 0
    else
      var init := stats[..|stats| - 1];
      var k := FirstMax(init);
      assert forall j :: 0 <= j < |init| ==> stats[j] == init[j];
      if stats[|stats| - 1].revenue > stats[k].revenue then |stats| - 1 else k
  }

  /** `Object.entries(clinicStats).sort(by revenue, descending)[0]?.[0] || 'N/A'`. */
  function TopClinic(stats: seq<ClinicStat>): (name: string)
    ensures stats == [] ==> name == "N/A"
    ensures stats != [] && name != "N/A" ==>
      exists i :: (0 <= i < |stats| && stats[i].name == name
                   && forall j :: 0 <= j < |stats| ==> stats[j].revenue <= stats[i].revenue)
  {
    if stats == [] then "N/A"
    else
      var top := stats[FirstMax(stats)].name;
      if top == [] then "N/A" else top
  }

  /**
   * With transactions, the top clinic is the name of one of their clinics, and no clinic's bills add up
   * to more than its bills do; without transactions it is 'N/A'.
   */
  lemma TopClinicHasLargestRevenue(rows: seq<ClinicRow>)
    ensures rows == [] ==> TopClinic(ClinicStats(rows)) == "N/A"
    ensures rows != [] ==>
      exists k :: (0 <= k < |rows| && TopClinic(ClinicStats(rows)) == Label(rows[k])
                   && forall j :: 0 <= j < |rows| ==> SumReal(rows, BillAt(Label(rows[j]))) <= SumReal(rows, BillAt(Label(rows[k]))))
  {
    if rows != [] {
      ClinicStatsSpec(rows);
      TopOfGroups(rows, ClinicStats(rows));
    }
  }

  /** Over any grouping with the right figures, one group per label, the first group of largest revenue is the top label. */
  lemma TopOfGroups(rows: seq<ClinicRow>, s: seq<ClinicStat>)
    requires rows != [] && Figures(rows, s) && Witnessed(rows, s) && Covered(rows, s)
    ensures exists k :: (0 <= k < |rows| && TopClinic(s) == Label(rows[k])
                         && forall j :: 0 <= j < |rows| ==> SumReal(rows, BillAt(Label(rows[j]))) <= SumReal(rows, BillAt(Label(rows[k]))))
  {
    assert HasName(s, Label(rows[0]));
    var m := FirstMax(s);
    var k :| 0 <= k < |rows| && Label(rows[k]) == s[m].name;
    assert TopClinic(s) == Label(rows[k]);
    forall j | 0 <= j < |rows| ensures SumReal(rows, BillAt(Label(rows[j]))) <= SumReal(rows, BillAt(Label(rows[k]))) {
      var i :| 0 <= i < |s| && s[i].name == Label(rows[j]);
      assert s[i].revenue <= s[m].revenue;
    }
  }

  // ---------------------------------------------------------------- the analytics record

  /** `clinicData?.reduce((sum, t) => sum + t.bill_amount, 0) || 0`. */
  function TotalSpending(data: Option<seq<ClinicRow>>): real {
    match data
    case None => 0.0
    case Some(rows) => SumReal(rows, Bill)
  }

  /** `totalMembers ? totalSpending / totalMembers : 0`. */
  function AverageSpending(total: real, members: Option<nat>): (avg: real)
    ensures members.None? || members == Some(0) ==> avg == 0.0
    ensures members.Some? && members.value > 0 ==> avg * members.value as real == total
  {
    if members.None? || members.value == 0 then 0.0 else total / members.value as real
  }

  datatype Analytics = Analytics(
    totalMembers: nat,
    totalPointsInCirculation: int,
    totalTransactions: nat,
    totalRedemptions: nat,
    topClinic: string,
    averageSpending: real)

  const InitialAnalytics := Analytics(0, 0, 0, 0, "", 0.0)

  /** The record `fetchAnalytics` stores, from its five query results (None where a query returned no data). */
  function AnalyticsOf(members: Option<nat>, pointsData: Option<seq<User>>, transactions: Option<nat>,
                       redemptions: Option<nat>, clinicData: Option<seq<ClinicRow>>): Analytics
  {
    Analytics(
      members.GetOr(0),
      PointsInCirculation(pointsData),
      transactions.GetOr(0),
      redemptions.GetOr(0),
      TopClinic(match clinicData case None => [] case Some(rows) => ClinicStats(rows)),
      AverageSpending(TotalSpending(clinicData), members))
  }

  /** The analytics of the store when every query answers. */
  function StoreAnalytics(t: Tables): Analytics {
    AnalyticsOf(Some(Count(t.users, IsCustomer)), Some(Filter(t.users, IsCustomer)), Some(|t.transactions|),
                Some(|t.redemptions|), Some(ClinicRows(t)))
  }

  /** When every query answers, the analytics count the customers, the rows of both ledgers and the customers' points. */
  lemma StoreAnalyticsCounts(t: Tables)
    ensures var a := StoreAnalytics(t);
      && a.totalMembers == Count(t.users, IsCustomer)
      && a.totalPointsInCirculation == SumInt(t.users, CustomerBalance)
      && a.totalTransactions == |t.transactions|
      && a.totalRedemptions == |t.redemptions|
  {
    CirculationIsCustomerBalances(t.users);
  }

  /** When every query answers, the average spend is the total of all bills over the member count, and 0 without members. */
  lemma StoreAverageSpending(t: Tables)
    ensures var a := StoreAnalytics(t);
      && (a.totalMembers > 0 ==> a.averageSpending == SumReal(t.transactions, BillOf) / a.totalMembers as real)
      && (a.totalMembers == 0 ==> a.averageSpending == 0.0)
  {
    ClinicRowsBills(t);
  }

  /** The analytics query sees the bills of the transactions table. */
  lemma ClinicRowsBills(t: Tables)
    ensures TotalSpending(Some(ClinicRows(t))) == SumReal(t.transactions, BillOf)
  {
    SumRealRows(t.transactions, ClinicRows(t));
  }

  /** Two lists of rows with the same bills, position by position, have the same total. */
  lemma {:induction false} SumRealRows(txs: seq<Transaction>, rows: seq<ClinicRow>)
    requires |rows| == |txs| && forall i :: 0 <= i < |txs| ==> rows[i].bill_amount == txs[i].bill_amount
    ensures SumReal(rows, Bill) == SumReal(txs, BillOf)
  {
    if txs != [] {
      SumRealRows(txs[..|txs| - 1], rows[..|rows| - 1]);
    }
  }

  // ---------------------------------------------------------------- the customer list

  /** A customer row with the figures `fetchCustomers` adds to it. */
  datatype EnrichedCustomer = EnrichedCustomer(
    id: string,
    name: string,
    email: string,
    points_balance: int,
    created_at: Timestamp,
    total_spending: real,
    visit_count: nat,
    last_visit: Option<Timestamp>)

  function BillOf(t: Transaction): real { t.bill_amount }

  /** The reference definition of a customer's spend: every bill, with other customers' counted as 0. */
  function BillIfOwner(uid: string): Transaction -> real {
    (t: Transaction) => if t.user_id == uid then t.bill_amount else 0.0
  }

  /** Adds spend, visit count and the first returned visit, from the customer's transactions (None when the query failed). */
  function Enrich(c: User, txs: Option<seq<Transaction>>): (e: EnrichedCustomer)
    ensures e.id == c.id && e.name == c.name && e.email == c.email
    ensures e.points_balance == c.points_balance && e.created_at == c.created_at
    ensures txs.None? ==> e.total_spending == 0.0 && e.visit_count == 0 && e.last_visit.None?
    ensures txs.Some? ==> e.visit_count == |txs.value| && (e.last_visit.None? <==> txs.value == [])
  {
    match txs
    case None => EnrichedCustomer(c.id, c.name, c.email, c.points_balance, c.created_at, 0.0, 0, None)
    case Some(rows) =>
      EnrichedCustomer(c.id, c.name, c.email, c.points_balance, c.created_at,
                       SumReal(rows, BillOf), |rows|, if rows == [] then None else Some(rows[0].created_at))
  }

  /**
   * Against the store, a customer's spend is the total of their bills and their visit count the number
   * of their transactions; the last visit shown is that of their first transaction in store order, not
   * necessarily their latest, since the query has no ordering.
   */
  lemma EnrichFromStore(c: User, txs: seq<Transaction>)
    ensures var e := Enrich(c, Some(TransactionsOf(txs, c.id)));
      && e.total_spending == SumReal(txs, BillIfOwner(c.id))
      && e.visit_count == Count(txs, TransactionOf(c.id))
      && (e.last_visit.None? <==> Count(txs, TransactionOf(c.id)) == 0)
      && (e.last_visit.Some? ==>
            exists i :: (0 <= i < |txs| && txs[i].user_id == c.id && txs[i].created_at == e.last_visit.value
                         && forall j :: 0 <= j < i ==> txs[j].user_id != c.id))
  {
    SumRealFilter(txs, TransactionOf(c.id), BillOf, BillIfOwner(c.id));
    FilterCount(txs, TransactionOf(c.id));
    if TransactionsOf(txs, c.id) != [] {
      FilterFirst(txs, TransactionOf(c.id));
    }
  }

  /** A customer row enriched from its own transactions query, `txFails(id)` when that query failed. */
  function EnrichRow(t: Tables, txFails: string -> bool, c: User): EnrichedCustomer {
    Enrich(c, if txFails(c.id) then None else Some(TransactionsOf(t.transactions, c.id)))
  }

  /** `fetchCustomers`: the customers newest first, each enriched from its own query. */
  function CustomerList(t: Tables, fails: bool, txFails: string -> bool): (list: seq<EnrichedCustomer>)
    ensures fails ==> list == []
    ensures !fails ==> var rows := Select(t.users, IsCustomer, UserTime);
      |list| == |rows| && forall i :: 0 <= i < |rows| ==> list[i] == EnrichRow(t, txFails, rows[i])
  {
    if fails then []
    else
      var rows := Select(t.users, IsCustomer, UserTime);
      seq(|rows|, i requires 0 <= i < |rows| => EnrichRow(t, txFails, rows[i]))
  }

  /**
   * The list has one entry per customer row, newest first; an entry whose query answered carries that
   * customer's spend and visits, and one whose query failed shows none.
   */
  lemma CustomerListSpec(t: Tables, txFails: string -> bool)
    ensures var list := CustomerList(t, false, txFails);
      && |list| == Count(t.users, IsCustomer)
      && (forall i, j :: 0 <= i < j < |list| ==> LexLe(list[j].created_at, list[i].created_at))
      && (forall k :: 0 <= k < |t.users| && IsCustomer(t.users[k]) ==> exists i :: 0 <= i < |list| && list[i].id == t.users[k].id)
      && (forall i :: 0 <= i < |list| ==>
            if txFails(list[i].id) then list[i].visit_count == 0 && list[i].total_spending == 0.0
            else (list[i].visit_count == Count(t.transactions, TransactionOf(list[i].id))
                  && list[i].total_spending == SumReal(t.transactions, BillIfOwner(list[i].id))))
  {
    var rows := Select(t.users, IsCustomer, UserTime);
    var list := CustomerList(t, false, txFails);
    SelectSpec(t.users, IsCustomer, UserTime);
    FilterCount(t.users, IsCustomer);
    assert |rows| == |multiset(rows)|;
    forall k | 0 <= k < |t.users| && IsCustomer(t.users[k]) ensures exists i :: 0 <= i < |list| && list[i].id == t.users[k].id {
      var i :| 0 <= i < |rows| && rows[i] == t.users[k];
      assert list[i].id == t.users[k].id;
    }
    forall i | 0 <= i < |list| && !txFails(list[i].id)
      ensures list[i].visit_count == Count(t.transactions, TransactionOf(list[i].id))
      ensures list[i].total_spending == SumReal(t.transactions, BillIfOwner(list[i].id))
    {
      EnrichFromStore(rows[i], t.transactions);
    }
  }

  // ---------------------------------------------------------------- the configuration save

  /** `update({ points_per_dollar, points_per_dollar_value, updated_at: now }).eq('id', id)`. */
  function UpdateRates(configs: seq<ConfigRow>, id: string, rates: Rates, now: Timestamp): (r: seq<ConfigRow>)
    ensures |r| == |configs|
    ensures forall i :: 0 <= i < |configs| ==> r[i] == if configs[i].id == id
      then ConfigRow(id, rates.points_per_dollar, rates.points_per_dollar_value, Some(now)) else configs[i]
  {
    seq(|configs|, i requires 0 <= i < |configs| =>
      if configs[i].id == id then ConfigRow(id, rates.points_per_dollar, rates.points_per_dollar_value, Some(now)) else configs[i])
  }

  /**
   * The `system_config` table after a save: the existence check (`.single()`, so it sees a row only when
   * there is exactly one and `lookupFails` is false) chooses between updating that row and inserting one.
   */
  function SavedConfigs(configs: seq<ConfigRow>, rates: Rates, lookupFails: bool, writeFails: bool, newId: string, now: Timestamp): seq<ConfigRow>
  {
    if writeFails then configs
    else match (if lookupFails then None else Single(configs))
      case Some(row) => UpdateRates(configs, row.id, rates, now)
      case None => configs + [ConfigRow(newId, rates.points_per_dollar, rates.points_per_dollar_value, None)]
  }

  /**
   * A save runs exactly one branch: with exactly one row found it rewrites that row, otherwise it appends
   * one row; a failed write changes nothing.
   */
  lemma SaveRunsOneBranch(configs: seq<ConfigRow>, rates: Rates, lookupFails: bool, writeFails: bool, newId: string, now: Timestamp)
    ensures var r := SavedConfigs(configs, rates, lookupFails, writeFails, newId, now);
      && (writeFails ==> r == configs)
      && (!writeFails && !lookupFails && |configs| == 1 ==>
            r == [ConfigRow(configs[0].id, rates.points_per_dollar, rates.points_per_dollar_value, Some(now))])
      && (!writeFails && (lookupFails || |configs| != 1) ==>
            |r| == |configs| + 1 && r[..|configs|] == configs
            && r[|configs|] == ConfigRow(newId, rates.points_per_dollar, rates.points_per_dollar_value, None))
  {
  }

  /**
   * What the terminals load after a successful save: the saved rates when the table ends up with one row.
   * A save over an empty table, or over its single row, is loaded; a save that found no single row while one
   * existed (the check failed) or while several existed leaves several rows, and every terminal then keeps
   * its default rates.
   */
  lemma SavedRatesLoaded(configs: seq<ConfigRow>, rates: Rates, lookupFails: bool, newId: string, now: Timestamp)
    ensures var r := SavedConfigs(configs, rates, lookupFails, false, newId, now);
      && (|configs| == 0 || (|configs| == 1 && !lookupFails) ==> LoadedRates(r) == Some(rates))
      && (|configs| >= 2 || (|configs| == 1 && lookupFails) ==> LoadedRates(r) == None)
  {
  }

  // ---------------------------------------------------------------- the dashboard

  datatype PromotionForm = PromotionForm(title: string, description: string, startDate: string, endDate: string)

  const EmptyPromotionForm := PromotionForm("", "", "", "")

  datatype PromotionField = Title | Description | StartDate | EndDate

  /** `setPromotionForm(prev => ({ ...prev, [field]: value }))`. */
  function WithPromotionField(form: PromotionForm, field: PromotionField, value: string): (r: PromotionForm)
    ensures r.title == (if field == Title then value else form.title)
    ensures r.description == (if field == Description then value else form.description)
    ensures r.startDate == (if field == StartDate then value else form.startDate)
    ensures r.endDate == (if field == EndDate then value else form.endDate)
  {
    match field
    case Title => form.(title := value)
    case Description => form.(description := value)
    case StartDate => form.(startDate := value)
    case EndDate => form.(endDate := value)
  }

  /** The row `createPromotion` inserts: the form's fields, empty targeting, active. */
  function PromotionRow(form: PromotionForm, now: Timestamp): Promotion {
    Promotion(form.title, form.description, form.startDate, form.endDate, Json.Obj([]), true, now)
  }

  /** The dashboard's messages. */
  datatype Message =
    | NoMessage
    | ConfigSaved      // 'System configuration updated successfully!'
    | ConfigSaveFailed // 'Error updating system configuration'
    | PromotionCreated // 'Promotion created successfully!'
    | PromotionFailed  // 'Error creating promotion'

  class AdminDashboard {
    const db: Database
    var analytics: Analytics
    var customers: seq<EnrichedCustomer>
    var systemConfig: Rates
    var promotionForm: PromotionForm
    var promotionDialogOpen: bool
    var loading: bool
    var message: Message

    constructor (db: Database)
      ensures this.db == db && analytics == InitialAnalytics && customers == [] && systemConfig == DefaultRates
      ensures promotionForm == EmptyPromotionForm && !promotionDialogOpen && loading && message == NoMessage
    {
      this.db := db;
      analytics, customers, systemConfig := InitialAnalytics, [], DefaultRates;
      promotionForm, promotionDialogOpen, loading, message := EmptyPromotionForm, false, true, NoMessage;
    }

    /** Stores the analytics of the five queries; a failed query contributes no data. */
    method FetchAnalytics(membersFail: bool, pointsFail: bool, transactionsFail: bool, redemptionsFail: bool, clinicsFail: bool)
      modifies this`analytics
      ensures analytics == AnalyticsOf(
        if membersFail then None else Some(Count(db.users, IsCustomer)),
        if pointsFail then None else Some(Filter(db.users, IsCustomer)),
        if transactionsFail then None else Some(|db.transactions|),
        if redemptionsFail then None else Some(|db.redemptions|),
        if clinicsFail then None else Some(ClinicRows(db.State())))
      ensures !membersFail && !pointsFail && !transactionsFail && !redemptionsFail && !clinicsFail ==>
        analytics == StoreAnalytics(db.State())
    {
      var t := db.State();
      analytics := AnalyticsOf(
        if membersFail then None else Some(Count(t.users, IsCustomer)),
        if pointsFail then None else Some(Filter(t.users, IsCustomer)),
        if transactionsFail then None else Some(|t.transactions|),
        if redemptionsFail then None else Some(|t.redemptions|),
        if clinicsFail then None else Some(ClinicRows(t)));
    }

    method FetchCustomers(fails: bool, txFails: string -> bool)
      modifies this`customers, this`loading
      ensures customers == CustomerList(db.State(), fails, txFails) && !loading
    {
      customers := CustomerList(db.State(), fails, txFails);
      loading := false;
    }

    /** Loads the rates; they change only when the store returns the one configuration row. */
    method FetchSystemConfig(fault: bool)
      modifies this`systemConfig
      ensures systemConfig == if !fault && LoadedRates(db.configs).Some? then LoadedRates(db.configs).value else old(systemConfig)
    {
      var loaded := LoadedRates(db.configs);
      if !fault && loaded.Some? {
        systemConfig := loaded.value;
      }
    }

    method EditPointsPerDollar(value: real)
      modifies this`systemConfig
      ensures systemConfig == old(systemConfig).(points_per_dollar := value)
    {
      systemConfig := systemConfig.(points_per_dollar := value);
    }

    method EditPointValue(value: real)
      modifies this`systemConfig
      ensures systemConfig == old(systemConfig).(points_per_dollar_value := value)
    {
      systemConfig := systemConfig.(points_per_dollar_value := value);
    }

    /** Saves the edited rates: update the single row, or insert one; report whether the chosen write succeeded. */
    method UpdateSystemConfig(lookupFails: bool, writeFails: bool, newId: string, now: Timestamp)
      modifies db`configs, this`message
      ensures db.configs == SavedConfigs(old(db.configs), systemConfig, lookupFails, writeFails, newId, now)
      ensures message == if writeFails then ConfigSaveFailed else ConfigSaved
    {
      var existing := if lookupFails then None else Single(db.configs);
      match existing {
        case Some(row) =>
          if !writeFails {
            db.configs := UpdateRates(db.configs, row.id, systemConfig, now);
          }
        case None =>
          if !writeFails {
            db.configs := db.configs + [ConfigRow(newId, systemConfig.points_per_dollar, systemConfig.points_per_dollar_value, None)];
          }
      }
      message := if writeFails then ConfigSaveFailed else ConfigSaved;
    }

    method EditPromotion(field: PromotionField, value: string)
      modifies this`promotionForm
      ensures promotionForm == WithPromotionField(old(promotionForm), field, value)
    {
      promotionForm := WithPromotionField(promotionForm, field, value);
    }

    method SetPromotionDialogOpen(open: bool)
      modifies this`promotionDialogOpen
      ensures promotionDialogOpen == open
    {
      promotionDialogOpen := open;
    }

    /**
     * Inserts the promotion. On success the form is reset and the dialog closed; on failure only the
     * message changes, so the form keeps what was typed.
     */
    method CreatePromotion(writeFails: bool, now: Timestamp)
      modifies db`promotions, this`promotionForm, this`promotionDialogOpen, this`message
      ensures writeFails ==> (db.promotions == old(db.promotions) && message == PromotionFailed
                              && promotionForm == old(promotionForm) && promotionDialogOpen == old(promotionDialogOpen))
      ensures !writeFails ==> (db.promotions == old(db.promotions) + [PromotionRow(old(promotionForm), now)]
                               && message == PromotionCreated && promotionForm == EmptyPromotionForm && !promotionDialogOpen)
    {
      if writeFails {
        message := PromotionFailed;
        return;
      }
      db.promotions := db.promotions + [PromotionRow(promotionForm, now)];
      message := PromotionCreated;
      promotionForm := EmptyPromotionForm;
      promotionDialogOpen := false;
    }
  }
}
