/**
 * What the customer dashboard derives from the signed-in profile and the rows it fetches:
 * the loyalty-card payload the staff terminal scans, the history lists and their totals,
 * the cash value on the balance card, the clinic icons and the list of running promotions.
 */
module CustomerView {
  import opened Wrappers
  import opened Text
  import opened Folds
  import opened Schema
  import opened Ledger
  import Json
  import Staff

  // ---------------------------------------------------------------- the loyalty card

  /** `JSON.stringify({ userId, email, name })` of the profile: the text encoded in the QR code. */
  function QrPayload(p: User): (payload: string)
    ensures payload != [] && payload[0] == '{'
  {
    Json.Stringify(Json.Obj(CardMembers(p)))
  }

  /**
   * Scanning the card gives the staff search the profile id as its key. A profile with an empty id
   * has a falsy `userId`, and the whole payload text is searched instead.
   */
  lemma QrPayloadResolves(p: User)
    ensures Staff.SearchKey(QrPayload(p)) == Some(if p.id != [] then p.id else QrPayload(p))
  {
    CardParses(p);
    CardUserId(p);
    var payload := QrPayload(p);
    assert !IsJsSpace(payload[0]);
    Staff.SearchKeyOfCard(payload, CardMembers(p), p.id);
  }

  /** The members of the card object, in the order the card writes them. */
  function CardMembers(p: User): seq<(string, Json.Value)> {
    [("userId", Json.Str(p.id)), ("email", Json.Str(p.email)), ("name", Json.Str(p.name))]
  }

  lemma CardParses(p: User)
    ensures QrPayload(p) == Json.Stringify(Json.Obj(CardMembers(p)))
    ensures Json.Parse(QrPayload(p)) == Some(Json.Obj(CardMembers(p)))
  {
    var members := CardMembers(p);
    var card := Json.Obj(members);
    assert Json.WithoutNumbers(card) by {
      forall i | 0 <= i < |members| ensures members[i].1 < card && Json.WithoutNumbers(members[i].1) {
        assert members[i].1 in [members[0].1, members[1].1, members[2].1];
      }
    }
    Json.ParseStringifyRoundTrip(card);
  }

  lemma CardUserId(p: User)
    ensures Json.Lookup(CardMembers(p), "userId") == Some(Json.Str(p.id))
  {
    var members := CardMembers(p);
    assert members[..2][..1] == [members[0]];
    assert members[..|members| - 1] == members[..2];
  }

  /**
   * The staff terminal that scans a customer's card selects that customer, provided no customer
   * stored before it matches the key (the search keeps the first match).
   */
  lemma ScannedCardFindsCustomer(users: seq<User>, k: nat, like: (User, string) -> bool)
    requires k < |users| && users[k].role == "customer" && users[k].id != []
    ensures Staff.Lookup(users, Staff.SearchKey(QrPayload(users[k])).value, like).Some?
    ensures (forall j :: 0 <= j < k ==> !Staff.Matches(users[j], users[k].id, like)) ==>
      Staff.Lookup(users, Staff.SearchKey(QrPayload(users[k])).value, like) == Some(users[k])
  {
    QrPayloadResolves(users[k]);
    Staff.LookupFindsById(users, k, like);
  }

  // ---------------------------------------------------------------- the fetched lists

  function CashOffsetOf(r: Redemption): real { r.cash_value_offset }

  /** The filter `.eq('is_active', true).gte('end_date', now)` on `promotions`. */
  function Running(now: Timestamp): Promotion -> bool {
    (p: Promotion) => p.is_active && LexLe(now, p.end_date)
  }

  /** What the dashboard holds once its fetch has finished; a failed query leaves its list empty. */
  datatype Fetched = Fetched(
    transactions: seq<Transaction>,
    redemptions: seq<Redemption>,
    clinics: seq<Clinic>,
    promotions: seq<Promotion>)

  /** The dashboard's four queries, for the customer `uid` at time `now`. */
  function FetchData(t: Tables, uid: string, now: Timestamp,
                     txFails: bool, redFails: bool, clinicFails: bool, promoFails: bool): (f: Fetched)
    ensures multiset(f.transactions) == if txFails then multiset{} else multiset(TransactionsOf(t.transactions, uid))
    ensures multiset(f.redemptions) == if redFails then multiset{} else multiset(RedemptionsOf(t.redemptions, uid))
    ensures multiset(f.promotions) == if promoFails then multiset{} else multiset(Filter(t.promotions, Running(now)))
  {
    Fetched(
      if txFails then [] else Select(t.transactions, TransactionOf(uid), TransactionTime),
      if redFails then [] else Select(t.redemptions, RedemptionOf(uid), RedemptionTime),
      if clinicFails then [] else t.clinics,
      if promoFails then [] else Select(t.promotions, Running(now), PromotionTime))
  }

  /**
   * The listed promotions are exactly the active ones that have not ended by `now`, newest first.
   */
  lemma ActivePromotions(t: Tables, uid: string, now: Timestamp, txFails: bool, redFails: bool, clinicFails: bool)
    ensures var listed := FetchData(t, uid, now, txFails, redFails, clinicFails, false).promotions;
      && SortedDesc(listed, PromotionTime)
      && (forall i :: 0 <= i < |listed| ==> listed[i] in t.promotions && listed[i].is_active && LexLe(now, listed[i].end_date))
      && (forall i :: 0 <= i < |t.promotions| && t.promotions[i].is_active && LexLe(now, t.promotions[i].end_date) ==>
            t.promotions[i] in listed)
  {
    SelectSpec(t.promotions, Running(now), PromotionTime);
  }

  /** The history lists hold exactly the customer's own rows, newest first. */
  lemma HistoryIsTheCustomers(t: Tables, uid: string, now: Timestamp, clinicFails: bool, promoFails: bool)
    ensures var f := FetchData(t, uid, now, false, false, clinicFails, promoFails);
      && SortedDesc(f.transactions, TransactionTime)
      && SortedDesc(f.redemptions, RedemptionTime)
      && (forall i :: 0 <= i < |f.transactions| ==> f.transactions[i] in t.transactions && f.transactions[i].user_id == uid)
      && (forall i :: 0 <= i < |t.transactions| && t.transactions[i].user_id == uid ==> t.transactions[i] in f.transactions)
      && (forall i :: 0 <= i < |f.redemptions| ==> f.redemptions[i] in t.redemptions && f.redemptions[i].user_id == uid)
      && (forall i :: 0 <= i < |t.redemptions| && t.redemptions[i].user_id == uid ==> t.redemptions[i] in f.redemptions)
  {
    SelectSpec(t.transactions, TransactionOf(uid), TransactionTime);
    SelectSpec(t.redemptions, RedemptionOf(uid), RedemptionTime);
  }

  // ---------------------------------------------------------------- the balance and history cards

  /** `redemptions.reduce((sum, r) => sum + r.points_redeemed, 0)`. */
  function PointsRedeemed(rows: seq<Redemption>): int {
    SumInt(rows, PointsRedeemedOf)
  }

  /** `redemptions.reduce((sum, r) => sum + r.cash_value_offset, 0)`. */
  function TotalSavings(rows: seq<Redemption>): real {
    SumReal(rows, CashOffsetOf)
  }

  /** `transactions.length`. */
  function LifetimeVisits(rows: seq<Transaction>): nat {
    |rows|
  }

  /**
   * The "Points Redeemed" card shows everything the ledger has debited from the customer, although
   * the list it sums is ordered newest first; when the query fails it shows 0.
   */
  lemma PointsRedeemedIsLedgerDebit(t: Tables, uid: string, now: Timestamp, txFails: bool, redFails: bool, clinicFails: bool, promoFails: bool)
    ensures PointsRedeemed(FetchData(t, uid, now, txFails, redFails, clinicFails, promoFails).redemptions) ==
      if redFails then 0 else Redeemed(t.redemptions, uid)
  {
    var f := FetchData(t, uid, now, txFails, redFails, clinicFails, promoFails);
    if !redFails {
      SumIntPermutation(f.redemptions, RedemptionsOf(t.redemptions, uid), PointsRedeemedOf);
    }
  }

  /** Total savings is the cash offset of every redemption of the customer, whatever the list's order. */
  lemma TotalSavingsIsLedgerCash(t: Tables, uid: string, now: Timestamp, txFails: bool, clinicFails: bool, promoFails: bool)
    ensures TotalSavings(FetchData(t, uid, now, txFails, false, clinicFails, promoFails).redemptions) ==
      SumReal(RedemptionsOf(t.redemptions, uid), CashOffsetOf)
  {
    var f := FetchData(t, uid, now, txFails, false, clinicFails, promoFails);
    SumRealPermutation(f.redemptions, RedemptionsOf(t.redemptions, uid), CashOffsetOf);
  }

  /** When every row was recorded at the same redemption rate, total savings is points redeemed times that rate. */
  lemma {:induction false} SavingsAtOneRate(rows: seq<Redemption>, value: real)
    requires forall i :: 0 <= i < |rows| ==> rows[i].cash_value_offset == rows[i].points_redeemed as real * value
    ensures TotalSavings(rows) == PointsRedeemed(rows) as real * value
  {
    if rows != [] {
      var init := rows[..|rows| - 1];
      assert forall i :: 0 <= i < |init| ==> init[i] == rows[i];
      SavingsAtOneRate(init, value);
    }
  }

  /** Lifetime visits is the number of transactions the ledger holds for the customer. */
  lemma LifetimeVisitsCountsLedger(t: Tables, uid: string, now: Timestamp, redFails: bool, clinicFails: bool, promoFails: bool)
    ensures LifetimeVisits(FetchData(t, uid, now, false, redFails, clinicFails, promoFails).transactions) ==
      Count(t.transactions, TransactionOf(uid))
  {
    var f := FetchData(t, uid, now, false, redFails, clinicFails, promoFails);
    assert |f.transactions| == |multiset(f.transactions)|;
    FilterCount(t.transactions, TransactionOf(uid));
  }

  /** The balance card: `(profile?.points_balance || 0) / 100`. */
  function CashValueShown(balance: Option<int>): (cash: real)
    ensures balance.None? ==> cash == 0.0
    ensures cash * 100.0 == balance.GetOr(0) as real
  {
    balance.GetOr(0) as real / 100.0
  }

  /**
   * The balance card divides by a fixed 100, not by the configured redemption rate: it agrees with what
   * the points are worth at the counter exactly when the balance is 0 or the rate is the default 0.01.
   */
  lemma CashShownAgreesOnlyAtDefaultRate(balance: int, rates: Rates)
    ensures CashValueShown(Some(balance)) == CashValue(balance, rates) <==>
      balance == 0 || rates.points_per_dollar_value == 0.01
  {
    var b := balance as real;
    var v := rates.points_per_dollar_value;
    var shown, worth := CashValueShown(Some(balance)), CashValue(balance, rates);
    assert shown == b / 100.0;
    assert worth == b * v;
    if balance == 0 {
      assert worth == 0.0 && shown == 0.0;
    } else if v == 0.01 {
      assert worth == b * 0.01;
    } else {
      var d := v - 0.01;
      assert worth - shown == b * d;
      assert (b * d) / b == d;
    }
  }

  // ---------------------------------------------------------------- presentation mappings

  const Lipstick := "\U{1F484}"
  const Hospital := "\U{1F3E5}"
  const Tooth := "\U{1F9B7}"

  /** `getClinicTypeIcon`: aesthetic, dental and medical clinics each have an icon; every other type shows the medical one. */
  function ClinicTypeIcon(kind: string): (icon: string)
    ensures kind == "aesthetic" <==> icon == Lipstick
    ensures kind == "dental" <==> icon == Tooth
    ensures icon == Hospital <==> kind != "aesthetic" && kind != "dental"
  {
    match kind
    case "aesthetic" => Lipstick
    case "medical" => Hospital
    case "dental" => Tooth
    case _ => Hospital
  }

  /** `profile.id.slice(0, 8)`: the first eight characters of the id, or all of a shorter one. */
  function ShortId(id: string): (short: string)
    ensures |short| == if |id| < 8 then |id| else 8
    ensures short == id[..|short|]
  {
    if |id| < 8 then id else id[..8]
  }
}
