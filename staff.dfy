/**
 * The staff terminal: finding a customer from typed text or a scanned loyalty card, awarding
 * points for a bill and redeeming points for cash, against the store's tables.
 *
 * Store calls whose outcome depends on things outside the model (the network, the store's own
 * checks) take their outcome as a parameter: `fault` for a failed read, `insertFails` and
 * `updateFails` for the two writes of a ledger operation. `now` is the creation time the store
 * stamps on a new row and `today` the date string the terminal computes.
 */
module Staff {
  import opened Wrappers
  import opened Text
  import Json
  import opened Schema
  import opened Ledger

  /** The status line under the search box. */
  datatype Message =
    | NoMessage
    | CustomerNotFound               // 'Customer not found'
    | Awarded(points: int)           // 'Successfully awarded <points> points!'
    | AwardFailed                    // 'Error awarding points'
    | InsufficientBalance            // 'Insufficient points balance'
    | RedeemedPoints(points: int, cash: real)  // 'Successfully redeemed <points> points for $<cash>!'
    | RedeemFailed                   // 'Error redeeming points'

  // ---------------------------------------------------------------- customer lookup

  /**
   * The text the lookup searches for: nothing for blank input; the `userId` of a JSON object
   * when that member is truthy (a scanned loyalty card); the typed text itself otherwise,
   * including when it is not JSON at all.
   */
  function SearchKey(token: string): (key: Option<string>)
    ensures key.None? <==> Blank(token)
    ensures key.Some? && key.value != token ==>
      Json.SkipWs(token) != [] && Json.SkipWs(token)[0] == '{'
    ensures !Blank(token) && (Json.Parse(token).None? || !Json.Parse(token).value.Obj?) ==> key == Some(token)
    ensures !Blank(token) && Json.Parse(token).Some? && Json.Parse(token).value.Obj? ==>
      var id := Json.Lookup(Json.Parse(token).value.members, "userId");
      && (id.None? || !Json.Truthy(id.value) ==> key == Some(token))
      && (id.Some? && Json.Truthy(id.value) ==> key == Some(Json.ToJsString(id.value)))
  {
    TrimEmptyIffBlank(token);
    if Trim(token) == [] then None
    else
      match Json.Parse(token)
      case Some(Obj(members)) =>
        Json.ParsedObjectStartsWithBrace(token);
        (match Json.Lookup(members, "userId")
         case Some(id) => if Json.Truthy(id) then Some(Json.ToJsString(id)) else Some(token)
         case None => Some(token))
      case _ => Some(token)
  }

  /** A scanned object whose `userId` is a string is searched by that string, or as typed when it is empty. */
  lemma SearchKeyOfCard(token: string, members: seq<(string, Json.Value)>, id: string)
    requires !Blank(token) && Json.Parse(token) == Some(Json.Obj(members))
    requires Json.Lookup(members, "userId") == Some(Json.Str(id))
    ensures SearchKey(token) == Some(if id != [] then id else token)
  {
    TrimEmptyIffBlank(token);
  }

  /**
   * The filter of the lookup query: a customer whose id equals the key, or whose email, name or
   * phone number the store's case-insensitive pattern match `like` accepts.
   */
  predicate Matches(u: User, key: string, like: (User, string) -> bool) {
    u.role == "customer" && (u.id == key || like(u, key))
  }

  /** `.limit(1).single()` over the filter: the first matching row in the store's order. */
  function Lookup(users: seq<User>, key: string, like: (User, string) -> bool): (r: Option<User>)
    ensures r.None? <==> forall i :: 0 <= i < |users| ==> !Matches(users[i], key, like)
    ensures r.Some? ==> exists i :: 0 <= i < |users| && users[i] == r.value
                          && Matches(users[i], key, like)
                          && forall j :: 0 <= j < i ==> !Matches(users[j], key, like)
  {
    if users == [] then None
    else if Matches(users[0], key, like) then Some(users[0])
    else
      var r := Lookup(users[1..], key, like);
      assert forall i :: 0 < i < |users| ==> users[i] == users[1..][i - 1];
      r
  }

  /** A card scanned for a stored customer finds a customer, and finds that one when no earlier row matches. */
  lemma LookupFindsById(users: seq<User>, k: nat, like: (User, string) -> bool)
    requires k < |users| && users[k].role == "customer"
    ensures Lookup(users, users[k].id, like).Some?
    ensures (forall j :: 0 <= j < k ==> !Matches(users[j], users[k].id, like)) ==>
      Lookup(users, users[k].id, like) == Some(users[k])
  {
    assert Matches(users[k], users[k].id, like);
    var r := Lookup(users, users[k].id, like);
    if forall j :: 0 <= j < k ==> !Matches(users[j], users[k].id, like) {
      var i :| 0 <= i < |users| && users[i] == r.value && Matches(users[i], users[k].id, like)
               && forall j :: 0 <= j < i ==> !Matches(users[j], users[k].id, like);
      assert i == k;
    }
  }

  // ---------------------------------------------------------------- configuration and today's list

  predicate AtClinicSince(t: Transaction, clinic: string, today: Timestamp) {
    t.clinic_id == clinic && LexLe(today, t.created_at)
  }

  /** The filter `.eq('clinic_id', clinic).gte('created_at', today)` on `transactions`. */
  function AtClinicSinceOf(clinic: string, today: Timestamp): Transaction -> bool {
    (t: Transaction) => AtClinicSince(t, clinic, today)
  }

  /** The transactions of this clinic created today or later, newest first; none without a clinic. */
  function TodaysTransactions(txs: seq<Transaction>, clinicId: Option<string>, today: Timestamp): (r: seq<Transaction>)
    ensures clinicId.None? ==> r == []
    ensures clinicId.Some? ==> multiset(r) == multiset(Filter(txs, AtClinicSinceOf(clinicId.value, today)))
  {
    match clinicId
    case None => []
    case Some(clinic) => Select(txs, AtClinicSinceOf(clinic, today), TransactionTime)
  }

  /** Today's list holds exactly this clinic's rows since `today`, newest first. */
  lemma TodaysTransactionsSpec(txs: seq<Transaction>, clinic: string, today: Timestamp)
    ensures var r := TodaysTransactions(txs, Some(clinic), today);
      && SortedDesc(r, TransactionTime)
      && (forall i :: 0 <= i < |r| ==> r[i] in txs && AtClinicSince(r[i], clinic, today))
      && (forall i :: 0 <= i < |txs| && AtClinicSince(txs[i], clinic, today) ==> txs[i] in r)
  {
    SelectSpec(txs, AtClinicSinceOf(clinic, today), TransactionTime);
  }


  // ---------------------------------------------------------------- the dashboard

  class StaffDashboard {
    const db: Database
    /** The signed-in staff member's clinic (`profile?.clinic_id`). */
    const clinicId: Option<string>
    var searchTerm: string
    /** The customer as the last lookup or ledger operation left it: the terminal's snapshot. */
    var selectedCustomer: Option<Customer>
    var billAmount: string
    var pointsToRedeem: string
    var transactions: seq<Transaction>
    var systemConfig: Rates
    var loading: bool
    var message: Message

    constructor (db: Database, clinicId: Option<string>)
      ensures this.db == db && this.clinicId == clinicId
      ensures searchTerm == "" && selectedCustomer == None && billAmount == "" && pointsToRedeem == ""
      ensures transactions == [] && systemConfig == DefaultRates && !loading && message == NoMessage
    {
      this.db := db;
      this.clinicId := clinicId;
      searchTerm, selectedCustomer, billAmount, pointsToRedeem := "", None, "", "";
      transactions, systemConfig, loading, message := [], DefaultRates, false, NoMessage;
    }

    /** The ledger handlers act only with a selected customer and a staff clinic (`!profile?.clinic_id` returns). */
    predicate HasCustomerAndClinic()
      reads this
    {
      selectedCustomer.Some? && clinicId.Some? && clinicId.value != ""
    }

    method EnterSearchTerm(text: string)
      modifies this`searchTerm
      ensures searchTerm == text
    {
      searchTerm := text;
    }

    method EnterBillAmount(text: string)
      modifies this`billAmount
      ensures billAmount == text
    {
      billAmount := text;
    }

    method EnterPointsToRedeem(text: string)
      modifies this`pointsToRedeem
      ensures pointsToRedeem == text
    {
      pointsToRedeem := text;
    }

    /** Loads the rates; they change only when the store returns the one configuration row. */
    method FetchSystemConfig(fault: bool)
      modifies this`systemConfig
      ensures systemConfig == if !fault && LoadedRates(db.configs).Some? then LoadedRates(db.configs).value else old(systemConfig)
    {
      var loaded := LoadedRates(db.configs);
      if !fault && loaded.Some? {
        systemConfig := loaded.value;
      }
    }

    /** Re-reads today's list; a failed query yields no data, and `data || []` then empties the list. */
    method FetchTodaysTransactions(today: Timestamp, fault: bool)
      modifies this`transactions
      ensures transactions == if fault then [] else TodaysTransactions(db.transactions, clinicId, today)
    {
      if fault {
        transactions := [];
      } else {
        transactions := TodaysTransactions(db.transactions, clinicId, today);
      }
    }

    /**
     * Looks the typed text up. Blank text does nothing. Otherwise the first matching customer
     * becomes the selection and the message clears; no match, or a failed query, clears the
     * selection and reports the customer missing. Loading is off afterwards either way.
     */
    method SearchCustomer(like: (User, string) -> bool, fault: bool)
      modifies this`selectedCustomer, this`message, this`loading
      ensures Blank(old(searchTerm)) ==> unchanged(this)
      ensures !Blank(old(searchTerm)) ==>
        var found := if fault then None else Lookup(old(db.users), SearchKey(old(searchTerm)).value, like);
        && selectedCustomer == (if found.Some? then Some(AsCustomer(found.value)) else None)
        && message == (if found.Some? then NoMessage else CustomerNotFound)
        && !loading
    {
      TrimEmptyIffBlank(searchTerm);
      if Trim(searchTerm) == [] {
        return;
      }
      var key := SearchKey(searchTerm).value;
      var found := if fault then None else Lookup(db.users, key, like);
      loading := true;
      if found.Some? {
        selectedCustomer := Some(AsCustomer(found.value));
        message := NoMessage;
      } else {
        message := CustomerNotFound;
        selectedCustomer := None;
      }
      loading := false;
    }

    /**
     * The two writes of an award for the snapshot `c` and what the terminal records of them: the
     * transaction row is inserted first, and only when that succeeds is the balance written, as
     * snapshot + points. The snapshot and the bill field change only when both succeed, which the
     * result reports.
     */
    method RecordAward(c: Customer, amount: real, insertFails: bool, updateFails: bool, now: Timestamp) returns (awarded: bool)
      requires clinicId.Some?
      modifies this`selectedCustomer, this`billAmount, this`message, db`transactions, db`users
      ensures awarded == (!insertFails && !updateFails)
      ensures var points := PointsEarned(amount, systemConfig);
        var row := EarnRow(c, clinicId.value, amount, systemConfig, now);
        && (insertFails ==>
              && db.State() == old(db.State())
              && message == AwardFailed && selectedCustomer == old(selectedCustomer) && billAmount == old(billAmount))
        && (!insertFails && updateFails ==>
              && db.State() == old(db.State()).(transactions := old(db.transactions) + [row])
              && message == AwardFailed && selectedCustomer == old(selectedCustomer) && billAmount == old(billAmount))
        && (awarded ==>
              && db.State() == AwardWrite(old(db.State()), c, clinicId.value, amount, systemConfig, now)
              && message == Awarded(points)
              && selectedCustomer == Some(c.(points_balance := c.points_balance + points))
              && billAmount == "")
    {
      var points := PointsEarned(amount, systemConfig);
      var written := AwardWrite(db.State(), c, clinicId.value, amount, systemConfig, now);
      awarded := false;
      if insertFails {
        message := AwardFailed;
        return;
      }
      db.transactions := written.transactions;
      if updateFails {
        message := AwardFailed;
        return;
      }
      db.users := written.users;
      message := Awarded(points);
      selectedCustomer := Some(c.(points_balance := c.points_balance + points));
      billAmount := "";
      awarded := true;
    }

    /**
     * Awards `floor(amount * points_per_dollar)` points for the bill `amount` (the parsed bill
     * field) to the selected customer. Without a customer, a bill or a clinic it does nothing.
     * Today's list is re-read only after both writes succeeded; `refetchFails` is whether that
     * read fails.
     */
    method AwardPoints(amount: real, insertFails: bool, updateFails: bool, refetchFails: bool, now: Timestamp, today: Timestamp)
      modifies this`selectedCustomer, this`billAmount, this`transactions, this`loading, this`message
      modifies db`transactions, db`users
      ensures !(old(HasCustomerAndClinic()) && old(billAmount) != "") ==> unchanged(this) && unchanged(db)
      ensures old(HasCustomerAndClinic()) && old(billAmount) != "" ==>
        var c := old(selectedCustomer).value;
        var points := PointsEarned(amount, systemConfig);
        var row := EarnRow(c, clinicId.value, amount, systemConfig, now);
        && !loading
        && (insertFails ==>
              && db.State() == old(db.State())
              && message == AwardFailed && selectedCustomer == old(selectedCustomer)
              && billAmount == old(billAmount) && transactions == old(transactions))
        && (!insertFails && updateFails ==>
              && db.State() == old(db.State()).(transactions := old(db.transactions) + [row])
              && message == AwardFailed && selectedCustomer == old(selectedCustomer)
              && billAmount == old(billAmount) && transactions == old(transactions))
        && (!insertFails && !updateFails ==>
              && db.State() == AwardWrite(old(db.State()), c, clinicId.value, amount, systemConfig, now)
              && message == Awarded(points)
              && selectedCustomer == Some(c.(points_balance := c.points_balance + points))
              && billAmount == ""
              && transactions == if refetchFails then [] else TodaysTransactions(db.transactions, clinicId, today))
    {
      if selectedCustomer.None? || billAmount == "" || clinicId.None? || clinicId.value == "" {
        return;
      }
      loading := true;
      var awarded := RecordAward(selectedCustomer.value, amount, insertFails, updateFails, now);
      if awarded {
        FetchTodaysTransactions(today, refetchFails);
      }
      loading := false;
    }

    /**
     * Redeems `points` (the parsed points field). More points than the snapshot holds only sets
     * the insufficient-balance message. Otherwise the redemption row, worth
     * `points * points_per_dollar_value`, is inserted first and the balance is then written as
     * snapshot - points; the snapshot and the points field change only when both succeed.
     */
    method RedeemPoints(points: int, insertFails: bool, updateFails: bool, now: Timestamp)
      modifies this`selectedCustomer, this`pointsToRedeem, this`loading, this`message
      modifies db`redemptions, db`users
      ensures !(old(HasCustomerAndClinic()) && old(pointsToRedeem) != "") ==> unchanged(this) && unchanged(db)
      ensures old(HasCustomerAndClinic()) && old(pointsToRedeem) != "" && points > old(selectedCustomer).value.points_balance ==>
        && message == InsufficientBalance && unchanged(db)
        && selectedCustomer == old(selectedCustomer) && pointsToRedeem == old(pointsToRedeem)
        && loading == old(loading)
      ensures old(HasCustomerAndClinic()) && old(pointsToRedeem) != "" && points <= old(selectedCustomer).value.points_balance ==>
        var c := old(selectedCustomer).value;
        var row := RedeemRow(c, clinicId.value, points, systemConfig, now);
        && !loading
        && (insertFails ==>
              && db.State() == old(db.State())
              && message == RedeemFailed && selectedCustomer == old(selectedCustomer)
              && pointsToRedeem == old(pointsToRedeem))
        && (!insertFails && updateFails ==>
              && db.State() == old(db.State()).(redemptions := old(db.redemptions) + [row])
              && message == RedeemFailed && selectedCustomer == old(selectedCustomer)
              && pointsToRedeem == old(pointsToRedeem))
        && (!insertFails && !updateFails ==>
              && db.State() == RedeemWrite(old(db.State()), c, clinicId.value, points, systemConfig, now)
              && message == RedeemedPoints(points, CashValue(points, systemConfig))
              && selectedCustomer == Some(c.(points_balance := c.points_balance - points))
              && pointsToRedeem == "")
    {
      if selectedCustomer.None? || pointsToRedeem == "" || clinicId.None? || clinicId.value == "" {
        return;
      }
      var c := selectedCustomer.value;
      if points > c.points_balance {
        message := InsufficientBalance;
        return;
      }
      var cash := CashValue(points, systemConfig);
      var written := RedeemWrite(db.State(), c, clinicId.value, points, systemConfig, now);
      loading := true;
      if insertFails {
        message := RedeemFailed;
      } else {
        db.redemptions := written.redemptions;
        if updateFails {
          message := RedeemFailed;
        } else {
          db.users := written.users;
          message := RedeemedPoints(points, cash);
          selectedCustomer := Some(c.(points_balance := c.points_balance - points));
          pointsToRedeem := "";
        }
      }
      loading := false;
    }
  }
}
