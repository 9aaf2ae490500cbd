/**
 * Plans, payment orders and purchases (controllers/subscription.controller.js,
 * models/UserPlan.js, and `initializeDefaultPlans` of server-enhanced.js).
 * The payment provider is an oracle: it issues order ids (drawn from a
 * counter here) and says whether a payment signature is valid. The Plan and
 * Transaction models are not part of this model; their fields are those the
 * controller reads and writes.
 */
module Subscriptions {
  import opened Common
  import opened Ordering
  import opened Accounts

  /** The provider's order id. */
  type OrderId = nat

  datatype Plan = Plan(
    id: PlanId, name: string, displayName: string, credits: nat, price: nat, currency: string,
    features: seq<string>, description: string, isActive: bool)

  datatype TxStatus = Created | Succeeded

  datatype Transaction = Transaction(
    userId: UserId, planId: PlanId, orderId: OrderId, amount: nat, currency: string,
    status: TxStatus, paymentId: Option<string>, signature: string, testMode: bool, createdAt: Millis)

  /** The `status` enum of models/UserPlan.js. */
  datatype PlanState = Active | Expired | Consumed

  datatype PaymentDetails = PaymentDetails(
    orderId: OrderId, paymentId: string, signature: Option<string>, amount: nat, currency: string)

  datatype UserPlan = UserPlan(
    id: UserPlanId, userId: UserId, planId: PlanId, creditsAllocated: int, creditsUsed: int,
    purchaseDate: Millis, expiryDate: Option<Millis>, status: PlanState, payment: PaymentDetails)

  /** A purchase as the schema's defaults make it: nothing used, active, no expiry. */
  function NewUserPlan(id: UserPlanId, userId: UserId, plan: Plan, payment: PaymentDetails, now: Millis): (up: UserPlan)
    ensures up.creditsAllocated == plan.credits && up.creditsUsed == 0
    ensures up.status == Active && up.expiryDate == None && up.purchaseDate == now
  {
    UserPlan(id, userId, plan.id, plan.credits, 0, now, None, Active, payment)
  }

  /** The plans `initializeDefaultPlans` seeds, with ids from `first` on. */
  function DefaultPlans(first: PlanId): seq<Plan> {
    [ Plan(first, "single_report", "Single Report", 1, 499, "INR",
           ["Comprehensive business analysis", "Market research insights", "SWOT analysis",
            "Competitor analysis", "Email delivery", "PDF & JSON export"],
           "Perfect for trying out our platform", true),
      Plan(first + 1, "basic_plan", "10 Reports Bundle", 10, 3999, "INR",
           ["All Single Report features", "10 comprehensive reports", "Priority processing", "Extended support"],
           "Great for small businesses", true),
      Plan(first + 2, "premium_plan", "20 Reports Bundle", 20, 6999, "INR",
           ["All Basic Plan features", "20 comprehensive reports", "Fastest processing", "Premium support",
            "Custom branding options"],
           "Best value for growing businesses", true) ]
  }

  /** `Plan.findById(id)`. */
  function FindPlan(ps: seq<Plan>, id: PlanId): (r: Option<Plan>)
    ensures r.Some? ==> r.value in ps && r.value.id == id
    ensures r.None? ==> forall k :: 0 <= k < |ps| ==> ps[k].id != id
  {
    if ps == [] then None
    else if ps[0].id == id then Some(ps[0])
    else FindPlan(ps[1..], id)
  }

  predicate NoDuplicates<T(==)>(s: seq<T>) {
    forall i, j :: 0 <= i < j < |s| ==> s[i] != s[j]
  }

  /** `getPlans`: the active plans, cheapest first. */
  function ActivePlansByPrice(ps: seq<Plan>): (r: seq<Plan>)
    ensures forall k :: 0 <= k < |r| ==> r[k] in ps && r[k].isActive
    ensures forall k :: 0 <= k < |ps| && ps[k].isActive ==> ps[k] in r
    ensures forall i, j :: 0 <= i < j < |r| ==> r[i].price <= r[j].price
    ensures forall p: Plan :: multiset(r)[p] == if p.isActive then multiset(ps)[p] else 0
  {
    var active := Filter(ps, (p: Plan) => p.isActive);
    var sorted := SortBy(active, (p: Plan) => p.price);
    SameMembers(sorted, active);
    sorted
  }

  /** One row of the purchase history's `plans` list. */
  datatype PurchaseView = PurchaseView(
    id: UserPlanId, plan: string, creditsAllocated: int, creditsUsed: int, creditsRemaining: int,
    purchaseDate: Millis, status: PlanState)

  /** One row of the purchase history's `transactions` list. */
  datatype PaymentView = PaymentView(
    orderId: OrderId, plan: string, credits: nat, amount: nat, currency: string,
    paymentId: Option<string>, date: Millis)

  datatype History = History(transactions: seq<PaymentView>, plans: seq<PurchaseView>)

  /** The populated plan's display name; `null.displayName` throws when the plan is gone. */
  function PlanName(ps: seq<Plan>, id: PlanId): Result<string> {
    var p := FindPlan(ps, id);
    if p.None? then Failure("plan no longer exists") else Success(p.value.displayName)
  }

  function PurchaseRows(ups: seq<UserPlan>, ps: seq<Plan>): (r: Result<seq<PurchaseView>>)
    ensures r.Success? ==> |r.value| == |ups|
    ensures r.Success? ==> forall k :: 0 <= k < |ups| ==>
      && r.value[k].id == ups[k].id
      && r.value[k].creditsAllocated == ups[k].creditsAllocated && r.value[k].creditsUsed == ups[k].creditsUsed
      && r.value[k].creditsRemaining == ups[k].creditsAllocated - ups[k].creditsUsed
      && r.value[k].purchaseDate == ups[k].purchaseDate && r.value[k].status == ups[k].status
      && FindPlan(ps, ups[k].planId).Some?
      && r.value[k].plan == FindPlan(ps, ups[k].planId).value.displayName
    ensures r.Failure? <==> exists k :: 0 <= k < |ups| && FindPlan(ps, ups[k].planId).None?
  {
    if ups == [] then Success([])
    else
      var up := ups[0];
      var name := PlanName(ps, up.planId);
      var rest := PurchaseRows(ups[1..], ps);
      assert forall k :: 1 <= k < |ups| ==> ups[k] == ups[1..][k - 1];
      if name.Failure? then Failure(name.error)
      else if rest.Failure? then rest
      else Success([PurchaseView(up.id, name.value, up.creditsAllocated, up.creditsUsed,
                                 up.creditsAllocated - up.creditsUsed, up.purchaseDate, up.status)] + rest.value)
  }

  function PaymentRows(txs: seq<Transaction>, ps: seq<Plan>): (r: Result<seq<PaymentView>>)
    ensures r.Success? ==> |r.value| == |txs|
    ensures r.Success? ==> forall k :: 0 <= k < |txs| ==>
      && r.value[k].orderId == txs[k].orderId && r.value[k].amount == txs[k].amount
      && r.value[k].currency == txs[k].currency && r.value[k].paymentId == txs[k].paymentId
      && r.value[k].date == txs[k].createdAt
      && FindPlan(ps, txs[k].planId).Some?
      && r.value[k].plan == FindPlan(ps, txs[k].planId).value.displayName
      && r.value[k].credits == FindPlan(ps, txs[k].planId).value.credits
    ensures r.Failure? <==> exists k :: 0 <= k < |txs| && FindPlan(ps, txs[k].planId).None?
  {
    if txs == [] then Success([])
    else
      var t := txs[0];
      var p := FindPlan(ps, t.planId);
      var rest := PaymentRows(txs[1..], ps);
      assert forall k :: 1 <= k < |txs| ==> txs[k] == txs[1..][k - 1];
      if p.None? then Failure("plan no longer exists")
      else if rest.Failure? then rest
      else Success([PaymentView(t.orderId, p.value.displayName, p.value.credits, t.amount, t.currency,
                                t.paymentId, t.createdAt)] + rest.value)
  }

  /** The stored transactions in the order they were created. */
  function InCreationOrder(log: seq<OrderId>, byOrder: map<OrderId, Transaction>): seq<Transaction> {
    if log == [] then []
    else (if log[0] in byOrder then [byOrder[log[0]]] else []) + InCreationOrder(log[1..], byOrder)
  }

  /**
   * With no order logged twice and every transaction filed under its own
   * order id, each transaction logged and stored appears exactly once, and
   * nothing else appears.
   */
  lemma {:induction false} InCreationOrderCounts(log: seq<OrderId>, byOrder: map<OrderId, Transaction>)
    requires NoDuplicates(log)
    requires forall o :: o in byOrder ==> byOrder[o].orderId == o
    ensures forall t: Transaction :: multiset(InCreationOrder(log, byOrder))[t] ==
              if t.orderId in log && t.orderId in byOrder && byOrder[t.orderId] == t then 1 else 0
  {
    if log != [] {
      var rest := log[1..];
      assert NoDuplicates(rest) by {
        forall i, j | 0 <= i < j < |rest| ensures rest[i] != rest[j] {
          assert rest[i] == log[i + 1] && rest[j] == log[j + 1];
        }
      }
      InCreationOrderCounts(rest, byOrder);
      assert log == [log[0]] + rest;
      forall t: Transaction
        ensures t.orderId in log <==> t.orderId == log[0] || t.orderId in rest
      {
      }
    }
  }

  /** `find({ userId, status: 'success' })`. */
  function PaidBy(userId: UserId): Transaction -> bool {
    (t: Transaction) => t.userId == userId && t.status == Succeeded
  }

  /** Sorting on this key in ascending order is `.sort('-createdAt')`. */
  function PaymentsNewestFirst(): Transaction -> int {
    (t: Transaction) => -(t.createdAt as int)
  }

  /** `find({ userId })`. */
  function BoughtBy(userId: UserId): UserPlan -> bool {
    (u: UserPlan) => u.userId == userId
  }

  /** Sorting on this key in ascending order is `.sort('-purchaseDate')`. */
  function PurchasesNewestFirst(): UserPlan -> int {
    (u: UserPlan) => -(u.purchaseDate as int)
  }

  /** The user's successful payments, newest first, at most 20. */
  function RecentPayments(txs: seq<Transaction>, userId: UserId): (r: seq<Transaction>)
    ensures |r| <= 20
    ensures forall k :: 0 <= k < |r| ==> r[k] in txs && r[k].userId == userId && r[k].status == Succeeded
    ensures forall i, j :: 0 <= i < j < |r| ==> r[i].createdAt >= r[j].createdAt
  {
    var sorted := SortBy(Filter(txs, PaidBy(userId)), PaymentsNewestFirst());
    SameMembers(sorted, Filter(txs, PaidBy(userId)));
    Page(sorted, 0, 20)
  }

  /**
   * The payments listed are the user's newest: drawn from the stored ones,
   * all of them when there are fewer than 20, and otherwise none left out is
   * newer than the last one listed.
   */
  lemma RecentPaymentsAreNewest(txs: seq<Transaction>, userId: UserId)
    ensures var r := RecentPayments(txs, userId);
      && (forall t: Transaction :: multiset(r)[t] <= multiset(txs)[t])
      && (forall t: Transaction :: t.userId == userId && t.status == Succeeded && multiset(r)[t] < multiset(txs)[t] ==>
            |r| == 20 && t.createdAt <= r[19].createdAt)
  {
    FirstSelected(txs, PaidBy(userId), PaymentsNewestFirst(), 20);
  }

  /** The user's purchases, newest first, at most 20. */
  function RecentPurchases(ups: seq<UserPlan>, userId: UserId): (r: seq<UserPlan>)
    ensures |r| <= 20
    ensures forall k :: 0 <= k < |r| ==> r[k] in ups && r[k].userId == userId
    ensures forall i, j :: 0 <= i < j < |r| ==> r[i].purchaseDate >= r[j].purchaseDate
  {
    var sorted := SortBy(Filter(ups, BoughtBy(userId)), PurchasesNewestFirst());
    SameMembers(sorted, Filter(ups, BoughtBy(userId)));
    Page(sorted, 0, 20)
  }

  /**
   * The purchases listed are the user's newest: drawn from the stored ones,
   * all of them when there are fewer than 20, and otherwise none left out is
   * newer than the last one listed.
   */
  lemma RecentPurchasesAreNewest(ups: seq<UserPlan>, userId: UserId)
    ensures var r := RecentPurchases(ups, userId);
      && (forall u: UserPlan :: multiset(r)[u] <= multiset(ups)[u])
      && (forall u: UserPlan :: u.userId == userId && multiset(r)[u] < multiset(ups)[u] ==>
            |r| == 20 && u.purchaseDate <= r[19].purchaseDate)
  {
    FirstSelected(ups, BoughtBy(userId), PurchasesNewestFirst(), 20);
  }

  /** The outcome of `createOrder`. */
  datatype OrderOutcome =
    | MissingPlanId                     // 400
    | PlanUnavailable                   // 404
    | ProviderFailed(message: string)   // 500
    | OrderCreated(orderId: OrderId, amount: nat, currency: string, description: string)  // 200
  {
    function Code(): nat {
      match this
      case MissingPlanId => 400
      case PlanUnavailable => 404
      case ProviderFailed(_) => 500
      case OrderCreated(_, _, _, _) => 200
    }
  }

  /** The outcome of `verifyPayment`. */
  datatype VerifyOutcome =
    | MissingDetails          // 400
    | MissingSignature        // 400
    | InvalidSignature        // 400
    | TransactionNotFound     // 404
    | AlreadyProcessed        // 400
    | PlanGone                // 500, after the transaction was marked successful
    | Verified(credits: int, planName: string, planCredits: nat, testMode: bool)  // 200
  {
    function Code(): nat {
      match this
      case MissingDetails => 400
      case MissingSignature => 400
      case InvalidSignature => 400
      case TransactionNotFound => 404
      case AlreadyProcessed => 400
      case PlanGone => 500
      case Verified(_, _, _, _) => 200
    }
  }

  class PaymentStore {
    var plans: seq<Plan>
    var transactions: map<OrderId, Transaction>
    /** The order ids in the order their transactions were created. */
    var orderLog: seq<OrderId>
    var userPlans: seq<UserPlan>
    var nextPlan: PlanId
    var nextOrder: OrderId
    var nextUserPlan: UserPlanId
    /** The orders whose verification credited a user, in order. */
    ghost var granted: seq<OrderId>

    ghost predicate Valid()
      reads this
    {
      && (forall k :: 0 <= k < |plans| ==> plans[k].id < nextPlan)
      && (forall o :: o in transactions ==> transactions[o].orderId == o && o < nextOrder)
      && NoDuplicates(orderLog)
      && (forall o :: o in transactions <==> o in orderLog)
      && (forall k :: 0 <= k < |userPlans| ==> userPlans[k].id < nextUserPlan)
      && NoDuplicates(granted)
      && (forall o :: o in granted ==> o in transactions && transactions[o].status == Succeeded)
    }

    constructor ()
      ensures Valid()
      ensures plans == [] && transactions == map[] && userPlans == [] && granted == []
    {
      plans := [];
      transactions := map[];
      orderLog := [];
      userPlans := [];
      nextPlan := 0;
      nextOrder := 0;
      nextUserPlan := 0;
      granted := [];
    }

    /** `initializeDefaultPlans`: seeds the three plans when, and only when, there is no plan yet. */
    method InitializeDefaultPlans()
      requires Valid()
      modifies this
      ensures Valid()
      ensures old(plans) == [] ==> plans == DefaultPlans(old(nextPlan))
      ensures old(plans) != [] ==> plans == old(plans)
      ensures transactions == old(transactions) && userPlans == old(userPlans) && granted == old(granted)
    {
      if |plans| == 0 {
        plans := DefaultPlans(nextPlan);
        nextPlan := nextPlan + 3;
      }
    }

    /**
     * `createOrder`: 400 without a plan id, 404 for a missing or inactive
     * plan; otherwise the provider issues an order for the plan's price (in
     * the currency's minor unit) and a `created` transaction for that price
     * is stored under a fresh order id.
     */
    method CreateOrder(userId: UserId, planId: Option<PlanId>, providerOk: bool, now: Millis)
      returns (r: OrderOutcome)
      requires Valid()
      modifies this
      ensures Valid()
      ensures planId.None? ==> r == MissingPlanId
      ensures r.OrderCreated? <==>
        planId.Some? && FindPlan(plans, planId.value).Some? && FindPlan(plans, planId.value).value.isActive && providerOk
      ensures planId.Some? ==>
        var p := FindPlan(plans, planId.value);
        && (r == PlanUnavailable <==> p.None? || !p.value.isActive)
        && (r.ProviderFailed? <==> p.Some? && p.value.isActive && !providerOk)
        && (r.OrderCreated? ==>
              && p.Some? && p.value.isActive
              && r.amount == p.value.price * 100 && r.currency == p.value.currency
              && r.description == p.value.displayName
              && r.orderId !in old(transactions)
              && transactions == old(transactions)[r.orderId :=
                   Transaction(userId, p.value.id, r.orderId, p.value.price, p.value.currency, Created,
                               None, "", false, now)])
      ensures !r.OrderCreated? ==> transactions == old(transactions)
      ensures plans == old(plans) && userPlans == old(userPlans) && granted == old(granted)
    {
      if planId.None? {
        return MissingPlanId;
      }
      var plan := FindPlan(plans, planId.value);
      if plan.None? || !plan.value.isActive {
        return PlanUnavailable;
      }
      if !providerOk {
        return ProviderFailed("Failed to create payment order");
      }
      var p := plan.value;
      var o := nextOrder;
      nextOrder := nextOrder + 1;
      assert o !in orderLog;
      assert NoDuplicates(orderLog + [o]) by {
        forall i, j | 0 <= i < j < |orderLog| + 1 ensures (orderLog + [o])[i] != (orderLog + [o])[j] {
          assert (orderLog + [o])[i] == orderLog[i];
        }
      }
      transactions := transactions[o := Transaction(userId, p.id, o, p.price, p.currency, Created, None, "", false, now)];
      orderLog := orderLog + [o];
      r := OrderCreated(o, p.price * 100, p.currency, p.displayName);
    }

    /** The signature checks of `verifyPayment`, before any lookup. */
    static function SignatureCheck(orderId: Option<OrderId>, paymentId: Option<string>, signature: Option<string>,
                                   testMode: bool, signatureValid: bool): (r: Option<VerifyOutcome>)
      ensures r.Some? ==> r.value.Code() == 400
      ensures r.None? <==> orderId.Some? && Truthy(paymentId) && (testMode || (Truthy(signature) && signatureValid))
    {
      if orderId.None? || !Truthy(paymentId) then Some(MissingDetails)
      else if testMode then None
      else if !Truthy(signature) then Some(MissingSignature)
      else if !signatureValid then Some(InvalidSignature)
      else None
    }

    /**
     * `verifyPayment` for the signed-in `user`. Its checks, in order: both ids
     * present; outside test mode a signature present and valid; the order
     * known; the order not already successful. Then the transaction becomes
     * successful and, when its plan still exists, the user is credited the
     * plan's credits, the plan becomes active and a purchase is recorded. The
     * confirmation e-mail's outcome does not matter. An order credits a user
     * at most once: `granted` never repeats an order.
     */
    method VerifyPayment(user: UserAccount, orderId: Option<OrderId>, paymentId: Option<string>,
                         signature: Option<string>, testMode: bool, signatureValid: bool, now: Millis)
      returns (r: VerifyOutcome)
      requires Valid() && user.Valid()
      modifies this, user
      ensures Valid() && user.Valid()
      ensures SignatureCheck(orderId, paymentId, signature, testMode, signatureValid).Some? ==>
        r == SignatureCheck(orderId, paymentId, signature, testMode, signatureValid).value
      ensures r == TransactionNotFound <==>
        SignatureCheck(orderId, paymentId, signature, testMode, signatureValid).None? && orderId.value !in old(transactions)
      ensures r == AlreadyProcessed <==>
        && SignatureCheck(orderId, paymentId, signature, testMode, signatureValid).None?
        && orderId.value in old(transactions) && old(transactions)[orderId.value].status == Succeeded
      ensures r.Code() != 200 && r != PlanGone ==> transactions == old(transactions) && user.Doc() == old(user.Doc())
      ensures r.Verified? || r == PlanGone ==>
        && orderId.value in old(transactions) && old(transactions)[orderId.value].status == Created
        && transactions == old(transactions)[orderId.value := old(transactions)[orderId.value].(
             status := Succeeded, paymentId := paymentId, signature := OrElse(signature, ""), testMode := testMode)]
      ensures r.Verified? <==>
        && SignatureCheck(orderId, paymentId, signature, testMode, signatureValid).None?
        && orderId.value in old(transactions) && old(transactions)[orderId.value].status == Created
        && FindPlan(plans, old(transactions)[orderId.value].planId).Some?
      ensures r == PlanGone <==>
        && SignatureCheck(orderId, paymentId, signature, testMode, signatureValid).None?
        && orderId.value in old(transactions) && old(transactions)[orderId.value].status == Created
        && FindPlan(plans, old(transactions)[orderId.value].planId).None?
      ensures r == PlanGone ==> user.Doc() == old(user.Doc())
      ensures r.Verified? ==>
        var t := old(transactions)[orderId.value];
        && FindPlan(plans, t.planId).Some?
        && orderId.value !in old(granted)
        && Credited(old(granted), granted, orderId.value, old(user.Doc()), user.Doc(), old(userPlans), userPlans,
                    FindPlan(plans, t.planId).value,
                    NewUserPlan(old(nextUserPlan), user.id, FindPlan(plans, t.planId).value,
                                PaymentDetails(orderId.value, paymentId.value, signature, t.amount, t.currency), now),
                    now)
        && r.credits == user.credits && r.planCredits == FindPlan(plans, t.planId).value.credits
        && r.planName == FindPlan(plans, t.planId).value.displayName && r.testMode == testMode
      ensures !r.Verified? ==> granted == old(granted) && userPlans == old(userPlans)
      ensures plans == old(plans)
    {
      var refused := SignatureCheck(orderId, paymentId, signature, testMode, signatureValid);
      if refused.Some? {
        return refused.value;
      }
      var o := orderId.value;
      if o !in transactions {
        return TransactionNotFound;
      }
      var t := transactions[o];
      if t.status == Succeeded {
        return AlreadyProcessed;
      }
      MarkSucceeded(o, paymentId, signature, testMode);
      var plan := FindPlan(plans, t.planId);
      if plan.None? {
        return PlanGone;
      }
      var p := plan.value;
      var up := NewUserPlan(nextUserPlan, user.id, p,
                            PaymentDetails(o, paymentId.value, signature, t.amount, t.currency), now);
      RecordPurchase(up, o);
      user.GrantPlan(p.id, p.credits, up.id, now);
      r := Verified(user.credits, p.displayName, p.credits, testMode);
    }

    /** The bookkeeping of one granted purchase: the user's new balance, plan and history, and the purchase record. */
    ghost predicate Credited(granted0: seq<OrderId>, granted1: seq<OrderId>, o: OrderId,
                             u0: UserDoc, u1: UserDoc, ups0: seq<UserPlan>, ups1: seq<UserPlan>,
                             p: Plan, up: UserPlan, now: Millis)
    {
      && granted1 == granted0 + [o]
      && u1 == u0.(credits := u0.credits + p.credits, activePlan := Some(p.id),
                   planHistory := u0.planHistory + [up.id], updatedAt := now)
      && ups1 == ups0 + [up]
    }

    /** Listing the log lists every stored transaction exactly once, and nothing else. */
    lemma StoredOnceEach()
      requires Valid()
      ensures forall t: Transaction :: multiset(InCreationOrder(orderLog, transactions))[t] ==
                if t.orderId in transactions && transactions[t.orderId] == t then 1 else 0
    {
      InCreationOrderCounts(orderLog, transactions);
    }

    /** An order that has not succeeded yet has never credited anyone. */
    lemma GrantedAreSucceeded(o: OrderId)
      requires Valid() && o in transactions && transactions[o].status == Created
      ensures o !in granted
    {
    }

    /** Marks the created transaction of order `o` successful, with the payment's details. */
    method MarkSucceeded(o: OrderId, paymentId: Option<string>, signature: Option<string>, testMode: bool)
      requires Valid() && o in transactions && transactions[o].status == Created
      modifies this
      ensures Valid() && o !in granted
      ensures transactions == old(transactions)[o := old(transactions)[o].(
                status := Succeeded, paymentId := paymentId, signature := OrElse(signature, ""), testMode := testMode)]
      ensures plans == old(plans) && userPlans == old(userPlans) && granted == old(granted)
      ensures nextUserPlan == old(nextUserPlan)
    {
      GrantedAreSucceeded(o);
      transactions := transactions[o := transactions[o].(status := Succeeded, paymentId := paymentId,
                                                         signature := OrElse(signature, ""), testMode := testMode)];
    }

    /** Stores the purchase record `up` of the order `o`, which now counts as granted. */
    method RecordPurchase(up: UserPlan, o: OrderId)
      requires Valid() && up.id == nextUserPlan && o !in granted
      requires o in transactions && transactions[o].status == Succeeded
      modifies this
      ensures Valid()
      ensures userPlans == old(userPlans) + [up] && granted == old(granted) + [o]
      ensures plans == old(plans) && transactions == old(transactions)
    {
      userPlans := userPlans + [up];
      nextUserPlan := nextUserPlan + 1;
      granted := granted + [o];
    }

    /**
     * `getPurchaseHistory`: the user's successful payments, newest first, and
     * the user's purchases, newest first, at most 20 of each; each purchase
     * reports what remains of it. A payment or purchase whose plan is gone
     * makes the request fail.
     */
    function PurchaseHistory(userId: UserId): (r: Result<History>)
      reads this
      ensures r.Success? ==> |r.value.transactions| <= 20 && |r.value.plans| <= 20
      ensures r.Success? ==> forall k :: 0 <= k < |r.value.plans| ==>
        r.value.plans[k].creditsRemaining == r.value.plans[k].creditsAllocated - r.value.plans[k].creditsUsed
    {
      var tRows := PaymentRows(RecentPayments(InCreationOrder(orderLog, transactions), userId), plans);
      var pRows := PurchaseRows(RecentPurchases(userPlans, userId), plans);
      if tRows.Failure? then Failure(tRows.error)
      else if pRows.Failure? then Failure(pRows.error)
      else Success(History(tRows.value, pRows.value))
    }
  }
}
