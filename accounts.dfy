/**
 * The user document of models/User.js: the credit balance with `hasCredits`,
 * `deductCredit` and `addCredits`, the one-time-password fields the login flow
 * sets and clears, and the histories the report and payment flows append to.
 * Every save runs the schema's validators (here: `credits` is at least 0) and
 * the pre-save hook that stamps `updatedAt`.
 */
module Accounts {
  import opened Common

  const InsufficientCredits := "Insufficient credits"
  /** The validation error of a save that would store a negative balance (`min: 0`). */
  const CreditsBelowMinimum := "credits below minimum"

  /** Everything a user document stores, as one value. */
  datatype UserDoc = UserDoc(
    id: UserId, email: string,
    otp: Option<string>, otpExpiry: Option<Millis>,
    credits: int, activePlan: Option<PlanId>,
    planHistory: seq<UserPlanId>, reportHistory: seq<ReportId>,
    lastLogin: Option<Millis>, isActive: bool,
    createdAt: Millis, updatedAt: Millis)

  class UserAccount {
    const id: UserId
    /** Set once, when the document is created; nothing in the core changes it. */
    const email: string
    var otp: Option<string>
    var otpExpiry: Option<Millis>
    var credits: int
    var activePlan: Option<PlanId>
    var planHistory: seq<UserPlanId>
    var reportHistory: seq<ReportId>
    var lastLogin: Option<Millis>
    var isActive: bool
    const createdAt: Millis
    var updatedAt: Millis

    /** The schema's `min: 0` on `credits`: what every stored user satisfies. */
    ghost predicate Valid()
      reads this
    {
      credits >= 0
    }

    function Doc(): (d: UserDoc)
      reads this
      ensures d.id == id && d.email == email && d.credits == credits
    {
      UserDoc(id, email, otp, otpExpiry, credits, activePlan, planHistory, reportHistory,
              lastLogin, isActive, createdAt, updatedAt)
    }

    /** `new User({ email, ... })` with the schema's defaults. */
    constructor (id: UserId, email: string, now: Millis)
      ensures Doc() == UserDoc(id, email, None, None, 0, None, [], [], None, true, now, now)
      ensures Valid() && !HasCredits()
    {
      this.id := id;
      this.email := email;
      otp := None;
      otpExpiry := None;
      credits := 0;
      activePlan := None;
      planHistory := [];
      reportHistory := [];
      lastLogin := None;
      isActive := true;
      createdAt := now;
      updatedAt := now;
    }

    /** `hasCredits()`. */
    predicate HasCredits()
      reads this
    {
      credits > 0
    }

    /** `save()` of an otherwise unchanged document: the pre-save hook stamps `updatedAt`. */
    method Save(now: Millis)
      modifies this
      ensures Doc() == old(Doc()).(updatedAt := now)
    {
      updatedAt := now;
    }

    /**
     * `deductCredit(amount)`: refused with "Insufficient credits" when the
     * balance is below `amount`, which keeps a valid balance valid; otherwise
     * the balance drops by exactly `amount` and the new balance is returned.
     */
    method DeductCredit(amount: int, now: Millis) returns (r: Result<int>)
      requires Valid()
      modifies this
      ensures Valid()
      ensures r.Success? <==> old(credits) >= amount
      ensures r.Failure? ==> r.error == InsufficientCredits && Doc() == old(Doc())
      ensures r.Success? ==> r.value == credits && Doc() == old(Doc()).(credits := old(credits) - amount, updatedAt := now)
      ensures amount == 1 ==> (r.Success? <==> old(HasCredits()))
    {
      if credits < amount {
        return Failure(InsufficientCredits);
      }
      credits := credits - amount;
      Save(now);
      r := Success(credits);
    }

    /**
     * The purchase step of a verified payment: the plan's credits are added,
     * the plan becomes the active one, its purchase record joins the plan
     * history, and the user is saved.
     */
    method GrantPlan(planId: PlanId, planCredits: nat, userPlanId: UserPlanId, now: Millis)
      requires Valid()
      modifies this
      ensures Valid() && credits >= old(credits)
      ensures Doc() == old(Doc()).(credits := old(credits) + planCredits, activePlan := Some(planId),
                                   planHistory := old(planHistory) + [userPlanId], updatedAt := now)
    {
      credits := credits + planCredits;
      activePlan := Some(planId);
      planHistory := planHistory + [userPlanId];
      Save(now);
    }

    /**
     * `addCredits(amount)`: the balance grows by exactly `amount` and the new
     * balance is returned. A negative `amount` that would take the balance
     * below 0 makes the save fail validation; the stored document is then
     * unchanged.
     */
    method AddCredits(amount: int, now: Millis) returns (r: Result<int>)
      requires Valid()
      modifies this
      ensures Valid()
      ensures r.Success? <==> old(credits) + amount >= 0
      ensures r.Failure? ==> r.error == CreditsBelowMinimum && Doc() == old(Doc())
      ensures r.Success? ==> r.value == credits && Doc() == old(Doc()).(credits := old(credits) + amount, updatedAt := now)
    {
      if credits + amount < 0 {
        return Failure(CreditsBelowMinimum);
      }
      credits := credits + amount;
      Save(now);
      r := Success(credits);
    }
  }
}
