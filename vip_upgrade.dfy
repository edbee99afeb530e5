/** The VIP upgrade page: a fixed table of plans and the guarded purchase handler. */
module VipUpgrade {
  import opened Wrappers
  import opened MockBackend
  import opened AuthContext

  datatype VipPlan = VipPlan(id: string, name: string, durationDays: int, price: int,
                             description: string, isPopular: bool)

  const VipPlans: seq<VipPlan> := [
    VipPlan("vip_1m", "1 Tháng", 30, 20000, "Thích hợp để trải nghiệm", false),
    VipPlan("vip_3m", "3 Tháng", 90, 50000, "Tiết kiệm 16%", false),
    VipPlan("vip_1y", "1 Năm", 365, 150000, "Tiết kiệm 37% - Phổ biến nhất", true)
  ]

  /** The plan table: 30 days for 20000, 90 days for 50000, 365 days for 150000, the yearly plan
      the one marked popular, and distinct ids. */
  lemma PlanTable()
    ensures |VipPlans| == 3
    ensures VipPlans[0].durationDays == 30 && VipPlans[0].price == 20000
    ensures VipPlans[1].durationDays == 90 && VipPlans[1].price == 50000
    ensures VipPlans[2].durationDays == 365 && VipPlans[2].price == 150000
    ensures forall i :: 0 <= i < |VipPlans| ==> (VipPlans[i].isPopular <==> i == 2)
    ensures forall i, j :: 0 <= i < j < |VipPlans| ==> VipPlans[i].id != VipPlans[j].id
  {
  }

  /** The page's own balance check, `user.balance < plan.price`, on the context's snapshot of the
      user: a record without a numeric balance compares false and passes it. */
  predicate ShortOfFunds(u: User, plan: VipPlan)
  {
    u.balance.Some? && u.balance.value < plan.price
  }

  /** Where `handleBuy`'s guards send a click, given the two confirmation answers. */
  datatype Step = ToLogin | Short(toTopUp: bool) | Declined | Proceed

  function Guard(user: Option<User>, plan: VipPlan, acceptTopUp: bool, confirmBuy: bool): (st: Step)
    ensures st == ToLogin <==> user.None?
    ensures st.Short? <==> user.Some? && ShortOfFunds(user.value, plan)
    ensures st.Short? ==> st.toTopUp == acceptTopUp
    ensures st == Declined <==> user.Some? && !ShortOfFunds(user.value, plan) && !confirmBuy
    ensures st == Proceed <==> user.Some? && !ShortOfFunds(user.value, plan) && confirmBuy
  {
    if user.None? then ToLogin
    else if ShortOfFunds(user.value, plan) then Short(acceptTopUp)
    else if !confirmBuy then Declined
    else Proceed
  }

  /** A purchase is attempted only for a logged-in user whose snapshot balance covers the price
      (or is not a number) and who confirmed. */
  lemma ProceedOnlyWhenAllowed(user: Option<User>, plan: VipPlan, acceptTopUp: bool, confirmBuy: bool)
    ensures Guard(user, plan, acceptTopUp, confirmBuy) == Proceed ==>
      && user.Some? && confirmBuy
      && (user.value.balance.Some? ==> user.value.balance.value >= plan.price)
  {
  }

  class VipUpgradePage {
    const auth: AuthProvider
    var processing: Option<string>
    /** Every value `processing` has been set to, in order. */
    ghost var processingTrace: seq<Option<string>>

    constructor (a: AuthProvider)
      ensures auth == a && processing == None && processingTrace == []
    {
      auth := a;
      processing := None;
      processingTrace := [];
    }

    /** Every buy button is disabled while a purchase is pending. */
    function BuyEnabled(): bool
      reads this
    {
      processing.None?
    }

    /** `handleBuy(plan)`: the guards run on the context's user; only `Proceed` reaches the
        backend, with the plan's own duration and price, followed by a profile refresh on
        success. `processing` holds the plan id during the call and is cleared on both paths.
        The result is the backend's answer, None when it was not called. */
    method HandleBuy(plan: VipPlan, acceptTopUp: bool, confirmBuy: bool, now: int)
      returns (step: Step, r: Option<Result<User, BackendError>>)
      modifies this, auth`state, auth.backend
      ensures step == Guard(old(auth.state.user), plan, acceptTopUp, confirmBuy)
      ensures step != Proceed ==>
        && r.None? && auth.state == old(auth.state)
        && auth.backend.users == old(auth.backend.users) && auth.backend.session == old(auth.backend.session)
        && processing == old(processing) && processingTrace == old(processingTrace)
      ensures step == Proceed ==>
        && r.Some?
        && BuyVipEffect(old(auth.backend.users), old(auth.backend.session), old(auth.state.user).value.id,
                        plan.durationDays, plan.price, now, auth.backend.users, auth.backend.session, r.value)
        && (r.value.Success? ==>
              auth.state == AfterRefresh(old(auth.state), Returned(ProfileOf(auth.backend.users, auth.backend.session))))
        && (r.value.Failure? ==> auth.state == old(auth.state))
        && processing == None && BuyEnabled()
        && processingTrace == old(processingTrace) + [Some(plan.id), None]
    {
      step := Guard(auth.state.user, plan, acceptTopUp, confirmBuy);
      if step != Proceed {
        r := None;
        return;
      }
      var user := auth.state.user.value;
      processing := Some(plan.id);
      processingTrace := processingTrace + [processing];
      var bought := auth.backend.BuyVip(user.id, plan.durationDays, plan.price, plan.name, now);
      if bought.Success? {
        auth.RefreshProfile();
      }
      processing := None;
      processingTrace := processingTrace + [processing];
      r := Some(bought);
    }
  }
}
