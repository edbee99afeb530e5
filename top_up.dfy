/** The top-up page: a fixed menu of amounts, a payment method, and the payment handler. */
module TopUp {
  import opened Wrappers
  import opened MockBackend
  import opened AuthContext

  /** The only amounts the page offers. */
  const Packages: seq<int> := [50000, 100000, 200000, 500000]

  datatype PayMethod = Momo | Bank | Card
  {
    /** The identifier the page passes to `apiTopUp`. */
    function Id(): string
    {
      match this
      case Momo => "MOMO"
      case Bank => "BANK"
      case Card => "CARD"
    }
  }

  class TopUpPage {
    const auth: AuthProvider
    var amount: Option<int>
    var payMethod: PayMethod
    var isProcessing: bool
    var success: bool

    /** The selected amount is always one of the packages. */
    ghost predicate Valid()
      reads this
    {
      amount.None? || amount.value in Packages
    }

    constructor (a: AuthProvider)
      ensures auth == a && amount == None && payMethod == Momo && !isProcessing && !success
      ensures Valid()
    {
      auth := a;
      amount := None;
      payMethod := Momo;
      isProcessing := false;
      success := false;
    }

    /** Clicking package button `i`. */
    method SelectAmount(i: nat)
      requires i < |Packages|
      modifies this`amount
      ensures amount == Some(Packages[i]) && Valid()
    {
      amount := Some(Packages[i]);
    }

    /** Clicking one of the three payment-method buttons. */
    method SelectMethod(m: PayMethod)
      modifies this`payMethod
      ensures payMethod == m
    {
      payMethod := m;
    }

    /** The pay button is disabled with no amount or while a payment is pending. */
    function PayEnabled(): bool
      reads this
    {
      amount.Some? && !isProcessing
    }

    /** `handlePayment`. Without a logged-in user the page renders only a login prompt, so no
        payment is reachable; without an amount nothing happens. Otherwise `apiTopUp` is called
        with the selected package, and `success` is set only after it and the profile refresh
        have both completed; `isProcessing` is false again at the end on both paths. */
    method HandlePayment() returns (r: Option<Result<User, BackendError>>)
      requires Valid()
      modifies this`isProcessing, this`success, auth`state, auth.backend
      ensures old(auth.state.user).None? || old(amount).None? ==>
        && r.None? && success == old(success) && isProcessing == old(isProcessing)
        && auth.state == old(auth.state)
        && auth.backend.users == old(auth.backend.users) && auth.backend.session == old(auth.backend.session)
      ensures old(auth.state.user).Some? && old(amount).Some? ==>
        && r.Some? && !isProcessing
        && amount.value in Packages
        && TopUpEffect(old(auth.backend.users), old(auth.backend.session), old(auth.state.user).value.id,
                       amount.value, auth.backend.users, auth.backend.session, r.value)
        && (r.value.Success? ==>
              success && auth.state == AfterRefresh(old(auth.state), Returned(ProfileOf(auth.backend.users, auth.backend.session))))
        && (r.value.Failure? ==> success == old(success) && auth.state == old(auth.state))
        && PayEnabled()
    {
      if auth.state.user.None? || amount.None? {
        r := None;
        return;
      }
      var user := auth.state.user.value;
      isProcessing := true;
      var paid := auth.backend.TopUp(user.id, amount.value, payMethod.Id());
      if paid.Success? {
        auth.RefreshProfile();
        success := true;
      }
      isProcessing := false;
      r := Some(paid);
    }
  }

  /** Every package is a positive amount, so a selected amount is never falsy and `!amount`
      fails only for no selection. */
  lemma PackagesPositive()
    ensures forall a :: a in Packages ==> a > 0
    ensures Packages == [50000, 100000, 200000, 500000]
  {
  }
}
