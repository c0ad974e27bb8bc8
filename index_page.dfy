/** The raffle page: which overlay is open (the purchase summary, the
    payment screen or the user's dashboard) on top of the main view, the
    handlers that move between them by driving the raffle session, and the
    count of confirmed numbers shown in the header. Toasts are the handlers'
    boolean results. */
module IndexPage {
  import opened RaffleTypes
  import opened UseRaffle

  datatype View = MainView | PurchaseView | PaymentView | DashboardView

  /** The configuration the page passes to the raffle session. */
  const PageConfig := ConfigUpdate(
    Some(10),
    Some(1000),
    Some("iPhone 15 Pro Max 256GB"),
    Some("Concorra a um iPhone 15 Pro Max novinho! Escolha seus números da sorte."),
    None,
    None)

  class RafflePage {
    var currentView: View
    const session: RaffleSession

    ghost predicate Valid()
      reads this, session
    {
      session.Valid()
    }

    constructor ()
      ensures Valid() && fresh(session)
      ensures currentView == MainView
      ensures session.config.pricePerNumber == 10 && session.config.totalNumbers == 1000
      ensures session.selectedNumbers == {} && session.purchases == []
      ensures session.currentPurchase == None
    {
      currentView := MainView;
      session := new RaffleSession(PageConfig);
    }

    /** `totalPurchasedNumbers`, shown in the header: under the session
        invariant it is how many numbers were sold since the page opened. */
    function HeaderCount(): (count: nat)
      reads this, session
      ensures Valid() ==> count == |session.purchasedNumbers| - |SeedPurchased|
    {
      ConfirmedNumberCount(session.purchases)
    }

    /** The purchase summary is open only in its view and with a pending
        purchase. */
    predicate ShowPurchaseModal()
      reads this, session
    {
      currentView == PurchaseView && session.currentPurchase.Some?
    }

    /** The payment screen is open only in its view and with a pending
        purchase. */
    predicate ShowPaymentScreen()
      reads this, session
    {
      currentView == PaymentView && session.currentPurchase.Some?
    }

    predicate ShowDashboard()
      reads this
    {
      currentView == DashboardView
    }

    /** `handlePurchaseClick`, with the clock and the payment code's draws
        as parameters. With nothing selected it only reports the error toast.
        Otherwise it creates the pending purchase of the selection and opens
        the purchase summary. */
    method HandlePurchaseClick(now: nat, draws: seq<real>) returns (emptySelection: bool)
      requires Valid() && IsRandomDraws(draws)
      modifies this, session
      ensures Valid()
      ensures emptySelection <==> old(session.selectedNumbers) == {}
      ensures emptySelection ==>
        currentView == old(currentView) && session.currentPurchase == old(session.currentPurchase)
      ensures !emptySelection ==>
        && currentView == PurchaseView && ShowPurchaseModal()
        && session.currentPurchase.value.status == Pending
        && Elements(session.currentPurchase.value.numbers) == session.selectedNumbers
      ensures session.config == old(session.config)
      ensures session.selectedNumbers == old(session.selectedNumbers)
      ensures session.purchasedNumbers == old(session.purchasedNumbers)
      ensures session.purchases == old(session.purchases)
    {
      if |session.selectedNumbers| == 0 {
        return true;
      }
      var _ := session.CreatePurchase(now, draws);
      currentView := PurchaseView;
      emptySelection := false;
    }

    /** `handleProceedToPayment`: from the summary to the payment screen. */
    method HandleProceedToPayment()
      requires Valid()
      modifies this
      ensures Valid()
      ensures currentView == PaymentView
      ensures ShowPaymentScreen() <==> session.currentPurchase.Some?
    {
      currentView := PaymentView;
    }

    /** `handleConfirmPayment`: confirms the pending purchase, if any (the
        celebration toast shows exactly then), and returns to the main view
        either way. A confirmation sells the purchase's numbers and raises
        the header count by how many there were. */
    method HandleConfirmPayment(now: nat) returns (celebrated: bool)
      requires Valid()
      modifies this, session
      ensures Valid()
      ensures currentView == MainView && session.currentPurchase == None
      ensures session.config == old(session.config)
      ensures celebrated <==> old(session.currentPurchase).Some?
      ensures celebrated ==>
        var pending := old(session.currentPurchase).value;
        && session.purchases == old(session.purchases) + [pending.(status := Confirmed, confirmedAt := Some(now))]
        && session.purchasedNumbers == old(session.purchasedNumbers) + Elements(pending.numbers)
        && session.selectedNumbers == {}
        && HeaderCount() == old(HeaderCount()) + |pending.numbers|
      ensures !celebrated ==>
        && session.purchases == old(session.purchases)
        && session.purchasedNumbers == old(session.purchasedNumbers)
        && session.selectedNumbers == old(session.selectedNumbers)
        && HeaderCount() == old(HeaderCount())
    {
      var confirmed := session.ConfirmPurchase(now);
      if confirmed.Some? {
        AppendConfirmedCount(old(session.purchases), confirmed.value);
      }
      celebrated := confirmed.Some?;
      currentView := MainView;
    }

    /** `handleCancelPurchase`: drops the pending purchase, keeps the
        selection and returns to the main view. */
    method HandleCancelPurchase()
      requires Valid()
      modifies this, session
      ensures Valid()
      ensures currentView == MainView && session.currentPurchase == None
      ensures !ShowPurchaseModal() && !ShowPaymentScreen() && !ShowDashboard()
      ensures session.config == old(session.config)
      ensures session.selectedNumbers == old(session.selectedNumbers)
      ensures session.purchasedNumbers == old(session.purchasedNumbers)
      ensures session.purchases == old(session.purchases)
    {
      session.CancelPurchase();
      currentView := MainView;
    }

    /** The header's dashboard button. */
    method OpenDashboard()
      requires Valid()
      modifies this
      ensures Valid()
      ensures currentView == DashboardView && ShowDashboard()
      ensures !ShowPurchaseModal() && !ShowPaymentScreen()
    {
      currentView := DashboardView;
    }

    /** Closing the dashboard returns to the main view. */
    method CloseDashboard()
      requires Valid()
      modifies this
      ensures Valid()
      ensures currentView == MainView
      ensures !ShowPurchaseModal() && !ShowPaymentScreen() && !ShowDashboard()
    {
      currentView := MainView;
    }
  }
}
