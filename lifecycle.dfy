/** The advance lifecycle of the two Streamlit apps (app.py, which pays through the Payman SDK,
    and pay2.py, which pays through direct HTTP calls). Streamlit keeps one mutable session record
    across reruns; here it is one `Session` object whose fields the button handlers update in
    place. Each method is one button press (or one submitted form) and requires what makes that
    button appear: the `app_state` branch of the script it is rendered in.

    The session handling is identical in behaviour in both apps (their texts differ in currency
    symbols, an extra notice and layout); only the payment call differs, and app.py also refuses
    to disburse while its SDK client is missing. So the two payment-dependent actions
    come in two variants, `...Sdk` (app.py) and `...Direct` (pay2.py), which share the bookkeeping
    of `SettleDisbursement` and `SettleBonus`. */
module Lifecycle {
  import opened Text
  import opened Pricing
  import opened Payment

  datatype AppState = Initial | LoanRequested | LoanApproved | TrackingSales

  /** The status line `st.session_state.message`, as a tag with the values it shows. */
  datatype Message =
    | Welcome
    | VendorNameRequired
    | IncreaseDailySales
    | Recommended(amount: real)
    | NotRecommended
    | RequestSubmitted(vendor: string, amount: real)
    | Approved(vendor: string)
    | Disbursed(amount: real, transactionId: Option<string>)
    | BonusIssued(amount: real, transactionId: Option<string>)
    | NoBonus(day: nat, sales: real)
    | PaymentError(reason: FailureReason)

  /** The growth bonus paid for a good day, and the sales that earn it. */
  const BonusAmount: real := 5.0
  const BonusSalesThreshold: real := 50.0

  /** The currency each app names in its payment calls. */
  const SdkCurrency := "TSD"
  const DirectCurrency := "INR"

  /** The memo of a disbursement and of a growth bonus. */
  function LoanMemo(vendor: string): string {
    "Micro-loan for " + vendor + "'s Thela"
  }

  function BonusMemo(vendor: string): string {
    "Growth bonus for " + vendor + " (sales performance)"
  }

  class Session {
    var appState: AppState
    var vendorName: string
    var dailySalesInput: real
    var businessTypeInput: string
    var operatingDaysInput: int
    var calculatedLoanAmount: real
    var foodBusinessIncrement: real
    var loanAmount: real
    var currentBalance: real
    var totalBonuses: real
    var daysTracked: nat
    var loanDisbursed: bool
    var payeeIdInput: string
    var message: Message
    /** The payment orders handed to the provider so far, oldest first: the outside effect of the
        payment calls, which the session record itself does not keep. */
    var orders: seq<PaymentOrder>

    /** Nothing has been paid out yet. */
    ghost predicate Undisbursed()
      reads this
    {
      !loanDisbursed && currentBalance == 0.0 && totalBonuses == 0.0 && daysTracked == 0
    }

    /** The session invariant:
        - the recommendation is "none" or an amount the pricing engine can produce;
        - before confirmation no loan amount is set; from confirmation on, the loan amount is the
          recommendation frozen at that moment (the recommendation cannot change afterwards);
        - nothing is paid before disbursement;
        - while tracking sales, the payee is set, the balance is the loan plus the bonuses, and at
          most one bonus has been paid per tracked day;
        - no payment is ordered before approval, and every order goes to a non-empty payee for
          either the frozen loan amount or the bonus amount. */
    ghost predicate Valid()
      reads this
    {
      && (calculatedLoanAmount == 0.0 || 10.0 <= calculatedLoanAmount <= 600.0)
      && 0.0 <= foodBusinessIncrement
      && (appState == Initial ==> loanAmount == 0.0 && Undisbursed())
      && (appState != Initial ==> loanAmount == calculatedLoanAmount && loanAmount > 0.0)
      && (appState == LoanRequested || appState == LoanApproved ==> Undisbursed())
      && (appState == TrackingSales ==>
            && loanDisbursed
            && payeeIdInput != ""
            && currentBalance == loanAmount + totalBonuses
            && 0.0 <= totalBonuses <= BonusAmount * daysTracked as real)
      && (appState == Initial || appState == LoanRequested ==> orders == [])
      && (forall i :: 0 <= i < |orders| ==>
            orders[i].destination != "" && (orders[i].amount == loanAmount || orders[i].amount == BonusAmount))
    }

    /** The disbursement order for the current payee and the frozen loan amount. */
    function LoanOrder(currency: string): PaymentOrder
      reads this
    {
      PaymentOrder(payeeIdInput, loanAmount, currency, LoanMemo(vendorName))
    }

    /** The growth-bonus order for the current payee. */
    function BonusOrder(currency: string): PaymentOrder
      reads this
    {
      PaymentOrder(payeeIdInput, BonusAmount, currency, BonusMemo(vendorName))
    }

    /** The "Confirm & Request This Loan" button is shown. */
    ghost predicate ConfirmOffered()
      reads this
    {
      appState == Initial && calculatedLoanAmount > 0.0
    }

    /** The first run of the script: every field at its initial value. */
    constructor ()
      ensures Valid()
      ensures appState == Initial && message == Welcome
      ensures vendorName == "" && dailySalesInput == 0.0 && businessTypeInput == "Food" && operatingDaysInput == 5
      ensures calculatedLoanAmount == 0.0 && foodBusinessIncrement == 0.0 && loanAmount == 0.0
      ensures currentBalance == 0.0 && totalBonuses == 0.0 && daysTracked == 0 && !loanDisbursed
      ensures payeeIdInput == "" && orders == []
    {
      appState := Initial;
      vendorName := "";
      dailySalesInput := 0.0;
      businessTypeInput := "Food";
      operatingDaysInput := 5;
      calculatedLoanAmount := 0.0;
      foodBusinessIncrement := 0.0;
      loanAmount := 0.0;
      currentBalance := 0.0;
      totalBonuses := 0.0;
      daysTracked := 0;
      loanDisbursed := false;
      message := Welcome;
      payeeIdInput := "";
      orders := [];
    }

    /** The loan details form submitted with "Calculate Recommended Loan": the form's values are
        stored, then a missing name only sets the message, sales below 5 zero the recommendation,
        and otherwise the pricing engine sets it. */
    method Calculate(name: string, sales: real, businessType: string, operatingDays: int)
      requires Valid() && appState == Initial
      modifies this`vendorName, this`dailySalesInput, this`businessTypeInput, this`operatingDaysInput,
               this`calculatedLoanAmount, this`foodBusinessIncrement, this`message
      ensures Valid() && appState == Initial
      ensures vendorName == name && dailySalesInput == sales
      ensures businessTypeInput == businessType && operatingDaysInput == operatingDays
      ensures name == "" ==>
        && message == VendorNameRequired
        && calculatedLoanAmount == old(calculatedLoanAmount)
        && foodBusinessIncrement == old(foodBusinessIncrement)
      ensures name != "" ==>
        && calculatedLoanAmount == CalculateLoanAmount(sales, businessType, operatingDays).amount as real
        && foodBusinessIncrement == CalculateLoanAmount(sales, businessType, operatingDays).incentive as real
      ensures name != "" && sales < 5.0 ==>
        calculatedLoanAmount == 0.0 && foodBusinessIncrement == 0.0 && message == IncreaseDailySales
      ensures name != "" && sales >= 5.0 ==>
        message == if calculatedLoanAmount > 0.0 then Recommended(calculatedLoanAmount) else NotRecommended
      ensures name != "" ==> (ConfirmOffered() <==> sales >= 5.0)
    {
      vendorName, dailySalesInput, businessTypeInput, operatingDaysInput := name, sales, businessType, operatingDays;
      if vendorName == "" {
        message := VendorNameRequired;
      } else if dailySalesInput < 5.0 {
        message := IncreaseDailySales;
        calculatedLoanAmount := 0.0;
        foodBusinessIncrement := 0.0;
      } else {
        var quote := CalculateLoanAmount(dailySalesInput, businessTypeInput, operatingDaysInput);
        calculatedLoanAmount, foodBusinessIncrement := quote.amount as real, quote.incentive as real;
        if calculatedLoanAmount > 0.0 {
          message := Recommended(calculatedLoanAmount);
        } else {
          message := NotRecommended;
        }
      }
    }

    /** "Confirm & Request This Loan": the recommendation is frozen as the loan amount. */
    method Confirm()
      requires Valid() && ConfirmOffered()
      modifies this`loanAmount, this`appState, this`message
      ensures Valid()
      ensures loanAmount == calculatedLoanAmount
      ensures appState == LoanRequested
      ensures message == RequestSubmitted(vendorName, loanAmount)
    {
      loanAmount := calculatedLoanAmount;
      appState := LoanRequested;
      message := RequestSubmitted(vendorName, loanAmount);
    }

    /** "Simulate Loan Approval". */
    method Approve()
      requires Valid() && appState == LoanRequested
      modifies this`appState, this`message
      ensures Valid()
      ensures appState == LoanApproved && message == Approved(vendorName)
    {
      appState := LoanApproved;
      message := Approved(vendorName);
    }

    /** The payee ID text box on the approval page. */
    method SetPayee(payee: string)
      requires Valid() && appState == LoanApproved
      modifies this`payeeIdInput
      ensures Valid()
      ensures payeeIdInput == payee
    {
      payeeIdInput := payee;
    }

    /** How a disbursement result is booked: a success credits the frozen loan amount and starts
        tracking, a failure only reports and the loan stays approved for a retry. */
    ghost predicate DisbursementBooked(balanceBefore: real, result: PaymentResult)
      reads this
    {
      match result
      case Success(transactionId) =>
        && appState == TrackingSales && loanDisbursed
        && currentBalance == balanceBefore + loanAmount
        && message == Disbursed(loanAmount, transactionId)
      case Failure(reason) =>
        && appState == LoanApproved && !loanDisbursed
        && currentBalance == balanceBefore
        && message == PaymentError(reason)
    }

    method SettleDisbursement(result: PaymentResult)
      requires Valid() && appState == LoanApproved && payeeIdInput != ""
      modifies this`currentBalance, this`loanDisbursed, this`appState, this`message
      ensures Valid()
      ensures DisbursementBooked(old(currentBalance), result)
    {
      match result
      case Success(transactionId) =>
        message := Disbursed(loanAmount, transactionId);
        currentBalance := currentBalance + loanAmount;
        loanDisbursed := true;
        appState := TrackingSales;
      case Failure(reason) =>
        message := PaymentError(reason);
        appState := LoanApproved;
    }

    /** app.py's "Disburse Loan via Payman AI SDK": without a client or a payee ID nothing changes
        (the warning is only displayed); otherwise the SDK payment of the loan amount is booked. */
    method DisburseSdk(clientPresent: bool, response: AskResponse)
      requires Valid() && appState == LoanApproved
      modifies this`currentBalance, this`loanDisbursed, this`appState, this`message, this`orders
      ensures Valid()
      ensures currentBalance >= old(currentBalance)
      ensures !clientPresent || payeeIdInput == "" ==> unchanged(this)
      ensures clientPresent && payeeIdInput != "" ==>
        && orders == old(orders) + [LoanOrder(SdkCurrency)]
        && DisbursementBooked(old(currentBalance), SendPaymentSdk(clientPresent, LoanOrder(SdkCurrency), response))
    {
      if !clientPresent {
      } else if payeeIdInput == "" {
      } else {
        var order := LoanOrder(SdkCurrency);
        orders := orders + [order];
        var result := SendPaymentSdk(clientPresent, order, response);
        SettleDisbursement(result);
      }
    }

    /** pay2.py's "Disburse Loan via Payman AI": without a payee ID nothing changes; otherwise the
        result of `send_payman_payment` is booked. */
    method DisburseDirect(transport: Transport)
      requires Valid() && appState == LoanApproved
      modifies this`currentBalance, this`loanDisbursed, this`appState, this`message, this`orders
      ensures Valid()
      ensures currentBalance >= old(currentBalance)
      ensures payeeIdInput == "" ==> unchanged(this)
      ensures payeeIdInput != "" ==>
        && orders == old(orders) + (if transport.Authenticated? then [LoanOrder(DirectCurrency)] else [])
        && DisbursementBooked(old(currentBalance), SendPaymentDirect(LoanOrder(DirectCurrency), transport))
    {
      if payeeIdInput != "" {
        var order := LoanOrder(DirectCurrency);
        if DirectPays(order, transport) {
          orders := orders + [order];
        }
        var result := SendPaymentDirect(order, transport);
        SettleDisbursement(result);
      }
    }

    /** How a bonus result is booked: only a success moves the balance and the bonus total. */
    ghost predicate BonusBooked(balanceBefore: real, bonusesBefore: real, result: PaymentResult)
      reads this
    {
      match result
      case Success(transactionId) =>
        && currentBalance == balanceBefore + BonusAmount
        && totalBonuses == bonusesBefore + BonusAmount
        && message == BonusIssued(BonusAmount, transactionId)
      case Failure(reason) =>
        && currentBalance == balanceBefore
        && totalBonuses == bonusesBefore
        && message == PaymentError(reason)
    }

    method SettleBonus(result: PaymentResult)
      requires Valid() && appState == TrackingSales && daysTracked > 0
      requires totalBonuses + BonusAmount <= BonusAmount * daysTracked as real
      modifies this`currentBalance, this`totalBonuses, this`message
      ensures Valid()
      ensures BonusBooked(old(currentBalance), old(totalBonuses), result)
    {
      match result
      case Success(transactionId) =>
        message := BonusIssued(BonusAmount, transactionId);
        currentBalance := currentBalance + BonusAmount;
        totalBonuses := totalBonuses + BonusAmount;
      case Failure(reason) =>
        message := PaymentError(reason);
    }

    /** Opens a tracked day: the day's sales are stored and the day counter rises. */
    method OpenDay(sales: real)
      requires Valid() && appState == TrackingSales
      modifies this`dailySalesInput, this`daysTracked
      ensures Valid()
      ensures dailySalesInput == sales && daysTracked == old(daysTracked) + 1
      ensures totalBonuses + BonusAmount <= BonusAmount * daysTracked as real
    {
      dailySalesInput := sales;
      daysTracked := daysTracked + 1;
    }

    /** app.py's "Record Sales & Check for Bonus": the day always counts; a day with sales of at
        least 50 attempts an SDK bonus payment, which is booked. */
    method RecordSalesSdk(sales: real, clientPresent: bool, response: AskResponse)
      requires Valid() && appState == TrackingSales
      modifies this`dailySalesInput, this`daysTracked, this`currentBalance, this`totalBonuses, this`message,
               this`orders
      ensures Valid()
      ensures dailySalesInput == sales && daysTracked == old(daysTracked) + 1
      ensures currentBalance >= old(currentBalance)
      ensures sales < BonusSalesThreshold ==>
        && currentBalance == old(currentBalance) && totalBonuses == old(totalBonuses)
        && message == NoBonus(daysTracked, sales)
      ensures sales >= BonusSalesThreshold ==>
        BonusBooked(old(currentBalance), old(totalBonuses), SendPaymentSdk(clientPresent, BonusOrder(SdkCurrency), response))
      ensures orders == old(orders) + (if sales >= BonusSalesThreshold && clientPresent then [BonusOrder(SdkCurrency)] else [])
    {
      OpenDay(sales);
      if dailySalesInput >= BonusSalesThreshold {
        var order := BonusOrder(SdkCurrency);
        if SdkAsks(clientPresent, order) {
          orders := orders + [order];
        }
        var result := SendPaymentSdk(clientPresent, order, response);
        SettleBonus(result);
      } else {
        message := NoBonus(daysTracked, dailySalesInput);
      }
    }

    /** pay2.py's "Record Sales & Check for Bonus", paying the bonus through `send_payman_payment`. */
    method RecordSalesDirect(sales: real, transport: Transport)
      requires Valid() && appState == TrackingSales
      modifies this`dailySalesInput, this`daysTracked, this`currentBalance, this`totalBonuses, this`message,
               this`orders
      ensures Valid()
      ensures dailySalesInput == sales && daysTracked == old(daysTracked) + 1
      ensures currentBalance >= old(currentBalance)
      ensures sales < BonusSalesThreshold ==>
        && currentBalance == old(currentBalance) && totalBonuses == old(totalBonuses)
        && message == NoBonus(daysTracked, sales)
      ensures sales >= BonusSalesThreshold ==>
        BonusBooked(old(currentBalance), old(totalBonuses), SendPaymentDirect(BonusOrder(DirectCurrency), transport))
      ensures orders == old(orders) + (if sales >= BonusSalesThreshold && transport.Authenticated?
                                       then [BonusOrder(DirectCurrency)] else [])
    {
      OpenDay(sales);
      if dailySalesInput >= BonusSalesThreshold {
        var order := BonusOrder(DirectCurrency);
        if DirectPays(order, transport) {
          orders := orders + [order];
        }
        var result := SendPaymentDirect(order, transport);
        SettleBonus(result);
      } else {
        message := NoBonus(daysTracked, dailySalesInput);
      }
    }
  }

  /** A whole session through the SDK app, with the numbers of the pricing example: sales 12 for a
      food stall open 7 days, a first disbursement whose SDK call raised, a successful retry, a bonus day and an
      ordinary day. */
  method Walkthrough() {
    var s := new Session();
    s.Calculate("Raja's Thela", 12.0, "Food", 7);
    FoodScenario();
    assert s.calculatedLoanAmount == 37.0 && s.foodBusinessIncrement == 2.0;
    s.Confirm();
    assert s.loanAmount == 37.0;
    s.Approve();
    s.SetPayee("payee_1");
    assert s.orders == [];

    WalkthroughPayments(s);
  }

  /** The disbursement and tracking part of the walkthrough, from the approved loan of 37. */
  method WalkthroughPayments(s: Session)
    requires s.Valid() && s.appState == LoanApproved && s.orders == []
    requires s.loanAmount == 37.0 && s.payeeIdInput == "payee_1" && s.vendorName == "Raja's Thela"
    modifies s
  {
    s.DisburseSdk(true, Raised);
    assert s.appState == LoanApproved && s.currentBalance == 0.0;
    assert s.message == PaymentError(SdkFailure);
    var loanOrder := PaymentOrder("payee_1", 37.0, "TSD", LoanMemo("Raja's Thela"));
    assert s.orders == [loanOrder];

    s.DisburseSdk(true, Other);
    assert s.appState == TrackingSales && s.currentBalance == 37.0;
    assert s.orders == [loanOrder, loanOrder];

    s.RecordSalesSdk(50.0, true, Other);
    assert s.currentBalance == 42.0 && s.totalBonuses == 5.0 && s.daysTracked == 1;
    var bonusOrder := PaymentOrder("payee_1", 5.0, "TSD", BonusMemo("Raja's Thela"));
    assert s.orders == [loanOrder, loanOrder, bonusOrder];

    s.RecordSalesSdk(49.0, true, Other);
    assert s.currentBalance == 42.0 && s.totalBonuses == 5.0 && s.daysTracked == 2;
    assert s.loanAmount == 37.0 && |s.orders| == 3;
  }

  /** A name left empty on a second submission keeps the earlier recommendation, which can then be
      confirmed: the vendor's name is empty and the stored sales (3) are below the minimum, yet the
      loan amount is the 37 priced for sales 12. */
  method StaleRecommendation() {
    var s := new Session();
    s.Calculate("Raja's Thela", 12.0, "Food", 7);
    FoodScenario();
    s.Calculate("", 3.0, "Food", 7);
    assert s.message == VendorNameRequired && s.ConfirmOffered();
    s.Confirm();
    assert s.vendorName == "" && s.dailySalesInput == 3.0;
    assert s.appState == LoanRequested && s.loanAmount == 37.0;
  }
}
