/**
  The checkout page: the order's price arithmetic (a percentage discount
  rounded to whole rupiah, then the flat tax) and the page state that the
  method picker and the pay buttons drive.
 */
module Checkout {
  import opened Wrappers
  import PaymentMethods

  /** `Math.round(num / den)`: the nearest integer, halves rounded up. */
  function Round(num: int, den: int): (r: int)
    requires den > 0
    ensures den * (2 * r - 1) <= 2 * num < den * (2 * r + 1)
  {
    var r := (2 * num + den) / (2 * den);
    assert 2 * den * r <= 2 * num + den < 2 * den * r + 2 * den;
    r
  }

  /** `Math.round(subtotal * discount / 100)`: the discount in whole rupiah. */
  function DiscountAmount(subtotal: int, discountPercent: int): (r: int)
    ensures 100 * (2 * r - 1) <= 2 * subtotal * discountPercent < 100 * (2 * r + 1)
  {
    Round(subtotal * discountPercent, 100)
  }

  datatype Breakdown = Breakdown(discountAmount: int, priceAfterDiscount: int, totalPayment: int)

  /** The three figures the page derives from the order. */
  function Prices(subtotal: int, discountPercent: int, tax: int): (b: Breakdown)
    ensures b.discountAmount == DiscountAmount(subtotal, discountPercent)
    ensures b.totalPayment == subtotal + tax - b.discountAmount
    ensures b.priceAfterDiscount == b.totalPayment - tax
  {
    var discountAmount := DiscountAmount(subtotal, discountPercent);
    var priceAfterDiscount := subtotal - discountAmount;
    Breakdown(discountAmount, priceAfterDiscount, priceAfterDiscount + tax)
  }

  /** The order the page is built around. */
  const OrderSubtotal: int := 79000
  const OrderTax: int := 1000
  const OrderDiscountPercent: int := 30

  /** A percentage of a non-negative amount lies between none and all of it. */
  lemma PercentOfAmount(amount: int, percent: int)
    requires amount >= 0 && 0 <= percent <= 100
    ensures 0 <= amount * percent <= 100 * amount
  {
    assert amount * (100 - percent) >= 0;
  }

  /** A discount between none and all of the price never takes more than the
      price, so the total lies between the tax and the undiscounted total. */
  lemma DiscountWithinPrice(subtotal: int, discountPercent: int, tax: int)
    requires subtotal >= 0 && 0 <= discountPercent <= 100
    ensures var b := Prices(subtotal, discountPercent, tax);
            && 0 <= b.discountAmount <= subtotal
            && 0 <= b.priceAfterDiscount <= subtotal
            && tax <= b.totalPayment <= subtotal + tax
  {
    var product := subtotal * discountPercent;
    PercentOfAmount(subtotal, discountPercent);
    var r := DiscountAmount(subtotal, discountPercent);
    assert 100 * (2 * r - 1) <= 2 * product < 100 * (2 * r + 1);
  }

  /** The figures of the page's own order: 23700 off 79000, 55300, 56300. */
  lemma OrderFigures()
    ensures Prices(OrderSubtotal, OrderDiscountPercent, OrderTax) == Breakdown(23700, 55300, 56300)
  {
    assert Round(79000 * 30, 100) == 23700;
  }

  datatype PaymentStep = Select | Success

  /** The instructions block under the method picker. */
  datatype Instructions = QrCode | VirtualAccount | CardForm | NoInstructions

  /** The QR code (with its countdown) needs both the QRIS method and a
      generated code; the virtual-account and card blocks only need the method. */
  function InstructionsFor(selectedMethod: string, qrCodeGenerated: bool): (r: Instructions)
    ensures r == QrCode <==> selectedMethod == "qris" && qrCodeGenerated
    ensures r == VirtualAccount <==> selectedMethod == "va"
    ensures r == CardForm <==> selectedMethod == "card"
    ensures r == NoInstructions <==>
              (selectedMethod == "qris" && !qrCodeGenerated)
              || (selectedMethod != "qris" && selectedMethod != "va" && selectedMethod != "card")
  {
    if selectedMethod == "qris" && qrCodeGenerated then QrCode
    else if selectedMethod == "va" then VirtualAccount
    else if selectedMethod == "card" then CardForm
    else NoInstructions
  }

  /** The checkout page's state. `pendingPayments` counts the simulated
      payment requests whose two-second timer has not fired yet. */
  class PaymentPage {
    var selectedMethod: string
    var loading: bool
    var paymentStep: PaymentStep
    var qrCodeGenerated: bool
    var pendingPayments: nat

    /** The spinner is only up while a payment request is outstanding. */
    ghost predicate Valid()
      reads this
    {
      loading ==> pendingPayments > 0
    }

    constructor ()
      ensures Valid()
      ensures selectedMethod == "qris" && !loading && paymentStep == Select
      ensures !qrCodeGenerated && pendingPayments == 0
    {
      selectedMethod := "qris";
      loading := false;
      paymentStep := Select;
      qrCodeGenerated := false;
      pendingPayments := 0;
    }

    function Shown(): Instructions
      reads this
    {
      InstructionsFor(selectedMethod, qrCodeGenerated)
    }

    /** The "Pay Now" button is disabled while loading. */
    predicate PayDisabled()
      reads this
    {
      loading
    }

    /** `handlePaymentMethodSelect`: picking QRIS generates the code, and nothing
        ever clears it again. */
    method SelectMethod(choice: string)
      requires Valid()
      modifies this
      ensures Valid()
      ensures selectedMethod == choice
      ensures qrCodeGenerated == (old(qrCodeGenerated) || choice == "qris")
      ensures old(qrCodeGenerated) ==> qrCodeGenerated
      ensures loading == old(loading) && paymentStep == old(paymentStep)
      ensures pendingPayments == old(pendingPayments)
    {
      selectedMethod := choice;
      if choice == "qris" {
        qrCodeGenerated := true;
      }
    }

    /** `handlePayNow`: start loading and schedule the simulated completion.
        Both the "Pay Now" and the "I've Completed Payment" buttons call it. */
    method PayNow()
      requires Valid()
      modifies this
      ensures Valid()
      ensures loading && PayDisabled()
      ensures pendingPayments == old(pendingPayments) + 1
      ensures selectedMethod == old(selectedMethod) && qrCodeGenerated == old(qrCodeGenerated)
      ensures paymentStep == old(paymentStep)
    {
      loading := true;
      pendingPayments := pendingPayments + 1;
    }

    /** One scheduled completion fires: the page moves to the receipt and the
        spinner stops, even if another request is still outstanding. */
    method PaymentTimeout()
      requires Valid() && pendingPayments > 0
      modifies this
      ensures Valid()
      ensures paymentStep == Success && !loading && !PayDisabled()
      ensures pendingPayments == old(pendingPayments) - 1
      ensures selectedMethod == old(selectedMethod) && qrCodeGenerated == old(qrCodeGenerated)
    {
      paymentStep := Success;
      loading := false;
      pendingPayments := pendingPayments - 1;
    }
  }

  /** The walk through the page with the accordion wired to
      `handlePaymentMethodSelect`: a fresh page has QRIS selected and its panel
      open but shows no QR code until "Generate QR Code" is pressed; opening
      the card panel switches to the card form; reopening QRIS brings the
      code back; paying disables the button until the receipt. */
  method CheckoutWalkthrough()
    returns (initial: Instructions, afterGenerate: Instructions, onCard: Instructions,
             backToQr: Instructions, disabledWhilePaying: bool, finalStep: PaymentStep,
             disabledAfter: bool)
    ensures initial == NoInstructions && afterGenerate == QrCode && onCard == CardForm
    ensures backToQr == QrCode
    ensures disabledWhilePaying && finalStep == Success && !disabledAfter
  {
    var page := new PaymentPage();
    var accordion := new PaymentMethods.Accordion();
    initial := page.Shown();
    var method1 := accordion.Press(PaymentMethods.GenerateQr);
    page.SelectMethod(method1);
    afterGenerate := page.Shown();
    var method2 := accordion.Change("card", true);
    page.SelectMethod(method2.value);
    onCard := page.Shown();
    var method3 := accordion.Change("qris", true);
    page.SelectMethod(method3.value);
    backToQr := page.Shown();
    page.PayNow();
    disabledWhilePaying := page.PayDisabled();
    page.PaymentTimeout();
    finalStep := page.paymentStep;
    disabledAfter := page.PayDisabled();
  }
}
