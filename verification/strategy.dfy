/** The Strategy demo: a shopping cart that delegates payment to
    whichever payment strategy was set last. */
module Strategy {
  import opened JavaLang
  import opened Strings

  /** The three concrete payment strategies. */
  datatype PaymentStrategy =
    | CreditCardPayment(cardNumber: string, name: string)
    | PayPalPayment(email: string)
    | CashPayment

  /** `pay(amount)`: the line the strategy prints. */
  function Pay(s: PaymentStrategy, amount: Int32): string {
    match s
    case CreditCardPayment(card, _) => IntToString(amount) + "$ paid with credit card: " + card
    case PayPalPayment(email) => IntToString(amount) + "$ paid using PayPal account: " + email
    case CashPayment => IntToString(amount) + "$ paid in cash"
  }

  /** The text after the amount in each strategy's line. */
  function Receipt(s: PaymentStrategy): string {
    match s
    case CreditCardPayment(card, _) => "$ paid with credit card: " + card
    case PayPalPayment(email) => "$ paid using PayPal account: " + email
    case CashPayment => "$ paid in cash"
  }

  /** Every payment line is the unchanged amount followed by the
      strategy's receipt. */
  lemma PayIsAmountThenReceipt(s: PaymentStrategy, amount: Int32)
    ensures Pay(s, amount) == IntToString(amount) + Receipt(s)
  {
    match s
    case CreditCardPayment(card, _) =>
      assert IntToString(amount) + "$ paid with credit card: " + card
          == IntToString(amount) + ("$ paid with credit card: " + card);
    case PayPalPayment(email) =>
      assert IntToString(amount) + "$ paid using PayPal account: " + email
          == IntToString(amount) + ("$ paid using PayPal account: " + email);
    case CashPayment =>
  }

  /** The amount can be read back from a payment line: two payments by
      one strategy print alike only for equal amounts. */
  lemma PayDeterminesAmount(s: PaymentStrategy, a: Int32, b: Int32)
    requires Pay(s, a) == Pay(s, b)
    ensures a == b
  {
    PayIsAmountThenReceipt(s, a);
    PayIsAmountThenReceipt(s, b);
    CancelSuffix(IntToString(a), IntToString(b), Receipt(s));
    IntToStringInjective(a, b);
  }

  /** A credit-card payment prints the card number but not the holder's
      name: the holder's name does not affect the line. */
  lemma CreditCardHidesName(card: string, name1: string, name2: string, amount: Int32)
    ensures Pay(CreditCardPayment(card, name1), amount) == Pay(CreditCardPayment(card, name2), amount)
    ensures EndsWith(Pay(CreditCardPayment(card, name1), amount), card)
  {
    EndsWithAppended(IntToString(amount) + "$ paid with credit card: ", card);
  }

  /** The context: `Null` until a strategy is set (or after it is set to
      null). */
  datatype ShoppingCart = ShoppingCart(paymentStrategy: Nullable<PaymentStrategy>)

  const NewCart: ShoppingCart := ShoppingCart(Null)

  /** `setPaymentStrategy`: replaces whatever was set before. */
  function SetPaymentStrategy(cart: ShoppingCart, s: Nullable<PaymentStrategy>): (r: ShoppingCart)
    ensures r.paymentStrategy == s
  {
    cart.(paymentStrategy := s)
  }

  const NoMethod: string := "Please select a payment method!"

  /** `checkout(amount)`: refuses without a strategy; otherwise the
      strategy pays the unchanged amount, exactly once. */
  function Checkout(cart: ShoppingCart, amount: Int32): (lines: seq<string>)
    ensures |lines| == 1
    ensures cart.paymentStrategy.Null? <==> lines[0] == NoMethod
    ensures cart.paymentStrategy.Ref? ==> lines[0] == IntToString(amount) + Receipt(cart.paymentStrategy.value)
  {
    match cart.paymentStrategy
    case Null => [NoMethod]
    case Ref(s) =>
      PayIsAmountThenReceipt(s, amount);
      // A payment line starts with a digit or '-', the refusal with 'P'.
      assert Pay(s, amount)[0] == IntToString(amount)[0];
      [Pay(s, amount)]
  }

  /** Only the most recently set strategy is used. */
  lemma LatestStrategyWins(cart: ShoppingCart, first: Nullable<PaymentStrategy>,
                           second: Nullable<PaymentStrategy>, amount: Int32)
    ensures Checkout(SetPaymentStrategy(SetPaymentStrategy(cart, first), second), amount)
         == Checkout(SetPaymentStrategy(NewCart, second), amount)
  {
  }

  /** A checkout before any strategy is set. */
  lemma DemoNoStrategy()
    ensures Checkout(NewCart, 100) == ["Please select a payment method!"]
  {
  }

  lemma AmountTexts()
    ensures IntToString(100) == "100"
    ensures IntToString(250) == "250"
  {
    assert NatToString(10) == "10" by { assert NatToString(1) == "1"; }
    assert NatToString(25) == "25" by { assert NatToString(2) == "2"; }
  }

  /** The demo's three checkouts. */
  lemma DemoCreditCard()
    ensures var c := SetPaymentStrategy(NewCart, Ref(CreditCardPayment("1234-5678-9012-3456", "John Doe")));
      Checkout(c, 100) == ["100$ paid with credit card: 1234-5678-9012-3456"]
  {
    AmountTexts();
    var line := Pay(CreditCardPayment("1234-5678-9012-3456", "John Doe"), 100);
    assert line == "100" + "$ paid with credit card: " + "1234-5678-9012-3456";
    assert "100" + "$ paid with credit card: " == "100$ paid with credit card: ";
    assert "100$ paid with credit card: " + "1234-5678-9012-3456"
        == "100$ paid with credit card: 1234-5678-9012-3456";
  }

  lemma PayPalText()
    ensures "250" + "$ paid using PayPal account: " + "john.doe@email.com"
         == "250$ paid using PayPal account: john.doe@email.com"
  {
    assert "250" + "$ paid using PayPal account: " == "250$ paid using PayPal account: ";
  }

  lemma DemoPayPal()
    ensures var c := SetPaymentStrategy(NewCart, Ref(PayPalPayment("john.doe@email.com")));
      Checkout(c, 250) == ["250$ paid using PayPal account: john.doe@email.com"]
  {
    AmountTexts();
    PayPalText();
    var line := Pay(PayPalPayment("john.doe@email.com"), 250);
    assert line == "250" + "$ paid using PayPal account: " + "john.doe@email.com";
  }

  lemma DemoCash()
    ensures Checkout(SetPaymentStrategy(NewCart, Ref(CashPayment)), 50) == ["50$ paid in cash"]
  {
    assert IntToString(50) == "50" by {
      assert NatToString(5) == "5";
    }
    assert Pay(CashPayment, 50) == "50$ paid in cash";
  }
}
