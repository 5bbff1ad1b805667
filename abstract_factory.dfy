/**
 The two factory families of creationalDesignPatterns/abstract_factory.py: notification senders
 and formatters chosen by family, and payment methods chosen by key.

 Every product and factory there is stateless, so each is a datatype constructor and each of
 its methods a function. What a method prints is returned as the line it would print.
 */
module AbstractFactory {
  import opened Outcome
  import Text

  // ------------------------------------------------------------------
  // Notifications
  // ------------------------------------------------------------------

  /** The two product families. */
  datatype Family = Email | Sms

  datatype MessageSender = EmailMessageSender | SmsMessageSender {
    function Family(): Family
    {
      if EmailMessageSender? then Email else Sms
    }

    /** `send_message(message)`: the line it prints, which ends with the message unchanged. */
    function SendMessage(message: string): (r: string)
      ensures |r| > |message| && r[|r| - |message|..] == message
    {
      match this
      case EmailMessageSender => "EMAIL SENT: " + message
      case SmsMessageSender => "SMS SENT: " + message
    }
  }

  datatype MessageFormatter = EmailMessageFormatter | SmsMessageFormatter {
    function Family(): Family
    {
      if EmailMessageFormatter? then Email else Sms
    }

    /** The tag `format_message` puts before the message. */
    function Prefix(): string
    {
      match this
      case EmailMessageFormatter => "[EMAIL FORMAT] "
      case SmsMessageFormatter => "[SMS FORMAT] "
    }

    /** `format_message(message)`: the family's tag followed by the message, unchanged. */
    function FormatMessage(message: string): (r: string)
      ensures |r| == |Prefix()| + |message|
      ensures r[..|Prefix()|] == Prefix() && r[|Prefix()|..] == message
    {
      Prefix() + message
    }
  }

  /** Formatted messages tell apart both the family and the message. */
  lemma FormatMessageInjective(f: MessageFormatter, g: MessageFormatter, m: string, n: string)
    requires f.FormatMessage(m) == g.FormatMessage(n)
    ensures f == g && m == n
  {
    var s := f.FormatMessage(m);
    assert s[1] == f.Prefix()[1];
    assert s[1] == g.Prefix()[1];
  }

  datatype NotificationFactory = EmailNotificationFactory | SmsNotificationFactory {
    function Family(): Family
    {
      if EmailNotificationFactory? then Email else Sms
    }

    /** `create_sender()`: the sender of this factory's family. */
    function CreateSender(): (s: MessageSender)
      ensures s.Family() == Family()
    {
      if EmailNotificationFactory? then EmailMessageSender else SmsMessageSender
    }

    /** `create_formatter()`: the formatter of this factory's family. */
    function CreateFormatter(): (f: MessageFormatter)
      ensures f.Family() == Family()
    {
      if EmailNotificationFactory? then EmailMessageFormatter else SmsMessageFormatter
    }
  }

  /** NotificationApp: a sender and a formatter, fixed when the app is made. */
  datatype NotificationApp = NotificationApp(sender: MessageSender, formatter: MessageFormatter) {
    /** `notify(message)`: the line the sender prints for the formatted message. */
    function Notify(message: string): (r: string)
      ensures |r| > |formatter.Prefix()| + |message|
      ensures r[|r| - |message| - |formatter.Prefix()|..] == formatter.Prefix() + message
    {
      sender.SendMessage(formatter.FormatMessage(message))
    }
  }

  /** `NotificationApp(factory)`: both parts come from the one factory, so from one family. */
  function NewNotificationApp(factory: NotificationFactory): (app: NotificationApp)
    ensures app.sender.Family() == app.formatter.Family() == factory.Family()
  {
    NotificationApp(factory.CreateSender(), factory.CreateFormatter())
  }

  /** The line an app built from `factory` emits for `message`. */
  lemma NotifyEmits(factory: NotificationFactory, message: string)
    ensures NewNotificationApp(factory).Notify(message) ==
              if factory.EmailNotificationFactory?
              then "EMAIL SENT: [EMAIL FORMAT] " + message
              else "SMS SENT: [SMS FORMAT] " + message
  {
    if factory.EmailNotificationFactory? {
      assert "EMAIL SENT: " + "[EMAIL FORMAT] " == "EMAIL SENT: [EMAIL FORMAT] ";
      assert "EMAIL SENT: " + ("[EMAIL FORMAT] " + message) == ("EMAIL SENT: " + "[EMAIL FORMAT] ") + message;
    } else {
      assert "SMS SENT: " + "[SMS FORMAT] " == "SMS SENT: [SMS FORMAT] ";
      assert "SMS SENT: " + ("[SMS FORMAT] " + message) == ("SMS SENT: " + "[SMS FORMAT] ") + message;
    }
  }

  /** Two apps emit the same line only for the same family and the same message. */
  lemma NotifyInjective(f: NotificationFactory, g: NotificationFactory, m: string, n: string)
    requires NewNotificationApp(f).Notify(m) == NewNotificationApp(g).Notify(n)
    ensures f == g && m == n
  {
    var s := NewNotificationApp(f).Notify(m);
    NotifyEmits(f, m);
    NotifyEmits(g, n);
    var p := if f.EmailNotificationFactory? then "EMAIL SENT: [EMAIL FORMAT] " else "SMS SENT: [SMS FORMAT] ";
    var q := if g.EmailNotificationFactory? then "EMAIL SENT: [EMAIL FORMAT] " else "SMS SENT: [SMS FORMAT] ";
    assert s == p + m && s == q + n;
    assert s[0] == p[0] && s[0] == q[0];
    assert p == q;
    assert m == s[|p|..] == n;
  }

  /** The key `get_factory` accepts for each notification factory. */
  function NotificationKey(factory: NotificationFactory): string
  {
    if factory.EmailNotificationFactory? then "email" else "sms"
  }

  /** `get_factory(factory_type)` for notifications: "email" or "sms", or a ValueError. */
  function GetNotificationFactory(factoryType: string): (r: Result<NotificationFactory>)
    ensures r.Ok? <==> factoryType == "email" || factoryType == "sms"
    ensures r.Ok? ==> NotificationKey(r.value) == factoryType
    ensures r.Raised? ==> r.error == ValueError("Unsupported notification type")
  {
    if factoryType == "email" then Ok(EmailNotificationFactory)
    else if factoryType == "sms" then Ok(SmsNotificationFactory)
    else Raised(ValueError("Unsupported notification type"))
  }

  /** Each notification factory is selected by its own key. */
  lemma GetNotificationFactoryOfKey(factory: NotificationFactory)
    ensures GetNotificationFactory(NotificationKey(factory)) == Ok(factory)
  {
  }

  // ------------------------------------------------------------------
  // Payments
  // ------------------------------------------------------------------

  datatype Payment = CreditCardPayment | UpiPayment | NetBankingPayment {
    /** The text `process_payment` puts before the amount. */
    function Prefix(): string
    {
      match this
      case CreditCardPayment => "Payment Done through CreditCard"
      case UpiPayment => "Payment Done through UPI:"
      case NetBankingPayment => "Payment Done through NETBanking"
    }

    /**
     `process_payment(amount)`: the prefix with `str(amount)` straight after it. The rest has the
     form of `str` output (Text.IntTextRoundTrip: it is `str` of what it reads as) and reads as the
     amount, so it is exactly `str(amount)`.
     */
    function ProcessPayment(amount: int): (r: string)
      ensures |r| > |Prefix()| && r[..|Prefix()|] == Prefix()
      ensures Text.IntText(r[|Prefix()|..])
      ensures Text.ParseInt(r[|Prefix()|..]) == amount
    {
      Text.IntToStringRoundTrip(amount);
      Prefix() + Text.IntToString(amount)
    }
  }

  /**
   Reads a payment confirmation back into the payment method and the amount: a method's prefix
   followed by an integer in `str`'s form, or None.
   */
  function ReadReceipt(s: string): Option<(Payment, int)>
  {
    if HasPrefix(s, CreditCardPayment.Prefix()) then ReadAmount(CreditCardPayment, s)
    else if HasPrefix(s, UpiPayment.Prefix()) then ReadAmount(UpiPayment, s)
    else if HasPrefix(s, NetBankingPayment.Prefix()) then ReadAmount(NetBankingPayment, s)
    else None
  }

  function ReadAmount(p: Payment, s: string): Option<(Payment, int)>
    requires HasPrefix(s, p.Prefix())
  {
    var rest := s[|p.Prefix()|..];
    if Text.IntText(rest) then Some((p, Text.ParseInt(rest))) else None
  }

  predicate HasPrefix(s: string, p: string)
  {
    |p| <= |s| && s[..|p|] == p
  }

  /** A payment starts with no other payment method's prefix. */
  lemma PrefixesExclusive(p: Payment, q: Payment, s: string)
    requires HasPrefix(s, p.Prefix()) && HasPrefix(s, q.Prefix())
    ensures p == q
  {
    assert s[21] == p.Prefix()[21];
    assert s[21] == q.Prefix()[21];
  }

  /** The confirmation names the payment method and the amount recoverably. */
  lemma ReceiptRoundTrip(p: Payment, amount: int)
    ensures ReadReceipt(p.ProcessPayment(amount)) == Some((p, amount))
  {
    var s := p.ProcessPayment(amount);
    assert HasPrefix(s, p.Prefix());
    forall q: Payment | HasPrefix(s, q.Prefix()) ensures q == p {
      PrefixesExclusive(p, q, s);
    }
  }

  /** Only confirmations are read: whatever ReadReceipt accepts is the confirmation it names. */
  lemma ReadReceiptInverse(s: string, p: Payment, amount: int)
    requires ReadReceipt(s) == Some((p, amount))
    ensures s == p.ProcessPayment(amount)
  {
    var q := if HasPrefix(s, CreditCardPayment.Prefix()) then CreditCardPayment
             else if HasPrefix(s, UpiPayment.Prefix()) then UpiPayment
             else NetBankingPayment;
    assert HasPrefix(s, q.Prefix()) && ReadAmount(q, s) == Some((p, amount));
    assert q == p;
    var k := |p.Prefix()|;
    var rest := s[k..];
    assert Text.IntText(rest) && Text.ParseInt(rest) == amount;
    assert s == p.Prefix() + rest by {
      assert s[..k] == p.Prefix();
      assert s == s[..k] + s[k..];
    }
    Text.IntTextRoundTrip(rest);
  }

  datatype PaymentFactory = CreditCardPaymentFactory | UpiPaymentFactory | NetBankingPaymentFactory {
    /** `create_payment()`: this factory's one payment method. */
    function CreatePayment(): (p: Payment)
      ensures p.CreditCardPayment? <==> CreditCardPaymentFactory?
      ensures p.UpiPayment? <==> UpiPaymentFactory?
      ensures p.NetBankingPayment? <==> NetBankingPaymentFactory?
    {
      match this
      case CreditCardPaymentFactory => CreditCardPayment
      case UpiPaymentFactory => UpiPayment
      case NetBankingPaymentFactory => NetBankingPayment
    }
  }

  /** The key `get_factory` accepts for each payment factory. */
  function PaymentKey(factory: PaymentFactory): string
  {
    match factory
    case CreditCardPaymentFactory => "Card"
    case UpiPaymentFactory => "UPI"
    case NetBankingPaymentFactory => "Net"
  }

  /** `get_factory(factory_type)` for payments: "Card", "UPI" or "Net", or `None` (no exception). */
  function GetPaymentFactory(factoryType: string): (r: Option<PaymentFactory>)
    ensures r.Some? <==> factoryType == "Card" || factoryType == "UPI" || factoryType == "Net"
    ensures r.Some? ==> PaymentKey(r.value) == factoryType
  {
    if factoryType == "Card" then Some(CreditCardPaymentFactory)
    else if factoryType == "UPI" then Some(UpiPaymentFactory)
    else if factoryType == "Net" then Some(NetBankingPaymentFactory)
    else None
  }

  /** Each payment factory is selected by its own key. */
  lemma GetPaymentFactoryOfKey(factory: PaymentFactory)
    ensures GetPaymentFactory(PaymentKey(factory)) == Some(factory)
  {
  }
}
