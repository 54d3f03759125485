/** Selection of the transactional emails: which message is sent, to whom,
    under which subject, and when the configuration switches it off. The
    HTML bodies and the provider call are not modelled; a sender yields the
    message it would hand to the provider, or nothing. */
module Email {
  import opened Common
  import opened Text

  /** The environment the senders read: whether an API key is set, and
      the merchant address CONTACT_EMAIL. */
  datatype EmailConfig = EmailConfig(apiKey: bool, contactEmail: Option<string>)

  /** An order line as the templates read it. */
  datatype EmailItem = EmailItem(productName: Option<string>, name: Option<string>, quantity: int, price: int)

  /** A rendered line of the items list. */
  datatype ItemLine = ItemLine(title: string, quantity: int, price: int)

  datatype Message = Message(to: string, subject: string, items: seq<ItemLine>)

  /** `${x}` of a possibly absent string field. */
  function Interpolate(s: Option<string>): string {
    if s.Some? then s.value else "undefined"
  }

  /** The shop signature that ends every subject. */
  const Signature: string := " - le p'tit bout de bois"

  /** Line of the merchant notification: `product_name` only. */
  function MerchantLine(item: EmailItem): (l: ItemLine)
    ensures l.title == Interpolate(item.productName)
    ensures l.quantity == item.quantity && l.price == item.price
  {
    ItemLine(Interpolate(item.productName), item.quantity, item.price)
  }

  /** Line of the customer email: `product_name || name`. */
  function CustomerLine(item: EmailItem): (l: ItemLine)
    ensures Truthy(item.productName) ==> l.title == item.productName.value
    ensures !Truthy(item.productName) ==> l.title == Interpolate(item.name)
    ensures l.quantity == item.quantity && l.price == item.price
  {
    ItemLine(if Truthy(item.productName) then item.productName.value else Interpolate(item.name),
             item.quantity, item.price)
  }

  function MerchantLines(items: seq<EmailItem>): (ls: seq<ItemLine>)
    ensures |ls| == |items|
    ensures forall i :: 0 <= i < |items| ==> ls[i] == MerchantLine(items[i])
  {
    seq(|items|, i requires 0 <= i < |items| => MerchantLine(items[i]))
  }

  function CustomerLines(items: seq<EmailItem>): (ls: seq<ItemLine>)
    ensures |ls| == |items|
    ensures forall i :: 0 <= i < |items| ==> ls[i] == CustomerLine(items[i])
  {
    seq(|items|, i requires 0 <= i < |items| => CustomerLine(items[i]))
  }

  /** The merchant gate: both the API key and CONTACT_EMAIL are needed. */
  predicate MerchantConfigured(c: EmailConfig) {
    c.apiKey && Truthy(c.contactEmail)
  }

  /** `sendOrderNotification(order, items)`. */
  function OrderNotification(c: EmailConfig, orderId: nat, items: seq<EmailItem>): (m: Option<Message>)
    ensures m.Some? <==> MerchantConfigured(c)
    ensures m.Some? ==> m.value.to == c.contactEmail.value
                        && m.value.subject == "\U{1FAB5} Nouvelle commande #" + NatToString(orderId) + Signature
                        && m.value.items == MerchantLines(items)
  {
    if !MerchantConfigured(c) then None
    else Some(Message(c.contactEmail.value,
                      "\U{1FAB5} Nouvelle commande #" + NatToString(orderId) + Signature,
                      MerchantLines(items)))
  }

  /** `sendContactNotification(contact)`. */
  function ContactNotification(c: EmailConfig, contactName: string): (m: Option<Message>)
    ensures m.Some? <==> MerchantConfigured(c)
    ensures m.Some? ==> m.value.to == c.contactEmail.value && m.value.items == []
                        && m.value.subject == "\U{1F4AC} Nouveau message de " + contactName + Signature
  {
    if !MerchantConfigured(c) then None
    else Some(Message(c.contactEmail.value, "\U{1F4AC} Nouveau message de " + contactName + Signature, []))
  }

  /** The statuses the customer is told about, and the word for each. */
  function StatusWord(status: string): (w: Option<string>)
    ensures w.Some? <==> status in {"pending", "confirmed", "shipped"}
  {
    if status == "pending" then Some("re\U{E7}ue")
    else if status == "confirmed" then Some("confirm\U{E9}e")
    else if status == "shipped" then Some("exp\U{E9}di\U{E9}e")
    else None
  }

  /** `Commande #<id> <word> - le p'tit bout de bois`. */
  function CustomerSubject(orderId: nat, word: string): (s: string)
    ensures StartsWith(s, "Commande #")
  {
    "Commande #" + NatToString(orderId) + " " + word + Signature
  }

  /** `sendCustomerOrderEmail(order, items, status)`: only the API key gates
      it, and only three statuses produce a message. */
  function CustomerOrderEmail(c: EmailConfig, orderId: nat, customerEmail: string,
                              items: seq<EmailItem>, status: string): (m: Option<Message>)
    ensures m.Some? <==> c.apiKey && status in {"pending", "confirmed", "shipped"}
    ensures m.Some? ==> m.value.to == customerEmail
                        && m.value.subject == CustomerSubject(orderId, StatusWord(status).value)
                        && m.value.items == CustomerLines(items)
  {
    if !c.apiKey then None
    else match StatusWord(status)
      case None => None
      case Some(w) => Some(Message(customerEmail, CustomerSubject(orderId, w), CustomerLines(items)))
  }

  /** The order id can be read back from a customer subject, and so can the
      part naming the status. */
  lemma CustomerSubjectParses(orderId: nat, word: string)
    requires word == [] || !IsDigit(word[0])
    ensures var s := CustomerSubject(orderId, word);
            ParseNat(s[|"Commande #"|..]) == Some((orderId, " " + word + Signature))
  {
    var s := CustomerSubject(orderId, word);
    var rest := " " + word + Signature;
    assert s == "Commande #" + (NatToString(orderId) + rest);
    assert s[|"Commande #"|..] == NatToString(orderId) + rest;
    ParseNatRoundTrip(orderId, rest);
  }

  /** Different orders or different statuses never share a customer subject. */
  lemma CustomerSubjectInjective(id1: nat, s1: string, id2: nat, s2: string)
    requires StatusWord(s1).Some? && StatusWord(s2).Some?
    requires CustomerSubject(id1, StatusWord(s1).value) == CustomerSubject(id2, StatusWord(s2).value)
    ensures id1 == id2 && s1 == s2
  {
    var w1, w2 := StatusWord(s1).value, StatusWord(s2).value;
    CustomerSubjectParses(id1, w1);
    CustomerSubjectParses(id2, w2);
    var t1 := " " + w1 + Signature;
    var t2 := " " + w2 + Signature;
    assert t1 == t2;
    assert w1 == t1[1..|t1| - |Signature|];
    assert w2 == t2[1..|t2| - |Signature|];
  }
}
