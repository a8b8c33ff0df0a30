/** The reminder dashboard (Page/page.tsx): for the unpaid invoice with a
    given id it builds a WhatsApp link carrying a reminder message, a
    `tel:` link, and the body of an email-reminder request. When no
    invoice has the id, each action does nothing. */
module Reminder {
  import opened Common
  import opened UriComponent

  /** A row of the unpaid-invoice list, as the backend sends it. */
  datatype UnpaidInvoice = UnpaidInvoice(
    id: string,
    companyName: string,
    customerName: string,
    contactNumber: string,
    emailAddress: string,
    productName: string,
    remainingAmount: real,
    date: string)

  /** `unpaidInvoices.find((invoice) => invoice._id === id)`. */
  function Find(invoices: seq<UnpaidInvoice>, id: string): (r: Option<UnpaidInvoice>)
    ensures r.None? <==> forall i :: 0 <= i < |invoices| ==> invoices[i].id != id
    ensures r.Some? ==> r.value in invoices && r.value.id == id
  {
    if invoices == [] then None
    else if invoices[0].id == id then Some(invoices[0])
    else Find(invoices[1..], id)
  }

  /** `k` is the position of the first invoice with the id. */
  predicate FirstWithId(invoices: seq<UnpaidInvoice>, id: string, k: nat) {
    && k < |invoices|
    && invoices[k].id == id
    && forall j :: 0 <= j < k ==> invoices[j].id != id
  }

  /** The lookup yields the first invoice with the id, not just any. */
  lemma {:induction false} FindIsFirst(invoices: seq<UnpaidInvoice>, id: string, k: nat)
    requires FirstWithId(invoices, id, k)
    ensures Find(invoices, id) == Some(invoices[k])
  {
    if k > 0 {
      assert forall j :: 0 <= j < k - 1 ==> invoices[1..][j] == invoices[j + 1];
      FindIsFirst(invoices[1..], id, k - 1);
    }
  }

  // The reminder message, in three fixed parts around the customer's
  // name and the amount as the page writes it.
  const Greeting: string := "Hello "
  const ReminderText: string := ",\n\nThis is a reminder to pay your outstanding invoice of \U{20B9}"
  const Closing: string := ". Please make the payment at your earliest convenience."

  /** The reminder message for `customerName`, the amount shown as
      `amountText`: the name and the amount appear verbatim, each at its
      own place between the fixed parts. */
  function Message(customerName: string, amountText: string): (m: string)
    ensures |m| == |Greeting| + |customerName| + |ReminderText| + |amountText| + |Closing|
    ensures m[..|Greeting|] == Greeting
    ensures m[|Greeting|..|Greeting| + |customerName|] == customerName
    ensures var a := |Greeting| + |customerName| + |ReminderText|;
      && m[|Greeting| + |customerName|..a] == ReminderText
      && m[a..a + |amountText|] == amountText
      && m[a + |amountText|..] == Closing
  {
    Greeting + customerName + ReminderText + amountText + Closing
  }

  const WaMe: string := "https://wa.me/"

  /** The WhatsApp click-to-chat link to `contact` with `text` filled in. */
  function ChatLink(contact: string, text: string): string {
    WaMe + contact + "?text=" + Encode(text)
  }

  /** The WhatsApp action: the chat link to the invoice's contact number
      with the reminder message; `show` is how the page writes a number
      into a string. */
  function WhatsAppLink(invoices: seq<UnpaidInvoice>, id: string, show: real -> string): (r: Option<string>)
    ensures r.None? <==> Find(invoices, id).None?
    ensures r.Some? ==> var inv := Find(invoices, id).value;
      r.value == ChatLink(inv.contactNumber, Message(inv.customerName, show(inv.remainingAmount)))
  {
    match Find(invoices, id)
    case None => None
    case Some(inv) => Some(ChatLink(inv.contactNumber, Message(inv.customerName, show(inv.remainingAmount))))
  }

  /** `s` up to its first `#`. */
  function BeforeHash(s: string): (r: string)
    ensures r <= s && '#' !in r
    ensures |r| < |s| ==> s[|r|] == '#'
  {
    if s == [] || s[0] == '#' then [] else [s[0]] + BeforeHash(s[1..])
  }

  /** The query of a URI reference as the regular expression of
      appendix B of RFC 3986 splits it: what follows the first `?` up to
      the next `#`, when a `?` comes before any `#`. */
  function QueryOf(u: string): Option<string> {
    if u == [] || u[0] == '#' then None
    else if u[0] == '?' then Some(BeforeHash(u[1..]))
    else QueryOf(u[1..])
  }

  lemma {:induction false} BeforeHashWhole(s: string)
    requires '#' !in s
    ensures BeforeHash(s) == s
  {
    if s != [] {
      BeforeHashWhole(s[1..]);
    }
  }

  /** In `p + "?" + q` with no `?` or `#` in `p`, the query is `q` up to its first `#`. */
  lemma {:induction false} QueryAfterPlainPrefix(p: string, q: string)
    requires '?' !in p && '#' !in p
    ensures QueryOf(p + "?" + q) == Some(BeforeHash(q))
  {
    if p == [] {
      assert p + "?" + q == ['?'] + q;
    } else {
      assert (p + "?" + q)[1..] == p[1..] + "?" + q;
      QueryAfterPlainPrefix(p[1..], q);
    }
  }

  /** When the contact number has no `?` and no `#`, the chat link's
      query is exactly `text=` and the percent-encoded text, which holds
      no character that would end or split the query, and decoding it
      gives the text back. */
  lemma ChatLinkQuery(contact: string, text: string)
    requires '?' !in contact && '#' !in contact
    ensures QueryOf(ChatLink(contact, text)) == Some("text=" + Encode(text))
    ensures forall i :: 0 <= i < |Encode(text)| ==> Encode(text)[i] !in " \n&=+?#/"
    ensures Decode(Encode(text)) == Some(text)
  {
    EncodeHasNoDelimiters(text);
    assert '#' !in "text=" + Encode(text) by {
      assert forall i :: 0 <= i < |Encode(text)| ==> ("text=" + Encode(text))[5 + i] == Encode(text)[i];
    }
    BeforeHashWhole("text=" + Encode(text));
    assert ChatLink(contact, text) == (WaMe + contact) + "?" + ("text=" + Encode(text));
    QueryAfterPlainPrefix(WaMe + contact, "text=" + Encode(text));
    DecodeEncode(text);
  }

  /** What follows `tel:` in a link with that scheme. */
  function TelNumber(u: string): Option<string> {
    if |u| >= 4 && u[..4] == "tel:" then Some(u[4..]) else None
  }

  /** The call action: `tel:` and the contact number, unchecked. */
  function CallLink(invoices: seq<UnpaidInvoice>, id: string): (r: Option<string>)
    ensures r.None? <==> Find(invoices, id).None?
    ensures r.Some? ==> TelNumber(r.value) == Some(Find(invoices, id).value.contactNumber)
  {
    match Find(invoices, id)
    case None => None
    case Some(inv) =>
      var link := "tel:" + inv.contactNumber;
      assert link[..4] == "tel:" && link[4..] == inv.contactNumber;
      Some(link)
  }

  /** The request `sendReminderEmail` posts. */
  datatype EmailRequest = EmailRequest(url: string, body: JsonObject)

  const EmailKeys: set<Key> := {EmailKey, RemainingAmountKey, CustomerNameKey}

  function EmailValue(inv: UnpaidInvoice, k: Key): JsonValue {
    match k
    case EmailKey => JString(inv.emailAddress)
    case RemainingAmountKey => JNumber(inv.remainingAmount)
    case CustomerNameKey => JString(inv.customerName)
    case _ => JNull
  }

  /** The email action: a request to `sendEmailReminder/` and the id,
      carrying the invoice's email address, remaining amount and customer
      name unchanged. */
  function EmailReminder(invoices: seq<UnpaidInvoice>, id: string): (r: Option<EmailRequest>)
    ensures r.None? <==> Find(invoices, id).None?
    ensures r.Some? ==> var inv := Find(invoices, id).value;
      && r.value.url == ApiBase + "sendEmailReminder/" + inv.id
      && r.value.body.Keys == EmailKeys
      && r.value.body[EmailKey] == JString(inv.emailAddress)
      && r.value.body[RemainingAmountKey] == JNumber(inv.remainingAmount)
      && r.value.body[CustomerNameKey] == JString(inv.customerName)
  {
    match Find(invoices, id)
    case None => None
    case Some(inv) =>
      Some(EmailRequest(ApiBase + "sendEmailReminder/" + id, map k | k in EmailKeys :: EmailValue(inv, k)))
  }

  /** With the first invoice carrying the id at position `k`, all three
      actions act on that invoice. */
  lemma ActionsUseFirstMatch(invoices: seq<UnpaidInvoice>, id: string, k: nat, show: real -> string)
    requires FirstWithId(invoices, id, k)
    ensures WhatsAppLink(invoices, id, show)
         == Some(ChatLink(invoices[k].contactNumber,
                          Message(invoices[k].customerName, show(invoices[k].remainingAmount))))
    ensures CallLink(invoices, id) == Some("tel:" + invoices[k].contactNumber)
    ensures EmailReminder(invoices, id).Some?
    ensures EmailReminder(invoices, id).value.body[EmailKey] == JString(invoices[k].emailAddress)
    ensures EmailReminder(invoices, id).value.body[CustomerNameKey] == JString(invoices[k].customerName)
    ensures EmailReminder(invoices, id).value.body[RemainingAmountKey] == JNumber(invoices[k].remainingAmount)
  {
    FindIsFirst(invoices, id, k);
  }

  /** The recipient of a reminder reads exactly the message the page
      wrote into the link. */
  lemma WhatsAppLinkReadsBack(invoices: seq<UnpaidInvoice>, id: string, show: real -> string)
    requires Find(invoices, id).Some?
    requires var c := Find(invoices, id).value.contactNumber; '?' !in c && '#' !in c
    ensures var inv := Find(invoices, id).value;
      var m := Message(inv.customerName, show(inv.remainingAmount));
      && QueryOf(WhatsAppLink(invoices, id, show).value) == Some("text=" + Encode(m))
      && Decode(Encode(m)) == Some(m)
  {
    var inv := Find(invoices, id).value;
    ChatLinkQuery(inv.contactNumber, Message(inv.customerName, show(inv.remainingAmount)));
  }

  /** A reminder to Ravi, contact number 919999999999, for 500 shown as
      "500": the link goes to that number and its text decodes to the
      message; an id not in the list gives no link. */
  lemma RaviExample(name: string, contact: string, show: real -> string)
    requires name == "Ravi" && contact == "919999999999" && show(500.0) == "500"
    ensures var invoices := [UnpaidInvoice("a1", "Acme", name, contact, "ravi@example.com", "Widget", 500.0, "2024-01-01")];
      var m := Message(name, "500");
      && WhatsAppLink(invoices, "a1", show) == Some("https://wa.me/" + contact + "?text=" + Encode(m))
      && QueryOf(WhatsAppLink(invoices, "a1", show).value) == Some("text=" + Encode(m))
      && Decode(Encode(m)) == Some(m)
      && CallLink(invoices, "a1") == Some("tel:" + contact)
      && WhatsAppLink(invoices, "a2", show).None?
  {
    var invoices := [UnpaidInvoice("a1", "Acme", name, contact, "ravi@example.com", "Widget", 500.0, "2024-01-01")];
    assert FirstWithId(invoices, "a1", 0);
    ActionsUseFirstMatch(invoices, "a1", 0, show);
    WhatsAppLinkReadsBack(invoices, "a1", show);
  }
}
