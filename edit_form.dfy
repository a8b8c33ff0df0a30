/** The invoice edit form (Record/page.tsx): one `formData` draft that a
    mount effect initialises and every input event updates one field at a
    time, and the create-or-update request its submit handler sends. */
module EditForm {
  import opened Common
  import opened InvoiceTax
  import opened IsoDate

  /** The form's `Invoice` record; `id` is the server's `_id`, absent for
      an invoice not yet created. */
  datatype Invoice = Invoice(
    id: Option<string>,
    companyName: string,
    customerName: string,
    contactNumber: string,
    emailAddress: string,
    address: string,
    gstNumber: string,
    productName: string,
    amount: real,
    discount: real,
    gstRate: real,
    date: string,
    status: string,
    isActive: bool)

  /** The draft a new form starts from. */
  const DefaultDraft: Invoice := Invoice(
    None, "", "", "N/A", "N/A", "N/A", "N/A", "", 0.0, 0.0, 18.0, "", "Unpaid", true)

  /** The default rate is one the edit form's select offers; the entry
      form offers a subset of those rates, without 1 and 35. */
  lemma DefaultRateOffered()
    ensures DefaultDraft.gstRate in EditGstRates
    ensures EntryGstRates <= EditGstRates
    ensures EditGstRates - EntryGstRates == {1.0, 35.0}
  {
  }

  /** The form's inputs, by their `name` attribute. */
  datatype Field =
    | CompanyName | CustomerName | ContactNumber | EmailAddress | Address | GstNumber
    | ProductName | Amount | Discount | GstRate | Status | Date

  datatype FieldValue = Text(text: string) | Number(number: real)

  /** The inputs whose text is read as a number. */
  predicate IsNumeric(f: Field) {
    f == Amount || f == Discount || f == GstRate
  }

  /** The value the input `f` shows. */
  function Get(d: Invoice, f: Field): FieldValue {
    match f
    case CompanyName => Text(d.companyName)
    case CustomerName => Text(d.customerName)
    case ContactNumber => Text(d.contactNumber)
    case EmailAddress => Text(d.emailAddress)
    case Address => Text(d.address)
    case GstNumber => Text(d.gstNumber)
    case ProductName => Text(d.productName)
    case Amount => Number(d.amount)
    case Discount => Number(d.discount)
    case GstRate => Number(d.gstRate)
    case Status => Text(d.status)
    case Date => Text(d.date)
  }

  /** What a change event on input `name` with text `value` stores, where
      `parsed` is what `parseFloat(value)` reads: numeric inputs get the
      number, or 0 when nothing could be read (`parseFloat(value) || 0`);
      the others get the text as it is. */
  function ChangedValue(name: Field, value: string, parsed: Option<real>): (v: FieldValue)
    ensures IsNumeric(name) <==> v.Number?
    ensures v.Number? ==> v.number == (if parsed.Some? then parsed.value else 0.0)
    ensures v.Text? ==> v.text == value
  {
    if IsNumeric(name) then Number(OrZero(parsed)) else Text(value)
  }

  /** A draft is determined by what its inputs show, its id and its active flag. */
  lemma DraftDeterminedByFields(a: Invoice, b: Invoice)
    requires forall f :: Get(a, f) == Get(b, f)
    requires a.id == b.id && a.isActive == b.isActive
    ensures a == b
  {
    assert Get(a, CompanyName) == Get(b, CompanyName) && Get(a, CustomerName) == Get(b, CustomerName);
    assert Get(a, ContactNumber) == Get(b, ContactNumber) && Get(a, EmailAddress) == Get(b, EmailAddress);
    assert Get(a, Address) == Get(b, Address) && Get(a, GstNumber) == Get(b, GstNumber);
    assert Get(a, ProductName) == Get(b, ProductName) && Get(a, Amount) == Get(b, Amount);
    assert Get(a, Discount) == Get(b, Discount) && Get(a, GstRate) == Get(b, GstRate);
    assert Get(a, Status) == Get(b, Status) && Get(a, Date) == Get(b, Date);
  }

  /** `${Invoice._id}`: an absent id is written `undefined`. */
  function IdText(id: Option<string>): string {
    match id
    case Some(s) => s
    case None => "undefined"
  }

  /** The keys of a draft without an id. */
  const DraftKeys: set<Key> := {
    CompanyNameKey, CustomerNameKey, ContactNumberKey, EmailAddressKey, AddressKey, GstNumberKey,
    ProductNameKey, AmountKey, DiscountKey, GstRateKey, DateKey, StatusKey, IsActiveKey}

  /** The keys of a draft: `_id` only when it has one. */
  function DraftKeysOf(d: Invoice): set<Key> {
    if d.id.Some? then DraftKeys + {IdKey} else DraftKeys
  }

  /** The derived amounts the edit form adds to the draft. */
  const EditTotalKeys: set<Key> := {TotalWithoutGstKey, TotalWithGstKey, RemainingAmountKey}

  /** The JSON value of the draft's property `k`. */
  function DraftValue(d: Invoice, k: Key): JsonValue {
    match k
    case IdKey => if d.id.Some? then JString(d.id.value) else JNull
    case CompanyNameKey => JString(d.companyName)
    case CustomerNameKey => JString(d.customerName)
    case ContactNumberKey => JString(d.contactNumber)
    case EmailAddressKey => JString(d.emailAddress)
    case AddressKey => JString(d.address)
    case GstNumberKey => JString(d.gstNumber)
    case ProductNameKey => JString(d.productName)
    case AmountKey => JNumber(d.amount)
    case DiscountKey => JNumber(d.discount)
    case GstRateKey => JNumber(d.gstRate)
    case DateKey => JString(d.date)
    case StatusKey => JString(d.status)
    case IsActiveKey => JBool(d.isActive)
    case _ => JNull
  }

  /** The draft as a JSON object (`...formData`). */
  function DraftObject(d: Invoice): JsonObject {
    map k | k in DraftKeysOf(d) :: DraftValue(d, k)
  }

  /** The three derived amounts the edit form sends, by key. */
  function TotalValue(t: Totals<real>, k: Key): JsonValue {
    match k
    case TotalWithoutGstKey => JNumber(t.totalWithoutGst)
    case TotalWithGstKey => JNumber(t.totalWithGst)
    case RemainingAmountKey => JNumber(t.remainingAmount)
    case _ => JNull
  }

  /** `{...formData, totalWithoutGst, totalWithGst, remainingAmount}` for
      the amounts `t`: the amounts are new properties, so the draft's own
      pass through unchanged. */
  function Body(d: Invoice, t: Totals<real>): JsonObject {
    map k | k in DraftKeysOf(d) + EditTotalKeys ::
      if k in EditTotalKeys then TotalValue(t, k) else DraftValue(d, k)
  }

  /** The body `handleSubmit` sends: the draft and three derived amounts. */
  function SubmitBody(d: Invoice): JsonObject {
    Body(d, EditTotals(d.amount, d.discount, d.gstRate, d.status))
  }

  /** The body has the draft's properties and the three amounts. */
  lemma BodyKeys(d: Invoice, t: Totals<real>)
    ensures Body(d, t).Keys == DraftObject(d).Keys + EditTotalKeys
  {
  }

  /** The body carries neither the paid amount nor CGST nor SGST. */
  lemma BodyOmitsPaidAndSplit(d: Invoice, t: Totals<real>)
    ensures PaidAmountKey !in Body(d, t) && CgstKey !in Body(d, t) && SgstKey !in Body(d, t)
  {
  }

  /** The draft's own properties pass through unchanged. */
  lemma BodyKeepsDraft(d: Invoice, t: Totals<real>)
    ensures forall k :: k in DraftObject(d) ==> Body(d, t)[k] == DraftObject(d)[k]
  {
  }

  /** The amounts are the ones given. */
  lemma BodyTotals(d: Invoice, t: Totals<real>)
    ensures Body(d, t)[TotalWithoutGstKey] == JNumber(t.totalWithoutGst)
    ensures Body(d, t)[TotalWithGstKey] == JNumber(t.totalWithGst)
    ensures Body(d, t)[RemainingAmountKey] == JNumber(t.remainingAmount)
  {
  }

  predicate HasString(o: JsonObject, k: Key) {
    k in o && o[k].JString?
  }

  predicate HasNumber(o: JsonObject, k: Key) {
    k in o && o[k].JNumber?
  }

  /** Every property of a draft is there and holds a value of its kind. */
  predicate DraftShaped(o: JsonObject) {
    && HasString(o, CompanyNameKey) && HasString(o, CustomerNameKey)
    && HasString(o, ContactNumberKey) && HasString(o, EmailAddressKey)
    && HasString(o, AddressKey) && HasString(o, GstNumberKey) && HasString(o, ProductNameKey)
    && HasNumber(o, AmountKey) && HasNumber(o, DiscountKey) && HasNumber(o, GstRateKey)
    && HasString(o, DateKey) && HasString(o, StatusKey)
    && IsActiveKey in o && o[IsActiveKey].JBool?
    && (IdKey in o ==> o[IdKey].JString?)
  }

  /** Reads a draft back out of a JSON object; None when a property is
      missing or holds a value of the wrong kind. */
  function ReadDraft(o: JsonObject): Option<Invoice> {
    if DraftShaped(o) then
      Some(Invoice(
        if IdKey in o then Some(o[IdKey].s) else None,
        o[CompanyNameKey].s, o[CustomerNameKey].s, o[ContactNumberKey].s, o[EmailAddressKey].s,
        o[AddressKey].s, o[GstNumberKey].s, o[ProductNameKey].s,
        o[AmountKey].n, o[DiscountKey].n, o[GstRateKey].n,
        o[DateKey].s, o[StatusKey].s, o[IsActiveKey].b))
    else
      None
  }

  /** `ReadDraft` looks only at the draft's own properties. */
  lemma ReadDraftLooksAtDraftKeys(o1: JsonObject, o2: JsonObject)
    requires DraftKeys <= o2.Keys
    requires forall k :: k in o2 ==> k in o1 && o1[k] == o2[k]
    requires IdKey in o1 ==> IdKey in o2
    ensures ReadDraft(o1) == ReadDraft(o2)
  {
  }

  /** Each property of a draft's object holds the draft's value for it. */
  lemma DraftObjectValues(d: Invoice)
    ensures forall k :: k in DraftKeys ==> k in DraftObject(d) && DraftObject(d)[k] == DraftValue(d, k)
    ensures IdKey in DraftObject(d) <==> d.id.Some?
    ensures IdKey in DraftObject(d) ==> DraftObject(d)[IdKey] == JString(d.id.value)
  {
  }

  lemma DraftObjectShaped(d: Invoice)
    ensures DraftShaped(DraftObject(d))
  {
    DraftObjectValues(d);
  }

  lemma ReadDraftOfDraftObject(d: Invoice)
    ensures ReadDraft(DraftObject(d)) == Some(d)
  {
    DraftObjectShaped(d);
    DraftObjectValues(d);
  }

  /** The server can read the whole draft back out of the body. */
  lemma ReadDraftOfSubmitBody(d: Invoice)
    ensures ReadDraft(SubmitBody(d)) == Some(d)
  {
    ReadDraftOfDraftObject(d);
    BodyKeys(d, EditTotals(d.amount, d.discount, d.gstRate, d.status));
    BodyKeepsDraft(d, EditTotals(d.amount, d.discount, d.gstRate, d.status));
    assert IdKey !in EditTotalKeys;
    ReadDraftLooksAtDraftKeys(SubmitBody(d), DraftObject(d));
  }

  datatype Request = Request(verb: string, url: string, body: JsonObject)

  class InvoiceForm {
    var formData: Invoice

    constructor ()
      ensures formData == DefaultDraft
    {
      formData := DefaultDraft;
    }

    /** The derived amounts the form shows, from the current draft. */
    function CurrentTotals(): Totals<real>
      reads this
    {
      EditTotals(formData.amount, formData.discount, formData.gstRate, formData.status)
    }

    /** The effect that runs on mount and whenever the `Invoice` prop
        changes. An existing invoice replaces the draft, its date cut to
        what precedes the `T` of `toIso(date)` (`toIso` stands for `new
        Date(...).toISOString()`), or "" when it has no date; without one,
        only the date changes, to the date part of `todayIso`. */
    method Initialise(existing: Option<Invoice>, toIso: string -> string, todayIso: string)
      modifies this
      ensures existing.Some? ==>
        formData == existing.value.(date := if existing.value.date == "" then "" else DatePart(toIso(existing.value.date)))
      ensures existing.None? ==> formData == old(formData).(date := DatePart(todayIso))
    {
      match existing
      case Some(inv) =>
        formData := inv.(date := if inv.date != "" then DatePart(toIso(inv.date)) else "");
      case None =>
        var today := DatePart(todayIso);
        formData := formData.(date := today);
    }

    /** `handleChange`: the input `name` takes the value of the event, and
        nothing else in the draft changes. */
    method HandleChange(name: Field, value: string, parseFloat: string -> Option<real>)
      modifies this
      ensures Get(formData, name) == ChangedValue(name, value, parseFloat(value))
      ensures forall f :: f != name ==> Get(formData, f) == Get(old(formData), f)
      ensures formData.id == old(formData.id) && formData.isActive == old(formData.isActive)
    {
      var v := ChangedValue(name, value, parseFloat(value));
      match name
      case CompanyName => formData := formData.(companyName := v.text);
      case CustomerName => formData := formData.(customerName := v.text);
      case ContactNumber => formData := formData.(contactNumber := v.text);
      case EmailAddress => formData := formData.(emailAddress := v.text);
      case Address => formData := formData.(address := v.text);
      case GstNumber => formData := formData.(gstNumber := v.text);
      case ProductName => formData := formData.(productName := v.text);
      case Amount => formData := formData.(amount := v.number);
      case Discount => formData := formData.(discount := v.number);
      case GstRate => formData := formData.(gstRate := v.number);
      case Status => formData := formData.(status := v.text);
      case Date => formData := formData.(date := v.text);
    }

    /** The request `handleSubmit` sends: an update of the existing invoice
        by its id, or the creation of a new one, carrying the whole draft
        and the derived total before tax, grand total and remaining amount,
        but not the paid amount, CGST or SGST. */
    method HandleSubmit(existing: Option<Invoice>) returns (req: Request)
      ensures req.verb == (if existing.Some? then "PUT" else "POST")
      ensures req.url == if existing.Some? then ApiBase + "updateInvoice/" + IdText(existing.value.id)
                         else ApiBase + "invoiceAdd"
      ensures req.body.Keys == DraftObject(formData).Keys + EditTotalKeys
      ensures PaidAmountKey !in req.body && CgstKey !in req.body && SgstKey !in req.body
      ensures ReadDraft(req.body) == Some(formData)
      ensures req.body[TotalWithoutGstKey] == JNumber(CurrentTotals().totalWithoutGst)
      ensures req.body[TotalWithGstKey] == JNumber(CurrentTotals().totalWithGst)
      ensures req.body[RemainingAmountKey] == JNumber(CurrentTotals().remainingAmount)
    {
      var verb := if existing.Some? then "PUT" else "POST";
      var url := if existing.Some? then ApiBase + "updateInvoice/" + IdText(existing.value.id)
                 else ApiBase + "invoiceAdd";
      ReadDraftOfSubmitBody(formData);
      BodyKeys(formData, CurrentTotals());
      BodyOmitsPaidAndSplit(formData, CurrentTotals());
      BodyTotals(formData, CurrentTotals());
      req := Request(verb, url, SubmitBody(formData));
    }
  }
}
