/** The invoice entry form (Invoice/page.tsx): ten state cells, each set
    by its own input handler, a `submitted` flag, and the body its submit
    handler posts. Its numeric inputs store `parseFloat(value)` as it is,
    so a cell can hold NaN. */
module EntryForm {
  import opened Common
  import opened InvoiceTax
  import opened IsoDate

  /** The values of the ten state cells. */
  datatype Cells = Cells(
    companyName: string,
    customerName: string,
    contactNumber: string,
    emailAddress: string,
    productName: string,
    amount: Num,
    discount: Num,
    gstRate: Num,
    date: string,
    status: string)

  /** The cells of a new form; the date is the first ten characters of
      today's timestamp `todayIso` (`new Date().toISOString().slice(0, 10)`). */
  function DefaultCells(todayIso: string): (c: Cells)
    ensures c.amount == Fin(0.0) && c.discount == Fin(0.0)
    ensures c.gstRate == Fin(18.0) && c.gstRate.v in EntryGstRates
    ensures c.status == "Unpaid" && c.status != Paid
    ensures c.companyName == c.customerName == c.contactNumber == c.emailAddress == c.productName == ""
    ensures c.date == FirstTen(todayIso)
    ensures IsIsoTimestamp(todayIso) ==> c.date == todayIso[..10] && IsFullDate(c.date)
  {
    Cells("", "", "", "", "", Fin(0.0), Fin(0.0), Fin(18.0), FirstTen(todayIso), "Unpaid")
  }

  /** The properties of the body `handleFormSubmit` posts. */
  const EntryKeys: set<Key> := {
    CompanyNameKey, CustomerNameKey, ContactNumberKey, EmailAddressKey, ProductNameKey,
    AmountKey, DiscountKey, GstRateKey, StatusKey, DateKey,
    TotalWithoutGstKey, TotalWithGstKey, PaidAmountKey, RemainingAmountKey}

  /** The JSON value of property `k` of the body, for cells `c` and the
      amounts `t` computed from them. */
  function EntryValue(c: Cells, t: Totals<Num>, k: Key): JsonValue {
    match k
    case CompanyNameKey => JString(c.companyName)
    case CustomerNameKey => JString(c.customerName)
    case ContactNumberKey => JString(c.contactNumber)
    case EmailAddressKey => JString(c.emailAddress)
    case ProductNameKey => JString(c.productName)
    case AmountKey => NumJson(c.amount)
    case DiscountKey => NumJson(c.discount)
    case GstRateKey => NumJson(c.gstRate)
    case StatusKey => JString(c.status)
    case DateKey => JString(c.date)
    case TotalWithoutGstKey => NumJson(t.totalWithoutGst)
    case TotalWithGstKey => NumJson(t.totalWithGst)
    case PaidAmountKey => NumJson(t.paidAmount)
    case RemainingAmountKey => NumJson(t.remainingAmount)
    case _ => JNull
  }

  /** The `invoiceData` object for cells `c` and derived amounts `t`. */
  function EntryObject(c: Cells, t: Totals<Num>): JsonObject {
    map k | k in EntryKeys :: EntryValue(c, t, k)
  }

  /** The body `handleFormSubmit` posts, as `JSON.stringify` writes it. */
  function EntryBody(c: Cells): JsonObject {
    EntryObject(c, EntryTotals(c.amount, c.discount, c.gstRate, c.status))
  }

  /** The body has exactly the ten cells and four derived amounts. */
  lemma EntryObjectKeys(c: Cells, t: Totals<Num>)
    ensures EntryObject(c, t).Keys == EntryKeys
  {
  }

  /** The paid amount is there; CGST and SGST, an id, an address, a GST
      number and an active flag are not. */
  lemma EntryObjectOmits(c: Cells, t: Totals<Num>)
    ensures PaidAmountKey in EntryObject(c, t)
    ensures CgstKey !in EntryObject(c, t) && SgstKey !in EntryObject(c, t) && IdKey !in EntryObject(c, t)
    ensures AddressKey !in EntryObject(c, t) && GstNumberKey !in EntryObject(c, t)
    ensures IsActiveKey !in EntryObject(c, t)
  {
  }

  /** The body's amounts are the calculator's, and its remaining amount is
      always its grand total; for a paid invoice with finite cells it
      reports the grand total as paid and as still owed. */
  lemma EntryBodyAmounts(c: Cells)
    ensures var t := EntryTotals(c.amount, c.discount, c.gstRate, c.status);
      && EntryBody(c)[TotalWithoutGstKey] == NumJson(t.totalWithoutGst)
      && EntryBody(c)[TotalWithGstKey] == NumJson(t.totalWithGst)
      && EntryBody(c)[PaidAmountKey] == NumJson(t.paidAmount)
      && EntryBody(c)[RemainingAmountKey] == EntryBody(c)[TotalWithGstKey]
    ensures c.status == Paid ==> EntryBody(c)[PaidAmountKey] == EntryBody(c)[RemainingAmountKey]
  {
  }

  /** A cell holding NaN is sent as `null`, and so are the grand total and
      the remaining amount computed from it. */
  lemma EntryBodyNaN(c: Cells)
    requires c.amount.NaN? || c.discount.NaN? || c.gstRate.NaN?
    ensures c.amount.NaN? ==> EntryBody(c)[AmountKey] == JNull
    ensures EntryBody(c)[TotalWithGstKey] == JNull && EntryBody(c)[RemainingAmountKey] == JNull
  {
    EntryTotalsNaN(c.amount, c.discount, c.gstRate, c.status);
  }

  class InvoiceEntry {
    var companyName: string
    var customerName: string
    var contactNumber: string
    var emailAddress: string
    var productName: string
    var amount: Num
    var discount: Num
    var gstRate: Num
    var date: string
    var status: string
    var submitted: bool

    function CellValues(): Cells
      reads this
    {
      Cells(companyName, customerName, contactNumber, emailAddress, productName,
            amount, discount, gstRate, date, status)
    }

    /** The derived amounts the form shows, from the current cells. */
    function CurrentTotals(): Totals<Num>
      reads this
    {
      EntryTotals(amount, discount, gstRate, status)
    }

    constructor (todayIso: string)
      ensures CellValues() == DefaultCells(todayIso)
      ensures !submitted
    {
      var c := DefaultCells(todayIso);
      companyName, customerName, contactNumber := c.companyName, c.customerName, c.contactNumber;
      emailAddress, productName := c.emailAddress, c.productName;
      amount, discount, gstRate := c.amount, c.discount, c.gstRate;
      date, status := c.date, c.status;
      submitted := false;
    }

    method ChangeCompanyName(value: string)
      modifies this
      ensures CellValues() == old(CellValues()).(companyName := value)
      ensures submitted == old(submitted)
    {
      companyName := value;
    }

    method ChangeCustomerName(value: string)
      modifies this
      ensures CellValues() == old(CellValues()).(customerName := value)
      ensures submitted == old(submitted)
    {
      customerName := value;
    }

    method ChangeContactNumber(value: string)
      modifies this
      ensures CellValues() == old(CellValues()).(contactNumber := value)
      ensures submitted == old(submitted)
    {
      contactNumber := value;
    }

    method ChangeEmailAddress(value: string)
      modifies this
      ensures CellValues() == old(CellValues()).(emailAddress := value)
      ensures submitted == old(submitted)
    {
      emailAddress := value;
    }

    method ChangeProductName(value: string)
      modifies this
      ensures CellValues() == old(CellValues()).(productName := value)
      ensures submitted == old(submitted)
    {
      productName := value;
    }

    /** `setAmount(parseFloat(value))`: NaN when nothing can be read. */
    method ChangeAmount(value: string, parseFloat: string -> Option<real>)
      modifies this
      ensures CellValues() == old(CellValues()).(amount := FromParse(parseFloat(value)))
      ensures submitted == old(submitted)
    {
      amount := FromParse(parseFloat(value));
    }

    /** `setDiscount(parseFloat(value))`: NaN when nothing can be read. */
    method ChangeDiscount(value: string, parseFloat: string -> Option<real>)
      modifies this
      ensures CellValues() == old(CellValues()).(discount := FromParse(parseFloat(value)))
      ensures submitted == old(submitted)
    {
      discount := FromParse(parseFloat(value));
    }

    /** `setGstRate(parseFloat(value))` from the rate select. */
    method ChangeGstRate(value: string, parseFloat: string -> Option<real>)
      modifies this
      ensures CellValues() == old(CellValues()).(gstRate := FromParse(parseFloat(value)))
      ensures submitted == old(submitted)
    {
      gstRate := FromParse(parseFloat(value));
    }

    method ChangeStatus(value: string)
      modifies this
      ensures CellValues() == old(CellValues()).(status := value)
      ensures submitted == old(submitted)
    {
      status := value;
    }

    method ChangeDate(value: string)
      modifies this
      ensures CellValues() == old(CellValues()).(date := value)
      ensures submitted == old(submitted)
    {
      date := value;
    }

    /** `handleFormSubmit`: marks the form submitted before anything is
        sent, whatever the outcome of the request, and posts the cells and
        the derived amounts to `invoiceAdd`; the cells stay as they are. */
    method HandleFormSubmit() returns (url: string, body: JsonObject)
      modifies this
      ensures submitted
      ensures CellValues() == old(CellValues())
      ensures url == ApiBase + "invoiceAdd"
      ensures body == EntryBody(old(CellValues()))
      ensures body.Keys == EntryKeys
    {
      EntryObjectKeys(CellValues(), CurrentTotals());
      submitted := true;
      url := ApiBase + "invoiceAdd";
      body := EntryBody(CellValues());
    }
  }
}
