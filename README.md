# Invoice screens of a GST invoicing app, in Dafny

This project models the domain logic of three React screens of a small
invoicing app. The numbers follow India's GST: the tax is split evenly
into central (CGST) and state (SGST) parts.

- **Edit form** (`Record/page.tsx`) keeps one `formData` draft. A mount
  effect initialises the draft, either from an existing invoice or with
  today's date. Each input event then replaces exactly one field. On
  submit the form sends a `PUT` (update) or `POST` (create) request. The
  body is the draft plus three derived totals.
- **Entry form** (`Invoice/page.tsx`) keeps ten separate state cells and a
  `submitted` flag. It posts the cells and four derived totals to
  `invoiceAdd`. Its numeric inputs store `parseFloat(value)` as it is, so
  a cell can hold NaN.
- **Reminder dashboard** (`Page/page.tsx`) looks up an unpaid invoice by
  id. From it, it builds a WhatsApp `wa.me` link carrying a
  percent-encoded reminder message, a `tel:` link, and the body of an
  email-reminder request.

Modules:

- `Common` (common.dfy): optional values; the JavaScript numbers a cell
  can hold (`Num`: NaN or an exact finite value); JSON values and objects
  keyed by the property names the bodies use; the API base URL.
- `InvoiceTax` (invoice_tax.dfy): both variants of `calculateInvoice`,
  and what relates them.
- `IsoDate` (iso_date.dfy): `split("T")[0]` and `slice(0, 10)` on
  `toISOString` timestamps.
- `EditForm` (edit_form.dfy): the draft record, the class `InvoiceForm`
  (fields and methods of the edit form), and its request body.
- `EntryForm` (entry_form.dfy): the class `InvoiceEntry` (cells, setters,
  submit handler), and its request body.
- `UriComponent` (uri.dfy): `encodeURIComponent` and
  `decodeURIComponent`, per ECMA-262 section 19.2.6. Both convert through
  UTF-8 (RFC 3629) and percent-encode per section 2.1 of RFC 3986.
- `Reminder` (reminder.dfy): the lookup, the message, the three actions,
  and a parser for the query part of a URI, per appendix B of RFC 3986.

Amounts are exact `real`s. `parseFloat` is a parameter
`string -> Option<real>`, where None means NaN. `new Date(x).toISOString()`
and the page's number-to-string conversion are also parameters.

Differences between the two forms that the model keeps:

- The entry form's GST select offers 0, 5, 12, 18 and 28. The edit
  form's also offers 1 and 35 (`EntryGstRates`, `EditGstRates`,
  `DefaultRateOffered`).
- The entry form reports the grand total as remaining even when the
  invoice is paid; the edit form reports 0 (`VariantsCompared`).
- The entry form sends `paidAmount`. The edit form adds no `paidAmount`,
  `cgst` or `sgst` of its own to the draft it sends.
- Only the entry form has a `submitted` flag.
- The two forms cut the date differently: the edit form keeps what
  precedes the first `T`, the entry form the first ten characters. They
  agree on the timestamps `toISOString` writes for years 0 to 9999
  (`DatePartOfIsoTimestamp`), and differ on a six-digit year such as
  `+020000-01-01T00:00:00.000Z` (`ExpandedYearParts`).

## Model

| member | source | states |
|---|---|---|
| Common.FromParse | Invoice/page.tsx:248 | The cell holds a finite number exactly when `parseFloat` read one, and it holds that number; otherwise it holds NaN. |
| Common.OrZero | Record/page.tsx:66 | `parseFloat(value)` falling back to 0: a failed read gives 0, a successful one its number. |
| Common.NumJson | Invoice/page.tsx:140-155 | `JSON.stringify` writes a number as JSON `null` exactly when it is NaN, and a finite number as itself. |
| InvoiceTax.EditTotals | Record/page.tsx:117-135 | The total before tax is `amount*(1-discount/100)`; the grand total is that times `(1+gstRate/100)`; CGST equals SGST and together they are the GST; paid is the grand total when the status is "Paid" and 0 for any other status; remaining is the grand total minus paid, so 0 when paid and the grand total otherwise. |
| InvoiceTax.EditTotalsBounds | Record/page.tsx:117-135 | Assume a non-negative amount, a discount in [0, 100] and a non-negative rate. Then `0 <= totalWithoutGst <= amount`, `totalWithGst >= totalWithoutGst`, and `0 <= remainingAmount <= totalWithGst`. |
| InvoiceTax.EntryTotals | Invoice/page.tsx:57-83 | CGST equals SGST; paid is the grand total when the status is "Paid" and 0 otherwise; remaining is always the grand total. |
| InvoiceTax.EntryTotalsFinite | Invoice/page.tsx:57-73 | On finite cells, the total before tax and the grand total follow the same algebra as the edit form, CGST = SGST = GST/2, and the Paid branch leaves the grand total as it would be for any other status. |
| InvoiceTax.EntryTotalsNaN | Invoice/page.tsx:58-67 | A NaN amount or discount makes every amount NaN. A NaN rate makes everything NaN except the total before tax. Paid is NaN only for a paid invoice. |
| InvoiceTax.VariantsCompared | Invoice/page.tsx:57-83 | On the same finite inputs, both variants give the same total before tax, grand total, CGST, SGST and paid amount. Their remaining amounts agree if and only if the status is not "Paid" or the grand total is 0. |
| InvoiceTax.EditTotalsExample | Record/page.tsx:117-135 | 1000 at 10% off and 18% GST gives 900, 1062, 81 and 81, with nothing remaining when paid; the entry form still reports 1062 remaining. All-zero inputs give all-zero amounts. |
| IsoDate.DatePart | Record/page.tsx:49 | `split("T")[0]` is a prefix of the string with no `T` in it, and it ends where the first `T` stands. |
| IsoDate.FirstTen | Invoice/page.tsx:27 | `slice(0, 10)` is the prefix of length min(10, length). |
| IsoDate.DatePartBeforeFirstT | Record/page.tsx:49 | If the first `T` is at position k, the date part is the first k characters. |
| IsoDate.DatePartOfIsoTimestamp | Record/page.tsx:52 | On a `YYYY-MM-DDTHH:mm:ss.sssZ` timestamp, both ways of cutting give the first ten characters, and those form a `YYYY-MM-DD` date. |
| IsoDate.ExpandedYearParts | Invoice/page.tsx:27 | On the six-digit-year timestamp `+020000-01-01T00:00:00.000Z`, `split("T")[0]` keeps the whole date and `slice(0, 10)` cuts it short. |
| EditForm.ChangedValue | Record/page.tsx:64-67 | Only amount, discount and gstRate store a number: the parsed number, or 0. Every other input stores the event's text verbatim. |
| EditForm.DraftDeterminedByFields | Record/page.tsx:60-69 | Two drafts that agree on every input, on their id and on their active flag are equal. So the field-wise facts of `HandleChange` pin down the whole new draft. |
| EditForm.BodyKeys | Record/page.tsx:87-92 | The body's properties are the draft's own properties plus `totalWithoutGst`, `totalWithGst` and `remainingAmount`. |
| EditForm.BodyOmitsPaidAndSplit | Record/page.tsx:87-92 | The submit adds no `paidAmount`, `cgst` or `sgst` of its own: for a draft with the interface's fields, the body has none of them. |
| EditForm.SubmitBody | Record/page.tsx:87-92 | No contract of its own. `ReadDraftOfSubmitBody` shows the whole draft reads back out of it, and `BodyKeys`, `BodyKeepsDraft` and `BodyTotals` give its properties and their values. |
| EditForm.DefaultRateOffered | Record/page.tsx:341-347 | The default rate 18 is one of the edit form's rates. The entry form's rates are a subset of the edit form's, lacking exactly 1 and 35. |
| EditForm.BodyKeepsDraft | Record/page.tsx:87-88 | Every property of the draft reaches the body unchanged. |
| EditForm.BodyTotals | Record/page.tsx:89-91 | The three added properties hold the given amounts. |
| EditForm.ReadDraftOfDraftObject | Record/page.tsx:88 | Reading a draft back out of its own JSON object gives that draft, `_id` included exactly when the draft has one. |
| EditForm.ReadDraftOfSubmitBody | Record/page.tsx:87-92 | The whole draft can be read back out of the submitted body. |
| EditForm.InvoiceForm.constructor | Record/page.tsx:29-43 | A new form's draft is the default: empty names, "N/A" for contact, email, address and GST number, amount and discount 0, rate 18, status "Unpaid", active, no id. |
| EditForm.InvoiceForm.Initialise | Record/page.tsx:45-58 | With an existing invoice, the draft becomes that invoice, its date replaced by the part before `T` of its ISO form (or "" when it has no date). Without one, only the date changes, to today's date part. |
| EditForm.InvoiceForm.HandleChange | Record/page.tsx:60-69 | The named input takes the coerced value; every other input, the id and the active flag keep their values. |
| EditForm.InvoiceForm.HandleSubmit | Record/page.tsx:74-92 | An existing invoice gives `PUT` to `updateInvoice/<id>` (the id is written `undefined` when absent); otherwise `POST` to `invoiceAdd`. The body's properties are the draft's plus three totals; the submit adds no paid amount, CGST or SGST. The draft reads back out of the body unchanged, and the totals are the calculator's for the current draft. |
| EntryForm.DefaultCells | Invoice/page.tsx:19-28 | The five text cells start empty; amount and discount start at 0, the rate at 18 (one of the offered rates), the status at "Unpaid" (not paid). The date is the first ten characters of today's timestamp; on a standard timestamp these are its `YYYY-MM-DD` date. |
| EntryForm.EntryObjectKeys | Invoice/page.tsx:140-155 | The body has exactly the ten cells and the four derived totals. |
| EntryForm.EntryObjectOmits | Invoice/page.tsx:140-155 | `paidAmount` is sent; `cgst`, `sgst`, `_id`, `address`, `gstNumber` and `isActive` are not. |
| EntryForm.EntryBodyAmounts | Invoice/page.tsx:151-154 | The body's totals are the calculator's; the remaining amount sent is always the grand total sent; for a paid invoice, the paid amount sent equals the remaining amount sent. |
| EntryForm.EntryBody | Invoice/page.tsx:140-155 | No contract of its own. `EntryObjectKeys` and `EntryObjectOmits` give its properties, and `EntryBodyAmounts` its amounts. |
| EntryForm.EntryBodyNaN | Invoice/page.tsx:140-155 | A NaN amount is sent as `null`, and a NaN in any numeric cell makes the grand total and the remaining amount `null`. The amount input has no `required` (Invoice/page.tsx:243-249), so an empty or unreadable amount reaches this body. The rate cannot be NaN: every option of its select (Invoice/page.tsx:274-278) reads as a number. An empty discount is blocked by `required` (Invoice/page.tsx:263). |
| EntryForm.InvoiceEntry.constructor | Invoice/page.tsx:19-29 | The cells start at their defaults and the form is not submitted. |
| EntryForm.InvoiceEntry.ChangeCompanyName | Invoice/page.tsx:189 | Only the company name changes, to the text; `submitted` stays as it was. |
| EntryForm.InvoiceEntry.ChangeCustomerName | Invoice/page.tsx:200 | Only the customer name changes, to the text; `submitted` stays as it was. |
| EntryForm.InvoiceEntry.ChangeContactNumber | Invoice/page.tsx:213 | Only the contact number changes, to the text; `submitted` stays as it was. |
| EntryForm.InvoiceEntry.ChangeEmailAddress | Invoice/page.tsx:224 | Only the email address changes, to the text; `submitted` stays as it was. |
| EntryForm.InvoiceEntry.ChangeProductName | Invoice/page.tsx:237 | Only the product name changes, to the text; `submitted` stays as it was. |
| EntryForm.InvoiceEntry.ChangeAmount | Invoice/page.tsx:248 | Only the amount changes, to `parseFloat(value)` (NaN when nothing can be read); `submitted` stays as it was. |
| EntryForm.InvoiceEntry.ChangeDiscount | Invoice/page.tsx:262 | Only the discount changes, to `parseFloat(value)` (NaN when nothing can be read); `submitted` stays as it was. |
| EntryForm.InvoiceEntry.ChangeGstRate | Invoice/page.tsx:272 | Only the rate changes, to `parseFloat(value)`; `submitted` stays as it was. |
| EntryForm.InvoiceEntry.ChangeStatus | Invoice/page.tsx:289 | Only the status changes, to the text; `submitted` stays as it was. |
| EntryForm.InvoiceEntry.ChangeDate | Invoice/page.tsx:302 | Only the date changes, to the text; `submitted` stays as it was. |
| EntryForm.InvoiceEntry.HandleFormSubmit | Invoice/page.tsx:135-159 | The form becomes submitted and no cell changes. The request goes to `invoiceAdd` and carries exactly the body of the cells as they were, with its fourteen properties. |
| UriComponent.Utf8 | Page/page.tsx:53 | A character takes 1, 2, 3 or 4 UTF-8 octets, according to the range of its code point. |
| UriComponent.Encode | Page/page.tsx:53 | No contract of its own. `DecodeEncode` shows decoding gives the string back; `EncodeAlphabet` and `EncodeHasNoDelimiters` bound the characters it writes. |
| UriComponent.DecodeEncode | Page/page.tsx:52-53 | `decodeURIComponent(encodeURIComponent(s)) == s` for every string `s`. |
| UriComponent.EncodeAlphabet | Page/page.tsx:53 | Every character of the encoding is a letter, a digit, one of `- _ . ! ~ * ' ( )`, or `%`. |
| UriComponent.EncodeHasNoDelimiters | Page/page.tsx:53 | The encoding contains no space, newline, `&`, `=`, `+`, `?`, `#` or `/`. |
| UriComponent.EncodeRupeeSign | Page/page.tsx:50-53 | The rupee sign of the message is encoded as `%E2%82%B9`. |
| Reminder.Find | Page/page.tsx:46 | The lookup finds nothing if and only if no invoice has the id. What it finds is in the list and has the id. |
| Reminder.FindIsFirst | Page/page.tsx:46 | The lookup yields the first invoice with the id. |
| Reminder.Message | Page/page.tsx:50 | The message is the greeting, the customer's name, the fixed reminder text ending in the rupee sign, the amount text, and the closing sentence, each verbatim at its place. |
| Reminder.ChatLink | Page/page.tsx:56 | No contract of its own. `ChatLinkQuery` shows its URI query is `text=` and the encoded text, which decodes back to the text. |
| Reminder.WhatsAppLink | Page/page.tsx:45-61 | The WhatsApp action builds no link if and only if the lookup finds nothing. Otherwise its link is `https://wa.me/`, the contact number, `?text=` and the encoded message for the invoice found. |
| Reminder.ChatLinkQuery | Page/page.tsx:53-56 | If the contact number has no `?` or `#`, the link's URI query is exactly `text=` followed by the encoded text. That text holds no query delimiter, and it decodes back to the text. |
| Reminder.WhatsAppLinkReadsBack | Page/page.tsx:45-61 | For a found invoice whose number has no `?` or `#`, the query of the reminder link carries the encoded message, and decoding it gives the message exactly. |
| Reminder.CallLink | Page/page.tsx:84-96 | The call action builds no link if and only if the lookup finds nothing. Otherwise the link's `tel:` scheme is followed by exactly the contact number, unchecked. |
| Reminder.EmailReminder | Page/page.tsx:64-74 | The email action sends nothing if and only if the lookup finds nothing. Otherwise it posts to `sendEmailReminder/<id>` a body with exactly `email`, `remainingAmount` and `customerName`, copied unchanged from the invoice found. |
| Reminder.ActionsUseFirstMatch | Page/page.tsx:45-96 | All three actions act on the first invoice with the id. |
| Reminder.RaviExample | Page/page.tsx:45-61 | For Ravi at 919999999999 owing 500, the link goes to `https://wa.me/919999999999?text=`, its query decodes to the message, and the call link is `tel:919999999999`. An id not in the list gives no link. |

## Left out

- HTTP: the requests are modelled as values (method, URL and body):
  - `fetch` and `axios` calls, their responses, `alert`, `console` and router navigation are left out;
  - so is fetching the unpaid list once on mount (Page/page.tsx:26-40): the list is a parameter.
- Printing to PDF (frames, windows, `document.write`, `print`) is DOM plumbing and is not modelled.
- The lead table and the unused `records` state of the edit form are not modelled: there is no logic in them.
- Focus and blur styling, the CSS constants and `window.location` assignments are left out. Only the link strings are modelled.
- `toFixed(2)` formatting and IEEE-754 doubles are left out. The amounts are exact reals, which the source's doubles only approximate:
  - `InvoiceTax.EditTotals`: its algebraic identities hold for exact reals, not for rounded doubles;
  - `InvoiceTax.EntryTotals`: infinities are not modelled, only NaN and finite values.
- The internals of `parseFloat` are a parameter from text to an optional number.
- `Date` and `toISOString` are parameters. An invalid date, on which `toISOString` throws, is not modelled.
- Number-to-string conversion inside template strings is a parameter (`show`) in `Reminder.WhatsAppLink`.
- `...Invoice` in the edit form's mount effect can carry properties beyond the `Invoice` interface. The model's draft has exactly the interface's fields.
- EditForm.InvoiceForm.Initialise: the draft holds exactly the interface's fields. An existing invoice that the server returns with more properties (such as the `paidAmount` the entry form posts) keeps them in `formData` in the source.
- EditForm.InvoiceForm.HandleSubmit: the body has no `paidAmount`, `cgst` or `sgst` only for drafts with exactly the interface's fields. In the source, `...formData` sends back any such extra property, unchanged and possibly stale after a status change.
- Browser constraint validation is not modelled. The source marks inputs `required` (Invoice/page.tsx:190-303, Record/page.tsx:202-383) and the email input `type="email"` (Invoice/page.tsx:222), and the browser fires no submit while one is empty or invalid. `EntryForm.InvoiceEntry.HandleFormSubmit` and `EditForm.InvoiceForm.HandleSubmit` are modelled as callable in every state.
- `address` and `gstNumber`, typed as unions with numbers and arrays, are modelled as strings.
- `encodeURIComponent` on lone surrogates, where it throws a URIError, is not modelled: Dafny characters are Unicode scalar values, so they cannot occur. An escaped surrogate such as `%ED%A0%80` is modelled: `Decode` rejects it.
- Double submits are not de-duplicated by the source, and the model adds no such rule. Each submit yields one request value.
- The success banner the `submitted` flag shows is markup; only the flag is modelled.
- Reminder.WhatsAppLinkReadsBack: requires the contact number to hold no `?` or `#`. The source does not check this, and a number holding either character moves the query.
