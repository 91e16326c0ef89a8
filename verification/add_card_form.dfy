/** The add-card screen: three required fields, an exact length for the last
    four digits, and a credit-card wallet payload built from the text fields. */
module AddCardForm {
  import opened Wrappers
  import Numbers
  import ApiClient

  const CreditCard := "credit_card"
  const MissingFields := "Please fill in Name, Last 4 digits, and Total Limit"
  const BadLast4 := "Last 4 digits must be exactly 4 numbers"
  const AddFailed := "Failed to add card"

  datatype CardFields = CardFields(name: string, last4: string, totalLimit: string, billDate: string,
                                   dueDate: string, additionalCharges: string)

  /** The fields' starting text: every one empty except the charges, `"0"`. */
  const InitialFields := CardFields("", "", "", "", "", "0")

  /** The wallet request body; `None` is `null` (or the `NaN` it serialises to). */
  datatype CardPayload = CardPayload(name: string, walletType: string, balance: int, last4: string,
                                     totalLimit: Option<int>, billDate: Option<int>, dueDate: Option<int>,
                                     additionalCharges: int)

  /** `billDate ? parseInt(billDate) : null` */
  function OptionalDay(text: string): (r: Option<int>)
    ensures text == "" ==> r == None
    ensures text != "" ==> r == Numbers.ParseInt(text)
  {
    if text == "" then None else Numbers.ParseInt(text)
  }

  /** `parseFloat(text) || 0`: an unreadable (or zero) amount is sent as 0. */
  function AmountOrZero(text: string): (r: int)
    ensures Numbers.ParseFloatWhole(text).Some? ==> r == Numbers.ParseFloatWhole(text).value
    ensures Numbers.ParseFloatWhole(text).None? ==> r == 0
  {
    Numbers.ParseFloatWhole(text).GetOr(0)
  }

  /** `handleSave`: the request body, or the alert shown instead. */
  function HandleSave(f: CardFields): (r: Result<CardPayload, string>)
    ensures f.name == "" || f.last4 == "" || f.totalLimit == "" ==> r == Err(MissingFields)
    ensures f.name != "" && f.last4 != "" && f.totalLimit != "" && |f.last4| != 4 ==> r == Err(BadLast4)
    ensures r.Ok? <==> f.name != "" && f.totalLimit != "" && |f.last4| == 4
    ensures r.Ok? ==> r.value.walletType == CreditCard && r.value.balance == 0
    ensures r.Ok? ==> r.value.name == f.name && r.value.last4 == f.last4
    ensures r.Ok? ==> r.value.totalLimit == Numbers.ParseFloatWhole(f.totalLimit)
    ensures r.Ok? ==> r.value.billDate == OptionalDay(f.billDate) && r.value.dueDate == OptionalDay(f.dueDate)
    ensures r.Ok? ==> r.value.additionalCharges == AmountOrZero(f.additionalCharges)
  {
    if f.name == "" || f.last4 == "" || f.totalLimit == "" then Err(MissingFields)
    else if |f.last4| != 4 then Err(BadLast4)
    else Ok(CardPayload(f.name, CreditCard, 0, f.last4, Numbers.ParseFloatWhole(f.totalLimit),
                        OptionalDay(f.billDate), OptionalDay(f.dueDate), AmountOrZero(f.additionalCharges)))
  }

  /** The length check counts characters, not digits: any four characters pass
      it and are sent as they are, four letters included. */
  lemma Last4IsNotCheckedForDigits(f: CardFields)
    requires f.name != "" && f.totalLimit != "" && |f.last4| == 4
    ensures HandleSave(f).Ok? && HandleSave(f).value.last4 == f.last4
    ensures HandleSave(f.(last4 := "abcd")).Ok?
  {
  }

  /** A typed day is sent as the number it spells. */
  lemma TypedDayIsSent(f: CardFields, day: nat)
    requires HandleSave(f).Ok? && f.billDate == Numbers.IntText(day)
    ensures HandleSave(f).value.billDate == Some(day)
  {
    Numbers.ParseIntText(day);
  }

  /** The alert after the request settles. */
  function AfterSave(reply: Option<Option<string>>): (alert: (string, string))
    ensures reply.None? ==> alert == ("Success", "Card added successfully")
    ensures reply.Some? ==> alert == ("Error", ApiClient.ErrorDetail(reply.value, AddFailed))
  {
    match reply
    case None => ("Success", "Card added successfully")
    case Some(detail) => ("Error", ApiClient.ErrorDetail(detail, AddFailed))
  }
}
