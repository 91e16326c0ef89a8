/** The add/edit transaction screen: the categories it offers, the receipt the
    image picker gives it, and `handleSave`, which validates, uploads a newly
    picked receipt, and then creates or updates the transaction. The upload and
    the save requests are answered by the server; their replies are inputs. */
module AddTransactionForm {
  import opened Wrappers
  import opened Seqs
  import Numbers
  import ApiClient

  const Expense := "expense"
  const Income := "income"
  const MissingFields := "Please enter an amount and select a category"
  const SaveFailed := "Failed to save transaction"
  const PickFailed := "Failed to pick image"
  const DefaultReceiptName := "receipt.jpg"

  datatype CategoryOption = CategoryOption(id: int, catType: string)

  /** The filter callback `c => c.type === type`. */
  function HasType(t: string): CategoryOption -> bool {
    (c: CategoryOption) => c.catType == t
  }

  /** `filteredCategories`: the loaded categories of the current type, in order,
      or none while nothing is loaded. */
  function FilteredCategories(categories: Option<seq<CategoryOption>>, t: string): (r: seq<CategoryOption>)
    ensures categories.None? ==> r == []
    ensures forall i :: 0 <= i < |r| ==> r[i].catType == t
    ensures categories.Some? ==> forall i :: 0 <= i < |r| ==> r[i] in categories.value
    ensures categories.Some? ==> forall i :: 0 <= i < |categories.value| && categories.value[i].catType == t ==>
      categories.value[i] in r
  {
    match categories
    case None => []
    case Some(cs) => Filter(cs, HasType(t))
  }

  /** The transaction being edited, as the route passes it; its amount is the
      stored number, or `None` when the transaction has none. */
  datatype Edited = Edited(id: int, txType: string, amount: Option<int>, categoryId: int,
                           note: string, receiptUrl: string, date: string)

  /** A receipt: one already on the server, or one just picked on the device. */
  datatype Receipt = Receipt(uri: string, mimeType: Option<string>, name: Option<string>, isExisting: bool)

  datatype Asset = Asset(uri: string, mimeType: Option<string>, fileName: Option<string>)

  /** What the image picker hands to its callback. */
  datatype PickResult = PickResult(didCancel: bool, errorCode: Option<string>, errorMessage: Option<string>,
                                   assets: seq<Asset>)

  /** The save request's body; an `amount` of `None` is the `NaN` of an
      unreadable amount. */
  datatype Payload = Payload(txType: string, amount: Option<int>, note: string, categoryId: int,
                             receiptUrl: string, date: string)

  datatype Request = Add(payload: Payload) | Update(id: int, payload: Payload)

  /** The server's reply to a request. */
  datatype Reply<T> = Accepted(value: T) | Refused(detail: Option<string>)

  predicate NeedsUpload(receipt: Option<Receipt>) {
    receipt.Some? && !receipt.value.isExisting
  }

  /** The receipt url saved without an upload: the edited transaction's, else empty. */
  function KeptReceiptUrl(edit: Option<Edited>): (url: string)
    ensures edit.Some? ==> url == edit.value.receiptUrl
    ensures edit.None? ==> url == ""
  {
    if edit.Some? && edit.value.receiptUrl != "" then edit.value.receiptUrl else ""
  }

  /** The request `handleSave` sends once any upload has given `receiptUrl`. */
  function SaveRequest(edit: Option<Edited>, t: string, amount: string, note: string, categoryId: int,
                       receiptUrl: string, now: string): (r: Request)
    ensures edit.Some? <==> r.Update?
    ensures edit.Some? ==> r.id == edit.value.id
    ensures edit.Some? && edit.value.date != "" ==> r.payload.date == edit.value.date
    ensures edit.None? ==> r.payload.date == now
    ensures edit.Some? && edit.value.date == "" ==> r.payload.date == now
    ensures r.payload.txType == t && r.payload.note == note && r.payload.categoryId == categoryId
    ensures r.payload.receiptUrl == receiptUrl
    ensures r.payload.amount == Numbers.ParseFloatWhole(amount)
  {
    var date := if edit.Some? && edit.value.date != "" then edit.value.date else now;
    var payload := Payload(t, Numbers.ParseFloatWhole(amount), note, categoryId, receiptUrl, date);
    if edit.Some? then Update(edit.value.id, payload) else Add(payload)
  }

  /** The amount is not empty and a category other than the falsy 0 is chosen. */
  predicate FieldsFilled(amount: string, category: Option<int>) {
    amount != "" && category.Some? && category.value != 0
  }

  /** What one press of the save button adds: the alerts shown, the receipts
      uploaded and the requests sent. */
  datatype SaveEffects = SaveEffects(alerts: seq<(string, string)>, uploads: seq<Receipt>, requests: seq<Request>)

  /** The effects of `handleSave` on a form holding these values, given the
      server's replies to the upload and to the save request. */
  function SaveOutcome(edit: Option<Edited>, t: string, amount: string, category: Option<int>, note: string,
                       receipt: Option<Receipt>, now: string, uploadReply: Reply<string>, saveReply: Reply<()>): SaveEffects
  {
    if !FieldsFilled(amount, category) then SaveEffects([("Error", MissingFields)], [], [])
    else
      var uploads := if NeedsUpload(receipt) then [receipt.value] else [];
      if NeedsUpload(receipt) && uploadReply.Refused? then
        SaveEffects([("Error", ApiClient.ErrorDetail(uploadReply.detail, SaveFailed))], uploads, [])
      else
        var url := if NeedsUpload(receipt) then uploadReply.value else KeptReceiptUrl(edit);
        var alert := if saveReply.Refused? then ("Error", ApiClient.ErrorDetail(saveReply.detail, SaveFailed))
                     else ("Success", if edit.Some? then "Transaction updated successfully" else "Transaction saved successfully");
        SaveEffects([alert], uploads, [SaveRequest(edit, t, amount, note, category.value, url, now)])
  }

  /** Every press shows exactly one alert. Incomplete fields send nothing. A
      newly picked receipt is uploaded first, and a refused upload stops the
      save. Otherwise exactly one request goes out, carrying the uploaded url
      or the edited transaction's own, and the alert reports the server's
      answer to it. */
  lemma SaveOutcomeCases(edit: Option<Edited>, t: string, amount: string, category: Option<int>, note: string,
                         receipt: Option<Receipt>, now: string, uploadReply: Reply<string>, saveReply: Reply<()>)
    ensures var e := SaveOutcome(edit, t, amount, category, note, receipt, now, uploadReply, saveReply);
      && |e.alerts| == 1 && |e.requests| <= 1
      && (!FieldsFilled(amount, category) ==> e == SaveEffects([("Error", MissingFields)], [], []))
      && (FieldsFilled(amount, category) ==> e.uploads == if NeedsUpload(receipt) then [receipt.value] else [])
      && (FieldsFilled(amount, category) && NeedsUpload(receipt) && uploadReply.Refused? ==>
            e.requests == [] && e.alerts == [("Error", ApiClient.ErrorDetail(uploadReply.detail, SaveFailed))])
      && (|e.requests| == 1 <==> FieldsFilled(amount, category) && !(NeedsUpload(receipt) && uploadReply.Refused?))
      && (|e.requests| == 1 ==>
            e.requests[0] == SaveRequest(edit, t, amount, note, category.value,
                                         if NeedsUpload(receipt) then uploadReply.value else KeptReceiptUrl(edit), now)
            && (saveReply.Refused? ==> e.alerts[0] == ("Error", ApiClient.ErrorDetail(saveReply.detail, SaveFailed)))
            && (saveReply.Accepted? ==> e.alerts[0].0 == "Success"))
  {
  }

  class AddTransactionScreen {
    const edit: Option<Edited>
    var txType: string
    var amount: string
    /** `None` is `null`; category id 0 is as falsy as `null`. */
    var selectedCategory: Option<int>
    var description: string
    var receipt: Option<Receipt>
    var isUploading: bool
    var showPickerModal: bool
    /** Alerts shown, as (title, message). */
    var alerts: seq<(string, string)>
    /** Receipts sent to the upload endpoint, in order. */
    var uploads: seq<Receipt>
    /** Add and update requests sent, in order. */
    var requests: seq<Request>

    /** The form starts from the edited transaction, field by field with falsy
        values replaced by the defaults. */
    constructor (edit: Option<Edited>)
      ensures this.edit == edit
      ensures txType == (if edit.Some? && edit.value.txType != "" then edit.value.txType else Expense)
      ensures amount == (if edit.Some? && edit.value.amount.Some? then Numbers.IntText(edit.value.amount.value) else "")
      ensures selectedCategory == (if edit.Some? && edit.value.categoryId != 0 then Some(edit.value.categoryId) else None)
      ensures description == (if edit.Some? then edit.value.note else "")
      ensures receipt == (if edit.Some? && edit.value.receiptUrl != "" then Some(Receipt(edit.value.receiptUrl, None, None, true)) else None)
      ensures !isUploading && !showPickerModal && alerts == [] && uploads == [] && requests == []
    {
      this.edit := edit;
      txType := if edit.Some? && edit.value.txType != "" then edit.value.txType else Expense;
      amount := if edit.Some? && edit.value.amount.Some? then Numbers.IntText(edit.value.amount.value) else "";
      selectedCategory := if edit.Some? && edit.value.categoryId != 0 then Some(edit.value.categoryId) else None;
      description := if edit.Some? then edit.value.note else "";
      receipt := if edit.Some? && edit.value.receiptUrl != "" then Some(Receipt(edit.value.receiptUrl, None, None, true)) else None;
      isUploading, showPickerModal := false, false;
      alerts, uploads, requests := [], [], [];
    }

    /** The expense and income buttons: a new type drops the chosen category. */
    method SelectType(t: string)
      modifies this
      ensures txType == t && selectedCategory == None
      ensures amount == old(amount) && description == old(description) && receipt == old(receipt)
      ensures isUploading == old(isUploading) && showPickerModal == old(showPickerModal)
      ensures alerts == old(alerts) && uploads == old(uploads) && requests == old(requests)
    {
      txType := t;
      selectedCategory := None;
    }

    method SelectCategory(id: int)
      modifies this
      ensures selectedCategory == Some(id)
      ensures txType == old(txType) && amount == old(amount) && description == old(description) && receipt == old(receipt)
      ensures isUploading == old(isUploading) && showPickerModal == old(showPickerModal)
      ensures alerts == old(alerts) && uploads == old(uploads) && requests == old(requests)
    {
      selectedCategory := Some(id);
    }

    method SetAmount(text: string)
      modifies this
      ensures amount == text
      ensures txType == old(txType) && selectedCategory == old(selectedCategory) && description == old(description)
      ensures receipt == old(receipt) && isUploading == old(isUploading) && showPickerModal == old(showPickerModal)
      ensures alerts == old(alerts) && uploads == old(uploads) && requests == old(requests)
    {
      amount := text;
    }

    method SetDescription(text: string)
      modifies this
      ensures description == text
      ensures txType == old(txType) && selectedCategory == old(selectedCategory) && amount == old(amount)
      ensures receipt == old(receipt) && isUploading == old(isUploading) && showPickerModal == old(showPickerModal)
      ensures alerts == old(alerts) && uploads == old(uploads) && requests == old(requests)
    {
      description := text;
    }

    method OpenPicker()
      modifies this
      ensures showPickerModal
      ensures txType == old(txType) && selectedCategory == old(selectedCategory) && amount == old(amount)
      ensures description == old(description) && receipt == old(receipt) && isUploading == old(isUploading)
      ensures alerts == old(alerts) && uploads == old(uploads) && requests == old(requests)
    {
      showPickerModal := true;
    }

    /** `handleImageResult`: a cancelled or failed pick changes no receipt; the
        first picked asset becomes the new, not yet uploaded receipt. */
    method HandleImageResult(result: PickResult)
      modifies this
      ensures result.didCancel ==> receipt == old(receipt) && showPickerModal == old(showPickerModal) && alerts == old(alerts)
      ensures !result.didCancel && ApiClient.Truthy(result.errorCode) ==>
        receipt == old(receipt) && showPickerModal == old(showPickerModal)
        && alerts == old(alerts) + [("Error", ApiClient.ErrorDetail(result.errorMessage, PickFailed))]
      ensures !result.didCancel && !ApiClient.Truthy(result.errorCode) ==> !showPickerModal && alerts == old(alerts)
      ensures !result.didCancel && !ApiClient.Truthy(result.errorCode) && result.assets == [] ==> receipt == old(receipt)
      ensures !result.didCancel && !ApiClient.Truthy(result.errorCode) && result.assets != [] ==>
        var asset := result.assets[0];
        receipt == Some(Receipt(asset.uri, asset.mimeType,
                                Some(if ApiClient.Truthy(asset.fileName) then asset.fileName.value else DefaultReceiptName), false))
      ensures txType == old(txType) && selectedCategory == old(selectedCategory) && amount == old(amount)
      ensures description == old(description) && isUploading == old(isUploading)
      ensures uploads == old(uploads) && requests == old(requests)
    {
      if result.didCancel {
        return;
      }
      if ApiClient.Truthy(result.errorCode) {
        alerts := alerts + [("Error", ApiClient.ErrorDetail(result.errorMessage, PickFailed))];
        return;
      }
      if |result.assets| > 0 {
        var asset := result.assets[0];
        var name := if ApiClient.Truthy(asset.fileName) then asset.fileName.value else DefaultReceiptName;
        receipt := Some(Receipt(asset.uri, asset.mimeType, Some(name), false));
      }
      showPickerModal := false;
    }

    /** `handleSave` with the server's replies to the upload (used only when a
        new receipt is picked) and to the save request. Whatever happens after
        validation, `isUploading` is false again at the end. */
    method HandleSave(now: string, uploadReply: Reply<string>, saveReply: Reply<()>)
      modifies this
      ensures var e := SaveOutcome(edit, txType, amount, selectedCategory, description, receipt, now, uploadReply, saveReply);
        alerts == old(alerts) + e.alerts && uploads == old(uploads) + e.uploads && requests == old(requests) + e.requests
      ensures isUploading == (old(isUploading) && !FieldsFilled(amount, selectedCategory))
      ensures txType == old(txType) && selectedCategory == old(selectedCategory) && amount == old(amount)
      ensures description == old(description) && receipt == old(receipt) && showPickerModal == old(showPickerModal)
    {
      if !FieldsFilled(amount, selectedCategory) {
        alerts := alerts + [("Error", MissingFields)];
      } else {
        isUploading := true;
        var receiptUrl := KeptReceiptUrl(edit);
        var uploadFailed := false;
        if NeedsUpload(receipt) {
          uploads := uploads + [receipt.value];
          if uploadReply.Refused? {
            alerts := alerts + [("Error", ApiClient.ErrorDetail(uploadReply.detail, SaveFailed))];
            uploadFailed := true;
          } else {
            receiptUrl := uploadReply.value;
          }
        }
        if !uploadFailed {
          var request := SaveRequest(edit, txType, amount, description, selectedCategory.value, receiptUrl, now);
          requests := requests + [request];
          if saveReply.Refused? {
            alerts := alerts + [("Error", ApiClient.ErrorDetail(saveReply.detail, SaveFailed))];
          } else {
            var message := if edit.Some? then "Transaction updated successfully" else "Transaction saved successfully";
            alerts := alerts + [("Success", message)];
          }
        }
        isUploading := false;
      }
    }
  }

  /** Editing a transaction without picking a new receipt never re-uploads the
      stored one, and re-sends its amount, url, id and date. */
  method EditKeepsReceipt(edit: Edited, now: string, saveReply: Reply<()>) returns (screen: AddTransactionScreen)
    requires edit.receiptUrl != "" && edit.amount.Some? && edit.categoryId != 0
    ensures screen.uploads == [] && |screen.requests| == 1
    ensures screen.requests[0] == Update(edit.id, Payload(screen.txType, Some(edit.amount.value),
                                                          edit.note, edit.categoryId, edit.receiptUrl,
                                                          if edit.date != "" then edit.date else now))
  {
    screen := new AddTransactionScreen(Some(edit));
    Numbers.ParseFloatWholeText(edit.amount.value);
    screen.HandleSave(now, Refused(None), saveReply);
  }
}
