/** The WhatsApp messages: the receipt of a sale and the shift report sent
    to the owner. What is modelled is the content the messages carry and the
    normalisation of the phone number they go to; the text layout, currency
    formatting, URL encoding and the sending itself are not. */
module WhatsApp {
  import opened Common
  import Storage

  /** The store name used when the settings hold none. */
  const DefaultStoreName: string := "E-Fuel POS"

  /** `settings?.storeName || 'E-Fuel POS'`. */
  function StoreName(settingsName: Option<string>): (name: string)
    ensures name != ""
    ensures settingsName.Some? && settingsName.value != "" ==> name == settingsName.value
  {
    if settingsName.Some? && settingsName.value != "" then settingsName.value else DefaultStoreName
  }

  // ---------------------------------------------------------------------
  // Phone numbers

  /** Keep the digits and turn a leading 0 into the country code 62. */
  function NormalizePhone(phone: string): string {
    var digits := StripNonDigits(phone);
    if StartsWith(digits, "0") then "62" + digits[1..] else digits
  }

  /** The normalised number holds only digits and never starts with 0; a
      leading 0 of the digits becomes 62, one character longer, and digits
      without a leading 0 are kept as they are. */
  lemma NormalizePhoneShape(phone: string)
    ensures AllDigits(NormalizePhone(phone))
    ensures !StartsWith(NormalizePhone(phone), "0")
    ensures StartsWith(StripNonDigits(phone), "0") ==>
      NormalizePhone(phone) == "62" + StripNonDigits(phone)[1..] &&
      |NormalizePhone(phone)| == |StripNonDigits(phone)| + 1
    ensures !StartsWith(StripNonDigits(phone), "0") ==> NormalizePhone(phone) == StripNonDigits(phone)
  {
    var r := NormalizePhone(phone);
    if StartsWith(StripNonDigits(phone), "0") {
      assert r[0] == '6';
    }
  }

  /** Normalising twice is normalising once. */
  lemma NormalizePhoneIdempotent(phone: string)
    ensures NormalizePhone(NormalizePhone(phone)) == NormalizePhone(phone)
  {
    var r := NormalizePhone(phone);
    NormalizePhoneShape(phone);
  }

  // ---------------------------------------------------------------------
  // Receipts

  /** `id.slice(0, 8)`: the receipt number. */
  function ReceiptNumber(id: string): (no: string)
    ensures |no| == if |id| < 8 then |id| else 8
    ensures StartsWith(id, no)
  {
    if |id| < 8 then id else id[..8]
  }

  /** What a receipt shows of a sale. */
  datatype Receipt = Receipt(storeName: string, number: string, timestamp: Instant, nominal: int, liter: int)

  function ReceiptOf(t: Storage.TransactionRecord, settingsName: Option<string>): (r: Receipt)
    ensures r.number == ReceiptNumber(t.id) && r.storeName == StoreName(settingsName)
    ensures r.timestamp == t.timestamp && r.nominal == t.nominal && r.liter == t.liter
  {
    Receipt(StoreName(settingsName), ReceiptNumber(t.id), t.timestamp, t.nominal, t.liter)
  }

  /** Two sales whose ids share their first eight characters print the same
      receipt number: the number does not identify a sale on its own. */
  lemma ReceiptNumberSharedPrefix(a: string, b: string)
    requires |a| >= 8 && |b| >= 8 && a[..8] == b[..8]
    ensures ReceiptNumber(a) == ReceiptNumber(b)
  {
  }

  // ---------------------------------------------------------------------
  // Shift reports

  /** The figures of a closed shift handed to the report. */
  datatype ShiftData = ShiftData(requesterName: string, initialCash: int, expectedCash: int, finalCash: int)

  datatype ShiftReport = ShiftReport(storeName: string, requesterName: string, initialCash: int,
                                     expectedCash: int, finalCash: int, variance: int)

  /** `generateShiftReport`: the variance is the counted cash less the
      expected cash, so it is negative exactly when cash is missing. */
  function ShiftReportOf(data: ShiftData, storeName: string): (r: ShiftReport)
    ensures r.expectedCash + r.variance == r.finalCash
    ensures r.variance < 0 <==> data.finalCash < data.expectedCash
    ensures r.storeName == storeName && r.requesterName == data.requesterName
    ensures r.initialCash == data.initialCash && r.expectedCash == data.expectedCash && r.finalCash == data.finalCash
  {
    ShiftReport(storeName, data.requesterName, data.initialCash, data.expectedCash, data.finalCash,
                data.finalCash - data.expectedCash)
  }

  /** How a shift report leaves the device: posted to the messaging API,
      or opened as a wa.me link, in each case to a normalised number. */
  datatype Delivery = ApiPost(target: string, report: ShiftReport) | OpenLink(target: string, report: ShiftReport)

  /** `sendShiftReportToOwner`: nothing is sent without an owner phone; with
      an API key the report is posted, and the link is opened instead when the
      post throws; without a key the link is opened. */
  function OwnerDelivery(data: ShiftData, ownerPhone: Option<string>, settingsName: Option<string>,
                         apiKey: Option<string>, postThrows: bool): (sent: seq<Delivery>)
    ensures ownerPhone.None? || ownerPhone.value == "" <==> sent == []
    ensures forall d :: d in sent ==> d.target == NormalizePhone(ownerPhone.value) &&
                                      d.report == ShiftReportOf(data, StoreName(settingsName))
    ensures (exists d :: d in sent && d.OpenLink?) <==>
      sent != [] && (apiKey.None? || apiKey.value == "" || postThrows)
    ensures (exists d :: d in sent && d.ApiPost?) <==> sent != [] && apiKey.Some? && apiKey.value != ""
  {
    if ownerPhone.None? || ownerPhone.value == "" then []
    else
      var report := ShiftReportOf(data, StoreName(settingsName));
      var target := NormalizePhone(ownerPhone.value);
      if apiKey.Some? && apiKey.value != "" then
        if postThrows then [ApiPost(target, report), OpenLink(target, report)] else [ApiPost(target, report)]
      else [OpenLink(target, report)]
  }

  /** Every delivery goes to a number that holds only digits and does not
      start with 0. */
  lemma DeliveryTargetsNormalized(data: ShiftData, ownerPhone: Option<string>, settingsName: Option<string>,
                                  apiKey: Option<string>, postThrows: bool)
    ensures forall d :: d in OwnerDelivery(data, ownerPhone, settingsName, apiKey, postThrows) ==>
      AllDigits(d.target) && !StartsWith(d.target, "0")
  {
    if ownerPhone.Some? {
      NormalizePhoneShape(ownerPhone.value);
    }
  }
}
