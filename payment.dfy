/**
 * The Midtrans payment adapter: which gateway call an order's payment method
 * selects, what the order row records of the answer, and the polled payment
 * status with its one-time write.
 */
module Payment {
  import opened Wrappers
  import opened Strings
  import opened Tables
  import opened Store
  import opened Request

  /** The `MIDTRANS_*` environment variables; `None` when unset. */
  datatype Env = Env(serverKey: Option<string>, clientKey: Option<string>, isProduction: Option<string>)

  datatype Config = Config(serverKey: string, clientKey: string, isProduction: bool)

  /** `midtransConfig`: the gateway is enabled exactly by a non-empty server key. */
  function ConfigOf(env: Env): (cfg: Option<Config>)
    ensures cfg.Some? <==> Truthy(env.serverKey)
    ensures cfg.Some? ==> Some(cfg.value.serverKey) == env.serverKey
    ensures cfg.Some? ==> cfg.value.clientKey == OrEmpty(env.clientKey)
    ensures cfg.Some? ==> (cfg.value.isProduction <==> env.isProduction == Some("true"))
  {
    var serverKey := OrEmpty(env.serverKey);
    var clientKey := OrEmpty(env.clientKey);
    var isProduction := (if Truthy(env.isProduction) then env.isProduction.value else "false") == "true";
    if serverKey == "" then None else Some(Config(serverKey, clientKey, isProduction))
  }

  // ---------------------------------------------------------------- requests

  /** The single `item_details` entry every request carries. */
  datatype Item = Item(id: string, name: string, quantity: int, price: int)

  /** The `payment_type` of a Core API charge with its channel-specific object. */
  datatype Channel = Qris(acquirer: string) | Echannel(billInfo1: string, billInfo2: string) | BankTransfer(bank: string)

  /** A Core API charge request. */
  datatype Charge = Charge(channel: Channel, orderId: string, grossAmount: int, item: Item)

  /** A Snap transaction; `enabledPayments` is `None` when the field is left undefined. */
  datatype SnapTransaction = SnapTransaction(orderId: string, grossAmount: int, item: Item, enabledPayments: Option<seq<string>>)

  /** One element of the `va_numbers` array of a charge answer. */
  datatype VaEntry = VaEntry(bank: Option<string>, vaNumber: Option<string>)

  /**
   * The fields of a charge answer the adapter reads. `actionUrls` holds the
   * `url` of each element of `actions`; a missing or non-array `actions` or
   * `va_numbers` is the empty sequence.
   */
  datatype ChargeResponse = ChargeResponse(
    actionUrls: seq<Option<string>>, qrString: Option<string>, vaNumbers: seq<VaEntry>,
    permataVa: Option<string>, bcaVa: Option<string>, bniVa: Option<string>, briVa: Option<string>,
    expiryTime: Option<string>, billerCode: Option<string>, billKey: Option<string>)

  datatype SnapResponse = SnapResponse(token: Option<string>, redirectUrl: Option<string>)

  datatype StatusResponse = StatusResponse(transactionStatus: Option<string>)

  /**
   * The gateway client: each call answers or throws (`Failure` with the
   * error's message).
   */
  datatype Gateway = Gateway(
    charge: (Config, Charge) -> Result<ChargeResponse>,
    createTransaction: (Config, SnapTransaction) -> Result<SnapResponse>,
    status: (Config, string) -> Result<StatusResponse>)

  const StubUrlPrefix := "https://sandbox.example/pay/"

  /** The placeholder payment page used while the gateway is disabled. */
  function StubUrl(orderId: nat): string
  {
    StubUrlPrefix + NatToString(orderId)
  }

  /** The gateway's order id `ORDER-{orderId}-{now}`, `now` being `Date.now()`. */
  function MidtransOrderId(orderId: nat, now: nat): string
  {
    "ORDER-" + NatToString(orderId) + "-" + NatToString(now)
  }

  function ItemFor(orderId: nat, itemName: string, total: int): (item: Item)
    ensures item.quantity == 1 && item.price == total && item.name == OrDefault(itemName, "Order")
  {
    Item("product-" + NatToString(orderId), OrDefault(itemName, "Order"), 1, total)
  }

  /**
   * `(bankCode || "bca").toString().trim().toLowerCase() || "bca"`: an absent,
   * empty or blank code is `"bca"`, any other is trimmed and lower-cased.
   */
  function NormalizeBank(bankCode: Option<string>): (bank: string)
    ensures bank != "" && IsTrimmed(bank)
    ensures !Truthy(bankCode) || Trim(bankCode.value) == "" ==> bank == "bca"
    ensures Truthy(bankCode) && Trim(bankCode.value) != "" ==> bank == ToLower(Trim(bankCode.value))
  {
    var code := if Truthy(bankCode) then bankCode.value else "bca";
    var bank := ToLower(Trim(code));
    ToLowerKeepsTrimmed(Trim(code));
    if bank == "" then "bca" else bank
  }

  /** Normalising a normalised code changes nothing. */
  lemma NormalizeBankIdempotent(bankCode: Option<string>)
    ensures NormalizeBank(Some(NormalizeBank(bankCode))) == NormalizeBank(bankCode)
  {
    if Truthy(bankCode) && Trim(bankCode.value) != "" {
      LowerTrimmedFixed(Trim(bankCode.value));
    } else {
      TrimOfTrimmed("bca");
      assert ToLower("bca") == "bca";
      NormalizeFixed("bca");
    }
  }

  lemma LowerTrimmedFixed(t: string)
    requires t != "" && IsTrimmed(t)
    ensures NormalizeBank(Some(ToLower(t))) == ToLower(t)
  {
    ToLowerKeepsTrimmed(t);
    TrimOfTrimmed(ToLower(t));
    ToLowerIdempotent(t);
    NormalizeFixed(ToLower(t));
  }

  /** A non-empty trimmed lower-case code normalises to itself. */
  lemma NormalizeFixed(bank: string)
    requires bank != "" && Trim(bank) == bank && ToLower(bank) == bank
    ensures NormalizeBank(Some(bank)) == bank
  {
  }

  /** The gateway request an order's payment needs, if any. */
  datatype Call = NoCall(url: string) | ChargeCall(charge: Charge) | SnapCall(transaction: SnapTransaction)

  /**
   * The branch `createPaymentForOrder` takes: the stub without a server key,
   * a QRIS charge, an echannel or bank-transfer charge, or a Snap transaction
   * for every other method.
   */
  function CallFor(cfg: Option<Config>, orderId: nat, total: int, payMethod: string, bankCode: Option<string>,
                   itemName: string, now: nat): (c: Call)
    ensures c.NoCall? <==> cfg.None?
    ensures c.NoCall? ==> c.url == StubUrl(orderId)
    ensures c.ChargeCall? <==> cfg.Some? && (payMethod == "qris" || payMethod == "bank_transfer")
    ensures c.ChargeCall? ==>
      c.charge.orderId == MidtransOrderId(orderId, now) && c.charge.grossAmount == total &&
      c.charge.item == ItemFor(orderId, itemName, total)
    ensures c.ChargeCall? ==> (c.charge.channel.Qris? <==> payMethod == "qris")
    ensures c.ChargeCall? && payMethod == "qris" ==> c.charge.channel == Qris("gopay")
    ensures c.ChargeCall? && payMethod == "bank_transfer" ==>
      (c.charge.channel.Echannel? <==> NormalizeBank(bankCode) == "mandiri") &&
      (c.charge.channel.Echannel? ==> c.charge.channel == Echannel("Payment", "Online")) &&
      (c.charge.channel.BankTransfer? ==> c.charge.channel.bank == NormalizeBank(bankCode))
    ensures c.SnapCall? ==>
      c.transaction.orderId == MidtransOrderId(orderId, now) && c.transaction.grossAmount == total &&
      c.transaction.item == ItemFor(orderId, itemName, total) &&
      c.transaction.enabledPayments == (if payMethod == "cash" then Some([]) else None)
  {
    if cfg.None? then NoCall(StubUrl(orderId))
    else
      var mid := MidtransOrderId(orderId, now);
      var item := ItemFor(orderId, itemName, total);
      if payMethod == "qris" then ChargeCall(Charge(Qris("gopay"), mid, total, item))
      else if payMethod == "bank_transfer" then
        var bank := NormalizeBank(bankCode);
        if bank == "mandiri" then ChargeCall(Charge(Echannel("Payment", "Online"), mid, total, item))
        else ChargeCall(Charge(BankTransfer(bank), mid, total, item))
      else
        var enabled := if payMethod == "bank_transfer" then Some(["bank_transfer"])
                       else if payMethod == "cash" then Some([]) else None;
        SnapCall(SnapTransaction(mid, total, item, enabled))
  }

  // ------------------------------------------------- virtual-account numbers

  /** The index of the first truthy candidate. */
  function FirstTruthy(xs: seq<Option<string>>): (k: Option<nat>)
    ensures k.Some? ==> k.value < |xs| && Truthy(xs[k.value]) && forall i :: 0 <= i < k.value ==> !Truthy(xs[i])
    ensures k.None? ==> forall i :: 0 <= i < |xs| ==> !Truthy(xs[i])
  {
    if xs == [] then None
    else if Truthy(xs[0]) then Some(0)
    else
      assert forall i :: 1 <= i < |xs| ==> xs[i] == xs[1..][i - 1];
      match FirstTruthy(xs[1..])
      case Some(j) => Some(j + 1)
      case None => None
  }

  /** The first truthy candidate is the one `FirstTruthy` finds. */
  lemma FirstTruthyIs(xs: seq<Option<string>>, k: nat)
    requires k < |xs| && Truthy(xs[k]) && forall i :: 0 <= i < k ==> !Truthy(xs[i])
    ensures FirstTruthy(xs) == Some(k)
  {
  }

  /** The banks of the single-value VA fields, in the order they are tried. */
  const FallbackBanks: seq<string> := ["permata", "bca", "bni", "bri"]

  /** `va_numbers[0]`, or an entry with nothing in it. */
  function FirstEntry(res: ChargeResponse): VaEntry
  {
    if |res.vaNumbers| > 0 then res.vaNumbers[0] else VaEntry(None, None)
  }

  /** The VA numbers in priority order: the first array entry, then one per fallback bank. */
  function VaCandidates(res: ChargeResponse): (xs: seq<Option<string>>)
    ensures |xs| == 1 + |FallbackBanks|
  {
    [FirstEntry(res).vaNumber, res.permataVa, res.bcaVa, res.bniVa, res.briVa]
  }

  /**
   * The bank code and VA number of a charge answer: the first truthy
   * candidate gives the number; the array entry's bank, when truthy, is kept,
   * and otherwise the bank of the fallback field that supplied the number.
   */
  function VaOf(res: ChargeResponse): (r: (Option<string>, Option<string>))
    ensures r.1.None? <==> forall i :: 0 <= i < |VaCandidates(res)| ==> !Truthy(VaCandidates(res)[i])
    ensures r.1.None? || Truthy(r.1)
    ensures r.0.None? || Truthy(r.0)
  {
    var entryBank := OrNull(FirstEntry(res).bank);
    match FirstTruthy(VaCandidates(res))
    case None => (entryBank, None)
    case Some(k) =>
      (if entryBank.Some? || k == 0 then entryBank else Some(FallbackBanks[k - 1]), VaCandidates(res)[k])
  }

  /** The bank code and number after the array entry and the first `k` fallback fields. */
  ghost function VaAfter(res: ChargeResponse, k: nat): (Option<string>, Option<string>)
    requires k <= |FallbackBanks|
  {
    if k == 0 then (OrNull(FirstEntry(res).bank), OrNull(FirstEntry(res).vaNumber))
    else
      var (bank, va) := VaAfter(res, k - 1);
      var field := VaCandidates(res)[k];
      if !Truthy(va) && Truthy(field) then (if Truthy(bank) then bank else Some(FallbackBanks[k - 1]), field)
      else (bank, va)
  }

  lemma VaAfterAll(res: ChargeResponse)
    ensures VaAfter(res, |FallbackBanks|) == VaOf(res)
  {
    var xs := VaCandidates(res);
    var steps := [VaAfter(res, 0), VaAfter(res, 1), VaAfter(res, 2), VaAfter(res, 3)];
    if Truthy(xs[0]) {
      FirstTruthyIs(xs, 0);
    } else if Truthy(xs[1]) {
      FirstTruthyIs(xs, 1);
    } else if Truthy(xs[2]) {
      FirstTruthyIs(xs, 2);
    } else if Truthy(xs[3]) {
      FirstTruthyIs(xs, 3);
    } else if Truthy(xs[4]) {
      FirstTruthyIs(xs, 4);
    }
  }

  /** The extraction as the adapter performs it, one fallback after another. */
  method ExtractVa(res: ChargeResponse) returns (bankCode: Option<string>, vaNumber: Option<string>)
    ensures (bankCode, vaNumber) == VaOf(res)
  {
    bankCode := None;
    vaNumber := None;
    if |res.vaNumbers| > 0 {
      bankCode := OrNull(res.vaNumbers[0].bank);
      vaNumber := OrNull(res.vaNumbers[0].vaNumber);
    }
    assert (bankCode, vaNumber) == VaAfter(res, 0);
    if !Truthy(vaNumber) && Truthy(res.permataVa) {
      bankCode := if Truthy(bankCode) then bankCode else Some("permata");
      vaNumber := res.permataVa;
    }
    assert (bankCode, vaNumber) == VaAfter(res, 1);
    if !Truthy(vaNumber) && Truthy(res.bcaVa) {
      bankCode := if Truthy(bankCode) then bankCode else Some("bca");
      vaNumber := res.bcaVa;
    }
    assert (bankCode, vaNumber) == VaAfter(res, 2);
    if !Truthy(vaNumber) && Truthy(res.bniVa) {
      bankCode := if Truthy(bankCode) then bankCode else Some("bni");
      vaNumber := res.bniVa;
    }
    assert (bankCode, vaNumber) == VaAfter(res, 3);
    if !Truthy(vaNumber) && Truthy(res.briVa) {
      bankCode := if Truthy(bankCode) then bankCode else Some("bri");
      vaNumber := res.briVa;
    }
    assert (bankCode, vaNumber) == VaAfter(res, 4);
    VaAfterAll(res);
  }

  /** A truthy number in the first array entry wins, together with that entry's bank. */
  lemma FirstVaEntryWins(res: ChargeResponse)
    requires |res.vaNumbers| > 0 && Truthy(res.vaNumbers[0].vaNumber)
    ensures VaOf(res) == (OrNull(res.vaNumbers[0].bank), res.vaNumbers[0].vaNumber)
  {
  }

  /**
   * Without a number in the array, the first truthy fallback field in the
   * order permata, bca, bni, bri supplies the number, and its bank when the
   * array entry named none.
   */
  lemma FallbackVa(res: ChargeResponse, k: nat)
    requires k < |FallbackBanks|
    requires !Truthy(FirstEntry(res).vaNumber)
    requires Truthy(VaCandidates(res)[k + 1])
    requires forall i :: 1 <= i < k + 1 ==> !Truthy(VaCandidates(res)[i])
    ensures VaOf(res).1 == VaCandidates(res)[k + 1]
    ensures VaOf(res).0 == if Truthy(FirstEntry(res).bank) then FirstEntry(res).bank else Some(FallbackBanks[k])
  {
    FirstTruthyIs(VaCandidates(res), k + 1);
  }

  /** A bank code already taken from the array entry is never replaced by a fallback's. */
  lemma EntryBankKept(res: ChargeResponse)
    requires Truthy(FirstEntry(res).bank)
    ensures VaOf(res).0 == FirstEntry(res).bank
  {
  }

  /** With no truthy candidate there is no VA number, and the bank is only the entry's. */
  lemma NoVaNumber(res: ChargeResponse)
    requires forall i :: 0 <= i < |VaCandidates(res)| ==> !Truthy(VaCandidates(res)[i])
    ensures VaOf(res) == (OrNull(FirstEntry(res).bank), None)
  {
  }

  /** `bankCodeResp || bank`: the stored bank code is the answer's, else the requested one. */
  function StoredBank(res: ChargeResponse, bank: string): (code: string)
    ensures VaOf(res).0.Some? ==> code == VaOf(res).0.value
    ensures VaOf(res).0.None? ==> code == bank
  {
    match VaOf(res).0
    case Some(b) => b
    case None => bank
  }

  // ------------------------------------------------------------ column writes

  /** `actions?.[0]?.url`. */
  function FirstActionUrl(res: ChargeResponse): Option<string>
  {
    if |res.actionUrls| > 0 then res.actionUrls[0] else None
  }

  /** The payment columns each branch's `UPDATE` assigns. */
  datatype Write =
    | StubWrite(stubUrl: string)
    | QrisWrite(actionUrl: Option<string>, qr: Option<string>, midtransId: string)
    | BankWrite(midtransId: string, bank: string, va: Option<string>, expiry: Option<string>,
                biller: Option<string>, billKey: Option<string>)
    | SnapWrite(token: Option<string>, redirectUrl: Option<string>, midtransId: string)

  /** The columns after the `UPDATE`; a column the statement does not name keeps its value. */
  function Apply(c: PaymentColumns, w: Write): (d: PaymentColumns)
    ensures !w.SnapWrite? ==> d.paymentToken == c.paymentToken
    ensures w.StubWrite? || w.SnapWrite? ==> d.paymentQr == c.paymentQr
    ensures w.StubWrite? ==> d.midtransOrderId == c.midtransOrderId
    ensures !w.StubWrite? ==> d.midtransOrderId == Some(w.midtransId)
  {
    match w
    case StubWrite(url) =>
      c.(paymentUrl := Some(url),
         bankCode := None, vaNumber := None, vaExpiredAt := None, billerCode := None, billKey := None)
    case QrisWrite(url, qr, mid) =>
      c.(paymentUrl := url, paymentQr := qr, midtransOrderId := Some(mid),
         bankCode := None, vaNumber := None, vaExpiredAt := None, billerCode := None, billKey := None)
    case BankWrite(mid, bank, va, expiry, biller, billKey) =>
      c.(paymentUrl := None, paymentQr := None, midtransOrderId := Some(mid),
         bankCode := Some(bank), vaNumber := va, vaExpiredAt := expiry, billerCode := biller, billKey := billKey)
    case SnapWrite(token, url, mid) =>
      c.(paymentToken := token, paymentUrl := url, midtransOrderId := Some(mid),
         bankCode := None, vaNumber := None, vaExpiredAt := None, billerCode := None, billKey := None)
  }

  /** The record `createPaymentForOrder` returns. */
  datatype PaymentInfo = PaymentInfo(
    paymentUrl: Option<string>, paymentToken: Option<string>, paymentQr: Option<string>,
    bankCode: Option<string>, vaNumber: Option<string>, vaExpiredAt: Option<string>,
    billerCode: Option<string>, billKey: Option<string>)

  /** The returned record of a branch: what it wrote, null elsewhere. */
  function InfoOf(w: Write): PaymentInfo
  {
    match w
    case StubWrite(url) => PaymentInfo(Some(url), None, None, None, None, None, None, None)
    case QrisWrite(url, qr, _) => PaymentInfo(url, None, qr, None, None, None, None, None)
    case BankWrite(_, bank, va, expiry, biller, billKey) => PaymentInfo(None, None, None, Some(bank), va, expiry, biller, billKey)
    case SnapWrite(token, url, _) => PaymentInfo(url, token, None, None, None, None, None, None)
  }

  /** The returned record agrees with the row on every column the branch writes. */
  lemma WrittenColumns(c: PaymentColumns, w: Write)
    ensures var d, info := Apply(c, w), InfoOf(w);
      d.paymentUrl == info.paymentUrl && d.bankCode == info.bankCode && d.vaNumber == info.vaNumber &&
      d.vaExpiredAt == info.vaExpiredAt && d.billerCode == info.billerCode && d.billKey == info.billKey &&
      (w.SnapWrite? ==> d.paymentToken == info.paymentToken) &&
      (w.QrisWrite? || w.BankWrite? ==> d.paymentQr == info.paymentQr)
  {
  }

  /** Only a bank transfer records a bank code, and it always records one. */
  lemma BankColumnsOnlyForBankTransfer(c: PaymentColumns, w: Write)
    ensures Apply(c, w).bankCode.Some? <==> w.BankWrite?
    ensures !w.BankWrite? ==>
      var d := Apply(c, w);
      d.vaNumber.None? && d.vaExpiredAt.None? && d.billerCode.None? && d.billKey.None?
    ensures w.BankWrite? ==> Apply(c, w).paymentUrl.None? && Apply(c, w).paymentQr.None?
  {
  }

  /**
   * The write of `createPaymentForOrder`, or the gateway's error. The stub
   * branch never fails; a QRIS answer gives `url || null` of the first
   * action and `qr_string || null`; a bank charge gives the extracted VA and
   * the answer's bank, else the normalised requested one.
   */
  function PlanPayment(cfg: Option<Config>, gw: Gateway, orderId: nat, total: int, payMethod: string,
                       bankCode: Option<string>, itemName: string, now: nat): (r: Result<Write>)
    ensures r.Failure? ==> cfg.Some?
    ensures cfg.None? ==> r == Success(StubWrite(StubUrl(orderId)))
    ensures r.Success? && cfg.Some? ==>
      (r.value.QrisWrite? <==> payMethod == "qris") &&
      (r.value.BankWrite? <==> payMethod == "bank_transfer") &&
      !r.value.StubWrite? && r.value.midtransId == MidtransOrderId(orderId, now)
    ensures r.Success? && r.value.QrisWrite? ==>
      (r.value.actionUrl.None? || Truthy(r.value.actionUrl)) && (r.value.qr.None? || Truthy(r.value.qr))
  {
    match CallFor(cfg, orderId, total, payMethod, bankCode, itemName, now)
    case NoCall(url) => Success(StubWrite(url))
    case ChargeCall(charge) =>
      (match gw.charge(cfg.value, charge)
       case Failure(m) => Failure(m)
       case Success(res) =>
         if payMethod == "qris" then Success(QrisWrite(OrNull(FirstActionUrl(res)), OrNull(res.qrString), charge.orderId))
         else
           Success(BankWrite(charge.orderId, StoredBank(res, NormalizeBank(bankCode)), VaOf(res).1,
                             OrNull(res.expiryTime), OrNull(res.billerCode), OrNull(res.billKey))))
    case SnapCall(tx) =>
      match gw.createTransaction(cfg.value, tx)
      case Failure(m) => Failure(m)
      case Success(res) => Success(SnapWrite(res.token, res.redirectUrl, tx.orderId))
  }

  /** The order row after a payment write: its method and its payment columns. */
  function WriteOrder(t: Table<Order>, id: nat, payMethod: string, w: Write): (u: Table<Order>)
    requires t.Valid()
    ensures u.Valid() && u.next == t.next && u.rows.Keys == t.rows.Keys
    ensures forall k :: k in t.rows && k != id ==> u.rows[k] == t.rows[k]
    ensures id in t.rows ==>
      u.rows[id] == t.rows[id].(paymentMethod := payMethod, payment := Apply(t.rows[id].payment, w))
  {
    if id in t.rows then UpdateRow(t, id, t.rows[id].(paymentMethod := payMethod, payment := Apply(t.rows[id].payment, w)))
    else t
  }

  /** `createPaymentForOrder`: call the gateway for the order's method and record the answer. */
  method CreatePaymentForOrder(db: Db, gw: Gateway, env: Env, orderId: nat, total: int, payMethod: string,
                               bankCode: Option<string>, itemName: string, now: nat)
    returns (r: Result<PaymentInfo>)
    requires db.Valid()
    modifies db
    ensures db.Valid()
    ensures var plan := PlanPayment(ConfigOf(env), gw, orderId, total, payMethod, bankCode, itemName, now);
      match plan
      case Failure(m) => r == Failure(m) && db.State() == old(db.State())
      case Success(w) =>
        r == Success(InfoOf(w)) &&
        db.State() == old(db.State()).(orders := WriteOrder(old(db.orders), orderId, payMethod, w))
  {
    ghost var plan := PlanPayment(ConfigOf(env), gw, orderId, total, payMethod, bankCode, itemName, now);
    var cfg := ConfigOf(env);
    if cfg.None? {
      var url := StubUrl(orderId);
      assert plan == Success(StubWrite(url));
      db.orders := WriteOrder(db.orders, orderId, payMethod, StubWrite(url));
      return Success(PaymentInfo(Some(url), None, None, None, None, None, None, None));
    }
    var mid := MidtransOrderId(orderId, now);
    var item := ItemFor(orderId, itemName, total);
    if payMethod == "qris" {
      assert CallFor(cfg, orderId, total, payMethod, bankCode, itemName, now) == ChargeCall(Charge(Qris("gopay"), mid, total, item));
      var res := gw.charge(cfg.value, Charge(Qris("gopay"), mid, total, item));
      if res.Failure? {
        assert plan == Failure(res.message);
        return Failure(res.message);
      }
      var actionUrl := OrNull(FirstActionUrl(res.value));
      var qr := OrNull(res.value.qrString);
      assert plan == Success(QrisWrite(actionUrl, qr, mid));
      db.orders := WriteOrder(db.orders, orderId, payMethod, QrisWrite(actionUrl, qr, mid));
      return Success(PaymentInfo(actionUrl, None, qr, None, None, None, None, None));
    }
    if payMethod == "bank_transfer" {
      var bank := NormalizeBank(bankCode);
      var charge;
      if bank == "mandiri" {
        charge := Charge(Echannel("Payment", "Online"), mid, total, item);
      } else {
        charge := Charge(BankTransfer(bank), mid, total, item);
      }
      assert CallFor(cfg, orderId, total, payMethod, bankCode, itemName, now) == ChargeCall(charge);
      var res := gw.charge(cfg.value, charge);
      if res.Failure? {
        assert plan == Failure(res.message);
        return Failure(res.message);
      }
      var bankResp, vaNumber := ExtractVa(res.value);
      var stored := if bankResp.Some? then bankResp.value else bank;
      var expiry := OrNull(res.value.expiryTime);
      var biller := OrNull(res.value.billerCode);
      var billKey := OrNull(res.value.billKey);
      assert plan == Success(BankWrite(mid, stored, vaNumber, expiry, biller, billKey));
      db.orders := WriteOrder(db.orders, orderId, payMethod, BankWrite(mid, stored, vaNumber, expiry, biller, billKey));
      return Success(PaymentInfo(None, None, None, Some(stored), vaNumber, expiry, biller, billKey));
    }
    var enabled := if payMethod == "bank_transfer" then Some(["bank_transfer"])
                   else if payMethod == "cash" then Some([]) else None;
    assert CallFor(cfg, orderId, total, payMethod, bankCode, itemName, now) == SnapCall(SnapTransaction(mid, total, item, enabled));
    var res := gw.createTransaction(cfg.value, SnapTransaction(mid, total, item, enabled));
    if res.Failure? {
      assert plan == Failure(res.message);
      return Failure(res.message);
    }
    assert plan == Success(SnapWrite(res.value.token, res.value.redirectUrl, mid));
    db.orders := WriteOrder(db.orders, orderId, payMethod, SnapWrite(res.value.token, res.value.redirectUrl, mid));
    return Success(PaymentInfo(res.value.redirectUrl, res.value.token, None, None, None, None, None, None));
  }

  /** Distinct orders get distinct stub pages. */
  lemma StubUrlInjective(a: nat, b: nat)
    requires StubUrl(a) == StubUrl(b)
    ensures a == b
  {
    assert NatToString(a) == StubUrl(a)[|StubUrlPrefix|..];
    assert NatToString(b) == StubUrl(b)[|StubUrlPrefix|..];
    NatToStringInjective(a, b);
  }

  /** The gateway order id splits at `-` back into its order id and timestamp. */
  lemma MidtransOrderIdSplit(orderId: nat, now: nat)
    ensures Split(MidtransOrderId(orderId, now), '-') == ["ORDER", NatToString(orderId), NatToString(now)]
  {
    var a, b := NatToString(orderId), NatToString(now);
    assert forall i :: 0 <= i < |a| ==> a[i] != '-';
    assert forall i :: 0 <= i < |b| ==> b[i] != '-';
    assert MidtransOrderId(orderId, now) == "ORDER" + ['-'] + (a + ['-'] + b);
    SplitAt("ORDER", '-', a + ['-'] + b);
    SplitAt(a, '-', b);
    SplitNone(b, '-');
  }

  /** Gateway order ids identify the order and the moment of the request. */
  lemma MidtransOrderIdInjective(a: nat, m: nat, b: nat, n: nat)
    requires MidtransOrderId(a, m) == MidtransOrderId(b, n)
    ensures a == b && m == n
  {
    MidtransOrderIdSplit(a, m);
    MidtransOrderIdSplit(b, n);
    NatToStringInjective(a, b);
    NatToStringInjective(m, n);
  }

  // ------------------------------------------------------------ order lookup

  /** `SELECT … FROM orders WHERE id = ?` followed by the ownership test. */
  function OwnedOrder(t: Table<Order>, user: nat, n: Num): (r: Option<nat>)
    ensures r.Some? <==> RowId(n).Some? && RowId(n).value in t.rows && t.rows[RowId(n).value].userId == user
    ensures r.Some? ==> r == RowId(n)
  {
    match RowId(n)
    case Some(id) => if id in t.rows && t.rows[id].userId == user then Some(id) else None
    case None => None
  }

  /** A JSON answer: a message, the payment record, or a payment status. */
  datatype Reply = Message(message: string) | Data(info: PaymentInfo) | Status(paid: bool, status: string)

  /** The body of `createPayment`, its string fields after `.toString()`. */
  datatype PaymentBody = PaymentBody(orderId: Field, paymentMethod: Option<string>, bankCode: Option<string>)

  /** `createPayment`: (re)create the payment of one of the caller's orders. */
  method CreatePayment(db: Db, gw: Gateway, env: Env, user: Principal, body: PaymentBody, now: nat)
    returns (status: int, reply: Reply)
    requires db.Valid()
    modifies db
    ensures db.Valid()
    ensures (IsFalsy(JsonToNumber(body.orderId)) || OrEmpty(body.paymentMethod) == "") ==>
      status == 400 && reply == Message("Invalid payload") && db.State() == old(db.State())
    ensures !IsFalsy(JsonToNumber(body.orderId)) && OrEmpty(body.paymentMethod) != "" &&
            OwnedOrder(old(db.orders), user.id, JsonToNumber(body.orderId)).None? ==>
      status == 404 && reply == Message("Order not found") && db.State() == old(db.State())
    ensures !IsFalsy(JsonToNumber(body.orderId)) && OrEmpty(body.paymentMethod) != "" &&
            OwnedOrder(old(db.orders), user.id, JsonToNumber(body.orderId)).Some? ==>
      var id := OwnedOrder(old(db.orders), user.id, JsonToNumber(body.orderId)).value;
      var payMethod := OrEmpty(body.paymentMethod);
      match PlanPayment(ConfigOf(env), gw, id, old(db.orders.rows[id].total), payMethod,
                        Some(OrEmpty(body.bankCode)), "Order", now)
      case Failure(_) => status == 500 && reply == Message("Server error") && db.State() == old(db.State())
      case Success(w) =>
        status == 200 && reply == Data(InfoOf(w)) &&
        db.State() == old(db.State()).(orders := WriteOrder(old(db.orders), id, payMethod, w))
  {
    var n := JsonToNumber(body.orderId);
    var payMethod := OrEmpty(body.paymentMethod);
    var bankCode := OrEmpty(body.bankCode);
    if IsFalsy(n) || payMethod == "" {
      return 400, Message("Invalid payload");
    }
    var row := OwnedOrder(db.orders, user.id, n);
    if row.None? {
      return 404, Message("Order not found");
    }
    var id := row.value;
    var r := CreatePaymentForOrder(db, gw, env, id, db.orders.rows[id].total, payMethod, Some(bankCode), "Order", now);
    if r.Failure? {
      return 500, Message("Server error");
    }
    return 200, Data(r.value);
  }

  // ---------------------------------------------------------- payment status

  /** The gateway statuses that mean the order is paid. */
  const PaidStatuses: seq<string> := ["settlement", "capture", "success"]

  /** `transaction_status || "pending"`. */
  function ReportedStatus(res: StatusResponse): (s: string)
    ensures s != ""
    ensures Truthy(res.transactionStatus) ==> s == res.transactionStatus.value
    ensures !Truthy(res.transactionStatus) ==> s == "pending"
  {
    if Truthy(res.transactionStatus) then res.transactionStatus.value else "pending"
  }

  /**
   * The answer of `getPaymentStatus` for an owned order: from the stored
   * payment status when the order has no gateway id, `pending` while the
   * gateway is disabled, and otherwise from the gateway's status.
   */
  function StatusOf(o: Order, cfg: Option<Config>, gw: Gateway): (r: Result<(bool, string)>)
    ensures !Truthy(o.payment.midtransOrderId) ==> r == Success((o.paymentStatus == "paid", o.paymentStatus))
    ensures Truthy(o.payment.midtransOrderId) && cfg.None? ==> r == Success((false, "pending"))
    ensures r.Success? && Truthy(o.payment.midtransOrderId) && cfg.Some? ==>
      (r.value.0 <==> r.value.1 in PaidStatuses) && r.value.1 != ""
    ensures r.Success? && r.value.0 ==> r.value.1 == "paid" || r.value.1 in PaidStatuses
  {
    if !Truthy(o.payment.midtransOrderId) then Success((o.paymentStatus == "paid", o.paymentStatus))
    else if cfg.None? then Success((false, "pending"))
    else match gw.status(cfg.value, o.payment.midtransOrderId.value)
      case Failure(m) => Failure(m)
      case Success(res) =>
        var s := ReportedStatus(res);
        Success((s in PaidStatuses, s))
  }

  /** An absent status reads as pending, which is not paid. */
  lemma MissingStatusIsPending(res: StatusResponse)
    requires !Truthy(res.transactionStatus)
    ensures ReportedStatus(res) == "pending" && ReportedStatus(res) !in PaidStatuses
  {
  }

  /** `UPDATE orders SET payment_status = 'paid', status = 'paid' WHERE id = ?`. */
  function MarkPaid(t: Table<Order>, id: nat): (u: Table<Order>)
    requires t.Valid()
    ensures u.Valid() && u.next == t.next && u.rows.Keys == t.rows.Keys
    ensures forall k :: k in t.rows && k != id ==> u.rows[k] == t.rows[k]
    ensures id in t.rows ==> u.rows[id] == t.rows[id].(paymentStatus := "paid", status := "paid")
  {
    if id in t.rows then UpdateRow(t, id, t.rows[id].(paymentStatus := "paid", status := "paid")) else t
  }

  /** Marking an order paid twice is marking it once. */
  lemma MarkPaidIdempotent(t: Table<Order>, id: nat)
    requires t.Valid()
    ensures MarkPaid(MarkPaid(t, id), id) == MarkPaid(t, id)
  {
    var u := MarkPaid(t, id);
    assert MarkPaid(u, id).rows == u.rows;
  }

  /** The status poll writes exactly when it sees a paid status on an order not yet paid. */
  predicate NeedsWrite(o: Order, paid: bool)
  {
    paid && o.paymentStatus != "paid"
  }

  /**
   * The write is one-time: after it the order is paid, so a later poll, whatever
   * the gateway says, writes nothing; and an answer from the stored status never writes.
   */
  lemma StatusWriteOnce(t: Table<Order>, id: nat, cfg: Option<Config>, gw: Gateway)
    requires t.Valid() && id in t.rows
    ensures var o := MarkPaid(t, id).rows[id];
      o.paymentStatus == "paid" && forall paid :: !NeedsWrite(o, paid)
    ensures !Truthy(t.rows[id].payment.midtransOrderId) || cfg.None? ==>
      StatusOf(t.rows[id], cfg, gw).Success? && !NeedsWrite(t.rows[id], StatusOf(t.rows[id], cfg, gw).value.0)
  {
  }

  /** `getPaymentStatus`: report, and record a newly observed payment once. */
  method GetPaymentStatus(db: Db, gw: Gateway, env: Env, user: Principal, idParam: string)
    returns (status: int, reply: Reply)
    requires db.Valid()
    modifies db
    ensures db.Valid()
    ensures IsFalsy(ToNumber(idParam)) ==>
      status == 400 && reply == Message("Invalid order id") && db.State() == old(db.State())
    ensures !IsFalsy(ToNumber(idParam)) && OwnedOrder(old(db.orders), user.id, ToNumber(idParam)).None? ==>
      status == 404 && reply == Message("Order not found") && db.State() == old(db.State())
    ensures !IsFalsy(ToNumber(idParam)) && OwnedOrder(old(db.orders), user.id, ToNumber(idParam)).Some? ==>
      var id := OwnedOrder(old(db.orders), user.id, ToNumber(idParam)).value;
      var o := old(db.orders.rows[id]);
      match StatusOf(o, ConfigOf(env), gw)
      case Failure(m) => status == 500 && reply == Message(OrDefault(m, "Server error")) && db.State() == old(db.State())
      case Success((paid, s)) =>
        status == 200 && reply == Status(paid, s) &&
        db.State() == old(db.State()).(orders := if NeedsWrite(o, paid) then MarkPaid(old(db.orders), id) else old(db.orders))
  {
    var n := ToNumber(idParam);
    if IsFalsy(n) {
      return 400, Message("Invalid order id");
    }
    var row := OwnedOrder(db.orders, user.id, n);
    if row.None? {
      return 404, Message("Order not found");
    }
    status, reply := PollStatus(db, gw, env, row.value);
  }

  /** The part of `getPaymentStatus` after the order is found: answer its status, and record a payment once. */
  method PollStatus(db: Db, gw: Gateway, env: Env, id: nat) returns (status: int, reply: Reply)
    requires db.Valid() && id in db.orders.rows
    modifies db
    ensures db.Valid()
    ensures var o := old(db.orders.rows[id]);
      match StatusOf(o, ConfigOf(env), gw)
      case Failure(m) => status == 500 && reply == Message(OrDefault(m, "Server error")) && db.State() == old(db.State())
      case Success((paid, s)) =>
        status == 200 && reply == Status(paid, s) &&
        db.State() == old(db.State()).(orders := if NeedsWrite(o, paid) then MarkPaid(old(db.orders), id) else old(db.orders))
  {
    var order := db.orders.rows[id];
    if !Truthy(order.payment.midtransOrderId) {
      return 200, Status(order.paymentStatus == "paid", order.paymentStatus);
    }
    var cfg := ConfigOf(env);
    if cfg.None? {
      return 200, Status(false, "pending");
    }
    var res := gw.status(cfg.value, order.payment.midtransOrderId.value);
    if res.Failure? {
      return 500, Message(OrDefault(res.message, "Server error"));
    }
    var s := ReportedStatus(res.value);
    var paid := s in PaidStatuses;
    if paid && order.paymentStatus != "paid" {
      db.orders := MarkPaid(db.orders, id);
    }
    return 200, Status(paid, s);
  }
}
