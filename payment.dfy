/** The x402 payment gate: a USDC transfer on Avalanche Fuji, named by its
    transaction hash, pays for one request. The verifier keeps a replay set of
    hashes already redeemed, asks the chain for the transaction's receipt, and
    grants access when the receipt succeeded and one of its decoded ERC-20
    `Transfer(from, to, value)` events pays the receiving wallet enough. */
module Payment {
  import opened Common

  /** Checksummed hex addresses, compared as already-normalised strings. */
  type Address = string
  type TxHash = string

  /** One decoded ERC-20 `Transfer` event; `value` is a uint256. */
  datatype Transfer = Transfer(sender: Address, to: Address, value: nat)

  /** A transaction receipt, abstracted to its status flag and the `Transfer`
      events decoded from its logs, in log order. */
  datatype Receipt = Receipt(status: int, transfers: seq<Transfer>)

  /** USDC has 6 decimals: one dollar is 10^6 units. */
  const UnitsPerUsd: real := 1000000.0

  /** HTTP 402 Payment Required, the status of every rejection. */
  const PaymentRequired: int := 402

  /** The request header that carries the transaction hash. */
  const PaymentHeader: string := "X-Payment-Tx"

  /** Why a payment is refused; each carries the detail text the server sends:
      "Payment hash already used.", "Transaction not found.",
      "Transaction failed on-chain.", and "No valid USDC transfer found.
      Required: $<usd> USD (<units> units)". */
  datatype Rejection =
    | HashAlreadyUsed
    | TransactionNotFound
    | FailedOnChain
    | NoValidTransfer(requiredUsd: real, requiredUnits: int)

  datatype Outcome = Granted(paymentHash: TxHash) | Rejected(statusCode: int, reason: Rejection)

  /** The price in USDC units: the dollar amount times 10^6, truncated toward zero. */
  function RequiredUnits(usd: real): (units: int)
    ensures 0.0 <= usd ==> 0 <= units && units as real <= usd * UnitsPerUsd < units as real + 1.0
    ensures usd <= 0.0 ==> units <= 0
  {
    Trunc(usd * UnitsPerUsd)
  }

  /** A transfer pays the gate when it goes to the receiving wallet and carries
      at least the required units. */
  predicate Pays(t: Transfer, receiver: Address, units: int)
  {
    t.to == receiver && t.value >= units
  }

  /** The position of the first paying transfer in log order, if any. */
  function FirstPayment(ts: seq<Transfer>, receiver: Address, units: int): (r: Option<nat>)
    ensures r.Some? ==> r.value < |ts| && Pays(ts[r.value], receiver, units)
    ensures r.Some? ==> forall j :: 0 <= j < r.value ==> !Pays(ts[j], receiver, units)
    ensures r.None? <==> forall j :: 0 <= j < |ts| ==> !Pays(ts[j], receiver, units)
  {
    if ts == [] then None
    else if Pays(ts[0], receiver, units) then Some(0)
    else match FirstPayment(ts[1..], receiver, units)
      case None => None
      case Some(i) => Some(i + 1)
  }

  /** The whole decision of one verification, given the replay set before the
      call and the receipts the chain would return (a hash absent from
      `receipts` is one whose lookup raises). */
  function Decide(usd: real, tx: TxHash, used: set<TxHash>, receipts: map<TxHash, Receipt>,
                  receiver: Address): (r: Outcome)
    ensures r.Granted? ==> r.paymentHash == tx && tx !in used && tx in receipts && receipts[tx].status == 1
    ensures r.Rejected? ==> r.statusCode == PaymentRequired
  {
    var units := RequiredUnits(usd);
    if tx in used then Rejected(PaymentRequired, HashAlreadyUsed)
    else if tx !in receipts then Rejected(PaymentRequired, TransactionNotFound)
    else if receipts[tx].status != 1 then Rejected(PaymentRequired, FailedOnChain)
    else if FirstPayment(receipts[tx].transfers, receiver, units).None? then
      Rejected(PaymentRequired, NoValidTransfer(usd, units))
    else Granted(tx)
  }

  /** Scans the transfers in log order and stops at the first one that pays. */
  method ScanTransfers(ts: seq<Transfer>, receiver: Address, units: int) returns (found: bool)
    ensures found <==> exists i :: 0 <= i < |ts| && Pays(ts[i], receiver, units)
  {
    found := false;
    var i := 0;
    while i < |ts|
      invariant 0 <= i <= |ts|
      invariant !found
      invariant forall j :: 0 <= j < i ==> !Pays(ts[j], receiver, units)
    {
      if ts[i].to == receiver {
        if ts[i].value >= units {
          found := true;
          break;
        }
      }
      i := i + 1;
    }
  }

  /** The Web3 RPC endpoint. `receipts` is what `get_transaction_receipt` would
      return; a hash it lacks stands for any exception the call raises.
      `lookups` records every hash the verifier asked about. */
  class Chain {
    const receipts: map<TxHash, Receipt>
    var lookups: seq<TxHash>

    constructor (receipts: map<TxHash, Receipt>)
      ensures this.receipts == receipts && lookups == []
    {
      this.receipts := receipts;
      lookups := [];
    }

    method GetTransactionReceipt(tx: TxHash) returns (r: Option<Receipt>)
      modifies this`lookups
      ensures r == if tx in receipts then Some(receipts[tx]) else None
      ensures lookups == old(lookups) + [tx]
    {
      lookups := lookups + [tx];
      r := if tx in receipts then Some(receipts[tx]) else None;
    }
  }

  /** The verifier and its replay set `USED_TRANSACTION_HASHES`. */
  class Verifier {
    const receiver: Address
    var used: set<TxHash>

    constructor (receiver: Address)
      ensures this.receiver == receiver && used == {}
    {
      this.receiver := receiver;
      used := {};
    }

    /** `verify_usdc_payment`: one call, run to completion before the next. */
    method Verify(usd: real, tx: TxHash, chain: Chain) returns (outcome: Outcome)
      modifies this`used, chain`lookups
      ensures outcome == Decide(usd, tx, old(used), chain.receipts, receiver)
      ensures used == if outcome.Granted? then old(used) + {tx} else old(used)
      ensures tx in old(used) ==> chain.lookups == old(chain.lookups)
      ensures tx !in old(used) ==> chain.lookups == old(chain.lookups) + [tx]
    {
      var units := RequiredUnits(usd);
      if tx in used {
        return Rejected(PaymentRequired, HashAlreadyUsed);
      }
      var receipt := chain.GetTransactionReceipt(tx);
      if receipt.None? {
        return Rejected(PaymentRequired, TransactionNotFound);
      }
      if receipt.value.status != 1 {
        return Rejected(PaymentRequired, FailedOnChain);
      }
      var found := ScanTransfers(receipt.value.transfers, receiver, units);
      if !found {
        return Rejected(PaymentRequired, NoValidTransfer(usd, units));
      }
      used := used + {tx};
      return Granted(tx);
    }
  }

  /** Two requests presenting the same hash one after the other: at most one
      is granted, and once one is, the next is refused as a replay. */
  method VerifyTwice(v: Verifier, chain: Chain, usd1: real, usd2: real, tx: TxHash)
    returns (first: Outcome, second: Outcome)
    modifies v`used, chain`lookups
    ensures first.Granted? ==> second == Rejected(PaymentRequired, HashAlreadyUsed)
    ensures !(first.Granted? && second.Granted?)
    ensures v.used == old(v.used) + (if first.Granted? || second.Granted? then {tx} else {})
  {
    first := v.Verify(usd1, tx, chain);
    second := v.Verify(usd2, tx, chain);
  }

  /** Access is granted exactly when the hash is fresh, the receipt exists and
      succeeded, and some transfer pays the receiving wallet enough. */
  lemma GrantedIff(usd: real, tx: TxHash, used: set<TxHash>, receipts: map<TxHash, Receipt>,
                   receiver: Address)
    ensures Decide(usd, tx, used, receipts, receiver).Granted? <==>
      tx !in used && tx in receipts && receipts[tx].status == 1 &&
      exists i :: 0 <= i < |receipts[tx].transfers| &&
        Pays(receipts[tx].transfers[i], receiver, RequiredUnits(usd))
    ensures Decide(usd, tx, used, receipts, receiver).Granted? ==>
      Decide(usd, tx, used, receipts, receiver).paymentHash == tx
  {
    var units := RequiredUnits(usd);
    if tx !in used && tx in receipts && receipts[tx].status == 1 {
      var ts := receipts[tx].transfers;
      if exists i :: 0 <= i < |ts| && Pays(ts[i], receiver, units) {
        var i :| 0 <= i < |ts| && Pays(ts[i], receiver, units);
        assert FirstPayment(ts, receiver, units).Some?;
      }
    }
  }

  /** A replayed hash is refused before the receipt is even looked at. */
  lemma ReplayRefusedFirst(usd: real, tx: TxHash, used: set<TxHash>,
                           receipts: map<TxHash, Receipt>, receiver: Address)
    requires tx in used
    ensures Decide(usd, tx, used, receipts, receiver) == Rejected(PaymentRequired, HashAlreadyUsed)
  {
  }

  /** A lookup that fails, for whatever reason, reads as "Transaction not found.". */
  lemma MissingReceiptRefused(usd: real, tx: TxHash, used: set<TxHash>,
                              receipts: map<TxHash, Receipt>, receiver: Address)
    requires tx !in used && tx !in receipts
    ensures Decide(usd, tx, used, receipts, receiver) == Rejected(PaymentRequired, TransactionNotFound)
  {
  }

  /** A failed transaction is refused whatever transfers it logged. */
  lemma FailedStatusRefused(usd: real, tx: TxHash, used: set<TxHash>, receipts: map<TxHash, Receipt>,
                            receiver: Address, status: int, ts: seq<Transfer>)
    requires tx !in used && status != 1
    ensures Decide(usd, tx, used, receipts[tx := Receipt(status, ts)], receiver)
         == Rejected(PaymentRequired, FailedOnChain)
  {
  }

  /** When nothing pays, the refusal names the dollar amount and the units required. */
  lemma NoPaymentNamesAmount(usd: real, tx: TxHash, used: set<TxHash>,
                             receipts: map<TxHash, Receipt>, receiver: Address)
    requires tx !in used && tx in receipts && receipts[tx].status == 1
    requires forall i :: 0 <= i < |receipts[tx].transfers| ==>
      !Pays(receipts[tx].transfers[i], receiver, RequiredUnits(usd))
    ensures Decide(usd, tx, used, receipts, receiver)
         == Rejected(PaymentRequired, NoValidTransfer(usd, RequiredUnits(usd)))
  {
  }

  /** The transfers to the receiving wallet, in log order. */
  function ToReceiver(ts: seq<Transfer>, receiver: Address): (r: seq<Transfer>)
    ensures forall i :: 0 <= i < |r| ==> r[i].to == receiver && r[i] in ts
    ensures forall t :: t in ts && t.to == receiver ==> t in r
  {
    if ts == [] then []
    else (if ts[0].to == receiver then [ts[0]] else []) + ToReceiver(ts[1..], receiver)
  }

  /** Transfers to any other address never matter, whatever their amount: the
      outcome is the same once they are all removed. */
  lemma {:induction false} OtherRecipientsIgnored(usd: real, tx: TxHash, used: set<TxHash>,
      receipts: map<TxHash, Receipt>, receiver: Address, status: int, ts: seq<Transfer>)
    ensures Decide(usd, tx, used, receipts[tx := Receipt(status, ts)], receiver)
         == Decide(usd, tx, used, receipts[tx := Receipt(status, ToReceiver(ts, receiver))], receiver)
  {
    var units := RequiredUnits(usd);
    FirstPaymentToReceiver(ts, receiver, units);
  }

  lemma {:induction false} FirstPaymentToReceiver(ts: seq<Transfer>, receiver: Address, units: int)
    ensures FirstPayment(ts, receiver, units).Some? <==>
            FirstPayment(ToReceiver(ts, receiver), receiver, units).Some?
  {
    var r := ToReceiver(ts, receiver);
    if FirstPayment(ts, receiver, units).Some? {
      var i := FirstPayment(ts, receiver, units).value;
      assert ts[i] in r;
      var k :| 0 <= k < |r| && r[k] == ts[i];
      assert Pays(r[k], receiver, units);
    }
    if FirstPayment(r, receiver, units).Some? {
      var k := FirstPayment(r, receiver, units).value;
      assert r[k] in ts;
      var i :| 0 <= i < |ts| && ts[i] == r[k];
      assert Pays(ts[i], receiver, units);
    }
  }

  /** Overpayment is accepted: raising the value of any transfer, or adding
      transfers, never turns a granted payment into a refusal. */
  lemma MoreValueStillGranted(usd: real, tx: TxHash, used: set<TxHash>, receiver: Address,
                              status: int, ts: seq<Transfer>, ts': seq<Transfer>)
    requires |ts| <= |ts'|
    requires forall i :: 0 <= i < |ts| ==> ts'[i].to == ts[i].to && ts'[i].value >= ts[i].value
    requires Decide(usd, tx, used, map[tx := Receipt(status, ts)], receiver).Granted?
    ensures Decide(usd, tx, used, map[tx := Receipt(status, ts')], receiver).Granted?
  {
    var units := RequiredUnits(usd);
    var i := FirstPayment(ts, receiver, units).value;
    assert Pays(ts'[i], receiver, units);
    GrantedIff(usd, tx, used, map[tx := Receipt(status, ts')], receiver);
  }

  /** A successful receipt with a single transfer to the receiving wallet is
      accepted exactly when it carries at least the required units. */
  lemma SingleTransferThreshold(usd: real, tx: TxHash, used: set<TxHash>, receiver: Address,
                                sender: Address, value: nat)
    requires tx !in used
    ensures Decide(usd, tx, used, map[tx := Receipt(1, [Transfer(sender, receiver, value)])], receiver)
         == if value >= RequiredUnits(usd) then Granted(tx)
            else Rejected(PaymentRequired, NoValidTransfer(usd, RequiredUnits(usd)))
  {
  }

  /** The 0.03 USD price of an SDXL image: 30000 units. Exactly 30000 units to
      the wallet pass, 29999 do not, and a failed transaction never does. */
  lemma SdxlScenario(tx: TxHash, receiver: Address, sender: Address)
    ensures RequiredUnits(0.03) == 30000
    ensures Decide(0.03, tx, {}, map[tx := Receipt(1, [Transfer(sender, receiver, 30000)])], receiver)
         == Granted(tx)
    ensures Decide(0.03, tx, {}, map[tx := Receipt(1, [Transfer(sender, receiver, 29999)])], receiver)
         == Rejected(PaymentRequired, NoValidTransfer(0.03, 30000))
    ensures Decide(0.03, tx, {}, map[tx := Receipt(0, [Transfer(sender, receiver, 30000)])], receiver)
         == Rejected(PaymentRequired, FailedOnChain)
  {
    assert RequiredUnits(0.03) == 30000;
  }

  /** The replay set compares the header string exactly. The same transaction
      hash spelled in other letter case is a new string, so when the chain
      answers for both spellings with the one receipt (as an RPC node reading
      hex in either case does), the payment is accepted twice. */
  lemma CaseVariantNotReplay(receiver: Address, sender: Address)
    ensures var r := Receipt(1, [Transfer(sender, receiver, 30000)]);
      var receipts := map["0xab" := r, "0xAB" := r];
      Decide(0.03, "0xab", {}, receipts, receiver) == Granted("0xab") &&
      Decide(0.03, "0xAB", {"0xab"}, receipts, receiver) == Granted("0xAB")
  {
    assert RequiredUnits(0.03) == 30000;
  }
}
