/** The browser side of a payment: switching the wallet to Avalanche Fuji,
    turning a dollar amount into a USDC transfer, and sending the resulting
    transaction hash with the generation request. */
module Web3 {
  import opened Common
  import Payment

  /** Avalanche Fuji's chain id, and the hex quantity the switch request carries. */
  const FujiChainId: nat := 43113
  const FujiChainIdHex: string := "0xa869"

  function HexDigit(c: char): Option<nat>
  {
    if '0' <= c <= '9' then Some(c as nat - '0' as nat)
    else if 'a' <= c <= 'f' then Some(c as nat - 'a' as nat + 10)
    else if 'A' <= c <= 'F' then Some(c as nat - 'A' as nat + 10)
    else None
  }

  function HexDigits(ds: string): Option<nat>
  {
    if ds == [] then Some(0)
    else match (HexDigits(ds[..|ds| - 1]), HexDigit(ds[|ds| - 1]))
      case (Some(high), Some(low)) => Some(high * 16 + low)
      case _ => None
  }

  /** The value of an Ethereum JSON-RPC hex quantity such as `0xa869`. */
  function HexQuantity(s: string): Option<nat>
  {
    if |s| > 2 && s[..2] == "0x" then HexDigits(s[2..]) else None
  }

  lemma {:induction false} FujiHexIsFujiId()
    ensures HexQuantity(FujiChainIdHex) == Some(FujiChainId)
  {
    var ds := FujiChainIdHex[2..];
    assert ds == "a869";
    assert ds[..3] == "a86" && ds[..3][..2] == "a8" && ds[..3][..2][..1] == "a";
    assert HexDigits("a") == Some(10);
    assert HexDigits("a8") == Some(168);
    assert HexDigits("a86") == Some(2694);
    assert HexDigits("a869") == Some(43113);
  }

  /** `switchToAvalanche`: the chain id a `wallet_switchEthereumChain` request
      asks for, sent only when the wallet is on another chain; the id asked
      for is Fuji's. */
  function SwitchRequest(chainId: int): (request: Option<string>)
    ensures request.Some? <==> chainId != FujiChainId
    ensures request.Some? ==> HexQuantity(request.value) == Some(FujiChainId)
  {
    FujiHexIsFujiId();
    if chainId != FujiChainId then Some(FujiChainIdHex) else None
  }

  /** `payUSDC`'s amount: the dollar amount times 10^6 rounded up, and at
      least one unit. */
  function PayUnits(amountUsd: real): (units: nat)
    ensures 1 <= units
    ensures 0 < Ceil(amountUsd * Payment.UnitsPerUsd) ==> units == Ceil(amountUsd * Payment.UnitsPerUsd)
    ensures Ceil(amountUsd * Payment.UnitsPerUsd) <= 0 ==> units == 1
    ensures amountUsd * Payment.UnitsPerUsd <= units as real
  {
    var usdcUnits := Ceil(amountUsd * Payment.UnitsPerUsd);
    if usdcUnits > 0 then usdcUnits else 1
  }

  /** The client rounds up where the server truncates, so it never pays less
      than the server asks for the same amount. */
  lemma ClientCoversServer(amountUsd: real)
    ensures PayUnits(amountUsd) >= Payment.RequiredUnits(amountUsd)
  {
    var x := amountUsd * Payment.UnitsPerUsd;
    if 0.0 <= amountUsd {
      assert 0.0 <= x;
      assert Payment.RequiredUnits(amountUsd) as real <= x <= PayUnits(amountUsd) as real;
    } else {
      assert x < 0.0;
      assert Payment.RequiredUnits(amountUsd) <= 0;
    }
  }

  /** `config` from the server's root endpoint: the USDC contract and the receiving wallet. */
  datatype PayConfig = PayConfig(contract: Payment.Address, receiver: Payment.Address)

  /** The ERC-20 `transfer(to, amount)` call the wallet signs. */
  datatype TransferCall = TransferCall(contract: Payment.Address, to: Payment.Address, amount: nat)

  function PayUsdc(config: PayConfig, amountUsd: real): (call: TransferCall)
    ensures call.contract == config.contract && call.to == config.receiver
    ensures call.amount >= 1 && call.amount >= Payment.RequiredUnits(amountUsd)
  {
    ClientCoversServer(amountUsd);
    TransferCall(config.contract, config.receiver, PayUnits(amountUsd))
  }

  /** An honest payment passes the gate: when the mined, successful
      transaction logs the transfer `payUSDC` asked for, to the wallet the
      server receives at, and its hash is fresh, verification of the same
      dollar amount grants access. */
  lemma HonestPaymentGranted(config: PayConfig, amountUsd: real, sender: Payment.Address,
                             tx: Payment.TxHash, used: set<Payment.TxHash>,
                             receipts: map<Payment.TxHash, Payment.Receipt>)
    requires tx !in used && tx in receipts && receipts[tx].status == 1
    requires Payment.Transfer(sender, PayUsdc(config, amountUsd).to, PayUsdc(config, amountUsd).amount)
             in receipts[tx].transfers
    ensures Payment.Decide(amountUsd, tx, used, receipts, config.receiver) == Payment.Granted(tx)
  {
    var t := Payment.Transfer(sender, config.receiver, PayUnits(amountUsd));
    var ts := receipts[tx].transfers;
    var i :| 0 <= i < |ts| && ts[i] == t;
    ClientCoversServer(amountUsd);
    assert Payment.Pays(ts[i], config.receiver, Payment.RequiredUnits(amountUsd));
    Payment.GrantedIff(amountUsd, tx, used, receipts, config.receiver);
  }

  /** `generate`'s headers: JSON content and the transaction hash under the
      header the server reads the payment from. */
  function GenerateHeaders(txHash: Payment.TxHash): (headers: map<string, string>)
    ensures headers.Keys == {"Content-Type", Payment.PaymentHeader}
    ensures headers[Payment.PaymentHeader] == txHash
    ensures headers["Content-Type"] == "application/json"
  {
    map["Content-Type" := "application/json", "X-Payment-Tx" := txHash]
  }
}
