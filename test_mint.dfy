/** components/debug/TestMintButton.tsx: the test-environment dialog that mints 1 to 10
    burn NFTs to the connected wallet with `batchMintTo(address, amount)`. */
module TestMint {
  import opened Optional
  import opened Strings
  import opened Language
  import Quantity

  /** The largest amount the dialog offers. */
  const MaxAmount: int := 10

  /** One use of the amount controls: "+", "-", or the slider, whose range input only
      ever yields a whole number from 1 to 10. */
  datatype AmountEvent = Plus | Minus | Slide(value: int)

  /** The amount after one event: `min(prev + 1, 10)`, `max(prev - 1, 1)`, or the
      slider's value. */
  function Apply(amount: int, e: AmountEvent): (r: int)
    ensures e.Plus? ==> r == (if amount + 1 < MaxAmount then amount + 1 else MaxAmount)
    ensures e.Minus? ==> r == (if amount - 1 > 1 then amount - 1 else 1)
    ensures e.Slide? ==> r == e.value
  {
    match e
    case Plus => Quantity.Increment(amount, MaxAmount)
    case Minus => Quantity.Decrement(amount)
    case Slide(v) => v
  }

  /** The amount after a run of events. */
  function Run(amount: int, events: seq<AmountEvent>): int
    decreases |events|
  {
    if events == [] then amount else Run(Apply(amount, events[0]), events[1..])
  }

  predicate SliderValues(events: seq<AmountEvent>) {
    forall i :: 0 <= i < |events| && events[i].Slide? ==> 1 <= events[i].value <= MaxAmount
  }

  /** From any amount in [1, 10] (the initial 1 included) the controls keep it there. */
  lemma {:induction false} AmountStaysInRange(amount: int, events: seq<AmountEvent>)
    requires 1 <= amount <= MaxAmount && SliderValues(events)
    ensures 1 <= Run(amount, events) <= MaxAmount
    decreases |events|
  {
    if events != [] {
      assert SliderValues(events[1..]) by {
        forall i | 0 <= i < |events[1..]| && events[1..][i].Slide?
          ensures 1 <= events[1..][i].value <= MaxAmount
        {
          assert events[1..][i] == events[i + 1];
        }
      }
      AmountStaysInRange(Apply(amount, events[0]), events[1..]);
    }
  }

  /** How the mint ends: `batchMintTo` throws; it returns a hash and `wait` throws; or
      the receipt arrives with a status. Messages are `err.message`. */
  datatype MintOutcome =
    | SendThrows(message: Option<string>)
    | WaitThrows(hash: string, message: Option<string>)
    | Mined(hash: string, status: int)

  /** A JavaScript string used as a condition. */
  predicate Present(s: Option<string>) {
    s.Some? && s.value != ""
  }

  function WalletError(lang: Lang): Message {
    KeyOr("errors.walletNotConnected", if lang == Ja then "ウォレットが接続されていません" else "Wallet not connected")
  }

  function NetworkError(lang: Lang): Message {
    KeyOr("errors.wrongNetwork", if lang == Ja then "ネットワークが正しくありません" else "Wrong network")
  }

  function StatusError(lang: Lang): Message {
    Literal(if lang == Ja then "トランザクションは完了しましたが、失敗した可能性があります"
            else "Transaction completed but may have failed")
  }

  /** `err.message || default`. */
  function ThrownError(lang: Lang, message: Option<string>): (m: Message)
    ensures Present(message) ==> m == Literal(message.value)
    ensures !Present(message) ==> m == Literal(if lang == Ja then "NFTのミントエラーが発生しました" else "Error minting NFTs")
  {
    if Present(message) then Literal(message.value)
    else Literal(if lang == Ja then "NFTのミントエラーが発生しました" else "Error minting NFTs")
  }

  /** The call a mint sends. */
  datatype BatchMint = BatchMintTo(to: string, amount: int)

  class TestMintDialog {
    var open: bool
    var mintAmount: int
    var isLoading: bool
    var txHash: Option<string>
    var error: Option<Message>
    var isSuccess: bool

    constructor()
      ensures !open && mintAmount == 1 && !isLoading && txHash == None && error == None && !isSuccess
    {
      open := false;
      mintAmount := 1;
      isLoading := false;
      txHash := None;
      error := None;
      isSuccess := false;
    }

    /** `handleOpen`: opens the dialog with no error, hash or success left over; the
        amount is kept. */
    method HandleOpen()
      modifies this
      ensures open && error == None && txHash == None && !isSuccess
      ensures mintAmount == old(mintAmount) && isLoading == old(isLoading)
    {
      open := true;
      error := None;
      txHash := None;
      isSuccess := false;
    }

    method HandleClose()
      modifies this
      ensures !open
      ensures mintAmount == old(mintAmount) && isLoading == old(isLoading) && txHash == old(txHash)
      ensures error == old(error) && isSuccess == old(isSuccess)
    {
      open := false;
    }

    /** One use of the amount controls. */
    method ChangeAmount(e: AmountEvent)
      modifies this
      ensures mintAmount == Apply(old(mintAmount), e)
      ensures open == old(open) && isLoading == old(isLoading) && txHash == old(txHash)
      ensures error == old(error) && isSuccess == old(isSuccess)
    {
      match e {
        case Plus => mintAmount := Quantity.Increment(mintAmount, MaxAmount);
        case Minus => mintAmount := Quantity.Decrement(mintAmount);
        case Slide(v) => mintAmount := v;
      }
    }

    /** `mintTestNFTs`: a missing wallet, signer or address and then a wrong network
        each set their error and mint nothing; otherwise `batchMintTo(address, amount)`
        is sent and its outcome recorded, and loading ends false on every path. */
    method MintTestNfts(isConnected: bool, hasSigner: bool, address: Option<string>, isNetworkCorrect: bool,
                        lang: Lang, outcome: MintOutcome) returns (call: Option<BatchMint>)
      modifies this
      ensures call.Some? ==> !isLoading
      ensures !(isConnected && hasSigner && Present(address)) ==>
        call == None && error == Some(WalletError(lang)) &&
        txHash == old(txHash) && isSuccess == old(isSuccess)
      ensures isConnected && hasSigner && Present(address) && !isNetworkCorrect ==>
        call == None && error == Some(NetworkError(lang)) &&
        txHash == old(txHash) && isSuccess == old(isSuccess)
      ensures isConnected && hasSigner && Present(address) && isNetworkCorrect ==>
        call == Some(BatchMintTo(address.value, old(mintAmount))) &&
        (isSuccess <==> outcome.Mined? && outcome.status == 1) &&
        (isSuccess ==> error == None) &&
        (outcome.Mined? && outcome.status != 1 ==> error == Some(StatusError(lang))) &&
        (outcome.SendThrows? ==> txHash == None && error == Some(ThrownError(lang, outcome.message))) &&
        (outcome.WaitThrows? ==> txHash == Some(outcome.hash) && error == Some(ThrownError(lang, outcome.message))) &&
        (outcome.Mined? ==> txHash == Some(outcome.hash))
      ensures call == None ==> isLoading == old(isLoading)
      ensures open == old(open) && mintAmount == old(mintAmount)
    {
      if !isConnected || !hasSigner || !Present(address) {
        error := Some(WalletError(lang));
        return None;
      }
      if !isNetworkCorrect {
        error := Some(NetworkError(lang));
        return None;
      }
      isLoading := true;
      error := None;
      txHash := None;
      isSuccess := false;
      call := Some(BatchMintTo(address.value, mintAmount));
      match outcome {
        case SendThrows(message) =>
          error := Some(ThrownError(lang, message));
        case WaitThrows(hash, message) =>
          txHash := Some(hash);
          error := Some(ThrownError(lang, message));
        case Mined(hash, status) =>
          txHash := Some(hash);
          if status == 1 {
            isSuccess := true;
          } else {
            error := Some(StatusError(lang));
          }
      }
      isLoading := false;
    }

    /** `getMintButtonText`: the loading text first; otherwise the amount, with the
        English plural "s" exactly for more than one NFT. */
    function MintButtonText(lang: Lang): (m: Message)
      reads this
      ensures isLoading ==> m == KeyOr("debug.minting", if lang == Ja then "ミント中..." else "Minting...")
      ensures !isLoading ==> m.Literal? && |m.text| > 0
      ensures !isLoading && lang == En ==>
        OccursAt(m.text, IntToString(mintAmount), |"Mint "|) &&
        (m.text[|m.text| - 1] == 's' <==> mintAmount > 1)
      ensures !isLoading && lang == Ja ==> OccursAt(m.text, IntToString(mintAmount), 0)
    {
      if isLoading then KeyOr("debug.minting", if lang == Ja then "ミント中..." else "Minting...")
      else
        var n := IntToString(mintAmount);
        if lang == Ja then
          OccursAtJoin("", n, "個のNFTをミント");
          assert "" + n == n;
          Literal(n + "個のNFTをミント")
        else
          var plural := if mintAmount > 1 then "s" else "";
          OccursAtJoin("Mint ", n, " NFT" + plural);
          assert "Mint " + n + " NFT" + plural == "Mint " + n + (" NFT" + plural);
          Literal("Mint " + n + " NFT" + plural)
    }

    /** `getCloseButtonText`: "close" after a success, "cancel" before. */
    function CloseButtonText(lang: Lang): (m: Message)
      reads this
      ensures isSuccess ==> m == KeyOr("common.close", if lang == Ja then "閉じる" else "Close")
      ensures !isSuccess ==> m == KeyOr("common.cancel", if lang == Ja then "キャンセル" else "Cancel")
    {
      if isSuccess then KeyOr("common.close", if lang == Ja then "閉じる" else "Close")
      else KeyOr("common.cancel", if lang == Ja then "キャンセル" else "Cancel")
    }

    /** The mint button is shown until a success and is disabled while loading, while
        disconnected and on the wrong network; the success box needs a hash too. */
    function MintButtonEnabled(isConnected: bool, isNetworkCorrect: bool): (r: Option<bool>)
      reads this
      ensures r.None? <==> isSuccess
      ensures r == Some(true) <==> !isSuccess && !isLoading && isConnected && isNetworkCorrect
    {
      if isSuccess then None else Some(!(isLoading || !isConnected || !isNetworkCorrect))
    }

    predicate ShowsSuccess()
      reads this
    {
      isSuccess && Present(txHash)
    }
  }
}
