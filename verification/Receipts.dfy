/** Settlement receipts: the net flows of a wallet over a receipt's Transfer events (EIP-20). */
module Receipts {
  import opened Sums
  import opened BaseUnits

  type Address = string

  /** A log's topics and data, once read as hex words. */
  datatype Body = Malformed | OtherEvent | BadTransfer | Transfer(sender: Address, recipient: Address, amount: nat)

  /** `own`: its hashes, block and transaction index are those of the receipt. */
  datatype Log = Log(address: Address, removed: bool, index: nat, own: bool, body: Body)

  datatype FlowError =
    | InvalidContext | SameToken | NativeFlow | MalformedLog | RemovedLog | UnorderedLog | ForeignLog
    | MalformedTransfer | UnexpectedToken | UnverifiedFlow

  datatype Flows = Flows(spent: nat, received: nat, spentText: string, receivedText: string)

  predicate TouchesWallet(log: Log, wallet: Address) {
    log.body.Transfer? && (log.body.sender == wallet || log.body.recipient == wallet)
  }

  /** What a log brings into a wallet, and what it takes out, of one token. */
  function In(log: Log, wallet: Address, token: Address): nat {
    if log.body.Transfer? && log.address == token && log.body.recipient == wallet then log.body.amount else 0
  }

  function Out(log: Log, wallet: Address, token: Address): nat {
    if log.body.Transfer? && log.address == token && log.body.sender == wallet then log.body.amount else 0
  }

  function Inflow(logs: seq<Log>, wallet: Address, token: Address): nat {
    if logs == [] then 0 else Inflow(logs[..|logs| - 1], wallet, token) + In(logs[|logs| - 1], wallet, token)
  }

  function Outflow(logs: seq<Log>, wallet: Address, token: Address): nat {
    if logs == [] then 0 else Outflow(logs[..|logs| - 1], wallet, token) + Out(logs[|logs| - 1], wallet, token)
  }

  /** A log the verifier can use, given the two tokens of the swap. */
  predicate Usable(log: Log, wallet: Address, tokens: (Address, Address)) {
    && !log.removed && log.own && !log.body.Malformed? && !log.body.BadTransfer?
    && (TouchesWallet(log, wallet) ==> log.address == tokens.0 || log.address == tokens.1)
  }

  predicate Ordered(logs: seq<Log>) {
    forall i, j | 0 <= i < j < |logs| :: logs[i].index < logs[j].index
  }

  predicate GoodContext(tokens: (Address, Address), native: set<Address>, decimals: (int, int)) {
    && 0 <= decimals.0 <= 255 && 0 <= decimals.1 <= 255
    && tokens.0 != tokens.1 && tokens.0 !in native && tokens.1 !in native
  }

  predicate AllUsable(logs: seq<Log>, wallet: Address, tokens: (Address, Address)) {
    Ordered(logs) && forall i | 0 <= i < |logs| :: Usable(logs[i], wallet, tokens)
  }

  /** A receipt proves a swap: every log is usable and in order, and on balance the wallet paid the
      one token and got the other. */
  predicate ProvesSwap(logs: seq<Log>, wallet: Address, tokens: (Address, Address)) {
    && AllUsable(logs, wallet, tokens)
    && Outflow(logs, wallet, tokens.0) > Inflow(logs, wallet, tokens.0)
    && Inflow(logs, wallet, tokens.1) > Outflow(logs, wallet, tokens.1)
  }

  /** Transfers from the wallet to itself cancel: without them every net flow is the same. */
  function WithoutSelf(logs: seq<Log>, wallet: Address): seq<Log> {
    if logs == [] then []
    else
      var last := logs[|logs| - 1];
      WithoutSelf(logs[..|logs| - 1], wallet) +
      (if last.body.Transfer? && last.body.sender == wallet && last.body.recipient == wallet then [] else [last])
  }

  lemma {:induction false} SelfTransfersCancel(logs: seq<Log>, wallet: Address, token: Address)
    ensures Inflow(logs, wallet, token) - Outflow(logs, wallet, token) ==
            Inflow(WithoutSelf(logs, wallet), wallet, token) - Outflow(WithoutSelf(logs, wallet), wallet, token)
    decreases |logs|
  {
    if logs != [] {
      var rest, last := logs[..|logs| - 1], logs[|logs| - 1];
      SelfTransfersCancel(rest, wallet, token);
      var kept := WithoutSelf(rest, wallet);
      if last.body.Transfer? && last.body.sender == wallet && last.body.recipient == wallet {
        assert WithoutSelf(logs, wallet) == kept;
      } else {
        assert (kept + [last])[..|kept + [last]| - 1] == kept;
      }
    }
  }

  lemma FlowsGrow(logs: seq<Log>, i: nat, wallet: Address, token: Address)
    requires i < |logs|
    ensures Inflow(logs[..i + 1], wallet, token) == Inflow(logs[..i], wallet, token) + In(logs[i], wallet, token)
    ensures Outflow(logs[..i + 1], wallet, token) == Outflow(logs[..i], wallet, token) + Out(logs[i], wallet, token)
  {
    assert logs[..i + 1][..i] == logs[..i];
  }

  /** The wallet's balance of each token over the first logs. */
  predicate Balances(deltas: map<Address, int>, logs: seq<Log>, wallet: Address, tokens: (Address, Address)) {
    && deltas.Keys == {tokens.0, tokens.1}
    && deltas[tokens.0] == Inflow(logs, wallet, tokens.0) - Outflow(logs, wallet, tokens.0)
    && deltas[tokens.1] == Inflow(logs, wallet, tokens.1) - Outflow(logs, wallet, tokens.1)
  }

  lemma BalancesGrow(deltas: map<Address, int>, logs: seq<Log>, i: nat, wallet: Address, tokens: (Address, Address),
                     deltas': map<Address, int>)
    requires i < |logs| && tokens.0 != tokens.1 && Balances(deltas, logs[..i], wallet, tokens)
             && Usable(logs[i], wallet, tokens)
    requires deltas' == if TouchesWallet(logs[i], wallet)
                        then deltas[logs[i].address := deltas[logs[i].address]
                                                       + In(logs[i], wallet, logs[i].address)
                                                       - Out(logs[i], wallet, logs[i].address)]
                        else deltas
    ensures Balances(deltas', logs[..i + 1], wallet, tokens)
  {
    FlowsGrow(logs, i, wallet, tokens.0);
    FlowsGrow(logs, i, wallet, tokens.1);
  }

  /** Adds up the wallet's transfers, or names the first log that cannot be used. */
  method NetFlows(logs: seq<Log>, wallet: Address, tokens: (Address, Address))
    returns (deltas: map<Address, int>, error: Option<FlowError>)
    requires tokens.0 != tokens.1
    ensures error.None? <==> AllUsable(logs, wallet, tokens)
    ensures error.None? ==> Balances(deltas, logs, wallet, tokens)
  {
    deltas, error := map[tokens.0 := 0, tokens.1 := 0], None;
    var last: int, i: nat := -1, 0;
    while i < |logs|
      invariant 0 <= i <= |logs| && error.None?
      invariant AllUsable(logs[..i], wallet, tokens) && last == (if i == 0 then -1 else logs[i - 1].index)
      invariant Balances(deltas, logs[..i], wallet, tokens)
    {
      var log := logs[i];
      error := Fault(log, last, wallet, tokens);
      if error.Some? {
        assert !AllUsable(logs, wallet, tokens) by {
          assert !Usable(logs[i], wallet, tokens) || (i > 0 && logs[i].index <= logs[i - 1].index);
        }
        return;
      }
      ghost var before := deltas;
      if TouchesWallet(log, wallet) {
        deltas := deltas[log.address := deltas[log.address]
                                        + (if log.body.recipient == wallet then log.body.amount else 0)
                                        - (if log.body.sender == wallet then log.body.amount else 0)];
      }
      BalancesGrow(before, logs, i, wallet, tokens, deltas);
      assert logs[..i + 1] == logs[..i] + [log];
      last, i := log.index, i + 1;
    }
    assert logs[..i] == logs;
  }

  /** Why a log cannot be used after one with the given index. */
  function Fault(log: Log, last: int, wallet: Address, tokens: (Address, Address)): (fault: Option<FlowError>)
    ensures fault.None? <==> Usable(log, wallet, tokens) && log.index > last
  {
    if log.body.Malformed? then Some(MalformedLog)
    else if log.removed then Some(RemovedLog)
    else if log.index <= last then Some(UnorderedLog)
    else if !log.own then Some(ForeignLog)
    else if log.body.BadTransfer? then Some(MalformedTransfer)
    else if TouchesWallet(log, wallet) && log.address != tokens.0 && log.address != tokens.1 then Some(UnexpectedToken)
    else None
  }

  method UnitsText(amount: nat, decimals: nat) returns (text: string)
    ensures Prints(text, amount, decimals)
  {
    text := Units(amount, decimals);
    UnitsPrints(amount, decimals);
  }

  /** A receipt is accepted exactly when it proves the swap, and then the amounts are the wallet's
      net outflow and inflow over all its transfers and the texts denote them exactly. */
  method VerifyFlows(logs: seq<Log>, wallet: Address, tokens: (Address, Address), native: set<Address>,
                     decimals: (int, int))
    returns (result: Result<Flows, FlowError>)
    ensures result.Ok? <==> GoodContext(tokens, native, decimals) && ProvesSwap(logs, wallet, tokens)
    ensures result.Ok? ==>
              && result.value.spent == Outflow(logs, wallet, tokens.0) - Inflow(logs, wallet, tokens.0)
              && result.value.received == Inflow(logs, wallet, tokens.1) - Outflow(logs, wallet, tokens.1)
              && Prints(result.value.spentText, result.value.spent, decimals.0)
              && Prints(result.value.receivedText, result.value.received, decimals.1)
  {
    if !(0 <= decimals.0 <= 255 && 0 <= decimals.1 <= 255) {
      return Err(InvalidContext);
    }
    if tokens.0 == tokens.1 {
      return Err(SameToken);
    }
    if tokens.0 in native || tokens.1 in native {
      return Err(NativeFlow);
    }
    var deltas, error := NetFlows(logs, wallet, tokens);
    if error.Some? {
      return Err(error.value);
    }
    var spent, received := -deltas[tokens.0], deltas[tokens.1];
    if spent <= 0 || received <= 0 {
      return Err(UnverifiedFlow);
    }
    var spentText := UnitsText(spent, decimals.0);
    var receivedText := UnitsText(received, decimals.1);
    return Ok(Flows(spent, received, spentText, receivedText));
  }
}
