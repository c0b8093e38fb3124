/**
 * The listener's side of the pipeline: the RPC endpoint chosen by the network flag, and the
 * closure run for every event, which buffers the event, looks for a `register_token`
 * event, inserts it, lists the table and clears the buffer.
 */
module Dispatcher {
  import opened Wrappers
  import opened Cli
  import opened Foreign
  import opened Models
  import opened Websocket
  import opened Database

  /** The two RPC endpoint constants; their addresses live in constants.rs, which is not part of this model. */
  datatype RpcUrl = NearRpcMainnet | NearRpcTestnet

  /** The `match cli.network` that picks the endpoint; every network has one. */
  function RpcUrlFor(network: Networks): (r: RpcUrl)
    ensures r == NearRpcMainnet <==> network == Mainnet
    ensures r == NearRpcTestnet <==> network == Testnet
  {
    match network
    case Mainnet => NearRpcMainnet
    case Testnet => NearRpcTestnet
  }

  /** Without a `--network` flag the listener talks to the testnet endpoint. */
  lemma DefaultNetworkUsesTestnet()
    ensures RpcUrlFor(DefaultNetwork) == NearRpcTestnet
  {
  }

  /** Different networks never share an endpoint. */
  lemma RpcUrlForInjective(a: Networks, b: Networks)
    ensures RpcUrlFor(a) == RpcUrlFor(b) ==> a == b
  {
  }

  const RegisterToken: string := "register_token"

  /** `logs[i]` is a `register_token` event and no earlier one is. */
  predicate FirstMatchAt(logs: seq<EventLog>, i: int) {
    && 0 <= i < |logs|
    && logs[i].event == RegisterToken
    && forall j :: 0 <= j < i ==> logs[j].event != RegisterToken
  }

  /** `logs.iter().find(|log| log.event == "register_token")`: the first such event, if any. */
  method FindRegisterToken(logs: seq<EventLog>) returns (found: Option<EventLog>)
    ensures found.None? <==> forall i :: 0 <= i < |logs| ==> logs[i].event != RegisterToken
    ensures found.Some? ==> found.value.event == RegisterToken
    ensures found.Some? ==> exists i :: FirstMatchAt(logs, i) && logs[i] == found.value
  {
    var i := 0;
    while i < |logs|
      invariant 0 <= i <= |logs|
      invariant forall j :: 0 <= j < i ==> logs[j].event != RegisterToken
    {
      if logs[i].event == RegisterToken {
        assert FirstMatchAt(logs, i);
        return Some(logs[i]);
      }
      i := i + 1;
    }
    return None;
  }

  /**
   * What handling one event did: the insert's outcome and the listing's, when they ran, and
   * what the event buffer held when the task ended.
   */
  datatype Handled = Handled(insert: Option<InsertOutcome>, listing: Option<ListOutcome>, logs: seq<EventLog>)

  /**
   * The spawned task for one event. Errors returned by the insert or the listing are only
   * logged; a panic ends the task, so nothing after it runs and the buffer is not cleared.
   */
  method HandleEvent(db: Db, sender: WsSender, event: EventLog, crates: Crates,
                     insertCall: DbCall, listCall: DbCall) returns (h: Handled)
    modifies db, sender`sent
    ensures event.event != RegisterToken ==>
      && h == Handled(None, None, [event])
      && db.tokens == old(db.tokens) && sender.sent == old(sender.sent)
    ensures event.event == RegisterToken ==>
      var e := InsertEffect(event, crates, insertCall);
      && h.insert == Some(e.outcome)
      && db.tokens == old(db.tokens) + e.stored
      && sender.sent == old(sender.sent) + e.sent
      && (e.outcome.Panicked? ==> h.listing == None && h.logs == [event])
      && (!e.outcome.Panicked? ==> h.listing == Some(ListTokens(db.tokens, crates, listCall)))
      && (!e.outcome.Panicked? && !h.listing.value.ListPanicked? ==> h.logs == [])
      && (!e.outcome.Panicked? && h.listing.value.ListPanicked? ==> h.logs == [event])
  {
    var logs: seq<EventLog> := [];
    logs := logs + [event];
    var found := FindRegisterToken(logs);
    assert logs[0] == event;
    if found.None? {
      return Handled(None, None, logs);
    }
    var outcome := InsertToken(db, found.value, sender, crates, insertCall);
    if outcome.Panicked? {
      return Handled(Some(outcome), None, logs);
    }
    var listing := GetTokens(db, crates, listCall);
    if listing.ListPanicked? {
      return Handled(Some(outcome), Some(listing), logs);
    }
    logs := [];
    return Handled(Some(outcome), Some(listing), logs);
  }
}
