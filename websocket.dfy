/**
 * The sending half of the broadcast channel that feeds the live subscribers, reduced to
 * the log of every value handed to `send` and the number of receivers at that time.
 */
module Websocket {
  import opened Models

  class WsSender {
    /** Every value passed to `send`, oldest first. */
    var sent: seq<TokenDto>
    /** Receivers currently subscribed. */
    var receivers: nat

    constructor (receivers: nat)
      ensures sent == [] && this.receivers == receivers
    {
      sent := [];
      this.receivers := receivers;
    }

    /** `send`: the value is published; the result reports whether anybody was listening. */
    method Send(dto: TokenDto) returns (delivered: bool)
      modifies this`sent
      ensures sent == old(sent) + [dto]
      ensures delivered <==> receivers > 0
    {
      sent := sent + [dto];
      delivered := receivers > 0;
    }
  }
}
