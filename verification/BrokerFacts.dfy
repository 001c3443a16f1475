/** What one execution cycle hands to the broker port, what the port answers, and the
    pending-order records kept from the answers. */
module BrokerFacts {
  import opened Wrappers

  datatype Side = Buy | Sell

  datatype Kind = Market | Limit

  /** `OrderIntent`: a market order carries no price. */
  datatype Intent = Intent(symbol: string, side: Side, quantity: real, kind: Kind, limitPrice: Option<real>)

  datatype SubmissionStatus = Rejected | Submitted | Accepted | Filled | PartiallyFilled | Unknown

  /** The port raises, returns nothing, or returns a report. A report whose status the
      executor does not recognize has status Unknown. */
  datatype Reply = Raised | NoReport | Report(status: SubmissionStatus, brokerId: string)

  function StatusOf(reply: Reply): SubmissionStatus
  {
    match reply
    case Report(status, _) => status
    case _ => Unknown
  }

  function BrokerIdOf(reply: Reply): string
  {
    match reply
    case Report(_, brokerId) => brokerId
    case _ => ""
  }

  /** One call of the port. The quote and the reference price the quantity was sized with
      are kept beside it. */
  datatype Call = Call(intent: Intent, reply: Reply, quote: real, reference: real)
  {
    predicate IsRejected() { StatusOf(reply) == Rejected }
    predicate IsUnknown() { StatusOf(reply) == Unknown }
  }

  /** A pending order: the broker fact kept for every call that was not rejected. */
  datatype Order = Order(symbol: string, side: Side, quantity: real, kind: Kind,
                         submission: SubmissionStatus, brokerId: string)

  function OrderOf(call: Call): Order
  {
    Order(call.intent.symbol, call.intent.side, call.intent.quantity, call.intent.kind,
          StatusOf(call.reply), BrokerIdOf(call.reply))
  }

  /** The pending orders of a sequence of calls, in call order. */
  function PendingOf(calls: seq<Call>): seq<Order>
  {
    if calls == [] then []
    else
      var rest := PendingOf(calls[..|calls| - 1]);
      var last := calls[|calls| - 1];
      if last.IsRejected() then rest else rest + [OrderOf(last)]
  }

  /** Only the last call can have an unknown outcome: nothing is sent after one. */
  ghost predicate UnknownOnlyLast(calls: seq<Call>)
  {
    forall i :: 0 <= i < |calls| && calls[i].IsUnknown() ==> i == |calls| - 1
  }

  lemma PendingOfAppend(calls: seq<Call>, call: Call)
    ensures PendingOf(calls + [call]) ==
            if call.IsRejected() then PendingOf(calls) else PendingOf(calls) + [OrderOf(call)]
  {
    assert (calls + [call])[..|calls|] == calls;
  }

  /** Pending orders are exactly the calls that were not rejected. */
  lemma {:induction false} PendingOfMembers(calls: seq<Call>, order: Order)
    ensures order in PendingOf(calls) <==>
            exists i :: 0 <= i < |calls| && !calls[i].IsRejected() && order == OrderOf(calls[i])
  {
    if calls != [] {
      var front := calls[..|calls| - 1];
      PendingOfMembers(front, order);
      forall i | 0 <= i < |calls| - 1 ensures front[i] == calls[i] {}
      assert calls[|calls| - 1] in calls;
    }
  }

  /** No pending order means the broker rejected every call. */
  lemma {:induction false} NothingPending(calls: seq<Call>)
    ensures PendingOf(calls) == [] <==> forall i :: 0 <= i < |calls| ==> calls[i].IsRejected()
  {
    if calls != [] {
      var front := calls[..|calls| - 1];
      NothingPending(front);
      assert forall i :: 0 <= i < |front| ==> front[i] == calls[i];
      assert calls[|calls| - 1] in calls;
    }
  }
}
