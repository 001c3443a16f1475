/** What every step of every live run keeps, over all histories of runs that do not overlap
    but may crash anywhere. */
module ProtocolSafety {
  import opened Wrappers

  import BrokerFacts
  import opened LiveCommands
  import opened LiveProtocol

  // ----- the invariant

  /** The broker is known to be done with this call: it answered rejected or filled, or the
      order id was later read as closed. */
  predicate CallClosed(call: BrokerFacts.Call, closed: set<string>)
  {
    || call.IsRejected()
    || BrokerFacts.StatusOf(call.reply) == BrokerFacts.Filled
    || (BrokerFacts.BrokerIdOf(call.reply) != "" && BrokerFacts.BrokerIdOf(call.reply) in closed)
  }

  ghost predicate AllClosed(calls: seq<BrokerFacts.Call>, closed: set<string>)
  {
    forall i :: 0 <= i < |calls| ==> CallClosed(calls[i], closed)
  }

  /** A log is empty, or one claim followed by events that repeat the same orders; only the
      last event can be terminal. */
  ghost predicate WellLogged(events: seq<Event>, orders: seq<BrokerFacts.Order>)
  {
    && (events != [] ==> events[0] == Event(CLAIMED, []))
    && (forall i :: 1 <= i < |events| ==>
          && events[i].state != QUEUED && events[i].state != CLAIMED
          && events[i].orders == orders)
    && (forall i :: 0 <= i < |events| - 1 ==> !IsTerminal(events[i].state))
  }

  ghost predicate CommandInv(c: Command, events: seq<Event>, sent: seq<BrokerFacts.Call>, closed: set<string>,
                             now: Date)
  {
    && c.signalDate < c.effectiveDate
    && WellLogged(events, BrokerFacts.PendingOf(sent))
    && (events == [] ==> sent == [])
    && (events != [] ==> c.effectiveDate <= now)
    && (IsTerminal(StateOf(events)) ==> AllClosed(sent, closed))
  }

  /** Two commands of one scope that would be minted for the same session. */
  predicate SameSession(c: Command, d: Command)
  {
    && c.scope == d.scope
    && if c.scope.CompletedSession() then c.effectiveDate == d.effectiveDate else c.signalDate == d.signalDate
  }

  /** At most one command of a scope is claimed and unfinished. */
  ghost predicate OneActive(log: map<Command, seq<Event>>)
  {
    forall c, d :: c in log && d in log && c.scope == d.scope ==>
      (IsActive(StateOf(log[c])) && IsActive(StateOf(log[d])) ==> c == d)
  }

  ghost predicate OnePerSession(log: map<Command, seq<Event>>)
  {
    forall c, d :: c in log && d in log && SameSession(c, d) ==> c == d
  }

  ghost predicate CommandsInv(w: World, now: Date)
    requires w.sent.Keys == w.log.Keys
  {
    forall c :: c in w.log ==> CommandInv(c, w.log[c], w.sent[c], w.closed, now)
  }

  ghost predicate Inv(w: World, now: Date)
  {
    && w.sent.Keys == w.log.Keys
    && w.unclaimed == []
    && CommandsInv(w, now)
    && OneActive(w.log)
    && OnePerSession(w.log)
  }

  // ----- the guard of each step

  ghost predicate Legal(w: World, session: Date, a: Action)
  {
    match a
    case Observe(_, _) => true
    case Enqueue(c) =>
      && c !in w.log
      && c.signalDate < c.effectiveDate
      && forall d :: d in w.log ==> !SameSession(c, d)
    case Claim(c) =>
      && c in w.log
      && w.log[c] == []
      && c.effectiveDate == session
      && forall d :: d in w.log && d.scope == c.scope ==> !IsActive(StateOf(w.log[d]))
    case Send(None, _) => false
    case Send(Some(c), _) => c in w.log && StateOf(w.log[c]) == CLAIMED
    case Append(c, e) =>
      && c in w.log
      && IsActive(StateOf(w.log[c]))
      && e.state != QUEUED && e.state != CLAIMED
      && c in w.sent
      && e.orders == BrokerFacts.PendingOf(w.sent[c])
      && (IsTerminal(e.state) ==> AllClosed(w.sent[c], w.closed))
  }

  lemma WellLoggedAppend(events: seq<Event>, orders: seq<BrokerFacts.Order>, e: Event)
    requires WellLogged(events, orders) && IsActive(StateOf(events))
    requires e.state != QUEUED && e.state != CLAIMED && e.orders == orders
    ensures WellLogged(events + [e], orders) && StateOf(events + [e]) == e.state
  {
  }

  /** A command whose state is CLAIMED has exactly its claim in the log. */
  lemma ClaimedLog(events: seq<Event>, orders: seq<BrokerFacts.Order>)
    requires WellLogged(events, orders) && StateOf(events) == CLAIMED
    ensures events == [Event(CLAIMED, [])]
  {
  }

  lemma AppendKeepsInv(w: World, now: Date, c: Command, e: Event)
    requires Inv(w, now) && Legal(w, now, Append(c, e))
    ensures Inv(Apply(w, Append(c, e)), now)
  {
    var w' := Apply(w, Append(c, e));
    WellLoggedAppend(w.log[c], BrokerFacts.PendingOf(w.sent[c]), e);
    forall d | d in w'.log ensures CommandInv(d, w'.log[d], w'.sent[d], w'.closed, now) {
      assert CommandInv(d, w.log[d], w.sent[d], w.closed, now);
    }
    assert w'.log.Keys == w.log.Keys;
    forall d | d in w.log ensures IsActive(StateOf(w'.log[d])) ==> IsActive(StateOf(w.log[d])) {}
  }

  lemma SendKeepsInv(w: World, now: Date, c: Command, call: BrokerFacts.Call)
    requires Inv(w, now) && Legal(w, now, Send(Some(c), call))
    ensures Inv(Apply(w, Send(Some(c), call)), now)
  {
    var w' := Apply(w, Send(Some(c), call));
    assert CommandInv(c, w.log[c], w.sent[c], w.closed, now);
    ClaimedLog(w.log[c], BrokerFacts.PendingOf(w.sent[c]));
    forall d | d in w'.log ensures CommandInv(d, w'.log[d], w'.sent[d], w'.closed, now) {
      assert CommandInv(d, w.log[d], w.sent[d], w.closed, now);
    }
  }

  lemma ClaimKeepsInv(w: World, now: Date, c: Command)
    requires Inv(w, now) && Legal(w, now, Claim(c))
    ensures Inv(Apply(w, Claim(c)), now)
  {
    var w' := Apply(w, Claim(c));
    assert w'.log[c] == [Event(CLAIMED, [])];
    forall d | d in w'.log ensures CommandInv(d, w'.log[d], w'.sent[d], w'.closed, now) {
      assert CommandInv(d, w.log[d], w.sent[d], w.closed, now);
      if d == c {
        ClaimedCommand(c, w.sent[c], w.closed, now);
      }
    }
    ClaimKeepsOne(w.log, c);
  }

  lemma ClaimedCommand(c: Command, sent: seq<BrokerFacts.Call>, closed: set<string>, now: Date)
    requires CommandInv(c, [], sent, closed, now) && c.effectiveDate == now
    ensures CommandInv(c, [Event(CLAIMED, [])], sent, closed, now)
  {
  }

  lemma ClaimKeepsOne(log: map<Command, seq<Event>>, c: Command)
    requires OnePerSession(log) && c in log
    requires forall d :: d in log && d.scope == c.scope ==> !IsActive(StateOf(log[d]))
    requires OneActive(log)
    ensures OneActive(log[c := log[c] + [Event(CLAIMED, [])]]) && OnePerSession(log[c := log[c] + [Event(CLAIMED, [])]])
  {
  }

  lemma EnqueueKeepsInv(w: World, now: Date, c: Command)
    requires Inv(w, now) && Legal(w, now, Enqueue(c))
    ensures Inv(Apply(w, Enqueue(c)), now)
  {
    var w' := Apply(w, Enqueue(c));
    forall d | d in w'.log ensures CommandInv(d, w'.log[d], w'.sent[d], w'.closed, now) {
      assert d != c ==> CommandInv(d, w.log[d], w.sent[d], w.closed, now);
    }
    EnqueueKeepsOne(w.log, c);
  }

  lemma EnqueueKeepsOne(log: map<Command, seq<Event>>, c: Command)
    requires OneActive(log) && OnePerSession(log) && c !in log
    requires forall d :: d in log ==> !SameSession(c, d)
    ensures OneActive(log[c := []]) && OnePerSession(log[c := []])
  {
    var log' := log[c := []];
    assert !IsActive(StateOf(log'[c]));
    forall d, e | d in log' && e in log' && SameSession(d, e)
      ensures d == e
    {
      assert SameSession(e, d);
    }
  }

  lemma ObserveKeepsInv(w: World, now: Date, id: string, status: BrokerStatus)
    requires Inv(w, now)
    ensures Inv(Apply(w, Observe(id, status)), now)
  {
    var w' := Apply(w, Observe(id, status));
    forall d | d in w'.log ensures CommandInv(d, w'.log[d], w'.sent[d], w'.closed, now) {
      assert CommandInv(d, w.log[d], w.sent[d], w.closed, now);
    }
  }

  /** Every legal step keeps the invariant. */
  lemma StepKeepsInv(w: World, now: Date, a: Action)
    requires Inv(w, now) && Legal(w, now, a)
    ensures Inv(Apply(w, a), now)
  {
    match a
    case Observe(id, status) => ObserveKeepsInv(w, now, id, status);
    case Enqueue(c) => EnqueueKeepsInv(w, now, c);
    case Claim(c) => ClaimKeepsInv(w, now, c);
    case Send(sender, call) => SendKeepsInv(w, now, sender.value, call);
    case Append(c, e) => AppendKeepsInv(w, now, c, e);
  }

  // ----- sequences of legal steps

  ghost predicate AllLegal(w: World, session: Date, actions: seq<Action>)
    decreases |actions|
  {
    actions == [] || (Legal(w, session, actions[0]) && AllLegal(Apply(w, actions[0]), session, actions[1..]))
  }

  lemma {:induction false} ApplyAllConcat(w: World, a: seq<Action>, b: seq<Action>)
    ensures ApplyAll(w, a + b) == ApplyAll(ApplyAll(w, a), b)
    decreases |a|
  {
    if a == [] {
      assert a + b == b;
    } else {
      assert (a + b)[1..] == a[1..] + b;
      ApplyAllConcat(Apply(w, a[0]), a[1..], b);
    }
  }

  lemma {:induction false} AllLegalConcat(w: World, session: Date, a: seq<Action>, b: seq<Action>)
    ensures AllLegal(w, session, a + b) <==> AllLegal(w, session, a) && AllLegal(ApplyAll(w, a), session, b)
    decreases |a|
  {
    if a == [] {
      assert a + b == b;
    } else {
      assert (a + b)[1..] == a[1..] + b;
      AllLegalConcat(Apply(w, a[0]), session, a[1..], b);
    }
  }

  lemma {:induction false} LegalRunKeepsInv(w: World, now: Date, actions: seq<Action>)
    requires Inv(w, now) && AllLegal(w, now, actions)
    ensures Inv(ApplyAll(w, actions), now)
    decreases |actions|
  {
    if actions != [] {
      StepKeepsInv(w, now, actions[0]);
      LegalRunKeepsInv(Apply(w, actions[0]), now, actions[1..]);
    }
  }
}
