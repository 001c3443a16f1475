/** From a strategy decision to what the executor may spend, and whether it may act at all. */
module DecisionMapper {
  import opened Wrappers

  import Quantity
  import opened RebalanceCycle
  import CycleFacts
  import CycleCash

  // ----- cash reserve

  /** The platform's reserve policy: a floor and a ratio of equity. */
  datatype Policy = Policy(floor: real, ratio: real)

  function Clamp(ratio: real): real
  {
    Quantity.Max(0.0, Quantity.Min(1.0, ratio))
  }

  /** `_resolve_platform_reserved_cash`. */
  function PlatformReserve(equity: real, policy: Option<Policy>): (r: real)
    ensures 0.0 <= r
  {
    match policy
    case None => 0.0
    case Some(rule) =>
      Quantity.Max(Quantity.Max(0.0, rule.floor),
                   Quantity.Times(Quantity.Max(0.0, equity), Clamp(rule.ratio)))
  }

  datatype CashPlan = CashPlan(reserved: real, investable: real)

  /** `_apply_reserved_cash_policy`. */
  function ApplyReserve(strategyReserve: real, base: Option<real>, liquid: real, equity: real,
                        policy: Option<Policy>): CashPlan
  {
    var reserved := Quantity.Max(strategyReserve, PlatformReserve(equity, policy));
    var cash := if base.Some? then base.value else Quantity.Max(0.0, liquid - strategyReserve);
    CashPlan(reserved, Quantity.Min(Quantity.Max(0.0, cash), Quantity.Max(0.0, liquid - reserved)))
  }

  /** Spending all investable cash leaves the reserve, or all of the liquid cash if that is
      less; and without a smaller wish of the strategy, nothing more is kept back. */
  lemma ReserveIsKept(strategyReserve: real, base: Option<real>, liquid: real, equity: real, policy: Option<Policy>)
    ensures var cash := ApplyReserve(strategyReserve, base, liquid, equity, policy);
            && 0.0 <= cash.investable
            && liquid - cash.investable
               >= Quantity.Min(liquid, Quantity.Max(strategyReserve, PlatformReserve(equity, policy)))
            && (base.None? && 0.0 <= strategyReserve ==>
                  liquid - cash.investable
                  == Quantity.Min(liquid, Quantity.Max(strategyReserve, PlatformReserve(equity, policy))))
  {
  }

  /** The platform reserve is the least sum that is not negative, not below the policy's floor and
      not below its share of the equity, that share being between nothing and all. */
  lemma PlatformReserveIsLeast(equity: real, policy: Option<Policy>, r: real)
    ensures PlatformReserve(equity, policy) <= r <==>
            && 0.0 <= r
            && (policy.Some? ==> policy.value.floor <= r)
            && (policy.Some? && equity > 0.0 && policy.value.ratio >= 1.0 ==> equity <= r)
            && (policy.Some? && equity > 0.0 && 0.0 < policy.value.ratio < 1.0 ==> equity * policy.value.ratio <= r)
  {
    if policy.Some? {
      Quantity.TimesSucc(0, Clamp(policy.value.ratio));
      assert Quantity.Times(Quantity.Max(0.0, equity), 0.0) == 0.0;
      assert Quantity.Times(equity, 1.0) == equity;
    }
  }

  /** The reserved cash is the greater of both reserves, and the investable cash is the most that
      leaves it: any sum that is wished for and leaves the reserve may be invested. */
  lemma InvestsTheMost(strategyReserve: real, base: Option<real>, liquid: real, equity: real, policy: Option<Policy>,
                       r: real, x: real)
    ensures var cash := ApplyReserve(strategyReserve, base, liquid, equity, policy);
            var wish := if base.Some? then base.value else liquid - strategyReserve;
            && (cash.reserved <= r <==> strategyReserve <= r && PlatformReserve(equity, policy) <= r)
            && (x > 0.0 ==> (x <= cash.investable <==> x <= wish && x + cash.reserved <= liquid))
  {
  }

  /** Sells do not touch the investable cash; only a refresh after a sell does. */
  lemma PlaceSellKeepsCash(c: Cycle, s: string, p: Params, m: Outside, t: Ticket)
    ensures PlaceSell(c, s, p, m, t).investable == c.investable
  {
  }

  lemma {:induction false} SellFromKeepsCash(i: nat, c: Cycle, p: Params, v: PlanView, m: Outside)
    requires v.Covers()
    ensures SellFrom(i, c, p, v, m).investable == c.investable
    decreases |v.assets| - i
  {
    if i < |v.assets| && !c.book.halted {
      var t := SellTicketOf(v.assets[i], c, p, v, m);
      if t.Some? {
        PlaceSellKeepsCash(c.(quotes := c.quotes + 1), v.assets[i], p, m, t.value);
      }
      SellFromKeepsCash(i + 1, SellOne(v.assets[i], c, p, v, m), p, v, m);
    }
  }

  lemma SellPhaseKeepsCash(p: Params, v: PlanView, gate: Option<Gate>, m: Outside)
    requires v.Covers()
    ensures SellPhase(p, v, gate, m).investable == v.investable
  {
    var c := SellFrom(0, Start(v, gate), p, v, m);
    SellFromKeepsCash(0, Start(v, gate), p, v, m);
    var t := CycleFacts.SweepTicketOf(c, p, v, m);
    if t.Some? {
      PlaceSellKeepsCash(AskSweep(c, p, v, m).0, p.sweep, p, m, t.value);
    }
  }

  /** End to end: in a cycle in which no sell was submitted, whatever the buys commit leaves
      the platform reserve untouched. */
  lemma ReserveSurvivesCycle(strategyReserve: real, base: Option<real>, equity: real, policy: Option<Policy>,
                             blocked: bool, p: Params, v: PlanView, gate: Option<Gate>, m: Outside)
    requires v.Covers() && RefreshesCover(m)
    requires v.investable == ApplyReserve(strategyReserve, base, v.liquid, equity, policy).investable
    requires !SellPhase(p, v, gate, m).sellSubmitted
    ensures v.liquid - CycleCash.Committed(Execute(blocked, p, v, gate, m).book.calls)
            >= Quantity.Min(v.liquid, Quantity.Max(strategyReserve, PlatformReserve(equity, policy)))
  {
    CycleCash.BuysWithinInvestableCash(blocked, p, v, gate, m);
    ReserveIsKept(strategyReserve, base, v.liquid, equity, policy);
    SellPhaseKeepsCash(p, v, gate, m);
    UnsoldKeepsCash(SellPhase(p, v, gate, m), p, m);
  }

  lemma UnsoldKeepsCash(c: Cycle, p: Params, m: Outside)
    requires !c.sellSubmitted
    ensures Refreshed(c, p, m) == c
  {
  }

  // ----- the execution block

  /** A diagnostic marker: absent, true, false, or any other value. */
  datatype Marker = Missing | Yes | No | OtherValue

  datatype TargetMode = ValueMode | WeightMode | NoMode

  datatype Decision = Decision(mode: TargetMode, flags: seq<string>, noOrder: Marker, authorized: Marker,
                               gate: Option<string>)

  const NO_EXECUTE := "no_execute"
  const REJECTED_PREFIX := "rejected:"
  const APPROVE := "APPROVE"

  predicate IsSpace(ch: char) { ch == ' ' || '\t' <= ch <= '\r' }

  function StripLeft(s: string): string
  {
    if s != "" && IsSpace(s[0]) then StripLeft(s[1..]) else s
  }

  function StripRight(s: string): string
  {
    if s != "" && IsSpace(s[|s| - 1]) then StripRight(s[..|s| - 1]) else s
  }

  function UpperChar(ch: char): char
  {
    if 'a' <= ch <= 'z' then ch - 'a' + 'A' else ch
  }

  function Upper(s: string): string
  {
    if s == "" then "" else [UpperChar(s[0])] + Upper(s[1..])
  }

  /** The flags forbid execution. */
  predicate FlagsBlock(flags: seq<string>)
  {
    NO_EXECUTE in flags || exists f :: f in flags && REJECTED_PREFIX <= f
  }

  /** `_decision_blocks_execution`. */
  predicate DecisionBlocks(d: Decision)
  {
    || FlagsBlock(d.flags)
    || d.noOrder == Yes
    || d.authorized == No
    || (d.gate.Some? && Upper(StripRight(StripLeft(d.gate.value))) == "REJECT")
  }

  /** The risk facts of `_normalize_to_value_target_decision`: a blocked decision, or one whose
      weights have no equity to apply to, is marked; a decision without targets loses its facts. */
  function Normalize(d: Decision, noEquity: bool): Decision
  {
    if DecisionBlocks(d) || (d.mode == WeightMode && noEquity) then
      d.(flags := if NO_EXECUTE in d.flags then d.flags else d.flags + [NO_EXECUTE])
    else if d.mode == NoMode then Decision(NoMode, [], Missing, Missing, None)
    else d
  }

  /** What the executor reads of the execution and allocation payloads. */
  datatype Payload = Payload(noExecute: bool, flags: seq<string>, noOrder: Marker, authorized: Marker,
                             gate: Option<string>)

  const CLEAN_PAYLOAD := Payload(false, [], Missing, Missing, None)

  /** `_attach_execution_block_fields`. */
  function Attach(x: Payload, d: Decision): Payload
  {
    Payload(x.noExecute || DecisionBlocks(d),
            if d.flags != [] then d.flags else x.flags,
            if d.noOrder != Missing then d.noOrder else x.noOrder,
            if d.authorized != Missing then d.authorized else x.authorized,
            if d.gate.Some? && d.gate.value != "" then d.gate else x.gate)
  }

  predicate PayloadBlocks(x: Payload)
  {
    || x.noExecute
    || (x.gate.Some? && x.gate.value != APPROVE)
    || x.noOrder == Yes
    || x.authorized == No
    || FlagsBlock(x.flags)
  }

  /** `_execution_is_blocked`, the plan's execution being the one attached. */
  predicate ExecutionBlocked(execution: Payload, allocation: Payload)
  {
    execution.gate != Some(APPROVE) || PayloadBlocks(execution) || PayloadBlocks(allocation)
  }

  lemma ApproveIsNoReject()
    ensures Upper(StripRight(StripLeft(APPROVE))) != "REJECT"
  {
    assert StripLeft(APPROVE) == APPROVE;
    assert StripRight(APPROVE) == APPROVE;
    assert Upper(APPROVE)[0] == 'A';
  }

  /** A decision reaches the broker if and only if it has targets, equity to apply them to, no
      blocking fact, and exactly the approval that the executor looks for. */
  lemma ExecutesExactlyWhenApproved(d: Decision, noEquity: bool)
    ensures !ExecutionBlocked(Attach(CLEAN_PAYLOAD, Normalize(d, noEquity)), CLEAN_PAYLOAD) <==>
            && d.mode != NoMode && !(d.mode == WeightMode && noEquity)
            && d.gate == Some(APPROVE)
            && !FlagsBlock(d.flags) && d.noOrder != Yes && d.authorized != No
  {
    ApproveIsNoReject();
  }

  /** Whatever a plan said before, a blocked decision, or weights without equity, makes the
      executor return at entry, and then the cycle calls no broker. */
  lemma BlockedDecisionCallsNoBroker(d: Decision, noEquity: bool, before: Payload, allocation: Payload,
                                     p: Params, v: PlanView, gate: Option<Gate>, m: Outside)
    requires v.Covers() && RefreshesCover(m)
    requires DecisionBlocks(d) || (d.mode == WeightMode && noEquity)
    ensures var blocked := ExecutionBlocked(Attach(before, Normalize(d, noEquity)), allocation);
            blocked && Execute(blocked, p, v, gate, m).book.calls == []
  {
    var marked := Normalize(d, noEquity);
    assert NO_EXECUTE in marked.flags;
  }

  // ----- which facts block

  predicate AllSpace(s: string) { forall ch :: ch in s ==> IsSpace(ch) }

  /** A text is reject in some case, between spaces. */
  ghost predicate IsRejectInAnyDress(gate: string)
  {
    exists left: string, word: string, right: string :: IsDressed(gate, left, word, right) && Upper(word) == "REJECT"
  }

  predicate IsDressed(gate: string, left: string, word: string, right: string)
  {
    gate == left + word + right && AllSpace(left) && AllSpace(right)
  }

  lemma {:induction false} StripLeftStrips(s: string) returns (left: string)
    ensures s == left + StripLeft(s) && AllSpace(left)
    ensures StripLeft(s) == "" || !IsSpace(StripLeft(s)[0])
  {
    if s != "" && IsSpace(s[0]) {
      var rest := StripLeftStrips(s[1..]);
      left := [s[0]] + rest;
    } else {
      left := "";
    }
  }

  lemma {:induction false} StripRightStrips(s: string) returns (right: string)
    ensures s == StripRight(s) + right && AllSpace(right)
  {
    if s != "" && IsSpace(s[|s| - 1]) {
      var rest := StripRightStrips(s[..|s| - 1]);
      right := rest + [s[|s| - 1]];
    } else {
      right := "";
    }
  }

  lemma {:induction false} StripLeftDressed(left: string, s: string)
    requires AllSpace(left) && (s == "" || !IsSpace(s[0]))
    ensures StripLeft(left + s) == s
  {
    if left == "" {
      assert left + s == s;
    } else {
      assert (left + s)[1..] == left[1..] + s;
      StripLeftDressed(left[1..], s);
    }
  }

  lemma {:induction false} StripRightDressed(s: string, right: string)
    requires AllSpace(right) && (s == "" || !IsSpace(s[|s| - 1]))
    ensures StripRight(s + right) == s
  {
    if right == "" {
      assert s + right == s;
    } else {
      assert (s + right)[..|s + right| - 1] == s + right[..|right| - 1];
      StripRightDressed(s, right[..|right| - 1]);
    }
  }

  lemma {:induction false} UpperAt(s: string, i: nat)
    requires i < |s|
    ensures |Upper(s)| == |s| && Upper(s)[i] == UpperChar(s[i])
  {
    if |s| == 1 {
      assert Upper(s[1..]) == "";
    } else {
      UpperAt(s[1..], if i == 0 then 0 else i - 1);
    }
  }

  /** The gate's word is read whatever its case and the spaces around it. */
  lemma RejectsInAnyDress(gate: string)
    ensures Upper(StripRight(StripLeft(gate))) == "REJECT" <==> IsRejectInAnyDress(gate)
  {
    var left := StripLeftStrips(gate);
    var right := StripRightStrips(StripLeft(gate));
    if Upper(StripRight(StripLeft(gate))) == "REJECT" {
      assert IsDressed(gate, left, StripRight(StripLeft(gate)), right);
    }
    if IsRejectInAnyDress(gate) {
      var a: string, word: string, b: string :| IsDressed(gate, a, word, b) && Upper(word) == "REJECT";
      RejectWord(word);
      StripLeftDressed(a, word + b);
      assert a + (word + b) == gate;
      StripRightDressed(word, b);
    }
  }

  lemma RejectWord(word: string)
    requires Upper(word) == "REJECT"
    ensures word != "" && !IsSpace(word[0]) && !IsSpace(word[|word| - 1])
  {
    UpperLength(word);
    UpperAt(word, 0);
    UpperAt(word, |word| - 1);
    assert "REJECT"[0] == 'R' && "REJECT"[5] == 'T';
    NoSpace(word[0], 'R');
    NoSpace(word[|word| - 1], 'T');
  }

  lemma {:induction false} UpperLength(s: string)
    ensures |Upper(s)| == |s|
  {
    if s != "" {
      UpperLength(s[1..]);
    }
  }

  lemma NoSpace(ch: char, letter: char)
    requires UpperChar(ch) == letter && 'A' <= letter <= 'Z'
    ensures !IsSpace(ch)
  {
  }

  /** A flag forbids execution, alone or as a rejection. */
  predicate HasForbiddingFlag(flags: seq<string>)
  {
    exists f :: f in flags && (f == "no_execute" || "rejected:" <= f)
  }

  /** A decision is marked not to be executed exactly when a flag forbids it, no order was decided,
      execution was not authorized, its gate says reject in any case and between any spaces, or its
      weights have no equity to apply to. The payload it is attached to is then not to be executed
      either; and what it says of order and authorization replaces what the payload said, as far as
      it has targets and says anything. */
  lemma MarkedExactly(d: Decision, noEquity: bool, before: Payload)
    ensures var marked := || HasForbiddingFlag(d.flags) || d.noOrder == Yes || d.authorized == No
                          || (d.gate.Some? && IsRejectInAnyDress(d.gate.value))
                          || (d.mode == WeightMode && noEquity);
            var after := Attach(before, Normalize(d, noEquity));
            && (NO_EXECUTE in Normalize(d, noEquity).flags <==> marked)
            && (after.noExecute <==> before.noExecute || marked)
            && (d.mode != NoMode || marked ==>
                  && after.noOrder == (if d.noOrder == Missing then before.noOrder else d.noOrder)
                  && after.authorized == (if d.authorized == Missing then before.authorized else d.authorized))
  {
    if d.gate.Some? {
      RejectsInAnyDress(d.gate.value);
    }
  }

  /** The executor acts exactly when the execution payload is approved, the allocation payload is
      approved or says nothing, and neither carries a fact against it. */
  lemma ActsExactly(execution: Payload, allocation: Payload)
    ensures !ExecutionBlocked(execution, allocation) <==>
            && execution.gate == Some(APPROVE) && (allocation.gate.None? || allocation.gate == Some(APPROVE))
            && !execution.noExecute && !allocation.noExecute
            && execution.noOrder != Yes && allocation.noOrder != Yes
            && execution.authorized != No && allocation.authorized != No
            && !HasForbiddingFlag(execution.flags) && !HasForbiddingFlag(allocation.flags)
  {
  }
}
