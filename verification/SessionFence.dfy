/** Sessions and execution markers: two commands of one session share a marker only if their
    dates and timing agree, so the fence does not always stop the second one. */
module SessionFence {
  import opened Wrappers

  import LiveCommands
  import P = LiveProtocol
  import ProtocolSafety
  import ProtocolRuns
  import Overlaps
  import F = OrderFence

  /** `_build_execution_marker_key` of a command's run. */
  function KeyOf(c: LiveCommands.Command): F.MarkerKey
  {
    F.MarkerKey(c.scope, c.signalDate, c.effectiveDate, c.timing)
  }

  /** What two commands of one session must agree on besides, to share a marker. */
  predicate SameTiming(c: LiveCommands.Command, d: LiveCommands.Command)
  {
    && c.timing == d.timing
    && if c.scope.CompletedSession() then c.signalDate == d.signalDate else c.effectiveDate == d.effectiveDate
  }

  /** Two runs stand before fresh stores with the markers of these commands, enabled, with one
      account and owner. */
  ghost predicate Stand(f: F.Fence, i: nat, c: LiveCommands.Command, j: nat, d: LiveCommands.Command)
  {
    && F.Fresh(f) && f.markers == {} && f.owners == map[]
    && i < |f.runs| && j < |f.runs| && i != j
    && f.runs[i].config.enabled && f.runs[j].config.enabled
    && f.runs[i].config.key == KeyOf(c) && f.runs[j].config.key == KeyOf(d)
    && f.runs[i].config.account.Some? && f.runs[i].config.account == f.runs[j].config.account
    && f.runs[i].config.owner == f.runs[j].config.owner
  }

  /** The fence stops the second run of a session exactly when the two commands also agree on
      timing and on the other date; otherwise some schedule lets both reach the broker. */
  lemma SessionReachesBrokerTwice(f: F.Fence, i: nat, c: LiveCommands.Command, j: nat, d: LiveCommands.Command)
    requires Stand(f, i, c, j, d) && ProtocolSafety.SameSession(c, d)
    ensures (exists schedule: F.Schedule :: F.BothDelegate(f, schedule, i, j)) <==> !SameTiming(c, d)
  {
    F.BothDelegateWhenAdmitted(f, i, j);
  }

  lemma ClaimForToday(w: P.World, env: P.RunEnv, c: LiveCommands.Command)
    requires ProtocolRuns.WellFormed(w.log, env) && P.Decide(w.log, env).claim == Some(c)
    ensures c.effectiveDate == env.session && c.scope == env.config.scope
  {
    ProtocolRuns.ClaimIsAlone(w.log, env);
    Overlaps.ClaimInScope(w.log, env, c);
  }

  /** Two overlapping runs of one scope and session that decide on the same store and both claim.
      They leave two active commands if and only if they claim different ones; and both can reach
      the broker if and only if their commands differ in timing or signal date. */
  lemma OverlapReachesBroker(w: P.World, a: P.RunEnv, b: P.RunEnv,
                             c: LiveCommands.Command, d: LiveCommands.Command, t: seq<P.Action>,
                             f: F.Fence, i: nat, j: nat)
    requires ProtocolSafety.Inv(w, a.session) && ProtocolRuns.WellFormed(w.log, a)
             && ProtocolRuns.WellFormed(w.log, b) && Overlaps.Alike(w.log, a, b)
    requires P.Decide(w.log, a).claim == Some(c) && P.Decide(w.log, b).claim == Some(d)
    requires Overlaps.Interleaves(P.DecisionTrace(P.Decide(w.log, a)), P.DecisionTrace(P.Decide(w.log, b)), t)
    requires Stand(f, i, c, j, d)
    ensures ProtocolSafety.OneActive(Overlaps.ApplyAllAtomic(w, t).log) <==> c == d
    ensures (exists schedule: F.Schedule :: F.BothDelegate(f, schedule, i, j)) <==>
            c.timing != d.timing || c.signalDate != d.signalDate
  {
    Overlaps.OverlappingRunsBothClaim(w, a, b, c, d, t);
    ClaimForToday(w, a, c);
    ClaimForToday(w, b, d);
    SessionReachesBrokerTwice(f, i, c, j, d);
  }
}
