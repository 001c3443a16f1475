/** `submit_claimed_order` in its own form: a closure over two flags, in front of the shared
    marker store. One call without interference is the run's steps up to its answer. */
module ClaimedOrderPort {
  import opened OrderFence

  /** The execution state store: markers and account owners, both create-if-absent. */
  class MarkerStore {
    var markers: set<OrderFence.MarkerKey>
    var owners: map<string, string>

    constructor ()
      ensures markers == {} && owners == map[]
    {
      markers, owners := {}, map[];
    }

    /** `claim_account_owner`. */
    method ClaimAccountOwner(account: string, owner: string) returns (allowed: bool)
      modifies this`owners
      ensures owners == WithOwner(old(owners), account, owner)
      ensures allowed == (owners[account] == owner)
    {
      if account !in owners {
        owners := owners[account := owner];
      }
      allowed := owners[account] == owner;
    }

    /** `claim_marker`: true for the call that creates the marker. */
    method ClaimExecutionMarker(key: MarkerKey) returns (created: bool)
      modifies this`markers
      ensures markers == old(markers) + {key} && created == (key !in old(markers))
    {
      created := key !in markers;
      markers := markers + {key};
    }
  }

  /** One whole `submit_order` call of run i, without interference by other runs. */
  function SubmitAlone(f: Fence, i: nat, ownerReply: StoreReply, markerReply: StoreReply): Fence
    requires i < |f.runs|
  {
    var begun := Step(f, i, Answers);
    StepKeepsConfigs(f, i, Answers);
    if begun.runs[i].stage == AtOwner then
      var owned := Step(begun, i, ownerReply);
      StepKeepsConfigs(begun, i, ownerReply);
      if owned.runs[i].stage == AtMarker then
        var marked := Step(owned, i, markerReply);
        StepKeepsConfigs(owned, i, markerReply);
        if marked.runs[i].stage == AtDelegate then Step(marked, i, Answers) else marked
      else owned
    else if begun.runs[i].stage == AtDelegate then Step(begun, i, Answers)
    else begun
  }

  class Port {
    const store: MarkerStore
    const config: FenceConfig
    var claimAttempted: bool
    var claimAcquired: bool

    constructor (store: MarkerStore, config: FenceConfig)
      ensures this.store == store && this.config == config && !claimAttempted && !claimAcquired
    {
      this.store, this.config := store, config;
      claimAttempted, claimAcquired := false, false;
    }

    /** This run alone, as a fence with one run. */
    ghost function View(marks: seq<Mark>): Fence
      reads this, store
    {
      Fence(store.markers, store.owners, [FenceRun(config, claimAttempted, claimAcquired, Idle)], marks)
    }

    /** The answer of one call, as the mark it leaves: delegated, refused or failed. */
    method SubmitOrder(ownerReply: StoreReply, markerReply: StoreReply) returns (answer: Mark)
      requires claimAcquired ==> claimAttempted
      modifies this, store
      ensures var f := SubmitAlone(old(View([])), 0, ownerReply, markerReply);
              f == View(f.marks) && f.marks != [] && answer == f.marks[|f.marks| - 1]
      ensures claimAttempted
      ensures old(claimAcquired) ==> answer == Delegated(0) && claimAcquired
      ensures old(claimAttempted) && !old(claimAcquired) ==> answer == Refused(0) && !claimAcquired
      ensures old(claimAttempted) ==> store.markers == old(store.markers) && store.owners == old(store.owners)
      ensures !old(claimAttempted) ==>
                && (answer == Delegated(0) <==>
                      ownerReply == Answers && markerReply == Answers && old(Admits(View([]), 0)))
                && (claimAcquired <==> answer == Delegated(0))
                && var claims := config.enabled && config.account.Some?;
                   var allowed := claims && ownerReply == Answers && store.owners[config.account.value] == config.owner;
                   && store.owners == (if claims && ownerReply != RaisesBefore
                                       then WithOwner(old(store.owners), config.account.value, config.owner)
                                       else old(store.owners))
                   && store.markers == (if allowed && markerReply != RaisesBefore
                                        then old(store.markers) + {config.key} else old(store.markers))
      ensures answer == Failed(0) <==> !old(claimAttempted) && config.enabled && config.account.None?
    {
      if !claimAttempted {
        claimAttempted := true;
        if config.enabled {
          if config.account.None? {
            return Failed(0);
          }
          if ownerReply == RaisesBefore {
            return Refused(0);
          }
          var allowed := store.ClaimAccountOwner(config.account.value, config.owner);
          if ownerReply == RaisesAfter || !allowed {
            return Refused(0);
          }
          if markerReply == RaisesBefore {
            return Refused(0);
          }
          var created := store.ClaimExecutionMarker(config.key);
          if markerReply == RaisesAfter {
            return Refused(0);
          }
          claimAcquired := created;
        }
      }
      if !claimAcquired {
        return Refused(0);
      }
      return Delegated(0);
    }
  }
}
