/** The registry's members as its lock guards them, changed in place by the
    sections that hold the lock. */
module RegistryMembers {
  import opened Wrappers
  import R = Registry

  /** Recording one more of the members taken as draining. */
  lemma RecordingOne(draining: map<nat, R.Member>, taken: map<nat, R.Member>, left: set<nat>, generation: nat)
    requires generation in left && generation in taken
    ensures (draining + (taken - left))[generation := taken[generation]] == draining + (taken - (left - {generation}))
  {
  }

  ghost predicate Slotted(m: R.Members) {
    R.SlotsHold(m.stopping, m.byGeneration, m.serving, m.candidate)
  }

  /** Every generation in the map or draining. */
  function Generations(m: R.Members): set<nat> {
    m.byGeneration.Keys + m.draining.Keys
  }

  lemma TakingOne(members: map<nat, R.Member>, generation: nat)
    requires generation in members
    ensures |members - {generation}| == |members| - 1
  {
    assert (members - {generation}).Keys == members.Keys - {generation};
    assert |members.Keys| == |members| && |(members - {generation}).Keys| == |members - {generation}|;
  }

  /** Admitting a member that was taken undoes the taking. */
  lemma AdmittingUndoesTaking(m: R.Members, generation: nat)
    requires generation in m.byGeneration
    ensures var (taken, member) := R.Take(m, generation);
            member.Some? && R.Admit(taken, generation, member.value) == m
  {
    assert (m.byGeneration - {generation})[generation := m.byGeneration[generation]] == m.byGeneration;
  }

  class MemberTable {
    var byGeneration: map<nat, R.Member>
    var draining: map<nat, R.Member>
    var retiring: set<nat>
    var serving: Option<nat>
    var candidate: Option<nat>
    var abandoned: bool
    var preparing: nat
    var restart: R.Restart
    var restarts: seq<nat>
    var stopping: bool
    var outside: nat

    function View(): R.Members
      reads this
    {
      R.Members(byGeneration, draining, retiring, serving, candidate, abandoned, preparing, restart, restarts,
                stopping, outside)
    }

    constructor ()
      ensures View() == R.Empty
    {
      byGeneration, draining, retiring, serving, candidate := map[], map[], {}, None, None;
      abandoned, preparing, restart, restarts, stopping, outside := false, 0, R.Idle, [], false, 0;
    }

    /** A member is in the map or counted as outside, never neither. */
    method Take(generation: nat) returns (member: Option<R.Member>)
      modifies this`byGeneration, this`outside
      ensures (View(), member) == R.Take(old(View()), generation)
      ensures generation !in byGeneration && (member.Some? <==> generation in old(byGeneration))
      ensures |byGeneration| + outside == old(|byGeneration| + outside)
    {
      if generation !in byGeneration {
        return None;
      }
      TakingOne(byGeneration, generation);
      member := Some(byGeneration[generation]);
      byGeneration := byGeneration - {generation};
      outside := outside + 1;
    }

    method TakeCandidate() returns (member: Option<R.Member>)
      modifies this
      ensures (View(), member) == R.TakeCandidate(old(View()))
    {
      if candidate.None? {
        return None;
      }
      var generation := candidate.value;
      candidate, abandoned := None, false;
      member := Take(generation);
    }

    method TakeServing() returns (member: Option<R.Member>)
      modifies this
      ensures (View(), member) == R.TakeServing(old(View()))
    {
      if serving.None? {
        return None;
      }
      var generation := serving.value;
      serving := None;
      member := Take(generation);
    }

    method Admit(generation: nat, member: R.Member)
      modifies this
      ensures View() == R.Admit(old(View()), generation, member)
    {
      if outside > 0 {
        outside := outside - 1;
      }
      byGeneration := byGeneration[generation := member];
    }

    method ForgetRestart()
      modifies this
      ensures View() == R.ForgetRestart(old(View()))
    {
      restart, restarts := R.Idle, [];
    }

    method RetireLater(generation: nat, member: R.Member)
      modifies this
      ensures View() == R.RetireLater(old(View()), generation, member)
    {
      draining := draining[generation := member];
      retiring := retiring + {generation};
    }

    /** Drop the restarts that left the window, then schedule the next one or
        give the member up. */
    method OweRestart(owed: R.Owed, now: nat)
      modifies this
      ensures View() == R.OweRestart(old(View()), owed, now)
    {
      if restart != R.InHand(owed.deploymentId) {
        return;
      }
      while restarts != [] && now >= restarts[0] + R.RESTART_WINDOW
        invariant R.Recent(restarts, now) == R.Recent(old(restarts), now)
        invariant View() == old(View()).(restarts := restarts)
        decreases |restarts|
      {
        restarts := restarts[1..];
      }
      if |restarts| < |R.RESTART_DELAYS| {
        restart := R.Due(owed, now + R.RESTART_DELAYS[|restarts|]);
      } else {
        restart := R.GivenUp(owed.deploymentId);
      }
    }

    /** The candidate takes the serving slot, and the member it replaces is
        held as retiring. */
    method Activate(deploymentId: string) returns (activated: bool)
      modifies this
      ensures activated <==> R.Activated(old(View()), deploymentId).Some?
      ensures View() == if activated then R.Activated(old(View()), deploymentId).value else old(View())
      ensures Generations(View()) == Generations(old(View())) && (Slotted(old(View())) ==> Slotted(View()))
      ensures activated ==>
        && serving == old(candidate) && candidate.None?
        && R.SlotNames(byGeneration, serving, deploymentId)
      ensures activated && Slotted(old(View())) && old(serving).Some? ==>
        && old(serving).value in retiring
        && old(serving).value in draining
    {
      if stopping || !R.SlotNames(byGeneration, candidate, deploymentId) {
        return false;
      }
      var generation := candidate.value;
      var prepared := TakeCandidate();
      var left := serving;
      var replaced := TakeServing();
      Admit(generation, prepared.value);
      serving := Some(generation);
      ForgetRestart();
      if replaced.Some? {
        RetireLater(left.value, replaced.value);
      }
      return true;
    }

    /** Nothing of the deployment is left but what drains. */
    method Unload(deploymentId: string)
      modifies this
      ensures View() == R.Unloaded(old(View()), deploymentId)
      ensures Generations(View()) == Generations(old(View())) && (Slotted(old(View())) ==> Slotted(View()))
      ensures !R.SlotNames(byGeneration, serving, deploymentId) && !R.SlotNames(byGeneration, candidate, deploymentId)
      ensures !R.RestartNames(View(), deploymentId)
      ensures Slotted(old(View())) && !stopping ==>
          forall g :: g in byGeneration ==> byGeneration[g].deploymentId != deploymentId
    {
      if R.SlotNames(byGeneration, serving, deploymentId) {
        var generation := serving.value;
        var left := TakeServing();
        RetireLater(generation, left.value);
      }
      if R.SlotNames(byGeneration, candidate, deploymentId) {
        var generation := candidate.value;
        var left := TakeCandidate();
        draining := draining[generation := left.value];
      }
      if R.RestartNames(View(), deploymentId) {
        ForgetRestart();
      }
    }

    /** Begin a stop: every member of the map is recorded as draining, one by
        one, and nothing is left retiring. */
    method StopAll() returns (stopped: set<nat>)
      modifies this
      ensures View() == R.StopAll(old(View()))
      ensures stopped == old(byGeneration).Keys + old(retiring)
    {
      stopping, serving, candidate := true, None, None;
      var taken := byGeneration;
      byGeneration := map[];
      var left := taken.Keys;
      while left != {}
        invariant left <= taken.Keys && draining == old(draining) + (taken - left)
        invariant View() ==
          old(View()).(stopping := true, serving := None, candidate := None,
                       byGeneration := map[], draining := draining)
        decreases left
      {
        var generation :| generation in left;
        RecordingOne(old(draining), taken, left, generation);
        draining := draining[generation := taken[generation]];
        left := left - {generation};
      }
      assert taken - left == taken;
      stopped := taken.Keys + retiring;
      retiring := {};
    }
  }
}
