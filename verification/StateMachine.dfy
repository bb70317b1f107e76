/**
 * The state machine and the step tables it runs on (stateMachine/stateMachine.go and both
 * stepsFactory.go), driven by the steps of each half-bridge.
 */
module StateMachine {
  import opened Base
  import opened Executor
  import opened Protocol
  import opened SignatureStore
  import ToElrond
  import ToElrondRuns
  import ToElrondSteps
  import ToEth
  import ToEthRuns
  import ToEthSteps

  class Machine<S(==)> {
    const steps: map<string, S>
    /** The source holds nil here after a step named an identifier that is not in the map. */
    var currentStep: Option<S>

    constructor (steps: map<string, S>, start: string)
      ensures this.steps == steps && currentStep == if start in steps then Some(steps[start]) else None
    {
      this.steps := steps;
      currentStep := if start in steps then Some(steps[start]) else None;
    }

    method GetNextStep(identifier: string) returns (r: Result<S>)
      ensures r == if identifier in steps then Ok(steps[identifier]) else Err(StepNotFound)
    {
      if identifier !in steps {
        return Err(StepNotFound);
      }
      return Ok(steps[identifier]);
    }

    /** The second half of `executeStep`: an unknown identifier is reported and leaves no current step. */
    method MoveTo(identifier: string) returns (r: Result<()>)
      modifies this
      ensures r == if identifier in steps then Ok(()) else Err(StepNotFound)
      ensures currentStep == if identifier in steps then Some(steps[identifier]) else None
    {
      var next := GetNextStep(identifier);
      if next.Err? {
        currentStep := None;
        return Err(next.error);
      }
      currentStep := Some(next.value);
      r := Ok(());
    }
  }

  // ---------------------------------------------------------------- identifiers

  function ToEthName(id: ToEth.Id): string {
    match id
    case GettingPendingBatch => "get pending batch from Elrond"
    case SigningProposedTransfer => "sign proposed transfer"
    case WaitingForQuorumOnTransfer => "wait for quorum on transfer"
    case PerformingTransfer => "perform transfer"
    case WaitingTransferConfirmation => "wait transfer confirmating"
    case ResolvingSetStatus => "resolve set status"
    case ProposingSetStatus => "propose set status"
    case SigningProposedSetStatus => "sign proposed set status"
    case WaitingForQuorumOnSetStatus => "wait for quorum on set status"
    case PerformingSetStatus => "perform set status"
  }

  function ToElrondName(id: ToElrond.Id): string {
    match id
    case GettingPendingBatch => "get pending batch from Ethereum"
    case ProposingTransfer => "propose transfer"
    case SigningProposedTransfer => "sign proposed transfer"
    case WaitingForQuorum => "wait for quorum"
    case PerformingActionID => "perform action"
  }

  const TO_ETH_STEPS: seq<ToEth.Id> := [
    ToEth.GettingPendingBatch, ToEth.SigningProposedTransfer, ToEth.WaitingForQuorumOnTransfer,
    ToEth.PerformingTransfer, ToEth.WaitingTransferConfirmation, ToEth.ResolvingSetStatus,
    ToEth.ProposingSetStatus, ToEth.SigningProposedSetStatus, ToEth.WaitingForQuorumOnSetStatus,
    ToEth.PerformingSetStatus]

  const TO_ELROND_STEPS: seq<ToElrond.Id> := [
    ToElrond.GettingPendingBatch, ToElrond.ProposingTransfer, ToElrond.SigningProposedTransfer,
    ToElrond.WaitingForQuorum, ToElrond.PerformingActionID]

  /** The place of a step in its table. */
  function ToEthPlace(id: ToEth.Id): nat {
    match id
    case GettingPendingBatch => 0
    case SigningProposedTransfer => 1
    case WaitingForQuorumOnTransfer => 2
    case PerformingTransfer => 3
    case WaitingTransferConfirmation => 4
    case ResolvingSetStatus => 5
    case ProposingSetStatus => 6
    case SigningProposedSetStatus => 7
    case WaitingForQuorumOnSetStatus => 8
    case PerformingSetStatus => 9
  }

  function ToElrondPlace(id: ToElrond.Id): nat {
    match id
    case GettingPendingBatch => 0
    case ProposingTransfer => 1
    case SigningProposedTransfer => 2
    case WaitingForQuorum => 3
    case PerformingActionID => 4
  }

  /** Distinct steps have distinct identifiers; lengths, then single characters, tell them apart. */
  lemma ToEthNamesDiffer(x: ToEth.Id, y: ToEth.Id)
    ensures x != y ==> ToEthName(x) != ToEthName(y)
  {
    if ToEthName(x) == ToEthName(y) {
      assert |ToEthName(x)| == |ToEthName(y)|;
      assert |ToEthName(x)| > 0 ==> ToEthName(x)[0] == ToEthName(y)[0];
      assert |ToEthName(x)| > 1 ==> ToEthName(x)[1] == ToEthName(y)[1];
      assert |ToEthName(x)| > 2 ==> ToEthName(x)[2] == ToEthName(y)[2];
    }
  }

  lemma ToElrondNamesDiffer(x: ToElrond.Id, y: ToElrond.Id)
    ensures x != y ==> ToElrondName(x) != ToElrondName(y)
  {
    if ToElrondName(x) == ToElrondName(y) {
      assert |ToElrondName(x)| == |ToElrondName(y)|;
    }
  }

  /** Every step is in its table once, at its place. */
  lemma ToEthStepPlaced(id: ToEth.Id, i: nat)
    ensures id in TO_ETH_STEPS
    ensures i < |TO_ETH_STEPS| ==> ToEthPlace(TO_ETH_STEPS[i]) == i
  {
    assert TO_ETH_STEPS[ToEthPlace(id)] == id;
  }

  lemma ToElrondStepPlaced(id: ToElrond.Id, i: nat)
    ensures id in TO_ELROND_STEPS
    ensures i < |TO_ELROND_STEPS| ==> ToElrondPlace(TO_ELROND_STEPS[i]) == i
  {
    assert TO_ELROND_STEPS[ToElrondPlace(id)] == id;
  }

  /** The map holds exactly the steps, each under its own identifier. */
  ghost predicate IsTable<S(!new)>(table: map<string, S>, name: S -> string, steps: seq<S>) {
    && (forall s :: s in steps ==> name(s) in table && table[name(s)] == s)
    && (forall k :: k in table ==> table[k] in steps && name(table[k]) == k)
  }

  ghost predicate DistinctNames<S>(name: S -> string, steps: seq<S>) {
    forall i, j :: 0 <= i < j < |steps| ==> name(steps[i]) != name(steps[j])
  }

  lemma TableGrows<S(!new)>(table: map<string, S>, name: S -> string, steps: seq<S>, s: S)
    requires IsTable(table, name, steps) && DistinctNames(name, steps)
    ensures name(s) in table <==> !DistinctNames(name, steps + [s])
    ensures name(s) !in table ==> IsTable(table[name(s) := s], name, steps + [s])
  {
    var now := steps + [s];
    assert now[|steps|] == s;
    if name(s) in table {
      var j :| 0 <= j < |steps| && steps[j] == table[name(s)];
      assert now[j] == steps[j];
    } else {
      forall i, j | 0 <= i < j < |now| ensures name(now[i]) != name(now[j]) {
        assert now[i] in steps;
      }
      forall k | k in table ensures table[k] in now {
        assert table[k] in steps;
      }
    }
  }

  /** The loop of `createMachineStates`: it fails exactly when two of the steps share an identifier. */
  method CreateMachineStates<S(==,!new)>(steps: seq<S>, name: S -> string) returns (r: Result<map<string, S>>)
    ensures r.Ok? <==> DistinctNames(name, steps)
    ensures r.Ok? ==> IsTable(r.value, name, steps)
    ensures r.Err? ==> r.error == DuplicatedStep
  {
    var machineStates: map<string, S> := map[];
    for i := 0 to |steps|
      invariant IsTable(machineStates, name, steps[..i]) && DistinctNames(name, steps[..i])
    {
      TakeOneMore(steps, i);
      TableGrows(machineStates, name, steps[..i], steps[i]);
      if name(steps[i]) in machineStates {
        assert forall j :: 0 <= j <= i ==> steps[..i + 1][j] == steps[j];
        return Err(DuplicatedStep);
      }
      machineStates := machineStates[name(steps[i]) := steps[i]];
    }
    assert steps[..|steps|] == steps;
    r := Ok(machineStates);
  }

  method CreateToEthSteps() returns (table: map<string, ToEth.Id>)
    ensures forall id :: ToEthName(id) in table && table[ToEthName(id)] == id
  {
    var r := CreateMachineStates(TO_ETH_STEPS, ToEthName);
    forall i: nat, j: nat | i < j < |TO_ETH_STEPS| ensures ToEthName(TO_ETH_STEPS[i]) != ToEthName(TO_ETH_STEPS[j]) {
      ToEthStepPlaced(TO_ETH_STEPS[i], i);
      ToEthStepPlaced(TO_ETH_STEPS[j], j);
      ToEthNamesDiffer(TO_ETH_STEPS[i], TO_ETH_STEPS[j]);
    }
    table := r.value;
    forall id ensures id in TO_ETH_STEPS {
      ToEthStepPlaced(id, 0);
    }
  }

  method CreateToElrondSteps() returns (table: map<string, ToElrond.Id>)
    ensures forall id :: ToElrondName(id) in table && table[ToElrondName(id)] == id
  {
    var r := CreateMachineStates(TO_ELROND_STEPS, ToElrondName);
    forall i: nat, j: nat | i < j < |TO_ELROND_STEPS| ensures ToElrondName(TO_ELROND_STEPS[i]) != ToElrondName(TO_ELROND_STEPS[j]) {
      ToElrondStepPlaced(TO_ELROND_STEPS[i], i);
      ToElrondStepPlaced(TO_ELROND_STEPS[j], j);
      ToElrondNamesDiffer(TO_ELROND_STEPS[i], TO_ELROND_STEPS[j]);
    }
    table := r.value;
    forall id ensures id in TO_ELROND_STEPS {
      ToElrondStepPlaced(id, 0);
    }
  }

  // ---------------------------------------------------------------- running the machines

  /** The script as it turned out: what was read from the store and the token check is filled in. */
  ghost predicate HeardAs(script: seq<Answers>, heard: seq<Answers>) {
    && |heard| == |script|
    && forall k :: 0 <= k < |script| ==>
         heard[k] == ToEthSteps.Heard(script[k], heard[k].signatures, heard[k].transfer.shortage)
  }

  /** The store after these steps, if nothing is delivered meanwhile: step six empties it, unless disabled. */
  ghost function StoreAlong(cfg: Config, answers: seq<Answers>, start: Store, enabled: bool): Store {
    if answers == [] then start
    else
      var front := answers[..|answers| - 1];
      if enabled && ToEthRuns.Run(cfg, front).step.ResolvingSetStatus? then EMPTY
      else StoreAlong(cfg, front, start, enabled)
  }

  /** Step `k` lists exactly what the store holds when it is executed. */
  ghost predicate ReadsAt(cfg: Config, heard: seq<Answers>, start: Store, enabled: bool, k: nat)
    requires k < |heard|
  {
    var m := ToEthRuns.Run(cfg, heard[..k]);
    ToEthSteps.ReadsTruly(ToEth.Execute(cfg, m.step, m.exec, heard[k]).calls,
                          StoreAlong(cfg, heard[..k], start, enabled).ethMessages)
  }

  /** What was heard for the script, which calls it led to, and what the store held along the way. */
  ghost predicate Follows(cfg: Config, script: seq<Answers>, heard: seq<Answers>, start: Store, enabled: bool,
      calls: seq<Call>, store: Store) {
    && HeardAs(script, heard) && calls == ToEthRuns.CallsOf(cfg, heard)
    && (forall k :: 0 <= k < |heard| ==> ReadsAt(cfg, heard, start, enabled, k))
    && store == StoreAlong(cfg, heard, start, enabled)
  }

  lemma FollowsOn(cfg: Config, script: seq<Answers>, heard: seq<Answers>, start: Store, enabled: bool,
      calls: seq<Call>, store: Store, next: Answers, a: Answers)
    requires Follows(cfg, script, heard, start, enabled, calls, store)
    requires a == ToEthSteps.Heard(next, a.signatures, a.transfer.shortage)
    requires var m := ToEthRuns.Run(cfg, heard);
             ToEthSteps.ReadsTruly(ToEth.Execute(cfg, m.step, m.exec, a).calls, store.ethMessages)
    ensures var m := ToEthRuns.Run(cfg, heard);
            Follows(cfg, script + [next], heard + [a], start, enabled,
                    calls + ToEth.Execute(cfg, m.step, m.exec, a).calls,
                    if enabled && m.step.ResolvingSetStatus? then EMPTY else store)
  {
    var now := heard + [a];
    assert now[..|heard|] == heard;
    ToEthRuns.RunAppend(cfg, heard, a);
    forall k | 0 <= k < |now| ensures ReadsAt(cfg, now, start, enabled, k) {
      if k < |heard| {
        assert ReadsAt(cfg, heard, start, enabled, k);
        assert now[..k] == heard[..k] && now[k] == heard[k];
      }
    }
  }

  /**
   * Any number of steps of the Elrond to Ethereum machine: no step is ever missing; executor, machine and
   * recorded calls are where the run of the step functions is, for the script as heard; and every listing of
   * signatures is what the store held at that step.
   */
  method RunToEth(bridge: BridgeExecutor, script: seq<Answers>)
    returns (machine: Machine<ToEth.Id>, ghost heard: seq<Answers>)
    requires bridge.View() == INITIAL
    requires bridge.batch == null
    modifies bridge, bridge.signaturesHolder
    ensures machine.currentStep == Some(ToEthRuns.Run(bridge.cfg, heard).step)
    ensures bridge.View() == ToEthRuns.Run(bridge.cfg, heard).exec
    ensures HeardAs(script, heard) && bridge.calls == old(bridge.calls) + ToEthRuns.CallsOf(bridge.cfg, heard)
    ensures forall k :: 0 <= k < |heard| ==>
              ReadsAt(bridge.cfg, heard, old(bridge.signaturesHolder.Contents()), bridge.holderEnabled, k)
    ensures bridge.signaturesHolder.Contents() ==
            StoreAlong(bridge.cfg, heard, old(bridge.signaturesHolder.Contents()), bridge.holderEnabled)
  {
    var table := CreateToEthSteps();
    machine := new Machine(table, ToEthName(ToEth.GettingPendingBatch));
    heard := [];
    ghost var start, cfg, enabled := bridge.signaturesHolder.Contents(), bridge.cfg, bridge.holderEnabled;
    ghost var calls: seq<Call> := [];
    for i := 0 to |script|
      invariant machine.steps == table && machine.currentStep == Some(ToEthRuns.Run(cfg, heard).step)
      invariant bridge.View() == ToEthRuns.Run(cfg, heard).exec
      invariant bridge.calls == old(bridge.calls) + calls
      invariant Follows(cfg, script[..i], heard, start, enabled, calls, bridge.signaturesHolder.Contents())
      invariant bridge.batch != null ==> fresh(bridge.batch)
      invariant fresh(machine)
    {
      var next;
      ghost var answer;
      ghost var store, m := bridge.signaturesHolder.Contents(), ToEthRuns.Run(cfg, heard);
      next, answer := ToEthSteps.ExecuteStep(machine.currentStep.value, bridge, script[i]);
      ghost var more := ToEth.Execute(cfg, m.step, m.exec, answer).calls;
      TakeOneMore(script, i);
      FollowsOn(cfg, script[..i], heard, start, enabled, calls, store, script[i], answer);
      ToEthRuns.RunAppend(cfg, heard, answer);
      ConcatAssociative(old(bridge.calls), calls, more);
      heard, calls := heard + [answer], calls + more;
      var moved := machine.MoveTo(ToEthName(next));
      assert moved.Ok?;
    }
    assert script[..|script|] == script;
  }

  /** Any number of steps of the Ethereum to Elrond machine: no step is missing, and all agrees with the run. */
  method RunToElrond(bridge: BridgeExecutor, script: seq<Answers>) returns (machine: Machine<ToElrond.Id>)
    requires bridge.View() == INITIAL
    modifies bridge
    ensures machine.currentStep == Some(ToElrondRuns.Run(bridge.cfg, script).step)
    ensures bridge.View() == ToElrondRuns.Run(bridge.cfg, script).exec
    ensures bridge.calls == old(bridge.calls) + ToElrondRuns.CallsOf(bridge.cfg, script)
  {
    var table := CreateToElrondSteps();
    machine := new Machine(table, ToElrondName(ToElrond.GettingPendingBatch));
    assert script[..0] == [];
    for i := 0 to |script|
      invariant machine.steps == table
      invariant machine.currentStep == Some(ToElrondRuns.Run(bridge.cfg, script[..i]).step)
      invariant bridge.View() == ToElrondRuns.Run(bridge.cfg, script[..i]).exec
      invariant bridge.calls == old(bridge.calls) + ToElrondRuns.CallsOf(bridge.cfg, script[..i])
      invariant fresh(machine)
    {
      var next := ToElrondSteps.ExecuteStep(machine.currentStep.value, bridge, script[i]);
      TakeOneMore(script, i);
      ToElrondRuns.RunAppend(bridge.cfg, script[..i], script[i]);
      ghost var m := ToElrondRuns.Run(bridge.cfg, script[..i]);
      ConcatAssociative(old(bridge.calls), ToElrondRuns.CallsOf(bridge.cfg, script[..i]),
                        ToElrond.Execute(bridge.cfg, m.step, m.exec, script[i]).calls);
      var moved := machine.MoveTo(ToElrondName(next));
      assert moved.Ok?;
    }
    assert script[..|script|] == script;
  }
}
