/**
 * The participant-network launch orchestrator: for each participant spec, in index
 * order, resolve the EL and CL launchers, launch the EL node and then the CL node
 * (wired to the boot participant's nodes for every index but the first), and collect
 * the resulting participants, or abort the whole run on the first failure.
 */
module ParticipantNetwork {
  import opened Wrappers
  import opened Launchers
  import Decimal

  const ClClientServiceIdPrefix: string := "cl-client-"
  const ElClientServiceIdPrefix: string := "el-client-"

  /** The participant whose nodes every other participant uses as bootnodes. */
  const BootParticipantIndex: nat := 0

  /** Which client implementations to launch for one participant. */
  datatype ParticipantSpec = ParticipantSpec(elClientType: ElClientType, clClientType: ClClientType)

  /** One launched participant: a paired EL node and CL node and their client types. */
  datatype Participant = Participant(
    elClientType: ElClientType,
    clClientType: ClClientType,
    elClientContext: ElClientContext,
    clClientContext: ClClientContext)

  /** Why a run was aborted. */
  datatype NetworkError =
    | UnknownClientType(layer: Layer, clientType: string)
    | LaunchFailed(layer: Layer, index: nat, cause: LaunchCause)

  /** All inputs of one orchestration run. */
  datatype Request = Request(
    enclave: EnclaveContext,
    networkId: string,
    elLaunchers: map<ElClientType, ElLauncher>,
    clLaunchers: map<ClClientType, ClLauncher>,
    specs: seq<ParticipantSpec>,
    keys: seq<NodeKeystoreDirpaths>,
    logLevel: LogLevel)
  {
    /** Every participant has validator keystores (the run indexes `keys` by participant). */
    predicate Valid()
    {
      |specs| <= |keys|
    }
  }

  /** The service identifier `<prefix><idx>`, the index written in decimal. */
  function ServiceId(prefix: string, idx: nat): (id: string)
  {
    prefix + Decimal.Format(idx)
  }

  /** The EL bootnode argument for participant `idx`: none for the boot participant itself. */
  function BootnodeEl(idx: nat, participants: seq<Participant>): (bootnode: Option<ElClientContext>)
    requires idx == BootParticipantIndex || BootParticipantIndex < |participants|
  {
    if idx == BootParticipantIndex then None
    else Some(participants[BootParticipantIndex].elClientContext)
  }

  /** The CL bootnode argument for participant `idx`: none for the boot participant itself. */
  function BootnodeCl(idx: nat, participants: seq<Participant>): (bootnode: Option<ClClientContext>)
    requires idx == BootParticipantIndex || BootParticipantIndex < |participants|
  {
    if idx == BootParticipantIndex then None
    else Some(participants[BootParticipantIndex].clClientContext)
  }

  /** The state of a run: still going, with what it has built and called so far, or aborted. */
  datatype Progress =
    | Running(participants: seq<Participant>, calls: seq<LaunchCall>)
    | Aborted(error: NetworkError, calls: seq<LaunchCall>)

  /**
   * One iteration of the loop, for participant `idx`, given the participants launched
   * so far and the launcher calls made so far.
   */
  function LaunchOne(req: Request, idx: nat, participants: seq<Participant>, calls: seq<LaunchCall>): (p: Progress)
    requires req.Valid() && idx == |participants| && idx < |req.specs|
    ensures calls <= p.calls && |p.calls| <= |calls| + 2
    ensures p.Running? ==> |p.participants| == idx + 1 && p.participants[..idx] == participants
    ensures p.Running? ==> |p.calls| == |calls| + 2
    ensures |p.calls| > |calls| ==> p.calls[|calls|].ElLaunch? && p.calls[|calls|].index == idx
    ensures |p.calls| == |calls| + 2 ==> p.calls[|calls| + 1].ClLaunch? && p.calls[|calls| + 1].index == idx
  {
    var spec := req.specs[idx];
    if spec.elClientType !in req.elLaunchers then
      Aborted(UnknownClientType(EL, spec.elClientType), calls)
    else if spec.clClientType !in req.clLaunchers then
      Aborted(UnknownClientType(CL, spec.clClientType), calls)
    else
      var elArgs := ElLaunchArgs(req.enclave, ServiceId(ElClientServiceIdPrefix, idx), req.logLevel,
                                 req.networkId, BootnodeEl(idx, participants));
      var afterEl := calls + [ElLaunch(idx, spec.elClientType, elArgs)];
      match req.elLaunchers[spec.elClientType](elArgs)
      case Failure(cause) => Aborted(LaunchFailed(EL, idx, cause), afterEl)
      case Success(elContext) =>
        var clArgs := ClLaunchArgs(req.enclave, ServiceId(ClClientServiceIdPrefix, idx), req.logLevel,
                                   BootnodeCl(idx, participants), elContext, req.keys[idx]);
        var afterCl := afterEl + [ClLaunch(idx, spec.clClientType, clArgs)];
        match req.clLaunchers[spec.clClientType](clArgs)
        case Failure(cause) => Aborted(LaunchFailed(CL, idx, cause), afterCl)
        case Success(clContext) =>
          var participant := Participant(spec.elClientType, spec.clClientType, elContext, clContext);
          Running(participants + [participant], afterCl)
  }

  /** The state of a run after the loop has handled its first `n` participant specs. */
  function RunPrefix(req: Request, n: nat): (r: Progress)
    requires req.Valid() && n <= |req.specs|
    ensures r.Running? ==> |r.participants| == n
  {
    if n == 0 then Running([], [])
    else
      match RunPrefix(req, n - 1)
      case Aborted(error, calls) => Aborted(error, calls)
      case Running(participants, calls) => LaunchOne(req, n - 1, participants, calls)
  }

  /** What the caller receives: all participants, or the error and no participant at all. */
  function Outcome(p: Progress): (result: Result<seq<Participant>, NetworkError>)
  {
    match p
    case Running(participants, _) => Success(participants)
    case Aborted(error, _) => Failure(error)
  }

  /** Once a run has aborted, handling further specs changes nothing. */
  lemma {:induction false} AbortedIsFinal(req: Request, k: nat, n: nat)
    requires req.Valid() && k <= n <= |req.specs|
    requires RunPrefix(req, k).Aborted?
    ensures RunPrefix(req, n) == RunPrefix(req, k)
    decreases n
  {
    if n > k {
      AbortedIsFinal(req, k, n - 1);
    }
  }

  /**
   * Launches one participant per spec, in index order, and returns them in that order
   * together with the launcher calls made; on any unknown client type or launch error
   * the run stops and returns only the error.
   */
  method LaunchParticipantNetwork(
    enclave: EnclaveContext,
    networkId: string,
    elLaunchers: map<ElClientType, ElLauncher>,
    clLaunchers: map<ClClientType, ClLauncher>,
    allParticipantSpecs: seq<ParticipantSpec>,
    preregisteredValidatorKeysForNodes: seq<NodeKeystoreDirpaths>,
    logLevel: LogLevel)
    returns (result: Result<seq<Participant>, NetworkError>, calls: seq<LaunchCall>)
    requires |allParticipantSpecs| <= |preregisteredValidatorKeysForNodes|
    ensures var run := RunPrefix(Request(enclave, networkId, elLaunchers, clLaunchers, allParticipantSpecs,
                                         preregisteredValidatorKeysForNodes, logLevel),
                                 |allParticipantSpecs|);
            result == Outcome(run) && calls == run.calls
    ensures allParticipantSpecs == [] ==> result == Success([]) && calls == []
  {
    ghost var req := Request(enclave, networkId, elLaunchers, clLaunchers, allParticipantSpecs,
                             preregisteredValidatorKeysForNodes, logLevel);
    ghost var total := |allParticipantSpecs|;
    var participants: seq<Participant> := [];
    calls := [];
    var idx := 0;
    while idx < |allParticipantSpecs|
      invariant idx <= |allParticipantSpecs|
      invariant |participants| == idx
      invariant RunPrefix(req, idx) == Running(participants, calls)
    {
      // This iteration computes the next state of the run.
      ghost var next := LaunchOne(req, idx, participants, calls);
      assert RunPrefix(req, idx + 1) == next;
      var elClientType := allParticipantSpecs[idx].elClientType;
      var clClientType := allParticipantSpecs[idx].clClientType;

      if elClientType !in elLaunchers {
        result := Failure(UnknownClientType(EL, elClientType));
        AbortedIsFinal(req, idx + 1, total);
        return;
      }
      var elLauncher := elLaunchers[elClientType];
      if clClientType !in clLaunchers {
        result := Failure(UnknownClientType(CL, clClientType));
        AbortedIsFinal(req, idx + 1, total);
        return;
      }
      var clLauncher := clLaunchers[clClientType];

      var elClientServiceId := ServiceId(ElClientServiceIdPrefix, idx);
      var clClientServiceId := ServiceId(ClClientServiceIdPrefix, idx);
      var newClNodeValidatorKeystores := preregisteredValidatorKeysForNodes[idx];

      // Launch the EL client
      var bootElClientCtx: Option<ElClientContext>;
      if idx == BootParticipantIndex {
        bootElClientCtx := None;
      } else {
        bootElClientCtx := Some(participants[BootParticipantIndex].elClientContext);
      }
      var elArgs := ElLaunchArgs(enclave, elClientServiceId, logLevel, networkId, bootElClientCtx);
      var elLaunch := elLauncher(elArgs);
      calls := calls + [ElLaunch(idx, elClientType, elArgs)];
      if elLaunch.Failure? {
        result := Failure(LaunchFailed(EL, idx, elLaunch.error));
        AbortedIsFinal(req, idx + 1, total);
        return;
      }
      var newElClientCtx := elLaunch.value;

      // Launch the CL client
      var bootClClientCtx: Option<ClClientContext>;
      if idx == BootParticipantIndex {
        bootClClientCtx := None;
      } else {
        bootClClientCtx := Some(participants[BootParticipantIndex].clClientContext);
      }
      var clArgs := ClLaunchArgs(enclave, clClientServiceId, logLevel, bootClClientCtx,
                                 newElClientCtx, newClNodeValidatorKeystores);
      var clLaunch := clLauncher(clArgs);
      calls := calls + [ClLaunch(idx, clClientType, clArgs)];
      if clLaunch.Failure? {
        result := Failure(LaunchFailed(CL, idx, clLaunch.error));
        AbortedIsFinal(req, idx + 1, total);
        return;
      }
      var newClClientCtx := clLaunch.value;

      var participant := Participant(elClientType, clClientType, newElClientCtx, newClClientCtx);
      participants := participants + [participant];
      idx := idx + 1;
    }
    result := Success(participants);
  }
}
