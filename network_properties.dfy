/**
 * What a run of the orchestrator guarantees, stated over `RunPrefix`, the function the
 * method `LaunchParticipantNetwork` is proved to compute.
 */
module NetworkProperties {
  import opened Wrappers
  import opened Launchers
  import opened ParticipantNetwork
  import Decimal

  /** The service-identifier prefix of a layer. */
  function ServiceIdPrefix(layer: Layer): (prefix: string)
  {
    match layer
    case EL => ElClientServiceIdPrefix
    case CL => ClClientServiceIdPrefix
  }

  /** Service identifiers of one layer differ exactly when the indices do, and EL and CL ones never meet. */
  lemma ServiceIdsUnique(i: nat, j: nat)
    ensures ServiceId(ElClientServiceIdPrefix, i) == ServiceId(ElClientServiceIdPrefix, j) <==> i == j
    ensures ServiceId(ClClientServiceIdPrefix, i) == ServiceId(ClClientServiceIdPrefix, j) <==> i == j
    ensures ServiceId(ElClientServiceIdPrefix, i) != ServiceId(ClClientServiceIdPrefix, j)
  {
    var el, cl := ElClientServiceIdPrefix, ClClientServiceIdPrefix;
    Decimal.FormatInjective(i, j);
    assert ServiceId(el, i)[|el|..] == Decimal.Format(i);
    assert ServiceId(el, j)[|el|..] == Decimal.Format(j);
    assert ServiceId(cl, i)[|cl|..] == Decimal.Format(i);
    assert ServiceId(cl, j)[|cl|..] == Decimal.Format(j);
    assert ServiceId(el, i)[0] != ServiceId(cl, j)[0];
  }

  /** Call `j` is the `j`-th call of the fixed order EL(0), CL(0), EL(1), CL(1), ... */
  predicate CallInOrder(calls: seq<LaunchCall>, j: nat)
  {
    && j < |calls|
    && calls[j].index == j / 2
    && (calls[j].Layer() == EL <==> j % 2 == 0)
    && calls[j].ServiceId() == ServiceId(ServiceIdPrefix(calls[j].Layer()), calls[j].index)
  }

  /** The calls are a prefix of the order EL(0), CL(0), EL(1), CL(1), ... */
  predicate InLaunchOrder(calls: seq<LaunchCall>)
  {
    forall j :: 0 <= j < |calls| ==> CallInOrder(calls, j)
  }

  /**
   * The calls one iteration appends for spec `idx`: the EL launch of `idx`, then the CL
   * launch of `idx`, each asking for its layer's service id of `idx`.
   */
  lemma LaunchOneCalls(req: Request, idx: nat, participants: seq<Participant>, calls: seq<LaunchCall>)
    requires req.Valid() && idx == |participants| && idx < |req.specs|
    ensures var after := LaunchOne(req, idx, participants, calls).calls;
            && (|after| > |calls| ==>
                  after[|calls|].ElLaunch? && after[|calls|].index == idx &&
                  after[|calls|].ServiceId() == ServiceId(ElClientServiceIdPrefix, idx))
            && (|after| == |calls| + 2 ==>
                  after[|calls| + 1].ClLaunch? && after[|calls| + 1].index == idx &&
                  after[|calls| + 1].ServiceId() == ServiceId(ClClientServiceIdPrefix, idx))
  {
  }

  /**
   * Launches happen strictly in the order EL(i), CL(i), EL(i + 1); a run that is still
   * going after `n` specs made exactly two calls per spec, and no run calls more.
   */
  lemma {:induction false} CallsInLaunchOrder(req: Request, n: nat)
    requires req.Valid() && n <= |req.specs|
    ensures InLaunchOrder(RunPrefix(req, n).calls)
    ensures |RunPrefix(req, n).calls| <= 2 * n
    ensures RunPrefix(req, n).Running? ==> |RunPrefix(req, n).calls| == 2 * n
    decreases n
  {
    if n > 0 {
      CallsInLaunchOrder(req, n - 1);
      var before := RunPrefix(req, n - 1);
      if before.Running? {
        var run := LaunchOne(req, n - 1, before.participants, before.calls);
        assert RunPrefix(req, n) == run;
        LaunchOneCalls(req, n - 1, before.participants, before.calls);
        InLaunchOrderExtends(before.calls, run.calls, n - 1);
      }
    }
  }

  /** Appending the EL and then the CL call of spec `idx` to the calls of specs `0 .. idx - 1` keeps the order. */
  lemma InLaunchOrderExtends(before: seq<LaunchCall>, after: seq<LaunchCall>, idx: nat)
    requires InLaunchOrder(before) && |before| == 2 * idx
    requires before <= after && |after| <= |before| + 2
    requires |after| > |before| ==>
               after[|before|].ElLaunch? && after[|before|].index == idx &&
               after[|before|].ServiceId() == ServiceId(ElClientServiceIdPrefix, idx)
    requires |after| == |before| + 2 ==>
               after[|before| + 1].ClLaunch? && after[|before| + 1].index == idx &&
               after[|before| + 1].ServiceId() == ServiceId(ClClientServiceIdPrefix, idx)
    ensures InLaunchOrder(after)
  {
    var k := |before|;
    forall j | 0 <= j < |after|
      ensures CallInOrder(after, j)
    {
      if j < k {
        assert after[j] == before[j];
        assert CallInOrder(before, j);
      } else if j == k {
        assert j / 2 == idx && j % 2 == 0;
      } else {
        assert j == k + 1 && j / 2 == idx && j % 2 == 1;
      }
    }
  }

  /** Calls made in launch order all ask for different services. */
  lemma OrderedCallsDistinctServiceIds(calls: seq<LaunchCall>)
    requires InLaunchOrder(calls)
    ensures forall j1, j2 :: 0 <= j1 < j2 < |calls| ==> calls[j1].ServiceId() != calls[j2].ServiceId()
  {
    forall j1, j2 | 0 <= j1 < j2 < |calls|
      ensures calls[j1].ServiceId() != calls[j2].ServiceId()
    {
      assert CallInOrder(calls, j1) && CallInOrder(calls, j2);
      ServiceIdsUnique(calls[j1].index, calls[j2].index);
      ServiceIdsUnique(calls[j2].index, calls[j1].index);
    }
  }

  /** Every launcher call of a run asks for a different service. */
  lemma CallServiceIdsDistinct(req: Request, n: nat)
    requires req.Valid() && n <= |req.specs|
    ensures var calls := RunPrefix(req, n).calls;
            forall j1, j2 :: 0 <= j1 < j2 < |calls| ==> calls[j1].ServiceId() != calls[j2].ServiceId()
  {
    CallsInLaunchOrder(req, n);
    OrderedCallsDistinctServiceIds(RunPrefix(req, n).calls);
  }

  /** A run still going after `n` specs is still going, with prefixes of its results, at every `m <= n`. */
  lemma {:induction false} RunningExtends(req: Request, m: nat, n: nat)
    requires req.Valid() && m <= n <= |req.specs|
    requires RunPrefix(req, n).Running?
    ensures RunPrefix(req, m).Running?
    ensures RunPrefix(req, m).participants == RunPrefix(req, n).participants[..m]
    ensures RunPrefix(req, m).calls <= RunPrefix(req, n).calls
    decreases n
  {
    if m < n {
      RunningExtends(req, m, n - 1);
    }
  }

  /**
   * Participant `i` of a run was launched as the Go code launches it: its client types are
   * those of spec `i`; calls `2i` and `2i + 1` launched its EL node and its CL node with
   * service ids `el-client-<i>` and `cl-client-<i>`, the run's enclave, log level and
   * network id, the boot participant's contexts as bootnodes (none for the boot
   * participant itself), the participant's own EL context and keystore `i` for the CL
   * node; and the contexts it holds are what those two calls returned.
   */
  predicate LaunchedAt(req: Request, participants: seq<Participant>, calls: seq<LaunchCall>, i: nat)
  {
    && i < |participants| && 2 * i + 1 < |calls| && i < |req.specs| && i < |req.keys|
    && var spec, p := req.specs[i], participants[i];
    && p.elClientType == spec.elClientType && p.clClientType == spec.clClientType
    && spec.elClientType in req.elLaunchers && spec.clClientType in req.clLaunchers
    && calls[2 * i] == ElLaunch(i, spec.elClientType,
         ElLaunchArgs(req.enclave, ServiceId(ElClientServiceIdPrefix, i), req.logLevel, req.networkId,
                      if i == BootParticipantIndex then None
                      else Some(participants[BootParticipantIndex].elClientContext)))
    && req.elLaunchers[spec.elClientType](calls[2 * i].elArgs) == Success(p.elClientContext)
    && calls[2 * i + 1] == ClLaunch(i, spec.clClientType,
         ClLaunchArgs(req.enclave, ServiceId(ClClientServiceIdPrefix, i), req.logLevel,
                      if i == BootParticipantIndex then None
                      else Some(participants[BootParticipantIndex].clClientContext),
                      p.elClientContext, req.keys[i]))
    && req.clLaunchers[spec.clClientType](calls[2 * i + 1].clArgs) == Success(p.clClientContext)
  }

  /** A run still going after `n` specs launched each of its `n` participants as prescribed. */
  /** An iteration that succeeds launches its participant as the Go code does. */
  lemma LaunchOneLaunched(req: Request, idx: nat, participants: seq<Participant>, calls: seq<LaunchCall>)
    requires req.Valid() && idx == |participants| && idx < |req.specs| && |calls| == 2 * idx
    requires LaunchOne(req, idx, participants, calls).Running?
    ensures var r := LaunchOne(req, idx, participants, calls);
            LaunchedAt(req, r.participants, r.calls, idx)
  {
  }

  /** A run still going after `n` specs launched each of its `n` participants as the Go code does. */
  lemma {:induction false} RunningLaunchedAll(req: Request, n: nat)
    requires req.Valid() && n <= |req.specs|
    requires RunPrefix(req, n).Running?
    ensures var r := RunPrefix(req, n);
            |r.participants| == n && |r.calls| == 2 * n &&
            forall i :: 0 <= i < n ==> LaunchedAt(req, r.participants, r.calls, i)
    decreases n
  {
    if n > 0 {
      var before := RunPrefix(req, n - 1);
      assert before.Running?;
      RunningLaunchedAll(req, n - 1);
      var after := LaunchOne(req, n - 1, before.participants, before.calls);
      assert RunPrefix(req, n) == after;
      LaunchOneLaunched(req, n - 1, before.participants, before.calls);
      forall i | 0 <= i < n - 1
        ensures LaunchedAt(req, after.participants, after.calls, i)
      {
        LaunchedAtExtends(req, before.participants, before.calls, after.participants, after.calls, i);
      }
    }
  }

  /** What was true of participant `i` stays true when later participants and calls are appended. */
  lemma LaunchedAtExtends(req: Request, participants: seq<Participant>, calls: seq<LaunchCall>,
                          participants': seq<Participant>, calls': seq<LaunchCall>, i: nat)
    requires LaunchedAt(req, participants, calls, i)
    requires participants <= participants' && calls <= calls'
    ensures LaunchedAt(req, participants', calls', i)
  {
  }

  /** On success there is one participant per spec, carrying that spec's client types. */
  lemma SuccessMatchesSpecs(req: Request)
    requires req.Valid()
    ensures var result := Outcome(RunPrefix(req, |req.specs|));
            result.Success? ==>
              && |result.value| == |req.specs|
              && forall i :: 0 <= i < |req.specs| ==>
                   result.value[i].elClientType == req.specs[i].elClientType &&
                   result.value[i].clClientType == req.specs[i].clClientType
  {
    var run := RunPrefix(req, |req.specs|);
    if run.Running? {
      RunningLaunchedAll(req, |req.specs|);
      forall i | 0 <= i < |req.specs|
        ensures run.participants[i].elClientType == req.specs[i].elClientType
        ensures run.participants[i].clClientType == req.specs[i].clClientType
      {
        assert LaunchedAt(req, run.participants, run.calls, i);
      }
    }
  }

  /**
   * On success, the boot participant's EL and CL launches got no bootnode; every later
   * participant's launches got the boot participant's EL and CL contexts; and every CL
   * launch got the EL context of its own participant and that participant's keystore.
   */
  lemma BootnodeWiring(req: Request)
    requires req.Valid()
    ensures var run := RunPrefix(req, |req.specs|);
            run.Running? ==>
              && |run.calls| == 2 * |req.specs|
              && forall i :: 0 <= i < |req.specs| ==>
                   && run.calls[2 * i].ElLaunch? && run.calls[2 * i + 1].ClLaunch?
                   && run.calls[2 * i].elArgs.bootnode ==
                        (if i == 0 then None else Some(run.participants[0].elClientContext))
                   && run.calls[2 * i + 1].clArgs.bootnode ==
                        (if i == 0 then None else Some(run.participants[0].clClientContext))
                   && run.calls[2 * i + 1].clArgs.elContext == run.participants[i].elClientContext
                   && run.calls[2 * i + 1].clArgs.keystores == req.keys[i]
  {
    var run := RunPrefix(req, |req.specs|);
    if run.Running? {
      RunningLaunchedAll(req, |req.specs|);
      forall i | 0 <= i < |req.specs|
        ensures run.calls[2 * i].ElLaunch? && run.calls[2 * i + 1].ClLaunch?
        ensures run.calls[2 * i].elArgs.bootnode ==
                  (if i == 0 then None else Some(run.participants[0].elClientContext))
        ensures run.calls[2 * i + 1].clArgs.bootnode ==
                  (if i == 0 then None else Some(run.participants[0].clClientContext))
        ensures run.calls[2 * i + 1].clArgs.elContext == run.participants[i].elClientContext
        ensures run.calls[2 * i + 1].clArgs.keystores == req.keys[i]
      {
        assert LaunchedAt(req, run.participants, run.calls, i);
      }
    }
  }

  /** The EL launch the Go code makes for spec `k`, given the participants launched before it. */
  function ElCallFor(req: Request, k: nat, participants: seq<Participant>): (c: LaunchCall)
    requires k < |req.specs| && k == |participants|
  {
    ElLaunch(k, req.specs[k].elClientType,
      ElLaunchArgs(req.enclave, ServiceId(ElClientServiceIdPrefix, k), req.logLevel, req.networkId,
                   if k == BootParticipantIndex then None
                   else Some(participants[BootParticipantIndex].elClientContext)))
  }

  /** The CL launch the Go code makes for spec `k`, paired with the EL node `elContext`. */
  function ClCallFor(req: Request, k: nat, participants: seq<Participant>, elContext: ElClientContext): (c: LaunchCall)
    requires k < |req.specs| && k < |req.keys| && k == |participants|
  {
    ClLaunch(k, req.specs[k].clClientType,
      ClLaunchArgs(req.enclave, ServiceId(ClClientServiceIdPrefix, k), req.logLevel,
                   if k == BootParticipantIndex then None
                   else Some(participants[BootParticipantIndex].clClientContext),
                   elContext, req.keys[k]))
  }

  /**
   * How a run that aborted at spec `k` ended, given the participants and calls of specs
   * `0 .. k - 1`: an unknown EL type (looked up first) or CL type makes no call for `k`;
   * an EL launch error follows exactly one more call, the EL launch of `k` with the
   * arguments of a normal EL launch; a CL launch error follows exactly two, the
   * successful EL launch of `k` and the failed CL launch of `k`, paired with that EL node.
   */
  predicate AbortExplained(req: Request, k: nat, participants: seq<Participant>, before: seq<LaunchCall>,
                           error: NetworkError, after: seq<LaunchCall>)
    requires k < |req.specs| <= |req.keys| && k == |participants|
  {
    var spec := req.specs[k];
    match error
    case UnknownClientType(EL, t) =>
      t == spec.elClientType && t !in req.elLaunchers && after == before
    case UnknownClientType(CL, t) =>
      spec.elClientType in req.elLaunchers && t == spec.clClientType && t !in req.clLaunchers &&
      after == before
    case LaunchFailed(EL, i, cause) =>
      var elCall := ElCallFor(req, k, participants);
      && i == k && spec.elClientType in req.elLaunchers && spec.clClientType in req.clLaunchers
      && after == before + [elCall]
      && req.elLaunchers[spec.elClientType](elCall.elArgs) == Failure(cause)
    case LaunchFailed(CL, i, cause) =>
      var elCall := ElCallFor(req, k, participants);
      && i == k && spec.elClientType in req.elLaunchers && spec.clClientType in req.clLaunchers
      && req.elLaunchers[spec.elClientType](elCall.elArgs).Success?
      && var clCall := ClCallFor(req, k, participants, req.elLaunchers[spec.elClientType](elCall.elArgs).value);
      && after == before + [elCall, clCall]
      && req.clLaunchers[spec.clClientType](clCall.clArgs) == Failure(cause)
  }

  /**
   * A run that aborted did so at one spec `k`: every spec before `k` was launched in full,
   * the abort is explained by spec `k`'s lookups or launches, and no call was made for
   * any spec after `k`.
   */
  /** An iteration that aborts does so as `AbortExplained` describes. */
  lemma LaunchOneAborted(req: Request, idx: nat, participants: seq<Participant>, calls: seq<LaunchCall>)
    requires req.Valid() && idx == |participants| && idx < |req.specs|
    requires LaunchOne(req, idx, participants, calls).Aborted?
    ensures var r := LaunchOne(req, idx, participants, calls);
            AbortExplained(req, idx, participants, calls, r.error, r.calls)
  {
  }

  /**
   * A run that aborted did so at one spec `k`: every spec before `k` was launched in full,
   * the abort is explained by spec `k`'s lookups or launches, and no call was made for
   * any spec after `k`.
   */
  lemma {:induction false} AbortedWitness(req: Request, n: nat) returns (k: nat)
    requires req.Valid() && n <= |req.specs|
    requires RunPrefix(req, n).Aborted?
    ensures k < n && RunPrefix(req, k).Running?
    ensures AbortExplained(req, k, RunPrefix(req, k).participants, RunPrefix(req, k).calls,
                           RunPrefix(req, n).error, RunPrefix(req, n).calls)
    ensures forall j :: 0 <= j < |RunPrefix(req, n).calls| ==> RunPrefix(req, n).calls[j].index <= k
    decreases n
  {
    var before := RunPrefix(req, n - 1);
    if before.Aborted? {
      k := AbortedWitness(req, n - 1);
      assert RunPrefix(req, n) == before;
    } else {
      k := n - 1;
      var run := LaunchOne(req, k, before.participants, before.calls);
      assert RunPrefix(req, n) == run;
      LaunchOneAborted(req, k, before.participants, before.calls);
      CallsInLaunchOrder(req, n);
      forall j | 0 <= j < |run.calls|
        ensures run.calls[j].index <= k
      {
        assert CallInOrder(run.calls, j);
      }
    }
  }
}
