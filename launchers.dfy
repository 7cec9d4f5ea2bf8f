/**
 * The boundary between the orchestrator and the per-client-type launchers: the values
 * they exchange and the shape of the two `Launch` operations. Launchers start real
 * services on the orchestration platform; here each one is an oracle, a function from
 * the arguments of one `Launch` call to the context it yields or the error it reports.
 */
module Launchers {
  import opened Wrappers

  /** Identifier of an execution-layer client implementation (a Go string type). */
  type ElClientType = string
  /** Identifier of a consensus-layer client implementation (a Go string type). */
  type ClClientType = string
  /** The log level forwarded to every launcher; the orchestrator never interprets it. */
  type LogLevel = string

  /** Opaque handle to the sandbox in which services are started. */
  datatype EnclaveContext = EnclaveContext(enclaveId: string)

  /** Opaque connection context of a launched EL node; equal handles mean the same node. */
  datatype ElClientContext = ElClientContext(handle: nat)

  /** Opaque connection context of a launched CL (beacon + validator) node. */
  datatype ClClientContext = ClClientContext(handle: nat)

  /** Opaque per-node validator keystore material, produced before launch. */
  datatype NodeKeystoreDirpaths = NodeKeystoreDirpaths(handle: nat)

  /** The error a launcher reports; its content is not inspected by the orchestrator. */
  datatype LaunchCause = LaunchCause(message: string)

  /** The layer of a client: execution or consensus. */
  datatype Layer = EL | CL

  /**
   * Arguments of `ELClientLauncher.Launch`. `bootnode == None` (Go's nil) asks the
   * launcher to start the node as the EL bootnode.
   */
  datatype ElLaunchArgs = ElLaunchArgs(
    enclave: EnclaveContext,
    serviceId: string,
    logLevel: LogLevel,
    networkId: string,
    bootnode: Option<ElClientContext>)

  /**
   * Arguments of `CLClientLauncher.Launch`. `bootnode == None` (Go's nil) asks the
   * launcher to start the node as the CL bootnode; `elContext` is the EL node this CL
   * node pairs with; `keystores` is this node's validator key material.
   */
  datatype ClLaunchArgs = ClLaunchArgs(
    enclave: EnclaveContext,
    serviceId: string,
    logLevel: LogLevel,
    bootnode: Option<ClClientContext>,
    elContext: ElClientContext,
    keystores: NodeKeystoreDirpaths)

  /** An EL launcher: what one `Launch` call with the given arguments returns. */
  type ElLauncher = ElLaunchArgs -> Result<ElClientContext, LaunchCause>

  /** A CL launcher: what one `Launch` call with the given arguments returns. */
  type ClLauncher = ClLaunchArgs -> Result<ClClientContext, LaunchCause>

  /** One launcher invocation made by the orchestrator, for participant `index`. */
  datatype LaunchCall =
    | ElLaunch(index: nat, elClientType: ElClientType, elArgs: ElLaunchArgs)
    | ClLaunch(index: nat, clClientType: ClClientType, clArgs: ClLaunchArgs)
  {
    /** The layer the invoked launcher belongs to. */
    function Layer(): Layer
    {
      if ElLaunch? then EL else CL
    }

    /** The service identifier the call asks the platform to start. */
    function ServiceId(): string
    {
      if ElLaunch? then elArgs.serviceId else clArgs.serviceId
    }
  }
}
