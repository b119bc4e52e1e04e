/** Wire types of the managed sandbox execution plane. */
module ExecutionProtocol {
  datatype ExecutionId = Uuid(text: string)
  datatype Jti = Jti(text: string)
  datatype Owner = Instance(name: string)

  const MAX_TIMEOUT_SECONDS := 3600

  /** The archive bytes are left out: the binding hash excludes them and covers `archiveSha256` instead. */
  datatype ExecutionRequest = ExecutionRequest(
    executionId: ExecutionId,
    archiveSha256: string,
    command: string,
    shellCommand: string,
    image: string,
    runtime: string,
    timeoutSeconds: int)
  {
    predicate Valid() {
      1 <= timeoutSeconds <= MAX_TIMEOUT_SECONDS
    }
  }

  /** SHA-256 taken as injective: a hash is the request it was computed from. */
  datatype Hash = Sha256(bound: ExecutionRequest)

  datatype ExecutionResponse = ExecutionResponse(
    executionId: ExecutionId,
    backend: string,
    passed: bool,
    exitCode: int,
    stdout: string,
    stderr: string,
    timedOut: bool,
    archiveSha256: string,
    workloadSubject: string,
    attestation: map<string, string>)
}
