/**
 Names shared by the connection models.
 */
module Net {
  // A TCP endpoint: an IPv4 address and a port.
  datatype Endpoint = Endpoint(address: nat, port: nat)

  datatype Option<T> = None | Some(value: T)

  // Outcome of an asynchronous operation, as passed to its callback.
  datatype ErrorCode = Success | ConnectError | OtherError

  // kPipelineActiveLimit
  const PIPELINE_LIMIT: nat := 16
}
