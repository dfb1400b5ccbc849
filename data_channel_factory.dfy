/**
 * Transport selection for pipeline and expert data channels
 * (src/ksana_llm/distributed/data_channel_factory.cpp). The environment
 * variable USE_TCP_DATA_CHANNEL is an optional string (None: unset); the build
 * flags ENABLE_CUDA and ENABLE_ACL are booleans.
 */
module DataChannelFactory {
  import opened Wrappers

  /** The pipeline data channel implementations the factory can construct. */
  datatype DataChannelKind =
    | SocketDataChannel   // DataChannel: frames host packets over sockets
    | NcclDataChannel     // NcclDataChannel: collective device-to-device transfer

  /** The expert-parallel data channel implementations. */
  datatype ExpertDataChannelKind =
    | ExpertSocketDataChannel(with_pipeline_pool: bool)  // ExpertParallelDataChannel; the TCP path also hands it the pipeline buffer pool
    | ExpertCollectiveDataChannel                        // the DataChannelType template argument (ExpertParallelNcclDataChannel)

  /** TCP is requested only by the exact value "1" (strcmp), never by "0", "true" or an unset variable. */
  predicate TcpRequested(use_tcp_data_channel: Option<string>)
  {
    use_tcp_data_channel == Some("1")
  }

  /** Some branch of CreateDataChannel returns; without one the function falls off its end. */
  predicate CreateDataChannelReturns(use_tcp_data_channel: Option<string>, enable_cuda: bool, enable_acl: bool)
  {
    TcpRequested(use_tcp_data_channel) || enable_cuda || enable_acl
  }

  /** The channel CreateDataChannel assigns; its status is always OK. */
  function CreateDataChannel(use_tcp_data_channel: Option<string>, enable_cuda: bool, enable_acl: bool): (kind: DataChannelKind)
    requires CreateDataChannelReturns(use_tcp_data_channel, enable_cuda, enable_acl)
    ensures kind == NcclDataChannel <==> !TcpRequested(use_tcp_data_channel) && enable_cuda
    ensures kind == SocketDataChannel <==> TcpRequested(use_tcp_data_channel) || !enable_cuda
  {
    if TcpRequested(use_tcp_data_channel) then SocketDataChannel
    else if enable_cuda then NcclDataChannel
    else SocketDataChannel
  }

  /**
   * The channel CreateExpertDataChannel assigns, or None when no backend is
   * built in and TCP was not requested: then it returns OK and leaves the
   * output untouched.
   */
  function CreateExpertDataChannel(use_tcp_data_channel: Option<string>, enable_cuda: bool, enable_acl: bool): (kind: Option<ExpertDataChannelKind>)
    ensures kind.None? <==> !TcpRequested(use_tcp_data_channel) && !enable_cuda && !enable_acl
    ensures kind == Some(ExpertSocketDataChannel(true)) <==> TcpRequested(use_tcp_data_channel)
    ensures kind == Some(ExpertCollectiveDataChannel) <==> !TcpRequested(use_tcp_data_channel) && enable_cuda
    ensures kind == Some(ExpertSocketDataChannel(false)) <==> !TcpRequested(use_tcp_data_channel) && !enable_cuda && enable_acl
  {
    if TcpRequested(use_tcp_data_channel) then Some(ExpertSocketDataChannel(true))
    else if enable_cuda then Some(ExpertCollectiveDataChannel)
    else if enable_acl then Some(ExpertSocketDataChannel(false))
    else None
  }

  /** Both factories follow one precedence: TCP request, then CUDA, then ACL. */
  lemma ExpertFollowsPipelineChoice(use_tcp_data_channel: Option<string>, enable_cuda: bool, enable_acl: bool)
    requires CreateDataChannelReturns(use_tcp_data_channel, enable_cuda, enable_acl)
    ensures CreateExpertDataChannel(use_tcp_data_channel, enable_cuda, enable_acl).Some?
    ensures (CreateDataChannel(use_tcp_data_channel, enable_cuda, enable_acl) == NcclDataChannel)
        <==> (CreateExpertDataChannel(use_tcp_data_channel, enable_cuda, enable_acl) == Some(ExpertCollectiveDataChannel))
  {
  }

  /** Concrete cases: "0", "true" and an unset variable do not select TCP; "1" always does. */
  lemma OnlyOneSelectsTcp()
    ensures CreateDataChannel(Some("1"), true, false) == SocketDataChannel
    ensures CreateDataChannel(Some("1"), false, true) == SocketDataChannel
    ensures CreateDataChannel(Some("0"), true, false) == NcclDataChannel
    ensures CreateDataChannel(Some("true"), true, true) == NcclDataChannel
    ensures CreateDataChannel(None, true, false) == NcclDataChannel
    ensures CreateDataChannel(None, false, true) == SocketDataChannel
  {
  }
}
