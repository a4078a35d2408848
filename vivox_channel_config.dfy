/** VivoxChannelConfig: what ConnectAsync needs to know about one channel. */
module ChannelConfig {
  import opened DotNet
  import opened ChatTypes
  import opened VivoxUnity

  datatype VivoxChannelConfig = VivoxChannelConfig(
    channelName: string,
    chatType: ChatType,
    channelType: ChannelType,
    properties: Option<Channel3DProperties>,
    transmissionSwitch: bool,
    tokenExpirationDuration: TimeSpan,
    timeout: TimeSpan)

  /** The token lifetime used when the caller leaves it at default(TimeSpan). */
  const DefaultTokenExpirationDuration: TimeSpan := FromSeconds(60)

  /** The connection timeout used when the caller leaves it at default(TimeSpan). */
  const DefaultTimeout: TimeSpan := FromSeconds(10)

  /** new VivoxChannelConfig(channelName, chatType, channelType, transmissionSwitch,
      tokenExpirationDuration, timeout) */
  function NewVivoxChannelConfig(
    channelName: NullableString,
    chatType: ChatType,
    channelType: ChannelType,
    transmissionSwitch: bool,
    tokenExpirationDuration: TimeSpan,
    timeout: TimeSpan): (r: Result<VivoxChannelConfig>)
    ensures r.Failure? <==> IsNullOrEmpty(channelName)
    ensures r.Failure? ==> r.error == NullArgument("channelName")
    ensures r.Success? ==>
              && r.value.channelName == channelName.value
              && r.value.chatType == chatType
              && r.value.channelType == channelType
              && r.value.transmissionSwitch == transmissionSwitch
    // 3D properties exist exactly for a positional channel
    ensures r.Success? ==> (r.value.properties.Some? <==> channelType == ChannelType.Positional)
    // a zero duration is replaced by its default, any other is kept
    ensures r.Success? && tokenExpirationDuration == ZeroTimeSpan ==> r.value.tokenExpirationDuration == FromSeconds(60)
    ensures r.Success? && tokenExpirationDuration != ZeroTimeSpan ==> r.value.tokenExpirationDuration == tokenExpirationDuration
    ensures r.Success? && timeout == ZeroTimeSpan ==> r.value.timeout == FromSeconds(10)
    ensures r.Success? && timeout != ZeroTimeSpan ==> r.value.timeout == timeout
    // hence neither stored duration is ever zero
    ensures r.Success? ==> r.value.tokenExpirationDuration != ZeroTimeSpan && r.value.timeout != ZeroTimeSpan
  {
    if IsNullOrEmpty(channelName) then Failure(NullArgument("channelName"))
    else
      Success(VivoxChannelConfig(
        channelName.value,
        chatType,
        channelType,
        if channelType.Positional? then Some(Channel3DProperties) else Option.None,
        transmissionSwitch,
        if tokenExpirationDuration == ZeroTimeSpan then DefaultTokenExpirationDuration else tokenExpirationDuration,
        if timeout == ZeroTimeSpan then DefaultTimeout else timeout))
  }

  /** `new VivoxChannelConfig(name)` with every optional argument left at its default. */
  lemma ChannelConfigDefaults(name: string)
    requires name != ""
    ensures NewVivoxChannelConfig(Some(name), DefaultChatType, ChannelType.NonPositional, true, ZeroTimeSpan, ZeroTimeSpan)
            == Success(VivoxChannelConfig(name, ChatType.TextAndAudio, ChannelType.NonPositional, Option.None, true,
                                          FromSeconds(60), FromSeconds(10)))
  {
  }
}
