/** VivoxConnectionParameter: the SDK-enum variant of the channel settings,
    which checks that its enumeration arguments are defined values. */
module ConnectionParameter {
  import opened DotNet
  import opened VivoxUnity

  datatype VivoxConnectionParameter = VivoxConnectionParameter(
    channelName: string,
    chatCapability: ChatCapability,
    channelType: ChannelType,
    properties: Option<Channel3DProperties>,
    transmissionSwitch: bool,
    tokenExpirationDuration: byte)

  /** default(ChatCapability) and default(ChannelType): the value 0. */
  const DefaultChatCapability: int := 0
  const DefaultChannelType: int := 0
  const DefaultTokenExpirationDuration: byte := 60

  /** The message of the out-of-range error: `'{value}' is not defined in {enumName}`,
      where an undefined enumeration value prints as its number. */
  function NotDefined(value: int, enumName: string): string
  {
    "'" + IntToString(value) + "' is not defined in " + enumName
  }

  /** new VivoxConnectionParameter(channelName, chatCapability, channelType,
      transmissionSwitch, tokenExpirationDuration), with the two enumeration
      arguments given by their underlying integer values. */
  function NewVivoxConnectionParameter(
    channelName: NullableString,
    chatCapability: int,
    channelType: int,
    transmissionSwitch: bool,
    tokenExpirationDuration: byte): (r: Result<VivoxConnectionParameter>)
    // checked in order: name, capability, channel type
    ensures IsNullOrEmpty(channelName) ==> r == Failure(NullArgument("channelName"))
    ensures !IsNullOrEmpty(channelName) && ChatCapabilityOf(chatCapability).None? ==>
              r == Failure(ArgumentOutOfRangeException("chatCapability", NotDefined(chatCapability, "ChatCapability")))
    ensures !IsNullOrEmpty(channelName) && ChatCapabilityOf(chatCapability).Some? && ChannelTypeOf(channelType).None? ==>
              r == Failure(ArgumentOutOfRangeException("channelType", NotDefined(channelType, "ChannelType")))
    ensures r.Success? <==> !IsNullOrEmpty(channelName) && 0 <= chatCapability < 3 && 0 <= channelType < 3
    ensures r.Success? ==>
              && r.value.channelName == channelName.value
              && ChatCapabilityValue(r.value.chatCapability) == chatCapability
              && ChannelTypeValue(r.value.channelType) == channelType
              && r.value.transmissionSwitch == transmissionSwitch
              && r.value.tokenExpirationDuration == tokenExpirationDuration
    ensures r.Success? ==> (r.value.properties.Some? <==> r.value.channelType == ChannelType.Positional)
  {
    if IsNullOrEmpty(channelName) then Failure(NullArgument("channelName"))
    else if ChatCapabilityOf(chatCapability).None? then
      Failure(ArgumentOutOfRangeException("chatCapability", NotDefined(chatCapability, "ChatCapability")))
    else if ChannelTypeOf(channelType).None? then
      Failure(ArgumentOutOfRangeException("channelType", NotDefined(channelType, "ChannelType")))
    else
      var t := ChannelTypeOf(channelType).value;
      Success(VivoxConnectionParameter(
        channelName.value,
        ChatCapabilityOf(chatCapability).value,
        t,
        if t.Positional? then Some(Channel3DProperties) else Option.None,
        transmissionSwitch,
        tokenExpirationDuration))
  }

  /** `new VivoxConnectionParameter(name)`: a non-positional, text-only channel
      with the switch on and a 60 second token, without 3D properties. */
  lemma ConnectionParameterDefaults(name: string)
    requires name != ""
    ensures NewVivoxConnectionParameter(Some(name), DefaultChatCapability, DefaultChannelType, true, DefaultTokenExpirationDuration)
            == Success(VivoxConnectionParameter(name, ChatCapability.TextOnly, ChannelType.NonPositional, Option.None, true, 60))
  {
  }

  lemma TenPrintsAsTen()
    ensures IntToString(10) == "10"
  {
    assert Digits(1) == ['1'] && Digits(10) == Digits(1) + ['0'];
  }

  /** The value 10 is reported as "'10' is not defined in" the enumeration's name. */
  lemma TenIsNotDefined(enumName: string)
    ensures NotDefined(10, enumName) == "'10' is not defined in " + enumName
  {
    TenPrintsAsTen();
  }

  /** An undefined value 10 is reported as the tests expect. */
  lemma UndefinedValueMessages(name: string)
    requires name != ""
    ensures NewVivoxConnectionParameter(Some(name), 10, DefaultChannelType, true, DefaultTokenExpirationDuration)
            == Failure(ArgumentOutOfRangeException("chatCapability", "'10' is not defined in ChatCapability"))
    ensures NewVivoxConnectionParameter(Some(name), DefaultChatCapability, 10, true, DefaultTokenExpirationDuration)
            == Failure(ArgumentOutOfRangeException("channelType", "'10' is not defined in ChannelType"))
  {
    TenIsNotDefined("ChatCapability");
    TenIsNotDefined("ChannelType");
    assert "'10' is not defined in " + "ChatCapability" == "'10' is not defined in ChatCapability";
    assert "'10' is not defined in " + "ChannelType" == "'10' is not defined in ChannelType";
    assert ChatCapabilityOf(10).None? && ChatCapabilityOf(DefaultChatCapability).Some? && ChannelTypeOf(10).None?;
  }
}
