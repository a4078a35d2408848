/** The values of the Vivox Unity SDK that the chat client reads and passes on.
    The SDK itself is not part of this model: its enumerations are written with
    the members the SDK declares, and its objects appear as the data the client
    reads from them. */
module VivoxUnity {
  import opened DotNet

  datatype LoginState = LoggedOut | LoggingIn | LoggedIn | LoggingOut

  datatype ConnectionRecoveryState = Connected | Disconnected | Recovering | FailedToRecover | Recovered

  datatype ConnectionState = Disconnected | Connecting | Connected | Disconnecting

  datatype TransmissionMode = None | Single | All

  datatype ChannelType = NonPositional | Positional | Echo

  datatype ChatCapability = TextOnly | AudioOnly | TextAndAudio

  /** The underlying value of each ChannelType member (declaration order). */
  function ChannelTypeValue(t: ChannelType): int
  {
    match t
    case NonPositional => 0
    case Positional => 1
    case Echo => 2
  }

  /** The member an integer stands for, if Enum.IsDefined holds of it. */
  function ChannelTypeOf(value: int): (t: Option<ChannelType>)
    ensures t.Some? <==> 0 <= value < 3
    ensures t.Some? ==> ChannelTypeValue(t.value) == value
  {
    if value == 0 then Some(ChannelType.NonPositional)
    else if value == 1 then Some(ChannelType.Positional)
    else if value == 2 then Some(ChannelType.Echo)
    else Option.None
  }

  /** The underlying value of each ChatCapability member (declaration order). */
  function ChatCapabilityValue(c: ChatCapability): int
  {
    match c
    case TextOnly => 0
    case AudioOnly => 1
    case TextAndAudio => 2
  }

  /** The member an integer stands for, if Enum.IsDefined holds of it. */
  function ChatCapabilityOf(value: int): (c: Option<ChatCapability>)
    ensures c.Some? <==> 0 <= value < 3
    ensures c.Some? ==> ChatCapabilityValue(c.value) == value
  {
    if value == 0 then Some(ChatCapability.TextOnly)
    else if value == 1 then Some(ChatCapability.AudioOnly)
    else if value == 2 then Some(ChatCapability.TextAndAudio)
    else Option.None
  }

  /** Every member is defined, and decoding its value gives it back. */
  lemma EnumValuesRoundTrip(t: ChannelType, c: ChatCapability)
    ensures ChannelTypeOf(ChannelTypeValue(t)) == Some(t)
    ensures ChatCapabilityOf(ChatCapabilityValue(c)) == Some(c)
  {
  }

  /** A default-constructed Channel3DProperties; its distances and fade model
      are SDK defaults that the client never reads. */
  datatype Channel3DProperties = Channel3DProperties

  /** An account, as the client builds it from the app config and the auth config. */
  datatype AccountId = AccountId(issuer: string, name: string, domain: string, displayName: string)

  /** A channel key, compared by value. */
  datatype ChannelId = ChannelId(
    issuer: string,
    name: string,
    domain: string,
    channelType: ChannelType,
    properties: Option<Channel3DProperties>)

  /** ChannelId.IsNullOrEmpty: null, or a channel without a name. */
  predicate IsNullOrEmptyChannel(id: Option<ChannelId>)
  {
    id.None? || id.value.name == ""
  }

  /** A participant of a channel session; only IsSelf is read by the client. */
  datatype Participant = Participant(accountName: string, isSelf: bool)
}
