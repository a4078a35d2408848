/** The decision layer of VivoxClient as pure transitions over the client's
    observable state: the login session it holds, the notifications it has
    published, the requests it has made of the Vivox SDK, and the debug
    diagnostics it has logged for the calls it declined. */
module VivoxClientSpec {
  import opened DotNet
  import opened VivoxUnity
  import opened ChatTypes
  import opened AppConfig
  import opened AuthConfig
  import opened ChannelConfig

  /** What the client reads from an IChannelSession. */
  datatype Channel = Channel(
    channelState: ConnectionState,
    audioState: ConnectionState,
    textState: ConnectionState,
    participants: seq<Participant>)

  /** What the client reads from the ILoginSession; ChannelSessions is keyed by channel. */
  datatype Session = Session(
    accountId: AccountId,
    state: LoginState,
    recoveryState: ConnectionRecoveryState,
    channels: map<ChannelId, Channel>)

  /** One OnNext on one of the client's subjects. */
  datatype Event =
    | OnLoggedIn
    | OnLoggedOut
    | OnRecoveryStateChanged(recoveryState: ConnectionRecoveryState)
    | OnChannelSessionAdded(addedChannel: ChannelId)
    | OnChannelSessionRemoved(removedChannel: ChannelId)
    | OnUserConnected(connectedUser: Participant)
    | OnAudioEnergyChangedToZero(silencedUser: Participant)

  /** One request made of the SDK's Client, ILoginSession or IChannelSession. */
  datatype Call =
    | ClientInitialize(server: string)
    | SessionBeginLogin(account: AccountId, loginKey: string, loginTokenExpiration: TimeSpan)
    | SessionLogout
    | ChannelBeginConnect(
        target: ChannelId, connectAudio: bool, connectText: bool, switchTransmission: bool,
        connectKey: string, connectTokenExpiration: TimeSpan)
    | SessionDeleteChannel(deleted: ChannelId)
    | ChannelBeginSendText(
        recipient: ChannelId, language: NullableString, message: string,
        applicationStanzaNamespace: NullableString, applicationStanzaBody: NullableString)
    | SessionSetTransmissionMode(mode: TransmissionMode, transmitting: Option<ChannelId>)
    | ClientCleanup
    | ClientUninitialize

  /** Why a call did nothing; each is logged at debug level. */
  datatype Diagnostic =
    | AlreadyLoggingOrLoggedIn
    | NeverLoggedIn
    | ConnectBeforeLogin
    | AlreadyConnected(connectedName: string)
    | AlreadyDisconnected
    | AlreadyDisconnectedFromAll
    | SendBeforeConnect(sendName: string)
    | TransmissionModeBeforeLogin
    | SingleModeBeforeConnect(singleName: string)

  /** The debug message logged for each diagnostic. */
  function Text(d: Diagnostic): string
  {
    match d
    case AlreadyLoggingOrLoggedIn => "This client already logging/logged into the server"
    case NeverLoggedIn => "This client has never logged into the server before"
    case ConnectBeforeLogin => "Unable to connect before login"
    case AlreadyConnected(name) => "This client already connected to the channel '" + name + "'"
    case AlreadyDisconnected => "This client has already disconnected from the channel"
    case AlreadyDisconnectedFromAll => "This client has already disconnected from all channels"
    case SendBeforeConnect(name) => "Unable to send a message before connecting to the channel '" + name + "'"
    case TransmissionModeBeforeLogin => "Unable to set the transmission mode before login"
    case SingleModeBeforeConnect(name) =>
      "Unable to set transmission mode to 'Single' before connecting to the channel '" + name + "'"
  }

  /** The optional arguments of SendTextMessage, passed through to the SDK. */
  datatype TextOptions = TextOptions(
    language: NullableString, applicationStanzaNamespace: NullableString, applicationStanzaBody: NullableString)

  /** Everything a caller or the SDK can observe of a client. */
  datatype ClientState = ClientState(
    session: Option<Session>,
    events: seq<Event>,
    calls: seq<Call>,
    diagnostics: seq<Diagnostic>)

  /** The new state of a void operation and whether it threw. */
  datatype Step = Step(state: ClientState, outcome: Outcome)

  /** Whether the wait for a channel to reach Connected finished in time, and
      with which participants the channel then was. */
  datatype ConnectWait = ConnectedWithin(participants: seq<Participant>) | ConnectTimedOut

  predicate IsLoggingIn(st: ClientState)
  {
    st.session.Some? && st.session.value.state == LoginState.LoggingIn
  }

  predicate IsLoggedIn(st: ClientState)
  {
    st.session.Some? && st.session.value.state == LoginState.LoggedIn
  }

  /** The keys of ActiveChannelSessions, none without a session. */
  function ActiveChannels(st: ClientState): set<ChannelId>
  {
    if st.session.Some? then st.session.value.channels.Keys else {}
  }

  function Log(st: ClientState, d: Diagnostic): ClientState
  {
    st.(diagnostics := st.diagnostics + [d])
  }

  function Request(st: ClientState, c: Call): ClientState
  {
    st.(calls := st.calls + [c])
  }

  function Emit(st: ClientState, es: seq<Event>): ClientState
  {
    st.(events := st.events + es)
  }

  /** The object invariant: the session and every channel key are built from
      the app config's issuer and domain. */
  ghost predicate Consistent(cfg: VivoxAppConfig, st: ClientState)
  {
    st.session.Some? ==>
      && st.session.value.accountId.issuer == cfg.issuer
      && st.session.value.accountId.domain == cfg.domain
      && forall id :: id in st.session.value.channels ==>
           id.issuer == cfg.issuer && id.domain == cfg.domain
  }

  // ---------------------------------------------------------------------------
  // Construction and teardown

  /** new VivoxClient(appConfig): a Vivox client for the app's end point, with no session. */
  function Construct(appConfig: Option<VivoxAppConfig>): (r: Result<ClientState>)
    ensures appConfig.None? ==> r == Failure(NullArgument("appConfig"))
    ensures appConfig.Some? ==> r.Success? && r.value.session.None?
    ensures appConfig.Some? ==> r.value.events == [] && r.value.diagnostics == []
    ensures appConfig.Some? ==> r.value.calls == [ClientInitialize(appConfig.value.apiEndPoint)]
    ensures appConfig.Some? ==> Consistent(appConfig.value, r.value)
  {
    match appConfig
    case None => Failure(NullArgument("appConfig"))
    case Some(cfg) => Success(ClientState(Option.None, [], [ClientInitialize(cfg.apiEndPoint)], []))
  }

  /** ReleaseManagedResources: the session is dropped and the SDK client cleaned up and uninitialized. */
  function Release(st: ClientState): ClientState
  {
    ClientState(Option.None, st.events, st.calls + [ClientCleanup, ClientUninitialize], st.diagnostics)
  }

  // ---------------------------------------------------------------------------
  // Login and logout

  /** The account a login is made for. */
  function AccountFor(cfg: VivoxAppConfig, auth: VivoxAuthConfig): AccountId
  {
    AccountId(cfg.issuer, auth.accountName, cfg.domain, auth.displayName)
  }

  /** LoginAsync(authConfig); `timedOut` says whether the wait for LoggedIn outlasted
      the timeout. When it did not, the wait ended because the SDK reported the
      session's State as LoggedIn, which the handler attached before BeginLogin published. */
  function LoginAsync(cfg: VivoxAppConfig, st: ClientState, auth: VivoxAuthConfig, timedOut: bool): Step
  {
    if IsLoggingIn(st) || IsLoggedIn(st) then Step(Log(st, AlreadyLoggingOrLoggedIn), Pass)
    else
      var account := AccountFor(cfg, auth);
      var newSession := Session(account, LoginState.LoggedOut, ConnectionRecoveryState.Connected, map[]);
      var begun := Request(st.(session := Some(newSession)), SessionBeginLogin(account, cfg.secretKey, auth.tokenExpirationDuration));
      if timedOut then Step(begun, Fail(TimeoutException("The login timed-out")))
      else Step(OnLoginSessionPropertyChanged(begun, "State", LoginState.LoggedIn, ConnectionRecoveryState.Connected), Pass)
  }

  /** The EndLogin callback; `succeeded` says whether the SDK's EndLogin returned
      normally. A failure is caught and drops the session. With no session the
      call on it fails, and the catch block's detaching of the handlers fails
      again on the missing session, so that exception escapes. */
  function EndLogin(st: ClientState, succeeded: bool): Step
  {
    if st.session.None? then Step(st, Fail(NullReferenceException))
    else if succeeded then Step(st, Pass)
    else Step(st.(session := Option.None), Pass)
  }

  /** Logout() */
  function Logout(st: ClientState): ClientState
  {
    if st.session.None? then Log(st, NeverLoggedIn) else Request(st, SessionLogout)
  }

  // ---------------------------------------------------------------------------
  // Channels

  /** The key ConnectAsync builds for a channel config. */
  function ChannelKey(cfg: VivoxAppConfig, cc: VivoxChannelConfig): ChannelId
  {
    ChannelId(cfg.issuer, cc.channelName, cfg.domain, cc.channelType, cc.properties)
  }

  /** The capabilities BeginConnect is asked for. */
  predicate ConnectAudio(t: ChatType) { t != ChatType.TextOnly }
  predicate ConnectText(t: ChatType) { t != ChatType.AudioOnly }

  /** ILoginSession.GetChannelSession: the channel's session, added (and announced)
      in state Disconnected if the login session had none for it. */
  function GetChannelSession(st: ClientState, id: ChannelId): (r: ClientState)
    requires st.session.Some?
    ensures r.session.Some? && id in r.session.value.channels
  {
    var s := st.session.value;
    if id in s.channels then st
    else
      var added := Channel(ConnectionState.Disconnected, ConnectionState.Disconnected, ConnectionState.Disconnected, []);
      Emit(st.(session := Some(s.(channels := s.channels[id := added]))), [OnChannelSessionAdded(id)])
  }

  /** The participant Participants.First(p => p.IsSelf) returns, if any. */
  function FirstSelf(ps: seq<Participant>): (r: Option<Participant>)
    ensures r.None? <==> forall i :: 0 <= i < |ps| ==> !ps[i].isSelf
    ensures r.Some? ==> exists k :: 0 <= k < |ps| && ps[k] == r.value && r.value.isSelf
                          && forall i :: 0 <= i < k ==> !ps[i].isSelf
  {
    if ps == [] then Option.None
    else if ps[0].isSelf then Some(ps[0])
    else
      var r := FirstSelf(ps[1..]);
      assert forall i :: 1 <= i < |ps| ==> ps[i] == ps[1..][i - 1];
      r
  }

  /** Replaces the data of one channel of the session. */
  function UpdateChannel(st: ClientState, id: ChannelId, ch: Channel): ClientState
    requires st.session.Some?
  {
    st.(session := Some(st.session.value.(channels := st.session.value.channels[id := ch])))
  }

  /** ConnectAsync(channelConfig); `wait` is how the wait for Connected ended. */
  function ConnectAsync(cfg: VivoxAppConfig, st: ClientState, cc: VivoxChannelConfig, wait: ConnectWait): Step
  {
    if !IsLoggedIn(st) then Step(Log(st, ConnectBeforeLogin), Pass)
    else
      var id := ChannelKey(cfg, cc);
      var withChannel := GetChannelSession(st, id);
      var ch := withChannel.session.value.channels[id];
      if ch.channelState != ConnectionState.Disconnected then
        Step(Log(withChannel, AlreadyConnected(cc.channelName)), Pass)
      else
        var begun := Request(withChannel, ChannelBeginConnect(
          id, ConnectAudio(cc.chatType), ConnectText(cc.chatType), cc.transmissionSwitch,
          cfg.secretKey, cc.tokenExpirationDuration));
        match wait
        case ConnectTimedOut => Step(begun, Fail(TimeoutException("The connection timed-out")))
        case ConnectedWithin(ps) =>
          var connected := UpdateChannel(begun, id, ch.(channelState := ConnectionState.Connected, participants := ps));
          match FirstSelf(ps)
          case None => Step(connected, Fail(InvalidOperationException("Sequence contains no matching element")))
          case Some(me) => Step(Emit(connected, [OnUserConnected(me)]), Pass)
  }

  /** ILoginSession.DeleteChannelSession: the channel's session, if there is one,
      is removed and its removal announced. */
  function DeleteChannelSession(st: ClientState, id: ChannelId): (r: ClientState)
    requires st.session.Some?
    ensures r.session.Some?
  {
    var s := st.session.value;
    var requested := Request(st, SessionDeleteChannel(id));
    if id in s.channels then
      Emit(requested.(session := Some(s.(channels := s.channels - {id}))), [OnChannelSessionRemoved(id)])
    else requested
  }

  /** Disconnect(channelId) */
  function Disconnect(st: ClientState, id: Option<ChannelId>): Step
  {
    if IsNullOrEmptyChannel(id) then Step(st, Fail(NullArgument("channelId")))
    else if !IsLoggedIn(st) then Step(Log(st, AlreadyDisconnected), Pass)
    else Step(DeleteChannelSession(st, id.value), Pass)
  }

  predicate Distinct(s: seq<ChannelId>)
  {
    forall i, j :: 0 <= i < j < |s| ==> s[i] != s[j]
  }

  /** `order` lists every element of `keys` exactly once: a possible Keys.ToArray(). */
  predicate IsEnumeration(order: seq<ChannelId>, keys: set<ChannelId>)
  {
    Distinct(order) && (forall x :: x in order ==> x in keys) && (forall x :: x in keys ==> x in order)
  }

  /** The removal notifications for the channels of `order`, in that order. */
  function RemovedEvents(order: seq<ChannelId>): seq<Event>
  {
    seq(|order|, i requires 0 <= i < |order| => OnChannelSessionRemoved(order[i]))
  }

  /** The DeleteChannelSession requests for the channels of `order`, in that order. */
  function DeleteRequests(order: seq<ChannelId>): seq<Call>
  {
    seq(|order|, i requires 0 <= i < |order| => SessionDeleteChannel(order[i]))
  }

  /** DeleteChannelSession for each id of `order`, first to last. */
  function DeleteAll(st: ClientState, order: seq<ChannelId>): (r: ClientState)
    requires st.session.Some?
    ensures r.session.Some?
  {
    if order == [] then st
    else DeleteChannelSession(DeleteAll(st, order[..|order| - 1]), order[|order| - 1])
  }

  /** DisconnectAllChannels(), deleting the channels in the order `order` of the key snapshot. */
  function DisconnectAllChannels(st: ClientState, order: seq<ChannelId>): ClientState
  {
    if !IsLoggedIn(st) || st.session.value.channels == map[] then Log(st, AlreadyDisconnectedFromAll)
    else DeleteAll(st, order)
  }

  // ---------------------------------------------------------------------------
  // Text messages and transmission

  /** SendTextMessage(message, channelId, ...) */
  function SendTextMessage(st: ClientState, message: NullableString, id: Option<ChannelId>, options: TextOptions): Step
  {
    if IsNullOrEmpty(message) then Step(st, Fail(NullArgument("message")))
    else if IsNullOrEmptyChannel(id) then Step(st, Fail(NullArgument("channelId")))
    else if !IsLoggedIn(st) || id.value !in st.session.value.channels then
      Step(Log(st, SendBeforeConnect(id.value.name)), Pass)
    else
      Step(Request(st, ChannelBeginSendText(
        id.value, options.language, message.value, options.applicationStanzaNamespace, options.applicationStanzaBody)), Pass)
  }

  /** The single-channel send for each id of `ids`, first to last, stopping at the first that throws. */
  function SendEach(st: ClientState, message: NullableString, ids: seq<Option<ChannelId>>, options: TextOptions): Step
  {
    if ids == [] then Step(st, Pass)
    else
      var before := SendEach(st, message, ids[..|ids| - 1], options);
      if before.outcome.Fail? then before
      else SendTextMessage(before.state, message, ids[|ids| - 1], options)
  }

  /** SendTextMessage(message, channelIds, ...) */
  function SendTextMessageToChannels(st: ClientState, message: NullableString, ids: Option<seq<Option<ChannelId>>>, options: TextOptions): Step
  {
    if ids.None? then Step(st, Fail(NullArgument("channelIds")))
    else SendEach(st, message, ids.value, options)
  }

  const SingleModeNeedsChannel: string := "Expects the ID of the channel to be set in single transmission mode"

  /** SetTransmissionMode(mode, channelId) */
  function SetTransmissionMode(st: ClientState, mode: TransmissionMode, id: Option<ChannelId>): Step
  {
    if !IsLoggedIn(st) then Step(Log(st, TransmissionModeBeforeLogin), Pass)
    else if mode != TransmissionMode.Single then Step(Request(st, SessionSetTransmissionMode(mode, Option.None)), Pass)
    else if IsNullOrEmptyChannel(id) then Step(st, Fail(ArgumentNullException("channelId", Some(SingleModeNeedsChannel))))
    else if id.value !in st.session.value.channels then Step(Log(st, SingleModeBeforeConnect(id.value.name)), Pass)
    else Step(Request(st, SessionSetTransmissionMode(TransmissionMode.Single, id)), Pass)
  }

  // ---------------------------------------------------------------------------
  // Notifications from the SDK

  /** OnLoginSessionPropertyChanged for property `propertyName`; `state` and
      `recoveryState` are the session's State and RecoveryState as the SDK now reports them. */
  function OnLoginSessionPropertyChanged(
    st: ClientState, propertyName: string, state: LoginState, recoveryState: ConnectionRecoveryState): ClientState
    requires st.session.Some?
  {
    var current := st.(session := Some(st.session.value.(state := state, recoveryState := recoveryState)));
    var announced := if propertyName == "RecoveryState" then Emit(current, [OnRecoveryStateChanged(recoveryState)]) else current;
    if propertyName != "State" then announced
    else
      match state
      case LoggingIn => announced
      case LoggedIn => Emit(announced, [OnLoggedIn])
      case LoggingOut => announced
      case LoggedOut => Emit(announced.(session := Option.None), [OnLoggedOut])
  }

  /** One zero-energy notification per participant, in participant order. */
  function ZeroEnergyEvents(ps: seq<Participant>): seq<Event>
  {
    seq(|ps|, i requires 0 <= i < |ps| => OnAudioEnergyChangedToZero(ps[i]))
  }

  /** OnChannelPropertyChanged for property `propertyName` of the channel session
      of `id`; `reported` is that channel session as the SDK now reports it: its
      channel, audio and text states and its current participants. The handler
      stays attached after a LoggedOut notification has cleared the login
      session, and then reading the session's RecoveryState throws. */
  function OnChannelPropertyChanged(st: ClientState, id: ChannelId, propertyName: string, reported: Channel): Step
  {
    var current :=
      if st.session.Some? && id in st.session.value.channels then UpdateChannel(st, id, reported) else st;
    var silenced :=
      if propertyName == "AudioState" && reported.audioState == ConnectionState.Disconnected
      then Emit(current, ZeroEnergyEvents(reported.participants)) else current;
    if (propertyName == "AudioState" || propertyName == "TextState")
       && reported.audioState == ConnectionState.Disconnected && reported.textState == ConnectionState.Disconnected
    then
      if silenced.session.None? then Step(silenced, Fail(NullReferenceException))
      else if silenced.session.value.recoveryState == ConnectionRecoveryState.FailedToRecover
      then Step(DeleteChannelSession(silenced, id), Pass)
      else Step(silenced, Pass)
    else Step(silenced, Pass)
  }
}
