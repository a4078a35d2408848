/** VivoxClient: the object that owns the login session and publishes what
    happens to it. Each method does what the source's method does, step by
    step, and is proved to produce the state its transition in VivoxClientSpec
    describes. */
module Client {
  import opened DotNet
  import opened VivoxUnity
  import opened AppConfig
  import opened AuthConfig
  import opened ChannelConfig
  import opened VivoxClientSpec
  import VivoxClientProperties

  /** ActiveChannelSessions.Keys.ToArray(): every key once, in some order. */
  method KeysSnapshot(channels: map<ChannelId, Channel>) returns (ids: seq<ChannelId>)
    ensures IsEnumeration(ids, channels.Keys)
  {
    ids := [];
    var rest := channels.Keys;
    while rest != {}
      invariant rest <= channels.Keys
      invariant Distinct(ids)
      invariant forall x :: x in ids ==> x in channels && x !in rest
      invariant forall x :: x in channels ==> x in ids || x in rest
      decreases rest
    {
      var k :| k in rest;
      ids := ids + [k];
      rest := rest - {k};
    }
  }

  class VivoxClient {
    const appConfig: VivoxAppConfig
    var loginSession: Option<Session>
    var events: seq<Event>
    var calls: seq<Call>
    var diagnostics: seq<Diagnostic>

    /** The client's observable state. */
    function State(): ClientState
      reads this
    {
      ClientState(loginSession, events, calls, diagnostics)
    }

    ghost predicate Valid()
      reads this
    {
      Consistent(appConfig, State())
    }

    constructor (appConfig: VivoxAppConfig)
      ensures Valid() && this.appConfig == appConfig
      ensures Construct(Some(appConfig)) == Success(State())
    {
      this.appConfig := appConfig;
      loginSession := Option.None;
      events := [];
      calls := [ClientInitialize(appConfig.apiEndPoint)];
      diagnostics := [];
    }

    /** new VivoxClient(appConfig), which throws when appConfig is null. */
    static method Create(appConfig: Option<VivoxAppConfig>) returns (r: Result<VivoxClient>)
      ensures appConfig.None? ==> r == Failure(NullArgument("appConfig"))
      ensures appConfig.Some? ==>
                && r.Success? && fresh(r.value) && r.value.Valid()
                && r.value.appConfig == appConfig.value
                && Construct(appConfig) == Success(r.value.State())
    {
      if appConfig.None? {
        return Failure(NullArgument("appConfig"));
      }
      var client := new VivoxClient(appConfig.value);
      return Success(client);
    }

    /** ReleaseManagedResources */
    method ReleaseManagedResources()
      requires Valid()
      modifies this
      ensures Valid() && State() == Release(old(State()))
    {
      loginSession := Option.None;
      calls := calls + [ClientCleanup, ClientUninitialize];
    }

    method LoginAsync(authConfig: VivoxAuthConfig, timedOut: bool) returns (r: Outcome)
      requires Valid()
      modifies this
      ensures Valid()
      ensures Step(State(), r) == VivoxClientSpec.LoginAsync(appConfig, old(State()), authConfig, timedOut)
    {
      if IsLoggingIn(State()) || IsLoggedIn(State()) {
        diagnostics := diagnostics + [AlreadyLoggingOrLoggedIn];
        return Pass;
      }
      var accountId := AccountId(appConfig.issuer, authConfig.accountName, appConfig.domain, authConfig.displayName);
      loginSession := Some(Session(accountId, LoginState.LoggedOut, ConnectionRecoveryState.Connected, map[]));
      calls := calls + [SessionBeginLogin(accountId, appConfig.secretKey, authConfig.tokenExpirationDuration)];
      if timedOut {
        return Fail(TimeoutException("The login timed-out"));
      }
      OnLoginSessionPropertyChanged("State", LoginState.LoggedIn, ConnectionRecoveryState.Connected);
      return Pass;
    }

    method EndLogin(succeeded: bool) returns (r: Outcome)
      requires Valid()
      modifies this
      ensures Valid()
      ensures Step(State(), r) == VivoxClientSpec.EndLogin(old(State()), succeeded)
    {
      if loginSession.None? {
        return Fail(NullReferenceException);
      }
      if !succeeded {
        loginSession := Option.None;
      }
      return Pass;
    }

    method Logout()
      requires Valid()
      modifies this
      ensures Valid() && State() == VivoxClientSpec.Logout(old(State()))
    {
      if loginSession.None? {
        diagnostics := diagnostics + [NeverLoggedIn];
        return;
      }
      calls := calls + [SessionLogout];
    }

    /** ILoginSession.GetChannelSession */
    method GetChannelSession(channel: ChannelId)
      requires Valid() && loginSession.Some?
      requires channel.issuer == appConfig.issuer && channel.domain == appConfig.domain
      modifies this
      ensures Valid() && State() == VivoxClientSpec.GetChannelSession(old(State()), channel)
    {
      var s := loginSession.value;
      if channel !in s.channels {
        var added := Channel(ConnectionState.Disconnected, ConnectionState.Disconnected, ConnectionState.Disconnected, []);
        loginSession := Some(s.(channels := s.channels[channel := added]));
        events := events + [OnChannelSessionAdded(channel)];
      }
    }

    /** ILoginSession.DeleteChannelSession */
    method DeleteChannelSession(channel: ChannelId)
      requires Valid() && loginSession.Some?
      modifies this
      ensures Valid() && State() == VivoxClientSpec.DeleteChannelSession(old(State()), channel)
    {
      var s := loginSession.value;
      calls := calls + [SessionDeleteChannel(channel)];
      if channel in s.channels {
        loginSession := Some(s.(channels := s.channels - {channel}));
        events := events + [OnChannelSessionRemoved(channel)];
      }
    }

    method ConnectAsync(channelConfig: VivoxChannelConfig, wait: ConnectWait) returns (r: Outcome)
      requires Valid()
      modifies this
      ensures Valid()
      ensures Step(State(), r) == VivoxClientSpec.ConnectAsync(appConfig, old(State()), channelConfig, wait)
    {
      if !IsLoggedIn(State()) {
        diagnostics := diagnostics + [ConnectBeforeLogin];
        return Pass;
      }
      var channel := ChannelId(appConfig.issuer, channelConfig.channelName, appConfig.domain,
                               channelConfig.channelType, channelConfig.properties);
      GetChannelSession(channel);
      var channelSession := loginSession.value.channels[channel];
      if channelSession.channelState != ConnectionState.Disconnected {
        diagnostics := diagnostics + [AlreadyConnected(channelConfig.channelName)];
        return Pass;
      }
      calls := calls + [ChannelBeginConnect(
        channel,
        channelConfig.chatType != ChatTypes.ChatType.TextOnly,
        channelConfig.chatType != ChatTypes.ChatType.AudioOnly,
        channelConfig.transmissionSwitch,
        appConfig.secretKey,
        channelConfig.tokenExpirationDuration)];
      match wait {
        case ConnectTimedOut =>
          return Fail(TimeoutException("The connection timed-out"));
        case ConnectedWithin(participants) =>
          var s := loginSession.value;
          var connected := channelSession.(channelState := ConnectionState.Connected, participants := participants);
          loginSession := Some(s.(channels := s.channels[channel := connected]));
          var myself := FirstSelf(participants);
          if myself.None? {
            return Fail(InvalidOperationException("Sequence contains no matching element"));
          }
          events := events + [OnUserConnected(myself.value)];
          return Pass;
      }
    }

    method Disconnect(channelId: Option<ChannelId>) returns (r: Outcome)
      requires Valid()
      modifies this
      ensures Valid()
      ensures Step(State(), r) == VivoxClientSpec.Disconnect(old(State()), channelId)
    {
      if IsNullOrEmptyChannel(channelId) {
        return Fail(NullArgument("channelId"));
      }
      if !IsLoggedIn(State()) {
        diagnostics := diagnostics + [AlreadyDisconnected];
        return Pass;
      }
      DeleteChannelSession(channelId.value);
      return Pass;
    }

    method DisconnectAllChannels()
      requires Valid()
      modifies this
      ensures Valid()
      ensures exists order :: IsEnumeration(order, ActiveChannels(old(State())))
                              && State() == VivoxClientSpec.DisconnectAllChannels(old(State()), order)
    {
      if !IsLoggedIn(State()) || loginSession.value.channels == map[] {
        diagnostics := diagnostics + [AlreadyDisconnectedFromAll];
        VivoxClientProperties.EnumerationExists(ActiveChannels(old(State())));
        ghost var order :| IsEnumeration(order, ActiveChannels(old(State())));
        assert State() == VivoxClientSpec.DisconnectAllChannels(old(State()), order);
        return;
      }
      var activeChannelIds := KeysSnapshot(loginSession.value.channels);
      ghost var before := State();
      for i := 0 to |activeChannelIds|
        invariant Valid() && loginSession.Some?
        invariant State() == DeleteAll(before, activeChannelIds[..i])
      {
        assert activeChannelIds[..i + 1][..i] == activeChannelIds[..i];
        DeleteChannelSession(activeChannelIds[i]);
      }
      assert activeChannelIds[..|activeChannelIds|] == activeChannelIds;
      assert IsEnumeration(activeChannelIds, ActiveChannels(old(State())));
      assert State() == VivoxClientSpec.DisconnectAllChannels(old(State()), activeChannelIds);
    }

    /** SendTextMessage(message, channelId, ...) */
    method SendTextMessage(message: NullableString, channelId: Option<ChannelId>, options: TextOptions) returns (r: Outcome)
      requires Valid()
      modifies this
      ensures Valid()
      ensures Step(State(), r) == VivoxClientSpec.SendTextMessage(old(State()), message, channelId, options)
    {
      if IsNullOrEmpty(message) {
        return Fail(NullArgument("message"));
      }
      if IsNullOrEmptyChannel(channelId) {
        return Fail(NullArgument("channelId"));
      }
      if !IsLoggedIn(State()) || channelId.value !in loginSession.value.channels {
        diagnostics := diagnostics + [SendBeforeConnect(channelId.value.name)];
        return Pass;
      }
      calls := calls + [ChannelBeginSendText(channelId.value, options.language, message.value,
                                             options.applicationStanzaNamespace, options.applicationStanzaBody)];
      return Pass;
    }

    /** SendTextMessage(message, channelIds, ...) */
    method SendTextMessageToChannels(message: NullableString, channelIds: Option<seq<Option<ChannelId>>>, options: TextOptions)
      returns (r: Outcome)
      requires Valid()
      modifies this
      ensures Valid()
      ensures Step(State(), r) == VivoxClientSpec.SendTextMessageToChannels(old(State()), message, channelIds, options)
    {
      if channelIds.None? {
        return Fail(NullArgument("channelIds"));
      }
      var ids := channelIds.value;
      ghost var before := State();
      var i := 0;
      while i < |ids|
        invariant 0 <= i <= |ids|
        invariant Valid()
        invariant SendEach(before, message, ids[..i], options) == Step(State(), Pass)
      {
        assert ids[..i + 1][..i] == ids[..i];
        r := SendTextMessage(message, ids[i], options);
        if r.Fail? {
          VivoxClientProperties.SendEachStopsAtFailure(before, message, ids, i + 1, options);
          return;
        }
        i := i + 1;
      }
      assert ids[..i] == ids;
      return Pass;
    }

    method SetTransmissionMode(mode: TransmissionMode, channelId: Option<ChannelId>) returns (r: Outcome)
      requires Valid()
      modifies this
      ensures Valid()
      ensures Step(State(), r) == VivoxClientSpec.SetTransmissionMode(old(State()), mode, channelId)
    {
      if !IsLoggedIn(State()) {
        diagnostics := diagnostics + [TransmissionModeBeforeLogin];
        return Pass;
      }
      if mode != TransmissionMode.Single {
        calls := calls + [SessionSetTransmissionMode(mode, Option.None)];
        return Pass;
      }
      if IsNullOrEmptyChannel(channelId) {
        return Fail(ArgumentNullException("channelId", Some(SingleModeNeedsChannel)));
      }
      if channelId.value !in loginSession.value.channels {
        diagnostics := diagnostics + [SingleModeBeforeConnect(channelId.value.name)];
        return Pass;
      }
      calls := calls + [SessionSetTransmissionMode(mode, channelId)];
      return Pass;
    }

    /** The login session's PropertyChanged handler. */
    method OnLoginSessionPropertyChanged(propertyName: string, state: LoginState, recoveryState: ConnectionRecoveryState)
      requires Valid() && loginSession.Some?
      modifies this
      ensures Valid()
      ensures State() == VivoxClientSpec.OnLoginSessionPropertyChanged(old(State()), propertyName, state, recoveryState)
    {
      loginSession := Some(loginSession.value.(state := state, recoveryState := recoveryState));
      if propertyName == "RecoveryState" {
        events := events + [OnRecoveryStateChanged(loginSession.value.recoveryState)];
      }
      if propertyName != "State" {
        return;
      }
      if loginSession.value.state == LoginState.LoggingIn {
      } else if loginSession.value.state == LoginState.LoggedIn {
        events := events + [OnLoggedIn];
      } else if loginSession.value.state == LoginState.LoggingOut {
      } else if loginSession.value.state == LoginState.LoggedOut {
        loginSession := Option.None;
        events := events + [OnLoggedOut];
      }
    }

    /** A channel session's PropertyChanged handler, for the session of `channel`
        as the SDK now reports it. */
    method OnChannelPropertyChanged(channel: ChannelId, propertyName: string, reported: Channel) returns (r: Outcome)
      requires Valid()
      modifies this
      ensures Valid()
      ensures Step(State(), r) == VivoxClientSpec.OnChannelPropertyChanged(old(State()), channel, propertyName, reported)
    {
      if loginSession.Some? && channel in loginSession.value.channels {
        var s := loginSession.value;
        loginSession := Some(s.(channels := s.channels[channel := reported]));
      }
      if propertyName == "AudioState" && reported.audioState == ConnectionState.Disconnected {
        var participants := reported.participants;
        ghost var current := State();
        for i := 0 to |participants|
          invariant State() == Emit(current, ZeroEnergyEvents(participants[..i]))
        {
          assert ZeroEnergyEvents(participants[..i + 1]) == ZeroEnergyEvents(participants[..i]) + [OnAudioEnergyChangedToZero(participants[i])];
          events := events + [OnAudioEnergyChangedToZero(participants[i])];
        }
        assert participants[..|participants|] == participants;
      }
      if (propertyName == "AudioState" || propertyName == "TextState")
         && reported.audioState == ConnectionState.Disconnected
         && reported.textState == ConnectionState.Disconnected
      {
        if loginSession.None? {
          return Fail(NullReferenceException);
        }
        if loginSession.value.recoveryState == ConnectionRecoveryState.FailedToRecover {
          DeleteChannelSession(channel);
        }
      }
      return Pass;
    }
  }
}
