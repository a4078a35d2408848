/** What VivoxClient promises its callers, proved about the transitions of
    VivoxClientSpec. */
module VivoxClientProperties {
  import opened DotNet
  import opened VivoxUnity
  import opened ChatTypes
  import opened AppConfig
  import opened AuthConfig
  import opened ChannelConfig
  import opened VivoxClientSpec

  /** Nothing but the diagnostics log changes. */
  predicate OnlyLogged(before: ClientState, after: ClientState, d: Diagnostic)
  {
    after == before.(diagnostics := before.diagnostics + [d])
  }

  // ---------------------------------------------------------------------------
  // Login and logout

  /** A login while already logging in or logged in does nothing but log why:
      no session is created and no login is begun. */
  lemma LoginWhileActiveIsNoOp(cfg: VivoxAppConfig, st: ClientState, auth: VivoxAuthConfig, timedOut: bool)
    requires IsLoggingIn(st) || IsLoggedIn(st)
    ensures var r := LoginAsync(cfg, st, auth, timedOut);
            r.outcome == Pass && OnlyLogged(st, r.state, AlreadyLoggingOrLoggedIn)
    ensures Text(AlreadyLoggingOrLoggedIn) == "This client already logging/logged into the server"
  {
  }

  /** Otherwise a login replaces the session by one for the configured account
      and begins exactly one login with the app's secret key. It fails only by
      timing out, and then the new session is still LoggedOut; when it returns
      normally the session is LoggedIn and OnLoggedIn has been published once. */
  lemma LoginBeginsOneLogin(cfg: VivoxAppConfig, st: ClientState, auth: VivoxAuthConfig, timedOut: bool)
    requires !IsLoggingIn(st) && !IsLoggedIn(st)
    ensures var r := LoginAsync(cfg, st, auth, timedOut);
            && r.state.session == Some(Session(AccountId(cfg.issuer, auth.accountName, cfg.domain, auth.displayName),
                                               if timedOut then LoginState.LoggedOut else LoginState.LoggedIn,
                                               ConnectionRecoveryState.Connected, map[]))
            && r.state.calls == st.calls + [SessionBeginLogin(AccountFor(cfg, auth), cfg.secretKey, auth.tokenExpirationDuration)]
            && r.state.events == st.events + (if timedOut then [] else [OnLoggedIn])
            && r.state.diagnostics == st.diagnostics
            && (r.outcome.Fail? <==> timedOut)
            && (timedOut ==> r.outcome.error == TimeoutException("The login timed-out"))
            && (r.outcome == Pass <==> IsLoggedIn(r.state))
  {
  }

  /** The login-twice scenario: a login that returns normally has published
      OnLoggedIn, a connect after it is not declined for want of a login, and a
      second login begins nothing. */
  lemma {:induction false} LoginTwice(cfg: VivoxAppConfig, st: ClientState, auth: VivoxAuthConfig, cc: VivoxChannelConfig, wait: ConnectWait)
    requires !IsLoggingIn(st) && !IsLoggedIn(st)
    ensures var first := LoginAsync(cfg, st, auth, false).state;
            var second := LoginAsync(cfg, first, auth, false);
            && first.events == st.events + [OnLoggedIn]
            && |first.calls| == |st.calls| + 1
            && second.outcome == Pass && OnlyLogged(first, second.state, AlreadyLoggingOrLoggedIn)
            && |ConnectAsync(cfg, first, cc, wait).state.calls| == |first.calls| + 1
  {
    LoginBeginsOneLogin(cfg, st, auth, false);
    var first := LoginAsync(cfg, st, auth, false).state;
    ConnectBeginsOneConnection(cfg, first, cc, wait);
  }

  /** With a session, a failed EndLogin drops it and a successful one changes
      nothing; either returns normally. Without a session EndLogin throws a
      NullReferenceException and changes nothing. */
  lemma EndLoginOutcome(st: ClientState, succeeded: bool)
    ensures EndLogin(st, succeeded).outcome == Pass <==> st.session.Some?
    ensures st.session.None? ==> EndLogin(st, succeeded) == Step(st, Fail(NullReferenceException))
    ensures st.session.Some? && !succeeded ==> EndLogin(st, succeeded) == Step(st.(session := Option.None), Pass)
    ensures st.session.Some? && succeeded ==> EndLogin(st, succeeded) == Step(st, Pass)
    ensures !IsLoggedIn(EndLogin(st, false).state)
  {
  }

  /** An EndLogin that the SDK calls after the LoggedOut notification or after
      the teardown has cleared the session throws and changes nothing. */
  lemma LateEndLoginThrows(st: ClientState, recoveryState: ConnectionRecoveryState, succeeded: bool)
    requires st.session.Some?
    ensures var out := OnLoginSessionPropertyChanged(st, "State", LoginState.LoggedOut, recoveryState);
            EndLogin(out, succeeded) == Step(out, Fail(NullReferenceException))
    ensures EndLogin(Release(st), succeeded) == Step(Release(st), Fail(NullReferenceException))
  {
    LoginStateChangePublished(st, LoginState.LoggedOut, recoveryState);
  }

  /** Logout without a session only logs; with one it requests a logout and
      leaves the session for the LoggedOut notification to clear. */
  lemma LogoutOutcome(st: ClientState)
    ensures st.session.None? ==> OnlyLogged(st, Logout(st), NeverLoggedIn)
    ensures st.session.None? ==> Text(NeverLoggedIn) == "This client has never logged into the server before"
    ensures st.session.Some? ==> Logout(st) == st.(calls := st.calls + [SessionLogout])
  {
  }

  // ---------------------------------------------------------------------------
  // Connecting

  /** Before login a connect only logs: no channel is created and none is connected. */
  lemma ConnectBeforeLoginIsNoOp(cfg: VivoxAppConfig, st: ClientState, cc: VivoxChannelConfig, wait: ConnectWait)
    requires !IsLoggedIn(st)
    ensures var r := ConnectAsync(cfg, st, cc, wait);
            r.outcome == Pass && OnlyLogged(st, r.state, ConnectBeforeLogin)
  {
  }

  /** A channel whose session is not Disconnected is not connected again. */
  lemma ConnectWhenNotDisconnectedIsNoOp(cfg: VivoxAppConfig, st: ClientState, cc: VivoxChannelConfig, wait: ConnectWait)
    requires IsLoggedIn(st)
    requires ChannelKey(cfg, cc) in st.session.value.channels
    requires st.session.value.channels[ChannelKey(cfg, cc)].channelState != ConnectionState.Disconnected
    ensures var r := ConnectAsync(cfg, st, cc, wait);
            r.outcome == Pass && OnlyLogged(st, r.state, AlreadyConnected(cc.channelName))
  {
  }

  /** BeginConnect asks for audio unless the chat is text only and for text
      unless it is audio only: never for neither, and for both exactly with TextAndAudio. */
  lemma CapabilitiesFollowChatType(t: ChatType)
    ensures ConnectAudio(t) || ConnectText(t)
    ensures (ConnectAudio(t) && ConnectText(t)) <==> t == ChatType.TextAndAudio
    ensures !ConnectText(t) <==> t == ChatType.AudioOnly
    ensures !ConnectAudio(t) <==> t == ChatType.TextOnly
  {
  }

  /** A connect that goes ahead begins exactly one connection, for the key built
      from the app config and the channel config, with the capabilities of its chat type. */
  lemma ConnectBeginsOneConnection(cfg: VivoxAppConfig, st: ClientState, cc: VivoxChannelConfig, wait: ConnectWait)
    requires IsLoggedIn(st)
    requires ChannelKey(cfg, cc) !in st.session.value.channels
             || st.session.value.channels[ChannelKey(cfg, cc)].channelState == ConnectionState.Disconnected
    ensures var r := ConnectAsync(cfg, st, cc, wait);
            var id := ChannelId(cfg.issuer, cc.channelName, cfg.domain, cc.channelType, cc.properties);
            && r.state.calls == st.calls + [ChannelBeginConnect(
                 id, cc.chatType != ChatType.TextOnly, cc.chatType != ChatType.AudioOnly,
                 cc.transmissionSwitch, cfg.secretKey, cc.tokenExpirationDuration)]
            && id in r.state.session.value.channels
            && (wait.ConnectTimedOut? ==> r.outcome == Fail(TimeoutException("The connection timed-out")))
            && (wait.ConnectedWithin? ==> r.state.session.value.channels[id].channelState == ConnectionState.Connected)
  {
  }

  /** The connect-twice scenario: after a connect that reached Connected with
      this client among the participants, the same connect again begins nothing. */
  lemma {:induction false} ConnectTwice(cfg: VivoxAppConfig, st: ClientState, cc: VivoxChannelConfig, ps: seq<Participant>, wait: ConnectWait)
    requires IsLoggedIn(st)
    requires ChannelKey(cfg, cc) !in st.session.value.channels
    requires exists i :: 0 <= i < |ps| && ps[i].isSelf
    ensures var first := ConnectAsync(cfg, st, cc, ConnectedWithin(ps));
            var second := ConnectAsync(cfg, first.state, cc, wait);
            && first.outcome == Pass
            && first.state.events == st.events + [OnChannelSessionAdded(ChannelKey(cfg, cc)), OnUserConnected(FirstSelf(ps).value)]
            && second.outcome == Pass && OnlyLogged(first.state, second.state, AlreadyConnected(cc.channelName))
  {
    ConnectBeginsOneConnection(cfg, st, cc, ConnectedWithin(ps));
    var first := ConnectAsync(cfg, st, cc, ConnectedWithin(ps));
    ConnectWhenNotDisconnectedIsNoOp(cfg, first.state, cc, wait);
  }

  // ---------------------------------------------------------------------------
  // Disconnecting

  /** A null or unnamed channel id throws, whatever the login state, and changes nothing. */
  lemma DisconnectChecksIdFirst(st: ClientState, id: Option<ChannelId>)
    requires IsNullOrEmptyChannel(id)
    ensures Disconnect(st, id) == Step(st, Fail(NullArgument("channelId")))
  {
  }

  /** Disconnect removes that channel only, or only logs when not logged in. */
  lemma DisconnectRemovesOnlyThatChannel(st: ClientState, id: ChannelId)
    requires id.name != ""
    ensures var r := Disconnect(st, Some(id));
            && r.outcome == Pass
            && (!IsLoggedIn(st) ==> OnlyLogged(st, r.state, AlreadyDisconnected))
            && (IsLoggedIn(st) ==>
                  && r.state.session.Some?
                  && id !in r.state.session.value.channels
                  && (forall k :: k != id ==>
                        (k in r.state.session.value.channels <==> k in st.session.value.channels))
                  && (forall k :: k != id && k in st.session.value.channels ==>
                        r.state.session.value.channels[k] == st.session.value.channels[k])
                  && r.state.session.value.state == st.session.value.state
                  && r.state.calls == st.calls + [SessionDeleteChannel(id)]
                  && r.state.events == st.events + (if id in st.session.value.channels then [OnChannelSessionRemoved(id)] else []))
  {
  }

  function Elements(s: seq<ChannelId>): set<ChannelId>
  {
    set x | x in s
  }

  /** Deleting one channel of the session removes it, announces it and requests its deletion. */
  lemma DeleteOneEffect(st: ClientState, id: ChannelId)
    requires st.session.Some? && id in st.session.value.channels
    ensures var r := DeleteChannelSession(st, id);
            && r.session == Some(st.session.value.(channels := st.session.value.channels - {id}))
            && r.events == st.events + [OnChannelSessionRemoved(id)]
            && r.calls == st.calls + [SessionDeleteChannel(id)]
            && r.diagnostics == st.diagnostics
  {
  }

  /** Splitting a duplicate-free listing into its prefix and its last key. */
  lemma SplitLast(order: seq<ChannelId>)
    requires Distinct(order) && |order| > 0
    ensures var prefix, last := order[..|order| - 1], order[|order| - 1];
            && Distinct(prefix)
            && last !in Elements(prefix)
            && Elements(order) == Elements(prefix) + {last}
            && RemovedEvents(order) == RemovedEvents(prefix) + [OnChannelSessionRemoved(last)]
            && DeleteRequests(order) == DeleteRequests(prefix) + [SessionDeleteChannel(last)]
  {
    var n := |order|;
    var prefix, last := order[..n - 1], order[n - 1];
    assert order == prefix + [last];
    assert Distinct(prefix) by {
      forall i, j | 0 <= i < j < |prefix| ensures prefix[i] != prefix[j] {
        assert prefix[i] == order[i] && prefix[j] == order[j];
      }
    }
    assert last !in Elements(prefix) by {
      forall i | 0 <= i < n - 1 ensures prefix[i] != last {
        assert prefix[i] == order[i];
      }
    }
  }

  /** Deleting distinct channels of the session one after another removes all
      of them, announces each removal once and in order, and requests each deletion. */
  lemma {:induction false} DeleteAllEffect(st: ClientState, order: seq<ChannelId>)
    requires st.session.Some?
    requires Distinct(order)
    requires forall x :: x in order ==> x in st.session.value.channels
    ensures var r := DeleteAll(st, order);
            && r.session == Some(st.session.value.(channels := st.session.value.channels - Elements(order)))
            && r.events == st.events + RemovedEvents(order)
            && r.calls == st.calls + DeleteRequests(order)
            && r.diagnostics == st.diagnostics
  {
    if order == [] {
      assert Elements(order) == {};
      assert st.session.value.channels - {} == st.session.value.channels;
    } else {
      var n := |order|;
      var prefix, last := order[..n - 1], order[n - 1];
      SplitLast(order);
      assert forall x :: x in prefix ==> x in order;
      DeleteAllEffect(st, prefix);
      var mid := DeleteAll(st, prefix);
      var channels := st.session.value.channels;
      assert last in mid.session.value.channels;
      DeleteOneEffect(mid, last);
      assert (channels - Elements(prefix)) - {last} == channels - Elements(order);
    }
  }

  /** DisconnectAllChannels with nothing to disconnect, or before login, only logs. */
  lemma DisconnectAllWithNothingToDoIsNoOp(st: ClientState, order: seq<ChannelId>)
    requires !IsLoggedIn(st) || st.session.value.channels == map[]
    ensures OnlyLogged(st, DisconnectAllChannels(st, order), AlreadyDisconnectedFromAll)
  {
  }

  /** Otherwise every channel of the snapshot is deleted and announced once, in
      snapshot order, leaving the login session with no channels. */
  lemma {:induction false} DisconnectAllEmptiesChannels(st: ClientState, order: seq<ChannelId>)
    requires IsLoggedIn(st) && st.session.value.channels != map[]
    requires IsEnumeration(order, ActiveChannels(st))
    ensures var r := DisconnectAllChannels(st, order);
            && r.session == Some(st.session.value.(channels := map[]))
            && r.events == st.events + RemovedEvents(order)
            && r.calls == st.calls + DeleteRequests(order)
            && r.diagnostics == st.diagnostics
  {
    DeleteAllEffect(st, order);
    var channels := st.session.value.channels;
    assert channels - Elements(order) == map[] by {
      assert forall k :: k in channels ==> k in Elements(order);
    }
  }

  /** Some order lists each key exactly once. */
  lemma {:induction false} EnumerationExists(keys: set<ChannelId>)
    ensures exists order :: IsEnumeration(order, keys)
    decreases keys
  {
    if keys == {} {
      assert IsEnumeration([], keys);
    } else {
      var k :| k in keys;
      EnumerationExists(keys - {k});
      var rest :| IsEnumeration(rest, keys - {k});
      assert IsEnumeration(rest + [k], keys);
    }
  }

  // ---------------------------------------------------------------------------
  // Text messages

  /** A single send checks the message before the channel id, and otherwise
      sends only when logged in and the login session holds a channel session
      for that id, also one whose connect is still pending or timed out. */
  lemma SendTextMessageOutcome(st: ClientState, message: NullableString, id: Option<ChannelId>, options: TextOptions)
    ensures var r := SendTextMessage(st, message, id, options);
            && (IsNullOrEmpty(message) ==> r == Step(st, Fail(NullArgument("message"))))
            && (!IsNullOrEmpty(message) && IsNullOrEmptyChannel(id) ==> r == Step(st, Fail(NullArgument("channelId"))))
            && (!IsNullOrEmpty(message) && !IsNullOrEmptyChannel(id) && id.value !in ActiveChannels(st) ==>
                  r.outcome == Pass && OnlyLogged(st, r.state, SendBeforeConnect(id.value.name)))
            && (!IsNullOrEmpty(message) && !IsNullOrEmptyChannel(id) && !IsLoggedIn(st) ==>
                  r.outcome == Pass && OnlyLogged(st, r.state, SendBeforeConnect(id.value.name)))
            && (r.state.calls != st.calls ==>
                  IsLoggedIn(st) && id.value in st.session.value.channels
                  && r.state.calls == st.calls + [ChannelBeginSendText(id.value, options.language, message.value,
                                                    options.applicationStanzaNamespace, options.applicationStanzaBody)])
            && (!IsNullOrEmpty(message) && !IsNullOrEmptyChannel(id) && IsLoggedIn(st) && id.value in ActiveChannels(st) ==>
                  r == Step(st.(calls := st.calls + [ChannelBeginSendText(id.value, options.language, message.value,
                                                       options.applicationStanzaNamespace, options.applicationStanzaBody)]), Pass))
  {
  }

  /** Once a prefix of the targets has thrown, the remaining targets are not tried. */
  lemma {:induction false} SendEachStopsAtFailure(st: ClientState, message: NullableString, ids: seq<Option<ChannelId>>, k: nat, options: TextOptions)
    requires k <= |ids|
    requires SendEach(st, message, ids[..k], options).outcome.Fail?
    ensures SendEach(st, message, ids, options) == SendEach(st, message, ids[..k], options)
    decreases |ids|
  {
    if k < |ids| {
      var n := |ids|;
      assert ids[..n - 1][..k] == ids[..k];
      SendEachStopsAtFailure(st, message, ids[..n - 1], k, options);
    } else {
      assert ids[..k] == ids;
    }
  }

  /** Sending never touches the session or publishes anything. */
  lemma {:induction false} SendEachKeepsSession(st: ClientState, message: NullableString, ids: seq<Option<ChannelId>>, options: TextOptions)
    ensures SendEach(st, message, ids, options).state.session == st.session
    ensures SendEach(st, message, ids, options).state.events == st.events
    decreases |ids|
  {
    if ids != [] {
      SendEachKeepsSession(st, message, ids[..|ids| - 1], options);
    }
  }

  /** The message is checked only per target: with at least one target a null
      or empty message throws before anything is sent, with none nothing
      happens at all; a null target array throws. */
  lemma {:induction false} SendToChannelsChecksMessagePerTarget(st: ClientState, message: NullableString, ids: seq<Option<ChannelId>>, options: TextOptions)
    ensures SendTextMessageToChannels(st, message, Option.None, options) == Step(st, Fail(NullArgument("channelIds")))
    ensures SendTextMessageToChannels(st, message, Some([]), options) == Step(st, Pass)
    ensures IsNullOrEmpty(message) && ids != [] ==>
              SendTextMessageToChannels(st, message, Some(ids), options) == Step(st, Fail(NullArgument("message")))
  {
    if IsNullOrEmpty(message) && ids != [] {
      assert ids[..1][..0] == [];
      SendEachStopsAtFailure(st, message, ids, 1, options);
    }
  }

  // ---------------------------------------------------------------------------
  // Transmission mode

  /** Before login nothing happens, even for Single without a channel; a mode
      other than Single is applied without looking at the channel; Single needs
      a channel id for which the login session holds a channel session, also
      one whose connect is still pending or timed out. */
  lemma SetTransmissionModeOutcome(st: ClientState, mode: TransmissionMode, id: Option<ChannelId>)
    ensures var r := SetTransmissionMode(st, mode, id);
            && (!IsLoggedIn(st) ==> r.outcome == Pass && OnlyLogged(st, r.state, TransmissionModeBeforeLogin))
            && (IsLoggedIn(st) && mode != TransmissionMode.Single ==>
                  r == Step(st.(calls := st.calls + [SessionSetTransmissionMode(mode, Option.None)]), Pass))
            && (IsLoggedIn(st) && mode == TransmissionMode.Single && IsNullOrEmptyChannel(id) ==>
                  r == Step(st, Fail(ArgumentNullException("channelId", Some(SingleModeNeedsChannel)))))
            && (IsLoggedIn(st) && mode == TransmissionMode.Single && !IsNullOrEmptyChannel(id) ==>
                  r.outcome == Pass &&
                  if id.value in st.session.value.channels
                  then r.state == st.(calls := st.calls + [SessionSetTransmissionMode(TransmissionMode.Single, id)])
                  else OnlyLogged(st, r.state, SingleModeBeforeConnect(id.value.name)))
  {
  }

  // ---------------------------------------------------------------------------
  // Notifications

  /** A RecoveryState change publishes exactly the new recovery state. */
  lemma RecoveryStateChangePublishedOnce(st: ClientState, state: LoginState, recoveryState: ConnectionRecoveryState)
    requires st.session.Some?
    ensures var r := OnLoginSessionPropertyChanged(st, "RecoveryState", state, recoveryState);
            && r.events == st.events + [OnRecoveryStateChanged(recoveryState)]
            && r.session == Some(st.session.value.(state := state, recoveryState := recoveryState))
            && r.calls == st.calls && r.diagnostics == st.diagnostics
  {
  }

  /** A State change publishes OnLoggedIn for LoggedIn, clears the session and
      publishes OnLoggedOut for LoggedOut, and publishes nothing otherwise. */
  lemma LoginStateChangePublished(st: ClientState, state: LoginState, recoveryState: ConnectionRecoveryState)
    requires st.session.Some?
    ensures var r := OnLoginSessionPropertyChanged(st, "State", state, recoveryState);
            && r.calls == st.calls && r.diagnostics == st.diagnostics
            && (state == LoginState.LoggedIn ==> r.events == st.events + [OnLoggedIn])
            && (state == LoginState.LoggedOut ==> r.events == st.events + [OnLoggedOut] && r.session.None?)
            && (state == LoginState.LoggingIn || state == LoginState.LoggingOut ==> r.events == st.events)
            && (state != LoginState.LoggedOut ==>
                  r.session == Some(st.session.value.(state := state, recoveryState := recoveryState)))
  {
  }

  /** Any other property publishes nothing and keeps the session. */
  lemma OtherLoginPropertyIsSilent(st: ClientState, name: string, state: LoginState, recoveryState: ConnectionRecoveryState)
    requires st.session.Some? && name != "State" && name != "RecoveryState"
    ensures var r := OnLoginSessionPropertyChanged(st, name, state, recoveryState);
            r.events == st.events && r.session.Some? && r.calls == st.calls
  {
  }

  /** After the LoggedOut notification every guarded operation declines. */
  lemma {:induction false} NothingHappensAfterLoggedOut(
    cfg: VivoxAppConfig, st: ClientState, recoveryState: ConnectionRecoveryState, cc: VivoxChannelConfig,
    wait: ConnectWait, id: ChannelId, message: string, options: TextOptions, mode: TransmissionMode)
    requires st.session.Some? && id.name != "" && message != ""
    ensures var out := OnLoginSessionPropertyChanged(st, "State", LoginState.LoggedOut, recoveryState);
            && OnlyLogged(out, ConnectAsync(cfg, out, cc, wait).state, ConnectBeforeLogin)
            && OnlyLogged(out, Disconnect(out, Some(id)).state, AlreadyDisconnected)
            && OnlyLogged(out, SendTextMessage(out, Some(message), Some(id), options).state, SendBeforeConnect(id.name))
            && OnlyLogged(out, SetTransmissionMode(out, mode, Some(id)).state, TransmissionModeBeforeLogin)
            && OnlyLogged(out, Logout(out), NeverLoggedIn)
  {
    LoginStateChangePublished(st, LoginState.LoggedOut, recoveryState);
  }

  /** A notification reports the channel session as the SDK now has it, and the
      client keeps that data: when the audio goes down, every current
      participant's energy is reported as zero, in participant order. The
      channel session is deleted exactly when an AudioState or TextState change
      leaves both audio and text disconnected after FailedToRecover, and no
      other channel changes. */
  lemma ChannelPropertyChangeOutcome(st: ClientState, id: ChannelId, name: string, reported: Channel)
    requires st.session.Some?
    ensures var r := OnChannelPropertyChanged(st, id, name, reported);
            var silenced := name == "AudioState" && reported.audioState == ConnectionState.Disconnected;
            var deleted := (name == "AudioState" || name == "TextState")
                           && reported.audioState == ConnectionState.Disconnected
                           && reported.textState == ConnectionState.Disconnected
                           && st.session.value.recoveryState == ConnectionRecoveryState.FailedToRecover;
            var ps := reported.participants;
            && r.outcome == Pass
            && r.state.session.Some?
            && r.state.session.value.state == st.session.value.state
            && (id in st.session.value.channels && !deleted ==> r.state.session.value.channels[id] == reported)
            && (id !in r.state.session.value.channels <==> id !in st.session.value.channels || deleted)
            && (forall k :: k != id ==> (k in r.state.session.value.channels <==> k in st.session.value.channels))
            && (forall k :: k != id && k in st.session.value.channels ==>
                  r.state.session.value.channels[k] == st.session.value.channels[k])
            && |r.state.events| == |st.events| + (if silenced then |ps| else 0)
                                                + (if deleted && id in st.session.value.channels then 1 else 0)
            && (silenced ==> forall i :: 0 <= i < |ps| ==> r.state.events[|st.events| + i] == OnAudioEnergyChangedToZero(ps[i]))
            && r.state.calls == st.calls + (if deleted then [SessionDeleteChannel(id)] else [])
  {
  }

  /** A channel whose session the SDK reports Disconnected again is connected
      again by the next connect. */
  lemma {:induction false} ReconnectAfterChannelDropped(
    cfg: VivoxAppConfig, st: ClientState, cc: VivoxChannelConfig, reported: Channel, wait: ConnectWait)
    requires IsLoggedIn(st) && ChannelKey(cfg, cc) in st.session.value.channels
    requires reported.channelState == ConnectionState.Disconnected
    ensures var dropped := OnChannelPropertyChanged(st, ChannelKey(cfg, cc), "ChannelState", reported).state;
            var r := ConnectAsync(cfg, dropped, cc, wait);
            |r.state.calls| == |dropped.calls| + 1 && r.state.calls[|dropped.calls|].ChannelBeginConnect?
  {
    var dropped := OnChannelPropertyChanged(st, ChannelKey(cfg, cc), "ChannelState", reported).state;
    ChannelPropertyChangeOutcome(st, ChannelKey(cfg, cc), "ChannelState", reported);
    ConnectBeginsOneConnection(cfg, dropped, cc, wait);
  }

  /** The channel handlers stay attached after the LoggedOut notification has
      cleared the session: a later audio notification still reports every
      participant's energy as zero, and one that leaves audio and text both
      disconnected then throws, reading the recovery state of a null session. */
  lemma {:induction false} ChannelNotificationAfterLoggedOut(
    st: ClientState, recoveryState: ConnectionRecoveryState, id: ChannelId, name: string, reported: Channel)
    requires st.session.Some?
    requires name == "AudioState" || name == "TextState"
    requires reported.audioState == ConnectionState.Disconnected && reported.textState == ConnectionState.Disconnected
    ensures var out := OnLoginSessionPropertyChanged(st, "State", LoginState.LoggedOut, recoveryState);
            var r := OnChannelPropertyChanged(out, id, name, reported);
            && r.outcome == Fail(NullReferenceException)
            && r.state.session.None? && r.state.calls == out.calls
            && r.state.events == out.events + (if name == "AudioState" then ZeroEnergyEvents(reported.participants) else [])
  {
    LoginStateChangePublished(st, LoginState.LoggedOut, recoveryState);
  }

  // ---------------------------------------------------------------------------
  // The object invariant

  /** Every operation keeps the session and the channel keys on the app's issuer
      and domain: login and teardown ... */
  lemma SessionOperationsKeepConsistent(cfg: VivoxAppConfig, st: ClientState, auth: VivoxAuthConfig, timedOut: bool, succeeded: bool)
    requires Consistent(cfg, st)
    ensures Consistent(cfg, Release(st))
    ensures Consistent(cfg, LoginAsync(cfg, st, auth, timedOut).state)
    ensures Consistent(cfg, EndLogin(st, succeeded).state)
    ensures Consistent(cfg, Logout(st))
  {
  }

  /** ... connecting ... */
  lemma ConnectKeepsConsistent(cfg: VivoxAppConfig, st: ClientState, cc: VivoxChannelConfig, wait: ConnectWait)
    requires Consistent(cfg, st)
    ensures Consistent(cfg, ConnectAsync(cfg, st, cc, wait).state)
  {
  }

  /** ... disconnecting ... */
  lemma {:induction false} DisconnectKeepsConsistent(cfg: VivoxAppConfig, st: ClientState, id: Option<ChannelId>, order: seq<ChannelId>)
    requires Consistent(cfg, st)
    ensures Consistent(cfg, Disconnect(st, id).state)
    ensures Consistent(cfg, DisconnectAllChannels(st, order))
  {
    if st.session.Some? {
      DeleteAllKeepsConsistent(cfg, st, order);
    }
  }

  /** ... and sending or choosing the transmission mode, which leave the session as it is. */
  lemma {:induction false} SendKeepsConsistent(
    cfg: VivoxAppConfig, st: ClientState, message: NullableString, ids: Option<seq<Option<ChannelId>>>,
    options: TextOptions, mode: TransmissionMode, id: Option<ChannelId>)
    requires Consistent(cfg, st)
    ensures Consistent(cfg, SendTextMessageToChannels(st, message, ids, options).state)
    ensures Consistent(cfg, SetTransmissionMode(st, mode, id).state)
  {
    if ids.Some? {
      SendEachKeepsSession(st, message, ids.value, options);
    }
  }

  lemma {:induction false} DeleteAllKeepsConsistent(cfg: VivoxAppConfig, st: ClientState, order: seq<ChannelId>)
    requires st.session.Some? && Consistent(cfg, st)
    ensures Consistent(cfg, DeleteAll(st, order))
    decreases |order|
  {
    if order != [] {
      DeleteAllKeepsConsistent(cfg, st, order[..|order| - 1]);
    }
  }

  /** Disposing the client drops the session, cleans up and uninitializes the
      SDK client, and publishes nothing; afterwards Logout only logs. */
  lemma ReleaseDropsSession(st: ClientState)
    ensures Release(st).session.None?
    ensures Release(st).calls == st.calls + [ClientCleanup, ClientUninitialize]
    ensures Release(st).events == st.events && Release(st).diagnostics == st.diagnostics
    ensures OnlyLogged(Release(st), Logout(Release(st)), NeverLoggedIn)
  {
  }
}
