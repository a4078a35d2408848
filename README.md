# Vivox chat client, modelled in Dafny

A model of the chat client that Extreal's Vivox integration gives Unity
applications, with proofs of what it promises. The client logs an account
into a Vivox server, connects to and disconnects from channels, sends text
messages, chooses the transmission mode, and republishes the events of its
login and channel sessions to the application. Five configuration types
check and default their arguments: the app config, the auth config, the
channel config, the connection parameter and the login parameter.

Module layout:

- `DotNet` (`dotnet.dfy`) holds the .NET notions the code relies on.
  - Null is `Option.None`, and `IsNullOrEmpty` is `string.IsNullOrEmpty`.
  - A thrown exception is a `Failure` of `Result` for a constructor and a
    `Fail` of `Outcome` for a void method.
  - It also has `TimeSpan` in ticks, `byte`, and the text form of a `Guid`.
- `VivoxUnity` (`vivox_unity.dfy`) holds the SDK values the client reads.
  - These are the enumerations, `AccountId`, `ChannelId` and `Participant`.
  - It also maps the numeric values of `ChannelType` and `ChatCapability`.
- Each configuration type has its own module, with its constructor as a
  function that returns a `Result`:
  - `ChatTypes` (`chat_type.dfy`);
  - `AppConfig` (`vivox_app_config.dfy`);
  - `AuthConfig` (`vivox_auth_config.dfy`);
  - `ChannelConfig` (`vivox_channel_config.dfy`);
  - `ConnectionParameter` (`vivox_connection_parameter.dfy`);
  - `LoginParameter` (`vivox_login_parameter.dfy`).
- `VivoxClientSpec` (`vivox_client_spec.dfy`) gives each client operation as
  a function of a `ClientState`, which has four parts:
  - the login session the client holds, with its state, its recovery state
    and its channel sessions keyed by `ChannelId`;
  - the events it has published on its subjects;
  - the requests it has made of the SDK;
  - the debug diagnostics it logged when it declined a call.
- `Client` (`vivox_client.dfy`) is the `VivoxClient` class.
  - It has those four parts as fields, and methods that update them step by
    step, with the loops of the source.
  - Each method is proved to reach exactly the state, and the outcome, that
    its `VivoxClientSpec` transition gives.
  - Each method also keeps the object invariant `Valid`: the session's
    account and every channel key carry the app config's issuer and domain.
- `VivoxClientProperties` (`vivox_client_properties.dfy`) proves what the
  transitions promise.
  - It covers the no-op guards, the order of the argument checks, the
    capabilities for each chat type, the key snapshot of
    `DisconnectAllChannels`, the early stop of the multi-channel send, the
    events of the two property-changed handlers, and the invariant.

The SDK's objects appear only as the data the client reads from them. Its
asynchronous parts are given to the model as parameters:

- `timedOut` says whether `LoginAsync`'s wait for LoggedIn ran out of time.
- A `ConnectWait` says how `ConnectAsync`'s wait for Connected ended, and
  with which participants.
- `succeeded` says whether the SDK's `EndLogin` returned normally when the
  client still holds a login session.
- `newGuid` is the identifier `Guid.NewGuid().ToString()` returns.
- `order` is the order in which `Keys.ToArray()` lists the channel keys.
  The `DisconnectAllChannels` method proves that some listing of every key
  exactly once gives its result.

Some decisions of the model:

- `ILoginSession.GetChannelSession` adds a channel session in state
  Disconnected, and announces it, when none exists for the key.
- `ILoginSession.DeleteChannelSession` requests the deletion. It also
  removes an existing channel session at once and announces the removal,
  which is what the client's `BeforeKeyRemoved` handler publishes.
- `Client.GetLoginSession` gives a fresh session in state LoggedOut, with no
  channels and recovery state Connected.
- `ChannelId.IsNullOrEmpty` holds of null and of an id with an empty name.
- The LoggedOut notification detaches only the login session's handlers. The
  channel sessions' handlers stay attached. A channel notification after it
  still runs, and if audio and text are then both Disconnected, the handler
  reads the RecoveryState of a null session. The model keeps that behaviour: it
  throws a `NullReferenceException`.

`Runtime/VivoxClient.cs:190` waits for `authConfig.Timeout`, but
`Runtime/VivoxAuthConfig.cs` declares no such member. The model does not
need one: the duration of the wait only matters through `timedOut`.

## Model

| member | source | states |
|---|---|---|
| DotNet.FromSeconds | Runtime/VivoxChannelConfig.cs:89-91 | `TimeSpan.FromSeconds(n)` is n whole seconds of 10,000,000 ticks each, and so the zero TimeSpan exactly when n is 0; a substituted default is never 0 again |
| DotNet.DigitsDenote | Runtime/VivoxConnectionParameter.cs:31 | the decimal digits written for a natural number are digits, and read back most significant first they give that number |
| DotNet.IntToStringRoundTrip | Runtime/VivoxConnectionParameter.cs:31-35 | the text an integer is interpolated as, an optional minus sign then its digits, reads back as that integer, so the out-of-range messages name the value given |
| VivoxUnity.ChannelTypeOf | Runtime/VivoxConnectionParameter.cs:33-36 | `Enum.IsDefined(typeof(ChannelType), v)` holds exactly for 0..2, and then the member's value is v |
| VivoxUnity.ChatCapabilityOf | Runtime/VivoxConnectionParameter.cs:29-32 | `Enum.IsDefined(typeof(ChatCapability), v)` holds exactly for 0..2, and then the member's value is v |
| VivoxUnity.EnumValuesRoundTrip | Runtime/VivoxConnectionParameter.cs:29-40 | every member of both enumerations is defined, and decoding its value gives it back |
| AppConfig.NewVivoxAppConfig | Runtime/VivoxAppConfig.cs:42-65 | success iff all four arguments are non-empty, and then the fields equal the arguments; otherwise the error names apiEndPoint, domain, issuer or secretKey, checked in that order |
| AppConfig.FirstNullOrEmpty | Runtime/VivoxAppConfig.cs:44-59 | gives nothing iff every argument is non-empty, and otherwise the name of the first empty one |
| AppConfig.AppConfigReportsFirstMissing | Runtime/VivoxAppConfig.cs:44-59 | the constructor fails exactly when some argument is empty, and it names the first empty one in declaration order |
| AppConfig.EachMissingCredentialIsNamed | Runtime/VivoxAppConfig.cs:44-59 | a missing apiEndPoint is reported whatever the rest are; each of domain, issuer and secretKey missing alone is reported by its own name |
| ChannelConfig.NewVivoxChannelConfig | Runtime/VivoxChannelConfig.cs:69-92 | fails, naming channelName, iff the name is null or empty; stores name, chat type, channel type and switch unchanged; has 3D properties iff the type is Positional; a zero token lifetime becomes 60 s and a zero timeout 10 s, other values are kept, so neither is ever zero |
| ChannelConfig.ChannelConfigDefaults | Runtime/VivoxChannelConfig.cs:69-77 | with every optional argument at its default: TextAndAudio, NonPositional, no properties, switch on, 60 s token, 10 s timeout |
| AuthConfig.NewVivoxAuthConfig | Runtime/VivoxAuthConfig.cs:41-57 | fails, naming displayName, iff the display name is null or empty; stores the display name; keeps a given account name and otherwise uses the generated Guid text, so the account name is never empty; a zero token lifetime becomes 60 s, any other is kept |
| LoginParameter.NewVivoxLoginParameter | Runtime/VivoxLoginParameter.cs:11-21 | fails, naming displayName, iff the display name is null or empty; the account name is defaulted as in the auth config; the token lifetime is stored exactly as given |
| LoginParameter.LoginParameterLifetime | Runtime/VivoxLoginParameter.cs:11-20 | the default token lifetime is 60, and an explicit 0 stays 0 |
| ConnectionParameter.NewVivoxConnectionParameter | Runtime/VivoxConnectionParameter.cs:15-44 | checks the name, then the capability, then the channel type; throws ArgumentNullException naming channelName, or ArgumentOutOfRangeException naming the parameter with the message "'v' is not defined in" the enumeration; succeeds iff all three pass; stores every value unchanged; has 3D properties iff the type is Positional |
| ConnectionParameter.ConnectionParameterDefaults | Runtime/VivoxConnectionParameter.cs:15-23 | with every optional argument at its default: TextOnly, NonPositional, no properties, switch on, token 60 |
| ConnectionParameter.UndefinedValueMessages | Runtime/VivoxConnectionParameter.cs:29-36 | the value 10 for either enumeration is reported as "'10' is not defined in ChatCapability" or "... ChannelType", naming chatCapability or channelType |
| VivoxClientSpec.Construct | Runtime/VivoxClient.cs:113-129 | a null app config throws, naming appConfig; otherwise the client has no session, has published nothing, has initialized the SDK client for the end point, and keeps the invariant |
| VivoxClientSpec.FirstSelf | Runtime/VivoxClient.cs:296 | `Participants.First(p => p.IsSelf)`: nothing iff no participant is this client, and otherwise the earliest such participant |
| VivoxClientSpec.GetChannelSession | Runtime/VivoxClient.cs:257 | afterwards the login session has a channel session for the key |
| VivoxClientSpec.DeleteAll | Runtime/VivoxClient.cs:338-341 | the loop of deletions keeps a login session |
| Client.KeysSnapshot | Runtime/VivoxClient.cs:337 | `Keys.ToArray()` lists every key of the channel map exactly once |
| Client.VivoxClient.constructor | Runtime/VivoxClient.cs:113-129 | the new client's state is the one Construct gives, and it is valid |
| Client.VivoxClient.Create | Runtime/VivoxClient.cs:113-118 | a null app config throws, naming appConfig, before anything is initialized; otherwise a fresh valid client in Construct's state |
| Client.VivoxClient.ReleaseManagedResources | Runtime/VivoxClient.cs:132-155 | the session is dropped, and the SDK client is cleaned up and uninitialized |
| Client.VivoxClient.LoginAsync | Runtime/VivoxClient.cs:163-196 | state and outcome are those of VivoxClientSpec.LoginAsync; on a normal return the attached handler has seen the session become LoggedIn |
| Client.VivoxClient.EndLogin | Runtime/VivoxClient.cs:198-214 | state and outcome are those of VivoxClientSpec.EndLogin: with no session it throws a NullReferenceException and changes nothing |
| Client.VivoxClient.Logout | Runtime/VivoxClient.cs:219-231 | state is that of VivoxClientSpec.Logout |
| Client.VivoxClient.GetChannelSession | Runtime/VivoxClient.cs:257 | state is that of VivoxClientSpec.GetChannelSession |
| Client.VivoxClient.DeleteChannelSession | Runtime/VivoxClient.cs:320 | state is that of VivoxClientSpec.DeleteChannelSession |
| Client.VivoxClient.ConnectAsync | Runtime/VivoxClient.cs:237-298 | state and outcome are those of VivoxClientSpec.ConnectAsync |
| Client.VivoxClient.Disconnect | Runtime/VivoxClient.cs:305-321 | state and outcome are those of VivoxClientSpec.Disconnect |
| Client.VivoxClient.DisconnectAllChannels | Runtime/VivoxClient.cs:326-342 | for some listing of the pre-call keys that names each key once, state is that of VivoxClientSpec.DisconnectAllChannels for that listing |
| Client.VivoxClient.SendTextMessage | Runtime/VivoxClient.cs:382-411 | state and outcome are those of VivoxClientSpec.SendTextMessage |
| Client.VivoxClient.SendTextMessageToChannels | Runtime/VivoxClient.cs:353-371 | state and outcome are those of VivoxClientSpec.SendTextMessageToChannels: one single-channel send per target, in order, stopping at the first that throws |
| Client.VivoxClient.SetTransmissionMode | Runtime/VivoxClient.cs:419-451 | state and outcome are those of VivoxClientSpec.SetTransmissionMode |
| Client.VivoxClient.OnLoginSessionPropertyChanged | Runtime/VivoxClient.cs:577-628 | state is that of VivoxClientSpec.OnLoginSessionPropertyChanged |
| Client.VivoxClient.OnChannelPropertyChanged | Runtime/VivoxClient.cs:677-709 | state and outcome are those of VivoxClientSpec.OnChannelPropertyChanged for the channel session as the SDK reports it, with one zero-energy event per current participant appended in the loop, also when no login session is left |
| VivoxClientProperties.LoginWhileActiveIsNoOp | Runtime/VivoxClient.cs:165-172 | while logging in or logged in, a login changes nothing but the diagnostics, begins no login and does not throw |
| VivoxClientProperties.LoginBeginsOneLogin | Runtime/VivoxClient.cs:174-195 | otherwise the session is replaced by one for the app's issuer and domain and the auth config's names, and exactly one login is begun with the secret key and the token lifetime; it throws "The login timed-out" iff the wait times out, leaving the session LoggedOut; it returns normally iff the session is then LoggedIn, with OnLoggedIn published once |
| VivoxClientProperties.LoginTwice | Runtime/VivoxClient.cs:163-196 | after a login that returned normally, OnLoggedIn has been published once, a connect begins a connection, and a second login begins nothing |
| VivoxClientProperties.EndLoginOutcome | Runtime/VivoxClient.cs:198-214 | it returns normally iff there is a session; then a failed end of login drops the session and changes nothing else, and a successful one changes nothing; with no session it throws a NullReferenceException, because the catch block detaches the handlers of the null session, and changes nothing |
| VivoxClientProperties.LateEndLoginThrows | Runtime/VivoxClient.cs:198-214 | an EndLogin that arrives after the LoggedOut notification or after disposal has cleared the session throws a NullReferenceException and changes nothing |
| VivoxClientProperties.LogoutOutcome | Runtime/VivoxClient.cs:219-231 | with no session, Logout only logs "This client has never logged into the server before"; otherwise it requests a logout and keeps the session |
| VivoxClientProperties.ConnectBeforeLoginIsNoOp | Runtime/VivoxClient.cs:239-246 | when not logged in, a connect only logs, creates no channel session and begins nothing |
| VivoxClientProperties.ConnectWhenNotDisconnectedIsNoOp | Runtime/VivoxClient.cs:257-265 | a channel whose state is not Disconnected is not connected again |
| VivoxClientProperties.CapabilitiesFollowChatType | Runtime/VivoxClient.cs:270-277 | audio is asked for iff the chat type is not TextOnly and text iff it is not AudioOnly: never neither, and both exactly for TextAndAudio |
| VivoxClientProperties.ConnectBeginsOneConnection | Runtime/VivoxClient.cs:248-298 | a connect that proceeds begins exactly one connection, for the key built from the two configs, with the chat type's capabilities; it throws "The connection timed-out" on a timeout, and otherwise the channel is Connected |
| VivoxClientProperties.ConnectTwice | Runtime/VivoxClient.cs:257-298 | after a connect that reached Connected, with this client among the participants, OnChannelSessionAdded and OnUserConnected have been published, and the same connect again begins nothing |
| VivoxClientProperties.DisconnectChecksIdFirst | Runtime/VivoxClient.cs:307-310 | a null or unnamed channel id throws, naming channelId, whatever the login state, and changes nothing |
| VivoxClientProperties.DisconnectRemovesOnlyThatChannel | Runtime/VivoxClient.cs:311-320 | when not logged in, Disconnect only logs; otherwise it removes that channel session and no other, and requests its deletion |
| VivoxClientProperties.DeleteOneEffect | Runtime/VivoxClient.cs:560-575 | deleting a present channel session removes it, announces it and requests its deletion |
| VivoxClientProperties.DeleteAllEffect | Runtime/VivoxClient.cs:337-341 | deleting distinct present channels in turn removes exactly those, announces each once in order, and requests each deletion in order |
| VivoxClientProperties.DisconnectAllWithNothingToDoIsNoOp | Runtime/VivoxClient.cs:328-335 | when not logged in, or with no channels, DisconnectAllChannels only logs |
| VivoxClientProperties.DisconnectAllEmptiesChannels | Runtime/VivoxClient.cs:337-341 | otherwise every channel of the snapshot is deleted and announced once, and the login session is left with no channels |
| VivoxClientProperties.EnumerationExists | Runtime/VivoxClient.cs:337 | every set of keys has a listing that names each key exactly once |
| VivoxClientProperties.SendTextMessageOutcome | Runtime/VivoxClient.cs:391-410 | a null or empty message throws first, then a null or unnamed channel id; with both present, a text is sent iff logged in and the login session holds a channel session for that id (also one whose connect is still pending or timed out), and then exactly one, to that channel with the given message and options |
| VivoxClientProperties.SendEachStopsAtFailure | Runtime/VivoxClient.cs:367-370 | once a target has thrown, the remaining targets are not tried |
| VivoxClientProperties.SendEachKeepsSession | Runtime/VivoxClient.cs:367-370 | sending to several channels changes neither the session nor the published events |
| VivoxClientProperties.SendToChannelsChecksMessagePerTarget | Runtime/VivoxClient.cs:362-394 | a null target array throws; an empty one does nothing, even with a null message; with a target, an empty message throws before anything is sent |
| VivoxClientProperties.SetTransmissionModeOutcome | Runtime/VivoxClient.cs:419-451 | not logged in: nothing happens even for Single with no id; a mode other than Single is applied without a channel; Single with no id throws with its message; Single with an inactive channel only logs; otherwise the mode is set for that channel |
| VivoxClientProperties.RecoveryStateChangePublishedOnce | Runtime/VivoxClient.cs:579-591 | a RecoveryState change publishes exactly one recovery event, carrying the new state, and keeps the session |
| VivoxClientProperties.LoginStateChangePublished | Runtime/VivoxClient.cs:593-627 | a State change publishes OnLoggedIn for LoggedIn; for LoggedOut it clears the session and publishes OnLoggedOut; for LoggingIn and LoggingOut it publishes nothing |
| VivoxClientProperties.OtherLoginPropertyIsSilent | Runtime/VivoxClient.cs:579-591 | any other property name publishes nothing and keeps the session |
| VivoxClientProperties.NothingHappensAfterLoggedOut | Runtime/VivoxClient.cs:616-627 | after the LoggedOut notification, connect, disconnect, send, transmission mode and logout all only log |
| VivoxClientProperties.ChannelPropertyChangeOutcome | Runtime/VivoxClient.cs:677-709 | the channel keeps the states and participants the SDK reports; audio going Disconnected reports each current participant's energy as zero, in order; the channel session is deleted exactly when an AudioState or TextState change leaves both Disconnected after FailedToRecover; no other channel changes |
| VivoxClientProperties.ReconnectAfterChannelDropped | Runtime/VivoxClient.cs:257-277 | once the SDK reports a channel Disconnected again, the next connect to it begins a new connection |
| VivoxClientProperties.ChannelNotificationAfterLoggedOut | Runtime/VivoxClient.cs:616-709 | after the LoggedOut notification the channel handlers still run: the zero-energy events are published, and audio and text both Disconnected throws a NullReferenceException when the null session's RecoveryState is read at line 704 |
| VivoxClientProperties.SessionOperationsKeepConsistent | Runtime/VivoxClient.cs:141-231 | disposal, login, end of login and logout keep the session on the app's issuer and domain |
| VivoxClientProperties.ConnectKeepsConsistent | Runtime/VivoxClient.cs:248-257 | connecting only adds channel keys built from the app config's issuer and domain |
| VivoxClientProperties.DisconnectKeepsConsistent | Runtime/VivoxClient.cs:305-342 | disconnecting one or all channels keeps the invariant |
| VivoxClientProperties.DeleteAllKeepsConsistent | Runtime/VivoxClient.cs:337-341 | every prefix of the deletions keeps the invariant |
| VivoxClientProperties.SendKeepsConsistent | Runtime/VivoxClient.cs:353-451 | sending and choosing the transmission mode keep the invariant |
| VivoxClientProperties.ReleaseDropsSession | Runtime/VivoxClient.cs:132-155 | disposal drops the session, cleans up and uninitializes the SDK client, and publishes nothing; a Logout after it only logs |

## Left out

- Async waiting: `UniTask.WaitUntil(...).Timeout(...)` and its scheduling are not modelled. Only how the wait ended is given, as `timedOut` or a `ConnectWait`. Nothing is modelled of another operation or notification running during a wait.
- The SDK's `Client`, `ILoginSession` and `IChannelSession` are foreign code. The requests the client makes of them are recorded as `Call` values. GetLoginToken and GetConnectToken are folded into the login and connect requests, with the secret key and token lifetime they are given.
- The SDK's later effects are not modelled. Whether a requested login, logout or connect changes a state reaches the model only through the property-changed handlers. Those handlers receive the login session's state and recovery state, or the channel session's states and participants, as the SDK then reports them. If a connect's wait ends in time, the channel is Connected; the model does not say how the SDK got it there.
- LoginAsync: a login that returns normally is modelled as exactly one State notification, to LoggedIn. RecoveryState notifications the SDK sends during the wait are not part of the step. They reach the model through OnLoginSessionPropertyChanged.
- Deletion timing: the SDK removes a deleted channel session later, and only then does the client announce the removal. The model removes the channel session and announces it as soon as the deletion is requested, in `DeleteChannelSession`.
- `Uri` parsing of the end point is not modelled: the end point is passed to the SDK as a string.
- Audio devices: GetAudioInputDevicesAsync, GetAudioOutputDevicesAsync, SetActiveAudioInputDeviceAsync, SetActiveAudioOutputDeviceAsync and the two refreshes are left out. They depend on device lists that the SDK refreshes by polling.
- Handler bookkeeping: attaching and detaching the event handlers is not modelled. Neither is disposing the subjects in ReleaseManagedResources, after which their subscribers hear nothing.
- Forwarding handlers: OnParticipantAdded, OnParticipantRemoved, OnParticipantValueUpdated and OnMessageLogReceived are not modelled. Each republishes one SDK value unchanged. A channel's participant list is updated only by a connect and by the channel's property-changed notifications, which carry the current participants.
- Audio energy: it is a double, so only the zero-energy events of OnChannelPropertyChanged are modelled.
- Debug logging: only the messages of the declined calls are kept, as diagnostics. The messages of the other paths are not, and neither is the logger's debug switch.
- Retry strategies, retry events and a channel id returned by ConnectAsync are left out, because this version of the runtime has none of them.
- The Unity holders VivoxAppConfigSO, VivoxConnectionConfig and IVivoxAppConfig are left out: they carry no logic. So are the plain data types VivoxConnectionException and VivoxReceivedValue.
- GUIDs: the generated account name is given to the model as an argument. The model states its format and that it is not empty. It does not state that it differs from every earlier one.
- The SDK enumerations ChannelType, ChatCapability, TransmissionMode, LoginState, ConnectionState and ConnectionRecoveryState are written with the members and declaration order the Vivox SDK documents. The SDK's source is not part of this model.
- ChannelId.IsNullOrEmpty is taken to mean null or an empty name. The SDK's source is not part of this model.
- Undefined enumeration values: a ChatType cast from an integer outside its three members is not modelled, and neither is a `channelType` argument of VivoxChannelConfig outside the three ChannelType members, which that constructor does not check. The model's ChatType and ChannelType have only their members.
- GetLoginSession is taken to always give a fresh session, as it does for an account it has not seen before. The SDK's reuse of an earlier session for the same account is not modelled.
- VivoxClientSpec.GetChannelSession and VivoxClientSpec.DeleteAll: their own ensures only say that a session or the key is present, which the callers need. What they do is stated by ConnectBeginsOneConnection, DeleteOneEffect and DeleteAllEffect.
