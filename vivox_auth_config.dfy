/** VivoxAuthConfig: who logs in, and for how long the login token is valid. */
module AuthConfig {
  import opened DotNet

  datatype VivoxAuthConfig = VivoxAuthConfig(displayName: string, accountName: string, tokenExpirationDuration: TimeSpan)

  /** The token lifetime used when the caller leaves it at default(TimeSpan). */
  const DefaultTokenExpirationDuration: TimeSpan := FromSeconds(60)

  /** new VivoxAuthConfig(displayName, accountName, tokenExpirationDuration), where
      `newGuid` is the text Guid.NewGuid().ToString() would return. */
  function NewVivoxAuthConfig(
    displayName: NullableString,
    accountName: NullableString,
    tokenExpirationDuration: TimeSpan,
    newGuid: GuidText): (r: Result<VivoxAuthConfig>)
    ensures r.Failure? <==> IsNullOrEmpty(displayName)
    ensures r.Failure? ==> r.error == NullArgument("displayName")
    ensures r.Success? ==> r.value.displayName == displayName.value
    // a given account name is kept; a missing one becomes a generated identifier
    ensures r.Success? && !IsNullOrEmpty(accountName) ==> r.value.accountName == accountName.value
    ensures r.Success? && IsNullOrEmpty(accountName) ==> r.value.accountName == newGuid && IsGuidText(r.value.accountName)
    ensures r.Success? ==> r.value.accountName != ""
    ensures r.Success? && tokenExpirationDuration == ZeroTimeSpan ==> r.value.tokenExpirationDuration == FromSeconds(60)
    ensures r.Success? && tokenExpirationDuration != ZeroTimeSpan ==> r.value.tokenExpirationDuration == tokenExpirationDuration
  {
    if IsNullOrEmpty(displayName) then Failure(NullArgument("displayName"))
    else
      Success(VivoxAuthConfig(
        displayName.value,
        if IsNullOrEmpty(accountName) then newGuid else accountName.value,
        if tokenExpirationDuration == ZeroTimeSpan then DefaultTokenExpirationDuration else tokenExpirationDuration))
  }
}
