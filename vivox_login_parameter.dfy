/** VivoxLoginParameter: the byte-sized variant of the login settings. */
module LoginParameter {
  import opened DotNet

  datatype VivoxLoginParameter = VivoxLoginParameter(displayName: string, accountName: string, tokenExpirationDuration: byte)

  /** The default value of the tokenExpirationDuration parameter. */
  const DefaultTokenExpirationDuration: byte := 60

  /** new VivoxLoginParameter(displayName, accountName, tokenExpirationDuration), where
      `newGuid` is the text Guid.NewGuid().ToString() would return. */
  function NewVivoxLoginParameter(
    displayName: NullableString,
    accountName: NullableString,
    tokenExpirationDuration: byte,
    newGuid: GuidText): (r: Result<VivoxLoginParameter>)
    ensures r.Failure? <==> IsNullOrEmpty(displayName)
    ensures r.Failure? ==> r.error == NullArgument("displayName")
    ensures r.Success? ==> r.value.displayName == displayName.value
    ensures r.Success? && !IsNullOrEmpty(accountName) ==> r.value.accountName == accountName.value
    ensures r.Success? && IsNullOrEmpty(accountName) ==> r.value.accountName == newGuid && IsGuidText(r.value.accountName)
    ensures r.Success? ==> r.value.accountName != ""
    // the lifetime is stored as given: no zero substitution here
    ensures r.Success? ==> r.value.tokenExpirationDuration == tokenExpirationDuration
  {
    if IsNullOrEmpty(displayName) then Failure(NullArgument("displayName"))
    else
      Success(VivoxLoginParameter(
        displayName.value,
        if IsNullOrEmpty(accountName) then newGuid else accountName.value,
        tokenExpirationDuration))
  }

  /** Left at its default, the token lifetime is 60; unlike VivoxAuthConfig,
      an explicit 0 stays 0. */
  lemma LoginParameterLifetime(name: string, guid: GuidText)
    requires name != ""
    ensures NewVivoxLoginParameter(Some(name), Option.None, DefaultTokenExpirationDuration, guid).value.tokenExpirationDuration == 60
    ensures NewVivoxLoginParameter(Some(name), Option.None, 0, guid).value.tokenExpirationDuration == 0
  {
  }
}
