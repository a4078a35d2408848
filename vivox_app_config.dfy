/** VivoxAppConfig: the application's Vivox credentials, each required. */
module AppConfig {
  import opened DotNet

  datatype VivoxAppConfig = VivoxAppConfig(apiEndPoint: string, domain: string, issuer: string, secretKey: string)

  /** A constructor argument together with its parameter name. */
  datatype NamedArgument = NamedArgument(name: string, value: NullableString)

  /** The name of the first argument that is null or empty, checked in order. */
  function FirstNullOrEmpty(args: seq<NamedArgument>): (r: Option<string>)
    ensures r.None? <==> forall i :: 0 <= i < |args| ==> !IsNullOrEmpty(args[i].value)
    ensures r.Some? ==> exists k :: 0 <= k < |args| && args[k].name == r.value && IsNullOrEmpty(args[k].value)
                          && forall i :: 0 <= i < k ==> !IsNullOrEmpty(args[i].value)
  {
    if args == [] then Option.None
    else if IsNullOrEmpty(args[0].value) then Some(args[0].name)
    else
      var r := FirstNullOrEmpty(args[1..]);
      assert forall i :: 1 <= i < |args| ==> args[i] == args[1..][i - 1];
      r
  }

  /** The constructor's arguments in the order it checks them. */
  function Arguments(apiEndPoint: NullableString, domain: NullableString, issuer: NullableString, secretKey: NullableString): seq<NamedArgument>
  {
    [NamedArgument("apiEndPoint", apiEndPoint), NamedArgument("domain", domain),
     NamedArgument("issuer", issuer), NamedArgument("secretKey", secretKey)]
  }

  /** new VivoxAppConfig(apiEndPoint, domain, issuer, secretKey): the four
      arguments are checked in order and the first null or empty one is named. */
  function NewVivoxAppConfig(apiEndPoint: NullableString, domain: NullableString, issuer: NullableString, secretKey: NullableString)
    : (r: Result<VivoxAppConfig>)
    ensures r.Success? <==>
              !IsNullOrEmpty(apiEndPoint) && !IsNullOrEmpty(domain) && !IsNullOrEmpty(issuer) && !IsNullOrEmpty(secretKey)
    ensures r.Success? ==>
              r.value == VivoxAppConfig(apiEndPoint.value, domain.value, issuer.value, secretKey.value)
    ensures IsNullOrEmpty(apiEndPoint) ==> r == Failure(NullArgument("apiEndPoint"))
    ensures !IsNullOrEmpty(apiEndPoint) && IsNullOrEmpty(domain) ==> r == Failure(NullArgument("domain"))
    ensures !IsNullOrEmpty(apiEndPoint) && !IsNullOrEmpty(domain) && IsNullOrEmpty(issuer) ==>
              r == Failure(NullArgument("issuer"))
    ensures !IsNullOrEmpty(apiEndPoint) && !IsNullOrEmpty(domain) && !IsNullOrEmpty(issuer) && IsNullOrEmpty(secretKey) ==>
              r == Failure(NullArgument("secretKey"))
  {
    if IsNullOrEmpty(apiEndPoint) then Failure(NullArgument("apiEndPoint"))
    else if IsNullOrEmpty(domain) then Failure(NullArgument("domain"))
    else if IsNullOrEmpty(issuer) then Failure(NullArgument("issuer"))
    else if IsNullOrEmpty(secretKey) then Failure(NullArgument("secretKey"))
    else Success(VivoxAppConfig(apiEndPoint.value, domain.value, issuer.value, secretKey.value))
  }

  /** FirstNullOrEmpty looks at the head of the list before the rest of it. */
  lemma FirstNullOrEmptyCons(x: NamedArgument, rest: seq<NamedArgument>)
    ensures FirstNullOrEmpty([x] + rest) == if IsNullOrEmpty(x.value) then Some(x.name) else FirstNullOrEmpty(rest)
  {
    assert ([x] + rest)[1..] == rest;
  }

  /** The constructor fails exactly when some argument, taken in declaration
      order, is null or empty, and then with the name of the first such one. */
  lemma {:induction false} AppConfigReportsFirstMissing(a: NullableString, d: NullableString, i: NullableString, s: NullableString)
    ensures var first := FirstNullOrEmpty(Arguments(a, d, i, s));
            var r := NewVivoxAppConfig(a, d, i, s);
            (r.Failure? <==> first.Some?) && (r.Failure? ==> r.error == NullArgument(first.value))
  {
    var tail3 := [NamedArgument("secretKey", s)];
    var tail2 := [NamedArgument("issuer", i)] + tail3;
    var tail1 := [NamedArgument("domain", d)] + tail2;
    assert Arguments(a, d, i, s) == [NamedArgument("apiEndPoint", a)] + tail1;
    FirstNullOrEmptyCons(NamedArgument("apiEndPoint", a), tail1);
    FirstNullOrEmptyCons(NamedArgument("domain", d), tail2);
    FirstNullOrEmptyCons(NamedArgument("issuer", i), tail3);
    FirstNullOrEmptyCons(NamedArgument("secretKey", s), []);
    assert tail3 == [NamedArgument("secretKey", s)] + [];
  }

  /** Each credential that alone is missing is reported by its own name,
      and a missing apiEndPoint is reported whatever the others are. */
  lemma EachMissingCredentialIsNamed(a: NullableString, d: NullableString, i: NullableString, s: NullableString)
    requires !IsNullOrEmpty(a) && !IsNullOrEmpty(d) && !IsNullOrEmpty(i) && !IsNullOrEmpty(s)
    ensures forall x: NullableString, y: NullableString, z: NullableString ::
              NewVivoxAppConfig(Option.None, x, y, z) == Failure(NullArgument("apiEndPoint"))
    ensures NewVivoxAppConfig(a, Option.None, i, s) == Failure(NullArgument("domain"))
    ensures NewVivoxAppConfig(a, d, Option.None, s) == Failure(NullArgument("issuer"))
    ensures NewVivoxAppConfig(a, d, i, Option.None) == Failure(NullArgument("secretKey"))
    ensures NewVivoxAppConfig(a, d, i, s).Success?
  {
  }
}
