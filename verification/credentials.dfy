/** The secrets and registries handed to the compiler for one job
    (server/procBuilder.go, toInternalRepresentation). Secret visibility is decided
    by the secret's own event matcher, which is a parameter here. */
module Credentials {
  import opened Model

  function ToCompilerSecret(s: Secret): CompilerSecret {
    CompilerSecret(s.name, s.value, s.images)
  }

  function ToCompilerRegistry(r: Registry): CompilerRegistry {
    CompilerRegistry(r.address, r.username, r.password, r.email)
  }

  /** The secrets visible to a build triggered by `event`, in their original order. */
  function FilterSecrets(secrets: seq<Secret>, event: string, matches: (Secret, string) -> bool): (r: seq<CompilerSecret>)
    ensures |r| <= |secrets|
    ensures forall c :: c in r ==> exists s :: s in secrets && matches(s, event) && c == ToCompilerSecret(s)
    ensures forall s :: s in secrets && matches(s, event) ==> ToCompilerSecret(s) in r
  {
    if |secrets| == 0 then []
    else
      var rest := FilterSecrets(secrets[1..], event, matches);
      if matches(secrets[0], event) then [ToCompilerSecret(secrets[0])] + rest else rest
  }

  /** Filtering commutes with concatenation, so the relative order of the visible
      secrets is the order of the input. */
  lemma {:induction false} FilterSecretsDistributes(a: seq<Secret>, b: seq<Secret>, event: string, matches: (Secret, string) -> bool)
    ensures FilterSecrets(a + b, event, matches) == FilterSecrets(a, event, matches) + FilterSecrets(b, event, matches)
  {
    if |a| == 0 {
      assert a + b == b;
    } else {
      assert (a + b)[1..] == a[1..] + b;
      FilterSecretsDistributes(a[1..], b, event, matches);
    }
  }

  /** A secret whose allow-list rejects the event is never handed over, unless an
      identical record that does match is also present. */
  lemma RejectedSecretWithheld(secrets: seq<Secret>, event: string, matches: (Secret, string) -> bool, s: Secret)
    requires forall t :: t in secrets && ToCompilerSecret(t) == ToCompilerSecret(s) ==> !matches(t, event)
    ensures ToCompilerSecret(s) !in FilterSecrets(secrets, event, matches)
  {
  }

  /** Every registry is handed over, field for field, in order. */
  function ConvertRegistries(registries: seq<Registry>): (r: seq<CompilerRegistry>)
    ensures |r| == |registries|
    ensures forall i :: 0 <= i < |r| ==>
              && r[i].hostname == registries[i].address
              && r[i].username == registries[i].username
              && r[i].password == registries[i].password
              && r[i].email == registries[i].email
  {
    seq(|registries|, i requires 0 <= i < |registries| => ToCompilerRegistry(registries[i]))
  }
}
