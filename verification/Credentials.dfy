/** Authentication credentials on their way from an output's secret to the collector's extensions. */
module Credentials {
  import opened Names
  import opened Api

  // ---------------------------------------------------------------------------
  // Sanitized names. Names are ASCII, so letters are the only characters that change case.

  function EnvChar(c: char): char {
    if 'a' <= c <= 'z' then (c as int - 32) as char
    else if 'A' <= c <= 'Z' || '0' <= c <= '9' then c
    else '_'
  }

  function KeyChar(c: char): char {
    if 'A' <= c <= 'Z' then (c as int + 32) as char
    else if 'a' <= c <= 'z' || '0' <= c <= '9' then c
    else '_'
  }

  function SanitizeEnvVarSegment(s: string): string {
    seq(|s|, i requires 0 <= i < |s| => EnvChar(s[i]))
  }

  function SanitizeSecretKeySegment(s: string): string {
    seq(|s|, i requires 0 <= i < |s| => KeyChar(s[i]))
  }

  // A credential an extension refers to: which output it belongs to and which part of it.
  datatype Credential =
    | Username(output: NamespacedName)
    | Password(output: NamespacedName)
    | Token(output: NamespacedName)

  function EnvPrefix(c: Credential): string {
    if c.Token? then "TC_BEARERAUTH_" else "TC_BASICAUTH_"
  }

  function EnvSuffix(c: Credential): string {
    match c
    case Username(_) => "_USERNAME"
    case Password(_) => "_PASSWORD"
    case Token(_) => "_TOKEN"
  }

  function EnvVarName(c: Credential): string {
    EnvPrefix(c)
    + SanitizeEnvVarSegment(c.output.namespace) + "_" + SanitizeEnvVarSegment(c.output.name)
    + EnvSuffix(c)
  }

  function KeyPrefix(c: Credential): string {
    if c.Token? then "bearerauth_" else "basicauth_"
  }

  function KeySuffix(c: Credential): string {
    match c
    case Username(_) => "_username"
    case Password(_) => "_password"
    case Token(_) => "_token"
  }

  function SecretKey(c: Credential): string {
    KeyPrefix(c)
    + SanitizeSecretKeySegment(c.output.namespace) + "_" + SanitizeSecretKeySegment(c.output.name)
    + KeySuffix(c)
  }

  predicate IsEnvChar(c: char) {
    'A' <= c <= 'Z' || '0' <= c <= '9' || c == '_'
  }

  predicate IsKeyChar(c: char) {
    'a' <= c <= 'z' || '0' <= c <= '9' || c == '_'
  }

  predicate AllEnvChars(s: string) {
    forall x | x in s :: IsEnvChar(x)
  }

  predicate AllKeyChars(s: string) {
    forall x | x in s :: IsKeyChar(x)
  }

  lemma SegmentsAreValid(s: string)
    ensures AllEnvChars(SanitizeEnvVarSegment(s)) && AllKeyChars(SanitizeSecretKeySegment(s))
  {
  }

  lemma EnvAffixesAreValid(c: Credential)
    ensures EnvPrefix(c) != "" && EnvPrefix(c)[0] == 'T' && AllEnvChars(EnvPrefix(c)) && AllEnvChars(EnvSuffix(c))
  {
  }

  lemma KeyAffixesAreValid(c: Credential)
    ensures KeyPrefix(c) != "" && AllKeyChars(KeyPrefix(c)) && AllKeyChars(KeySuffix(c))
  {
  }

  lemma JoinedAreValid(a: string, b: string)
    ensures AllEnvChars(a) && AllEnvChars(b) ==> AllEnvChars(a + b)
    ensures AllKeyChars(a) && AllKeyChars(b) ==> AllKeyChars(a + b)
  {
  }

  // Whatever the names of the output, the variable is one that a shell accepts, and the key one that a secret accepts.
  lemma SanitizedNamesAreValid(c: Credential)
    ensures EnvVarName(c) != "" && EnvVarName(c)[0] == 'T' && AllEnvChars(EnvVarName(c))
    ensures SecretKey(c) != "" && AllKeyChars(SecretKey(c))
  {
    hide AllEnvChars, AllKeyChars, SanitizeEnvVarSegment, SanitizeSecretKeySegment, EnvPrefix, EnvSuffix, KeyPrefix,
         KeySuffix;
    EnvAffixesAreValid(c);
    KeyAffixesAreValid(c);
    SegmentsAreValid(c.output.namespace);
    SegmentsAreValid(c.output.name);
    Underscore();
    var e := [EnvPrefix(c), SanitizeEnvVarSegment(c.output.namespace), "_", SanitizeEnvVarSegment(c.output.name),
              EnvSuffix(c)];
    var k := [KeyPrefix(c), SanitizeSecretKeySegment(c.output.namespace), "_", SanitizeSecretKeySegment(c.output.name),
              KeySuffix(c)];
    JoinedAreValid(e[0], e[1]);
    JoinedAreValid(e[0] + e[1], e[2]);
    JoinedAreValid(e[0] + e[1] + e[2], e[3]);
    JoinedAreValid(e[0] + e[1] + e[2] + e[3], e[4]);
    JoinedAreValid(k[0], k[1]);
    JoinedAreValid(k[0] + k[1], k[2]);
    JoinedAreValid(k[0] + k[1] + k[2], k[3]);
    JoinedAreValid(k[0] + k[1] + k[2] + k[3], k[4]);
  }

  lemma Underscore()
    ensures AllEnvChars("_") && AllKeyChars("_")
  {
  }

  // ---------------------------------------------------------------------------
  // When two credentials share a name

  function EnvBody(n: NamespacedName): string {
    SanitizeEnvVarSegment(n.namespace) + "_" + SanitizeEnvVarSegment(n.name)
  }

  function KeyBody(n: NamespacedName): string {
    SanitizeSecretKeySegment(n.namespace) + "_" + SanitizeSecretKeySegment(n.name)
  }

  predicate IsBodyChar(c: char) {
    IsNameChar(c) || c == '_'
  }

  lemma SanitizersAgree(c: char, d: char)
    requires IsBodyChar(c) && IsBodyChar(d)
    ensures EnvChar(c) == EnvChar(d) <==> KeyChar(c) == KeyChar(d)
  {
  }

  function Body(n: NamespacedName): string {
    n.namespace + "_" + n.name
  }

  lemma BodiesAreSanitized(n: NamespacedName)
    ensures EnvBody(n) == SanitizeEnvVarSegment(Body(n)) && KeyBody(n) == SanitizeSecretKeySegment(Body(n))
  {
  }

  lemma BodyIsPlain(n: NamespacedName)
    requires IsNamespacedName(n)
    ensures forall i | 0 <= i < |Body(n)| :: IsBodyChar(Body(n)[i])
  {
  }

  // Two outputs clash on environment variables exactly when they clash on secret keys.
  lemma BodiesClashTogether(m: NamespacedName, n: NamespacedName)
    requires IsNamespacedName(m) && IsNamespacedName(n)
    ensures EnvBody(m) == EnvBody(n) <==> KeyBody(m) == KeyBody(n)
  {
    BodiesAreSanitized(m);
    BodiesAreSanitized(n);
    BodyIsPlain(m);
    BodyIsPlain(n);
    var x, y := Body(m), Body(n);
    var ex, ey := SanitizeEnvVarSegment(x), SanitizeEnvVarSegment(y);
    var kx, ky := SanitizeSecretKeySegment(x), SanitizeSecretKeySegment(y);
    if |x| == |y| {
      forall i | 0 <= i < |x|
        ensures ex[i] == ey[i] <==> kx[i] == ky[i]
      {
        SanitizersAgree(x[i], y[i]);
      }
    }
  }

  predicate SameKind(c: Credential, d: Credential) {
    (c.Username? <==> d.Username?) && (c.Password? <==> d.Password?) && (c.Token? <==> d.Token?)
  }

  lemma Middle(prefix: string, a: string, b: string, suffix: string)
    requires prefix + a + suffix == prefix + b + suffix
    ensures a == b
  {
    var x, y := prefix + a + suffix, prefix + b + suffix;
    assert |a| == |b|;
    assert x[|prefix|..|prefix| + |a|] == a && y[|prefix|..|prefix| + |b|] == b;
  }

  lemma EnvVarNameParts(c: Credential)
    ensures EnvVarName(c) == EnvPrefix(c) + EnvBody(c.output) + EnvSuffix(c)
    ensures |EnvVarName(c)| > 0
    ensures var last := EnvVarName(c)[|EnvVarName(c)| - 1];
            last == if c.Username? then 'E' else if c.Password? then 'D' else 'N'
  {
  }

  lemma SecretKeyParts(c: Credential)
    ensures SecretKey(c) == KeyPrefix(c) + KeyBody(c.output) + KeySuffix(c)
    ensures |SecretKey(c)| > 0
    ensures var last := SecretKey(c)[|SecretKey(c)| - 1];
            last == if c.Username? then 'e' else if c.Password? then 'd' else 'n'
  {
  }

  lemma SecretKeyClash(c: Credential, d: Credential)
    ensures SecretKey(c) == SecretKey(d) <==> SameKind(c, d) && KeyBody(c.output) == KeyBody(d.output)
  {
    hide KeyBody;
    SecretKeyParts(c);
    SecretKeyParts(d);
    if SecretKey(c) == SecretKey(d) {
      Middle(KeyPrefix(c), KeyBody(c.output), KeyBody(d.output), KeySuffix(c));
    }
  }

  lemma EnvVarClash(c: Credential, d: Credential)
    ensures EnvVarName(c) == EnvVarName(d) <==> SameKind(c, d) && EnvBody(c.output) == EnvBody(d.output)
  {
    hide EnvBody;
    EnvVarNameParts(c);
    EnvVarNameParts(d);
    if EnvVarName(c) == EnvVarName(d) {
      Middle(EnvPrefix(c), EnvBody(c.output), EnvBody(d.output), EnvSuffix(c));
    }
  }

  lemma ClashTogether(c: Credential, d: Credential)
    requires IsNamespacedName(c.output) && IsNamespacedName(d.output)
    ensures EnvVarName(c) == EnvVarName(d) <==> SecretKey(c) == SecretKey(d)
  {
    EnvVarClash(c, d);
    SecretKeyClash(c, d);
    BodiesClashTogether(c.output, d.output);
  }

  // ---------------------------------------------------------------------------
  // The derived secret and the environment of the collector

  datatype EnvVar = FromSecret(name: string, secret: string, key: string) | Plain(name: string, value: string)

  function Get<K, V>(m: map<K, V>, k: K): Option<V> {
    if k in m then Some(m[k]) else None
  }

  function OrDefault(field: string, default: string): string {
    if field != "" then field else default
  }

  // The credentials of an output, each with its value in the output's own secret.
  function Provided(e: OutputWithSecretData, c: Credential): Option<Option<string>> {
    if e.output.auth.None? || c.output != e.output.id then None
    else
      var auth := e.output.auth.value;
      match c
      case Username(_) =>
        if auth.basic.None? then None
        else Some(Get(e.secret, OrDefault(auth.basic.value.usernameField, "username")))
      case Password(_) =>
        if auth.basic.None? then None
        else Some(Get(e.secret, OrDefault(auth.basic.value.passwordField, "password")))
      case Token(_) =>
        if auth.bearer.None? then None
        else Some(Get(e.secret, OrDefault(auth.bearer.value.tokenField, "token")))
  }

  method BasicAuthSecretData(e: OutputWithSecretData) returns (data: SecretData)
    requires e.output.auth.Some? && e.output.auth.value.basic.Some?
    ensures forall k | k in data :: Holds(e, k, data[k])
    ensures forall c: Credential | !c.Token? && HasValue(e, c) :: SecretKey(c) in data
  {
    hide SecretKey;
    var auth := e.output.auth.value.basic.value;
    var usernameField := if auth.usernameField != "" then auth.usernameField else "username";
    var passwordField := if auth.passwordField != "" then auth.passwordField else "password";
    data := map[];
    if usernameField in e.secret {
      data := data[SecretKey(Username(e.output.id)) := e.secret[usernameField]];
      assert Provided(e, Username(e.output.id)) == Some(Some(e.secret[usernameField]));
    }
    if passwordField in e.secret {
      data := data[SecretKey(Password(e.output.id)) := e.secret[passwordField]];
      assert Provided(e, Password(e.output.id)) == Some(Some(e.secret[passwordField]));
    }
  }

  method BearerAuthSecretData(e: OutputWithSecretData) returns (data: SecretData)
    requires e.output.auth.Some? && e.output.auth.value.bearer.Some?
    ensures forall k | k in data :: Holds(e, k, data[k])
    ensures forall c: Credential | c.Token? && HasValue(e, c) :: SecretKey(c) in data
  {
    hide SecretKey;
    var auth := e.output.auth.value.bearer.value;
    var tokenField := if auth.tokenField != "" then auth.tokenField else "token";
    data := map[];
    if tokenField in e.secret {
      data := data[SecretKey(Token(e.output.id)) := e.secret[tokenField]];
      assert Provided(e, Token(e.output.id)) == Some(Some(e.secret[tokenField]));
    }
  }

  predicate HasValue(e: OutputWithSecretData, c: Credential) {
    Provided(e, c).Some? && Provided(e, c).value.Some?
  }

  // The key holds a value that this output provides under it.
  ghost predicate Holds(e: OutputWithSecretData, key: string, value: string) {
    exists c :: Provided(e, c) == Some(Some(value)) && SecretKey(c) == key
  }

  ghost predicate HoldsOneOf(outputs: seq<OutputWithSecretData>, key: string, value: string) {
    exists e :: e in outputs && Holds(e, key, value)
  }

  // The data of the derived secret: every entry comes from some output, nothing provided is missing.
  ghost predicate Derived(outputs: seq<OutputWithSecretData>, data: SecretData) {
    && (forall k | k in data :: HoldsOneOf(outputs, k, data[k]))
    && (forall e, c | e in outputs && HasValue(e, c) :: SecretKey(c) in data)
  }

  method AuthSecret(outputs: seq<OutputWithSecretData>) returns (data: SecretData)
    ensures Derived(outputs, data)
  {
    hide SecretKey;
    hide Provided;
    hide Holds;
    data := map[];
    for i := 0 to |outputs|
      invariant Derived(outputs[..i], data)
    {
      var e := outputs[i];
      ghost var before := data;
      assert outputs[..i + 1] == outputs[..i] + [e];
      data := AddAuthData(e, data);
      assert Derived(outputs[..i + 1], data) by {
        forall k | k in data
          ensures HoldsOneOf(outputs[..i + 1], k, data[k])
        {
          if Holds(e, k, data[k]) {
            assert e in outputs[..i + 1];
          } else {
            var f :| f in outputs[..i] && Holds(f, k, data[k]);
            assert f in outputs[..i + 1];
          }
        }
      }
    }
    assert outputs[..|outputs|] == outputs;
  }

  method AddAuthData(e: OutputWithSecretData, start: SecretData) returns (data: SecretData)
    ensures start.Keys <= data.Keys
    ensures forall k | k in data :: (k in start && data[k] == start[k]) || Holds(e, k, data[k])
    ensures forall c | HasValue(e, c) :: SecretKey(c) in data
  {
    hide SecretKey;
    data := start;
    if e.output.auth.Some? {
      if e.output.auth.value.basic.Some? {
        var d := BasicAuthSecretData(e);
        data := data + d;
      }
      if e.output.auth.value.bearer.Some? {
        var d := BearerAuthSecretData(e);
        data := data + d;
      }
    }
  }

  function CredentialsOf(output: Output): seq<Credential> {
    if output.auth.None? then []
    else
      (if output.auth.value.basic.Some? then [Username(output.id), Password(output.id)] else [])
      + if output.auth.value.bearer.Some? then [Token(output.id)] else []
  }

  function CredentialsOfAll(outputs: seq<OutputWithSecretData>): seq<Credential> {
    if outputs == [] then []
    else CredentialsOfAll(outputs[..|outputs| - 1]) + CredentialsOf(outputs[|outputs| - 1].output)
  }

  function AuthEnvVar(secret: string, c: Credential): EnvVar {
    FromSecret(EnvVarName(c), secret, SecretKey(c))
  }

  function AuthEnv(secret: string, cs: seq<Credential>): seq<EnvVar> {
    seq(|cs|, i requires 0 <= i < |cs| => AuthEnvVar(secret, cs[i]))
  }

  function AuthSecretName(collector: string): string {
    "otelcollector-" + collector + "-auth"
  }

  // Every collector has a secret of its own.
  lemma AuthSecretNamesDiffer(a: string, b: string)
    requires a != b
    ensures AuthSecretName(a) != AuthSecretName(b)
  {
    if AuthSecretName(a) == AuthSecretName(b) {
      Middle("otelcollector-", a, b, "-auth");
    }
  }

  lemma AuthEnvAppend(secret: string, cs: seq<Credential>, ds: seq<Credential>)
    ensures AuthEnv(secret, cs + ds) == AuthEnv(secret, cs) + AuthEnv(secret, ds)
  {
    hide AuthEnvVar;
  }

  lemma EmptyAuthEnv(secret: string)
    ensures AuthEnv(secret, []) == []
  {
  }

  method AppendOutputAuthEnv(secret: string, start: seq<EnvVar>, output: Output) returns (env: seq<EnvVar>)
    ensures env == start + AuthEnv(secret, CredentialsOf(output))
  {
    hide EnvVarName;
    hide SecretKey;
    env := start;
    if output.auth.Some? {
      if output.auth.value.basic.Some? {
        env := env + [FromSecret(EnvVarName(Username(output.id)), secret, SecretKey(Username(output.id))),
                      FromSecret(EnvVarName(Password(output.id)), secret, SecretKey(Password(output.id)))];
      }
      if output.auth.value.bearer.Some? {
        env := env + [FromSecret(EnvVarName(Token(output.id)), secret, SecretKey(Token(output.id)))];
      }
    }
  }

  method AppendAuthEnv(collector: string, base: seq<EnvVar>, outputs: seq<OutputWithSecretData>)
    returns (env: seq<EnvVar>)
    ensures env == base + AuthEnv(AuthSecretName(collector), CredentialsOfAll(outputs))
  {
    hide AuthEnv;
    hide CredentialsOf;
    hide AuthSecretName;
    var secret := AuthSecretName(collector);
    env := base;
    EmptyAuthEnv(secret);
    for i := 0 to |outputs|
      invariant env == base + AuthEnv(secret, CredentialsOfAll(outputs[..i]))
    {
      assert outputs[..i + 1][..i] == outputs[..i];
      env := AppendOutputAuthEnv(secret, env, outputs[i].output);
      AuthEnvAppend(secret, CredentialsOfAll(outputs[..i]), CredentialsOf(outputs[i].output));
    }
    assert outputs[..|outputs|] == outputs;
  }

  // What ${name} stands for: the last entry of that name wins.
  function Resolve(env: seq<EnvVar>, secret: string, data: SecretData, name: string): Option<string> {
    if env == [] then None
    else
      var last := env[|env| - 1];
      if last.name != name then Resolve(env[..|env| - 1], secret, data, name)
      else if last.Plain? then Some(last.value)
      else if last.secret == secret then Get(data, last.key)
      else None
  }

  lemma {:induction false} ResolveCredential(base: seq<EnvVar>, secret: string, cs: seq<Credential>,
                                             data: SecretData, c: Credential)
    requires c in cs && forall d | d in cs :: IsNamespacedName(d.output)
    ensures Resolve(base + AuthEnv(secret, cs), secret, data, EnvVarName(c)) == Get(data, SecretKey(c))
  {
    hide EnvVarName;
    hide SecretKey;
    var n := |cs| - 1;
    var env := base + AuthEnv(secret, cs);
    assert env[|env| - 1] == AuthEnvVar(secret, cs[n]);
    assert env[..|env| - 1] == base + AuthEnv(secret, cs[..n]);
    ClashTogether(c, cs[n]);
    if EnvVarName(cs[n]) != EnvVarName(c) {
      ResolveCredential(base, secret, cs[..n], data, c);
    }
  }

  lemma {:induction false} ProvidedIsListed(outputs: seq<OutputWithSecretData>, e: OutputWithSecretData, c: Credential)
    requires e in outputs && Provided(e, c).Some?
    ensures c in CredentialsOfAll(outputs)
  {
    var n := |outputs| - 1;
    if outputs[n] == e {
      assert c in CredentialsOf(e.output);
    } else {
      ProvidedIsListed(outputs[..n], e, c);
    }
  }

  lemma {:induction false} ListedIsNamed(outputs: seq<OutputWithSecretData>)
    requires forall e | e in outputs :: IsNamespacedName(e.output.id)
    ensures forall c | c in CredentialsOfAll(outputs) :: IsNamespacedName(c.output)
  {
    if outputs != [] {
      assert outputs[|outputs| - 1] in outputs;
      ListedIsNamed(outputs[..|outputs| - 1]);
    }
  }

  ghost predicate Intact(outputs: seq<OutputWithSecretData>, env: seq<EnvVar>, secret: string, data: SecretData) {
    forall e, c | e in outputs && Provided(e, c).Some? ::
      Resolve(env, secret, data, EnvVarName(c)) == Provided(e, c).value
  }

  ghost predicate ClashesAgree(outputs: seq<OutputWithSecretData>) {
    forall e, f, c, d | e in outputs && f in outputs && Provided(e, c).Some? && Provided(f, d).Some?
                        && SecretKey(c) == SecretKey(d) :: Provided(e, c) == Provided(f, d)
  }

  lemma ResolvedFromData(collector: string, base: seq<EnvVar>, outputs: seq<OutputWithSecretData>, data: SecretData,
                         e: OutputWithSecretData, c: Credential)
    requires forall x | x in outputs :: IsNamespacedName(x.output.id)
    requires e in outputs && Provided(e, c).Some?
    ensures var env := base + AuthEnv(AuthSecretName(collector), CredentialsOfAll(outputs));
            Resolve(env, AuthSecretName(collector), data, EnvVarName(c)) == Get(data, SecretKey(c))
  {
    hide Provided;
    ProvidedIsListed(outputs, e, c);
    ListedIsNamed(outputs);
    ResolveCredential(base, AuthSecretName(collector), CredentialsOfAll(outputs), data, c);
  }

  lemma DataOfCredential(outputs: seq<OutputWithSecretData>, data: SecretData, e: OutputWithSecretData, c: Credential)
    requires Derived(outputs, data) && ClashesAgree(outputs) && e in outputs && Provided(e, c).Some?
    ensures Get(data, SecretKey(c)) == Provided(e, c).value
  {
    hide Provided;
    hide SecretKey;
    var k := SecretKey(c);
    assert HasValue(e, c) ==> k in data;
    if k in data {
      var f :| f in outputs && Holds(f, k, data[k]);
      var d :| Provided(f, d) == Some(Some(data[k])) && SecretKey(d) == k;
      assert Provided(e, c) == Provided(f, d);
    }
  }

  // Every credential arrives as the field of its own output's secret exactly when outputs whose sanitized
  // names collide hold the same value.
  lemma CredentialsArriveIntact(collector: string, base: seq<EnvVar>, outputs: seq<OutputWithSecretData>,
                                data: SecretData)
    requires forall e | e in outputs :: IsNamespacedName(e.output.id)
    requires Derived(outputs, data)
    ensures var env := base + AuthEnv(AuthSecretName(collector), CredentialsOfAll(outputs));
            Intact(outputs, env, AuthSecretName(collector), data) <==> ClashesAgree(outputs)
  {
    hide Provided;
    hide SecretKey;
    hide EnvVarName;
    hide AuthSecretName;
    hide Resolve;
    var secret := AuthSecretName(collector);
    var env := base + AuthEnv(secret, CredentialsOfAll(outputs));
    forall e, c | e in outputs && Provided(e, c).Some?
      ensures Resolve(env, secret, data, EnvVarName(c)) == Get(data, SecretKey(c))
    {
      ResolvedFromData(collector, base, outputs, data, e, c);
    }
    if ClashesAgree(outputs) {
      forall e, c | e in outputs && Provided(e, c).Some?
        ensures Get(data, SecretKey(c)) == Provided(e, c).value
      {
        DataOfCredential(outputs, data, e, c);
      }
    }
  }

  // In particular when sanitized names of distinct outputs differ.
  lemma DistinctNamesArriveIntact(outputs: seq<OutputWithSecretData>)
    requires forall e, f | e in outputs && f in outputs :: e.output.id == f.output.id ==> e == f
    requires forall e, f | e in outputs && f in outputs :: KeyBody(e.output.id) == KeyBody(f.output.id) ==>
               e.output.id == f.output.id
    ensures ClashesAgree(outputs)
  {
    hide SecretKey;
    hide KeyBody;
    forall e, f, c, d | e in outputs && f in outputs && Provided(e, c).Some? && Provided(f, d).Some?
                        && SecretKey(c) == SecretKey(d)
      ensures Provided(e, c) == Provided(f, d)
    {
      SecretKeyClash(c, d);
    }
  }

  // Distinct outputs can collide: the separators of namespace and name are sanitized alike.
  lemma SanitizedNamesCanCollide()
    ensures var m, n := NamespacedName("a-b", "c"), NamespacedName("a", "b-c");
            IsNamespacedName(m) && IsNamespacedName(n) && m != n && KeyBody(m) == KeyBody(n)
  {
    var m, n := NamespacedName("a-b", "c"), NamespacedName("a", "b-c");
    assert KeyBody(m) == "a_b_c" && KeyBody(n) == "a_b_c";
  }
}
