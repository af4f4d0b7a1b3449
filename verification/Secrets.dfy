/** Credentials end to end: from the secret of an output to the extension that the output's exporter names. */
module Secrets {
  import opened Names
  import opened Api
  import opened Owners
  import opened Generators
  import opened Assembly
  import opened Meaning
  import opened Closure
  import opened Credentials

  // The field refers to a variable of the environment that stands for this value.
  ghost predicate Refers(field: string, env: seq<EnvVar>, secret: string, data: SecretData, value: Option<string>) {
    exists name :: field == "${" + name + "}" && Resolve(env, secret, data, name) == value
  }

  // Its extension gives an output the user name, password or token that its own secret holds, under the names the
  // output configures or the default ones.
  ghost predicate Authenticated(config: CollectorConfig, env: seq<EnvVar>, secret: string, data: SecretData,
                                e: OutputWithSecretData)
  {
    e.output.auth.Some? ==>
      var auth := e.output.auth.value;
      var basic := ComponentName(BasicAuthExtension(e.output.id));
      var bearer := ComponentName(BearerAuthExtension(e.output.id));
      && (auth.basic.Some? ==>
            && basic in config.extensions && config.extensions[basic].BasicAuthConfig?
            && Refers(config.extensions[basic].username, env, secret, data,
                      Get(e.secret, if auth.basic.value.usernameField == "" then "username"
                                    else auth.basic.value.usernameField))
            && Refers(config.extensions[basic].password, env, secret, data,
                      Get(e.secret, if auth.basic.value.passwordField == "" then "password"
                                    else auth.basic.value.passwordField)))
      && (auth.bearer.Some? ==>
            && bearer in config.extensions && config.extensions[bearer].BearerAuthConfig?
            && Refers(config.extensions[bearer].token, env, secret, data,
                      Get(e.secret, if auth.bearer.value.tokenField == "" then "token"
                                    else auth.bearer.value.tokenField)))
  }

  lemma ReferenceRefers(c: Credential, env: seq<EnvVar>, secret: string, data: SecretData, value: Option<string>)
    ensures Refers(EnvReference(c), env, secret, data, value) <==> Resolve(env, secret, data, EnvVarName(c)) == value
  {
    hide EnvVarName, Resolve;
    if Refers(EnvReference(c), env, secret, data, value) {
      var name :| EnvReference(c) == "${" + name + "}" && Resolve(env, secret, data, name) == value;
      Middle("${", EnvVarName(c), name, "}");
    }
  }

  lemma AuthExtensionInUse(input: ConfigInput, e: OutputWithSecretData)
    requires e in input.outputs && e.output.auth.Some?
    ensures e.output.auth.value.basic.Some? ==>
              BasicAuthExtension(e.output.id) in ExtensionIds(input, input.outputs, input.tenants)
    ensures e.output.auth.value.bearer.Some? ==>
              BearerAuthExtension(e.output.id) in ExtensionIds(input, input.outputs, input.tenants)
  {
  }

  lemma ExtensionDefined(input: ConfigInput, orders: Orders, config: CollectorConfig, c: ComponentId)
    requires Assembled(input, orders, config) && c in ExtensionIds(input, input.outputs, input.tenants)
    ensures ComponentName(c) in config.extensions && ExtensionOk(input)(c, config.extensions[ComponentName(c)])
  {
    hide ComponentName, ExtensionIds, ExtensionOk;
  }

  lemma AuthExtensionsAre(input: ConfigInput, orders: Orders, config: CollectorConfig, e: OutputWithSecretData)
    requires Assembled(input, orders, config) && e in input.outputs && e.output.auth.Some?
    ensures e.output.auth.value.basic.Some? ==>
              var k := ComponentName(BasicAuthExtension(e.output.id));
              k in config.extensions
              && config.extensions[k] == BasicAuthConfig(EnvReference(Username(e.output.id)),
                                                         EnvReference(Password(e.output.id)))
    ensures e.output.auth.value.bearer.Some? ==>
              var k := ComponentName(BearerAuthExtension(e.output.id));
              k in config.extensions && config.extensions[k] == BearerAuthConfig(EnvReference(Token(e.output.id)))
  {
    hide ComponentName, EnvReference, Assembled, ExtensionIds;
    AuthExtensionInUse(input, e);
    if e.output.auth.value.basic.Some? {
      ExtensionDefined(input, orders, config, BasicAuthExtension(e.output.id));
    }
    if e.output.auth.value.bearer.Some? {
      ExtensionDefined(input, orders, config, BearerAuthExtension(e.output.id));
    }
  }

  // What an output provides arrives exactly if its extensions refer to it.
  ghost predicate IntactFor(env: seq<EnvVar>, secret: string, data: SecretData, e: OutputWithSecretData) {
    forall c | Provided(e, c).Some? :: Resolve(env, secret, data, EnvVarName(c)) == Provided(e, c).value
  }

  lemma AuthenticatedIffIntact(input: ConfigInput, orders: Orders, config: CollectorConfig, env: seq<EnvVar>,
                               secret: string, data: SecretData, e: OutputWithSecretData)
    requires Assembled(input, orders, config) && e in input.outputs
    ensures Authenticated(config, env, secret, data, e) <==> IntactFor(env, secret, data, e)
  {
    hide ComponentName, Assembled, EnvReference, EnvVarName, Resolve, Refers;
    if e.output.auth.Some? {
      AuthExtensionsAre(input, orders, config, e);
      var auth, o := e.output.auth.value, e.output.id;
      if auth.basic.Some? {
        ReferenceRefers(Username(o), env, secret, data, Provided(e, Username(o)).value);
        ReferenceRefers(Password(o), env, secret, data, Provided(e, Password(o)).value);
      }
      if auth.bearer.Some? {
        ReferenceRefers(Token(o), env, secret, data, Provided(e, Token(o)).value);
      }
    }
  }

  // With the derived secret and the environment of the collector, the extensions of the assembled configuration give
  // every output what its own secret holds exactly if outputs whose sanitized names clash hold the same.
  lemma CredentialsReachExtensions(input: ConfigInput, orders: Orders, config: CollectorConfig, collector: string,
                                   base: seq<EnvVar>, data: SecretData)
    requires WellNamed(input) && Assembled(input, orders, config) && Derived(input.outputs, data)
    ensures var env := base + AuthEnv(AuthSecretName(collector), CredentialsOfAll(input.outputs));
            (forall e | e in input.outputs :: Authenticated(config, env, AuthSecretName(collector), data, e))
            <==> ClashesAgree(input.outputs)
  {
    hide Assembled, Authenticated, AuthEnv, CredentialsOfAll, AuthSecretName, Derived, Provided, EnvVarName, Resolve,
         ClashesAgree;
    var secret := AuthSecretName(collector);
    var env := base + AuthEnv(secret, CredentialsOfAll(input.outputs));
    CredentialsArriveIntact(collector, base, input.outputs, data);
    forall e | e in input.outputs
      ensures Authenticated(config, env, secret, data, e) <==> IntactFor(env, secret, data, e)
    {
      AuthenticatedIffIntact(input, orders, config, env, secret, data, e);
    }
  }

  lemma AuthExtensionsInUse(input: ConfigInput, o: NamespacedName)
    ensures BasicAuthExtension(o) in ExtensionIds(input, input.outputs, input.tenants) <==>
            exists e :: e in input.outputs && e.output.id == o
                        && e.output.auth.Some? && e.output.auth.value.basic.Some?
    ensures BearerAuthExtension(o) in ExtensionIds(input, input.outputs, input.tenants) <==>
            exists e :: e in input.outputs && e.output.id == o
                        && e.output.auth.Some? && e.output.auth.value.bearer.Some?
  {
  }

  // An authentication extension is defined exactly if some output of that name asks for it.
  lemma AuthExtensionsIff(input: ConfigInput, orders: Orders, config: CollectorConfig, o: NamespacedName)
    requires Assembled(input, orders, config) && IsNamespacedName(o)
    ensures ComponentName(BasicAuthExtension(o)) in config.extensions <==>
            exists e :: e in input.outputs && e.output.id == o
                        && e.output.auth.Some? && e.output.auth.value.basic.Some?
    ensures ComponentName(BearerAuthExtension(o)) in config.extensions <==>
            exists e :: e in input.outputs && e.output.id == o
                        && e.output.auth.Some? && e.output.auth.value.bearer.Some?
  {
    hide ComponentName, ExtensionIds, Assembled, IsName;
    AuthExtensionsInUse(input, o);
    ExtensionIff(input, orders, config, BasicAuthExtension(o));
    ExtensionIff(input, orders, config, BearerAuthExtension(o));
  }

  // ---------------------------------------------------------------------------
  // Exporters

  ghost predicate OutputsAgree(outputs: seq<OutputWithSecretData>) {
    forall e, f | e in outputs && f in outputs && e.output.id == f.output.id :: e == f
  }

  lemma DefinedExporter(input: ConfigInput, orders: Orders, config: CollectorConfig, c: ComponentId)
    requires Assembled(input, orders, config) && c in AllExporterIds(input)
    ensures ComponentName(c) in config.exporters && ExporterOk(input)(c, config.exporters[ComponentName(c)])
  {
    hide ComponentName, AllExporterIds, ExporterOk;
  }

  lemma ListingTenant(input: ConfigInput, e: OutputWithSecretData) returns (t: Tenant)
    requires TenantsIndexed(input) && SubscriptionsIndexed(input) && OutputsIndexed(input) && e in input.outputs
    ensures t in input.tenants && Owns(input, t.name, e.output.id)
  {
    hide FindOutput;
    var s :| s in input.subscriptionOutputs && e.output.id in input.subscriptionOutputs[s];
    var n :| n in input.tenantSubscriptions && s in input.tenantSubscriptions[n];
    t :| t in input.tenants && t.name == n;
    assert Subscribes(input, t.name, s, e.output.id);
  }

  lemma ExporterInUse(input: ConfigInput, e: OutputWithSecretData, kind: ExporterKind) returns (c: ComponentId)
    requires WellFormed(input) && !input.dryRun && e in input.outputs && e.output.kinds == {kind}
    ensures c == OutputExporter(kind, e.output.id) && c in AllExporterIds(input)
    ensures ComponentName(c) == ExporterNameFor(e.output)
  {
    hide ComponentName, ExporterNameFor, WellNamed, TenantsIndexed, SubscriptionsIndexed, OutputsIndexed,
         BridgesIndexed, Owns;
    c := OutputExporter(kind, e.output.id);
    assert kind in e.output.kinds && HasOneKind(e.output);
    OneKindName(e.output, kind);
    var t := ListingTenant(input, e);
    assert IsExporter(input, input.outputs, kind, c);
  }

  // The exporter of an output names the extension with the output's own credentials, if it is of a kind that
  // authenticates, and queues in the storage of a tenant with a subscription that lists the output.
  lemma ExporterIs(input: ConfigInput, orders: Orders, config: CollectorConfig, e: OutputWithSecretData,
                   kind: ExporterKind)
    requires WellFormed(input) && Assembled(input, orders, config) && OutputsAgree(input.outputs)
    requires !input.dryRun && e in input.outputs && e.output.kinds == {kind}
    ensures ExporterNameFor(e.output) in config.exporters
    ensures config.exporters[ExporterNameFor(e.output)].authenticator
         == if e.output.auth.None? || kind.Fluentforward? || kind.File? || kind.AWSS3? then None
            else if e.output.auth.value.basic.Some? then Some(ComponentName(BasicAuthExtension(e.output.id)))
            else if e.output.auth.value.bearer.Some? then Some(ComponentName(BearerAuthExtension(e.output.id)))
            else None
    ensures var storage := config.exporters[ExporterNameFor(e.output)].storage;
            if kind.File? then storage == None
            else exists t, s :: t in input.tenants && s in input.SubscriptionsOf(t.name)
                                && e.output.id in input.OutputsOf(s)
                                && storage == if t.fileStorage then Some(ComponentName(FileStorage(t.name))) else None
  {
    hide ComponentName, FindOutput, ExporterNameFor, WellFormed, Assembled, AllExporterIds, Owns;
    var c := ExporterInUse(input, e, kind);
    DefinedExporter(input, orders, config, c);
    var v := config.exporters[ComponentName(c)];
    assert IsExporterConfig(input, input.outputs, c, v);
    var f :| f in input.outputs && f.output.id == c.output && c.kind in f.output.kinds
             && v.authenticator == AuthenticatorOf(c.kind, f.output)
             && if c.kind.File? then v.storage == None else OwnersStorage(input, c.output, v.storage);
    assert f == e;
    if !kind.File? {
      var t :| t in input.tenants && Owns(input, t.name, c.output)
               && v.storage == if t.fileStorage then Some(ComponentName(FileStorage(t.name))) else None;
      var s := OwnerSubscribes(input, t.name, c.output);
    }
  }

  lemma OwnerSubscribes(input: ConfigInput, t: string, o: NamespacedName) returns (s: NamespacedName)
    requires Owns(input, t, o)
    ensures s in input.SubscriptionsOf(t) && o in input.OutputsOf(s)
  {
    s :| s in input.SubscriptionsOf(t) && o in input.OutputsOf(s);
  }
}
