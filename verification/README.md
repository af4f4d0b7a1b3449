# Telemetry controller: a verified model

The telemetry controller lets tenants claim log subscriptions and outputs in a Kubernetes cluster and compiles what
they claimed into the configuration of an OpenTelemetry collector. This project models its two central parts and the
step between them.

**The ownership protocol.** Tenants compete for Outputs and Subscriptions through one field, the tenant in the status
of the resource. `Ownership` is the history of the API server: users create, edit and delete resources, runs of tenants
write statuses from copies they read at any earlier time, and a write needs the current version. `ApiClient` is the API
server as one run meets it: lists may be stale, calls may fail, and other runs act between any two calls.
`TenantResources`, `SubscriptionOutputs` and `RouteController` are the steps of a run, written as methods over that
client. In a *calm* cluster reads are current, writes of current copies succeed and nobody else writes; there the
methods are proved to be passes over the owners, `Convergence` proves what repeated passes lead to, and `Rounds` makes
the runs of several tenants, one after the other, and draws the conclusions for the store.

**The configuration compiler.** `Collector` builds and validates the input, `Pipelines` and `NamedPipelines` create and
mutate pipeline objects, `Routing` and `Generators` fill the sections, `Assembly` puts them together. The meaning of the
input is which tenant's logs reach which output over bridges and subscriptions; the meaning of the result is
reachability in the graph in which connectors join pipelines by name. `Meaning` and `Closure` prove that they agree and
that every name used is defined. `Records` follows one record through the routing tables, for any truth assignment to
their conditions, and `Stamps` says what it carries when it arrives. `Wiring`, `Usage`, `Sources` and `Secrets` state
what the assembled configuration says about connectors, about receivers and storage, and about credentials, and that
nothing in it is defined in vain. `Names` shows that all formatted names can be taken apart again, `Credentials`,
`Volumes` and `ComponentIds` cover the collector's environment, its volumes and the parsers that read the names back.

**The join.** `Join` shows that statuses earned by the runs of the first part are inputs that the second part compiles
to a configuration in which nothing dangles but default pipelines that do not exist.

A traversal of a Go map is a parameter: every list in `Orders`, and every `order` argument, is an arbitrary
enumeration of the keys. Kubernetes names are lower-case alphanumerics, `-` and `.` (section 2.1 of RFC 1123), which is
what all statements about names rest on. `Example` is a small input that meets the conditions of the compiler's
theorems.

## Findings

Where the code does less than its comments or its tests suggest, the model follows the code. `Counterexamples` holds a
small failing input for most of these.

- A failed Output that its owner selects ends the owner's run before the Subscription pass, and only that pass could make
  the Output ready again, so over any sequence of calm runs, of any tenants, the Output stays failed and its owner is
  never written Ready (`Rounds.RunAll`). A second tenant that selects the Output marks it failed, so one run of that
  tenant is enough (`Rounds.DisputeStopsOwner`, `Counterexamples.OwnerIsStopped`). The owners of Outputs converge all the
  same (`Rounds.TwoRounds`).
- The comparisons that should avoid needless status writes never hold one back on objects read from the API: for
  Subscriptions a pointer is compared with a value, for Tenants and Bridges clearing the problems leaves an empty list
  where the API reads back none (`RouteController.Reconcile`, `SubscriptionOutputs.ValidateSubscriptionOutputs`,
  `RouteController.HandleBridge`).
- Validation looks at the outputs a subscription specifies, the compiler at those in its status, so a subscription that
  was not reconciled yet passes validation and leaves a dangling connector (`Collector.EndToEndClosure`).
- Default pipelines are copied from the tenant into its connector without a check, so one that does not exist dangles
  (`Closure.MissingDefaultDangles`, `Counterexamples.DefaultDangles`).
- The root pipeline tests lists for nil where the generators test their length (`Closure.EmptySubscriptionsDangle`,
  `Closure.EmptyLogSourcesDangle`); lists read from the API never tell the difference (`Closure.ApiListsAreNormal`).
- A record of a tenant keeps that tenant's name over bridges, because attributes are inserted only where there are none
  (`Stamps.RecordsCarryTheirOrigin`).
- Without any output the connector that counts outputs is defined and read from, but no pipeline exports to it, which
  happens for tenants with bridges and no subscriptions (`Wiring.ConnectorsAreJoinedIff`,
  `Counterexamples.OneConnectorIsLoose`).
- The rows of a routing table come in the order of a Go map. When a record goes to the first matching row only, it
  reaches all that want it exactly if no other row matches; otherwise the map order decides who gets it
  (`Routing.FirstMatchServesAllIff`).
- Processors are keyed by bare names: outputs of one name in two namespaces share the label and the batch of the last
  one, tenants with one transform name share its statements (`Closure.ExporterLabelsAreRight`,
  `Closure.BatchesAreRight`, `Closure.TransformsAreRight`; `Counterexamples.OneIsMislabelled`,
  `Counterexamples.OneIsTransformedByTheOther`).
- Sanitized names of credentials and of volumes can collide; the exact conditions are
  `Credentials.CredentialsArriveIntact` and `Volumes.DirectoriesMountedIff`, failing inputs
  `Counterexamples.OneGetsTheOthersToken` and `Volumes.DirectoriesCanCollide`.
- The owner check on outputs never fails within a run, because only the tenant's own outputs are cached
  (`SubscriptionOutputs.WhyFailed`).
- One round of passes need not settle the owners (`Convergence.OneRoundSettlesIff`,
  `Counterexamples.OneRoundIsNotEnough`).

## Model

| member | source | states |
|---|---|---|
| `RouteController.Reconcile` | controllers/telemetry/route_controller.go:65-114 | one run, in any interleaving: it writes the tenant Ready only if every listed subscription, output, namespace and bridge was seen or written by this run as the status claims, the status names exactly what the selectors for log sources were answered and every bridge that was listed, even if the run fails after that; a failed run has its cause among its own calls (a failed read, a failed resource of the tenant, a dangling or unavailable tenant at a bridge, a refused write) and writes Failed with that reason after the earlier ones; it tries to write its status once, except for a successful run whose status equals the one it read, which none read from the API does; in a calm cluster the owners of Outputs go through exactly one pass, resources of other tenants keep their owner and at most become failed, and the owners of Subscriptions go through one pass too unless a failed Output blocks the run, in which case Subscriptions are untouched and the tenant stays blocked |
| `Ownership.OwnershipSafety` | pkg/resources/manager/tenant_resource_manager.go:94-192 | in every legal history of interleaved runs with stale reads and rejected writes, an owner changes only from nobody to the writing tenant or from the writing tenant to nobody |
| `Ownership.HandoverPassesThroughUnowned` | pkg/resources/manager/tenant_resource_manager.go:94-192 | between two different owners of a resource there is a moment when nobody owns it or it does not exist |
| `Convergence.TwoRoundsConverge` | controllers/telemetry/route_controller.go:252-265 | any two rounds over all tenants, in any orders, leave every selected resource with an owner that selects it and every other one free |
| `Convergence.RunsConverge` | controllers/telemetry/route_controller.go:252-265 | the same for any stores that are one pass apart; `Rounds.TwoRounds` proves that runs produce such stores |
| `Rounds.TwoRounds` | controllers/telemetry/route_controller.go:65-114 | two rounds of actual runs, in any orders, one calm run after the other, settle the owners of Outputs, and no later run changes one; those of Subscriptions settle too if no failed Output stops a run |
| `Rounds.RunAll` | controllers/telemetry/route_controller.go:65-114 | any sequence of calm runs makes exactly the passes of its order over the owners of Outputs, and of Subscriptions if no run is stopped; a failed Output whose owner selects it stays failed and keeps its owner, which is never written Ready |
| `Rounds.Run` | controllers/telemetry/route_controller.go:65-114 | one calm run from whatever status was read: one pass over the owners of Outputs; if a failed Output that the tenant selects is its own or free, Subscriptions are untouched and no Ready is written; otherwise one pass over Subscriptions |
| `Rounds.DisputeStopsOwner` | controllers/telemetry/route_controller.go:65-114 | after one run of a second tenant that selects an owned Output, the Output stays failed and its owner is never written Ready in any sequence of later runs of any tenants |
| `Rounds.NobodyHeals` | controllers/telemetry/route_controller.go:281-285 | a calm run of any tenant leaves a failed Output that its owner selects failed, and with its owner |
| `Rounds.OwnersNeverReady` | controllers/telemetry/route_controller.go:281-285 | in a sequence of runs with these effects, no run of the owner of an Output that was failed at the start writes it Ready |
| `Rounds.StoppedIsBlocked` | controllers/telemetry/route_controller.go:281-285 | the condition on the selection that stops a tenant is the condition on the client that blocks its run |
| `Meaning.CompilationPreservesMeaning` | pkg/resources/otel_conf_gen/otel_conf_gen.go:216-287 | in the pipeline graph the log receiver of a tenant reaches the exporter of an output exactly if the tenant selects all namespaces or has a list of them, and a bridge path, possibly empty, leads to a tenant with a subscription that lists the output |
| `Closure.AssembledConfigPreservesMeaning` | pkg/resources/otel_conf_gen/otel_conf_gen.go:317-351 | the same for the pipelines and connectors of the assembled configuration, memory limiter included; for lists read from the API the condition is that all namespaces are selected or some are listed |
| `Records.RecordsArriveIffAsked` | pkg/resources/otel_conf_gen/otel_conf_gen.go:182-287 | for any truth assignment to the routing conditions, a record of a tenant gets from its log receiver to the exporter of an output exactly if the tenant reads logs and the record crosses bridges whose conditions hold to a tenant with a subscription that lists the output and admits the record: its condition holds, or no condition of that tenant does and it is a default pipeline |
| `Records.PassesIffStep` | pkg/resources/otel_conf_gen/otel_conf_gen.go:182-287 | a record gets from one pipeline to another exactly over a bridge whose condition holds, into a subscription that admits it, from a subscription to its outputs, or into metrics |
| `Records.BridgeRoutes` | pkg/resources/otel_conf_gen/pipeline/components/connector/routing_connector.go:94-103 | the connector of a bridge in the assembled configuration routes a record exactly if the bridge's condition holds, and only to the tenant where the bridge ends |
| `Records.OutputsRoute` | pkg/resources/otel_conf_gen/pipeline/components/connector/routing_connector.go:77-92 | the connector of a subscription routes every record to the pipelines of all its outputs |
| `Records.SubscriptionsRoute` | pkg/resources/otel_conf_gen/pipeline/components/connector/routing_connector.go:49-75 | the connector of a tenant routes a record to the subscriptions whose condition holds, and to the default pipelines if there is none |
| `Stamps.RecordsCarryTheirOrigin` | pkg/resources/otel_conf_gen/pipeline/components/processor/attributes_processor.go:41-73 | whatever way a record takes to an exporter, it arrives with the name of the tenant it came from, however many bridges it crossed, of a subscription that lists the output, and an exporter name that is right exactly if the output is labelled right |
| `Stamps.RootProcesses` | pkg/resources/otel_conf_gen/pipeline/pipeline.go:35-62 | the processors of a tenant's root pipeline in the assembled configuration, in order: limiter, Kubernetes attributes, tenant name, filter, and the tenant's transform if it has one |
| `Stamps.SubscriptionProcesses` | pkg/resources/otel_conf_gen/otel_conf_gen.go:238-242 | those of a subscription: limiter and subscription name |
| `Stamps.OutputProcesses` | pkg/resources/otel_conf_gen/otel_conf_gen.go:250-262 | those of an output: limiter, exporter name, and the batch last if it has one |
| `Stamps.MetricsProcess` | pkg/resources/otel_conf_gen/pipeline/pipeline.go:64-87 | those of the metrics pipelines |
| `Wiring.ConnectorsAreJoinedIff` | pkg/resources/otel_conf_gen/otel_conf_gen.go:182-287 | every connector is exported to by some pipeline and received from by another exactly if, outside dry-run mode, some subscription has an output |
| `Wiring.NothingToCount` | pkg/resources/otel_conf_gen/otel_conf_gen.go:206-214 | without any output nothing exports to the connector that counts outputs |
| `Usage.EverythingIsUsed` | pkg/resources/otel_conf_gen/otel_conf_gen.go:66-287 | outside dry-run mode every processor, exporter and receiver that is defined is used by some pipeline, once there is a tenant, and an output if there is a debug exporter |
| `Sources.LogReceiverIs` | pkg/resources/otel_conf_gen/otel_conf_gen.go:162-180 | a tenant's log receiver is defined exactly if it has log sources, and then feeds its root pipeline; its paths are those of the listed namespaces, or all; its storage is the tenant's |
| `Sources.EventsReceiverIs` | pkg/resources/otel_conf_gen/pipeline/components/receiver/k8s_events_receiver.go:28-47 | the same for the receiver of events, which watches all namespaces when none is given |
| `Sources.StorageIsMounted` | pkg/resources/otel_conf_gen/pipeline/components/extension/storage/filestorage.go:30-43 | a tenant's storage extension uses the configured or default directory, and the collector gets that directory mounted, writable, exactly if the name of the volume was free |
| `Sources.StorageIff` | pkg/resources/otel_conf_gen/otel_conf_gen.go:121-160 | a storage extension is defined exactly, outside dry-run mode, for the tenants that ask for one |
| `Sources.ModeAdds` | pkg/resources/otel_conf_gen/otel_conf_gen.go:66-214 | debug exporter, metrics exporter, health check and counting connectors are defined exactly in the modes that ask for them |
| `Sources.DryRunStoresNothing` | pkg/resources/otel_conf_gen/otel_conf_gen.go:66-180 | in dry-run mode the debug exporter is the only one, no receiver has storage and no storage is defined |
| `Secrets.CredentialsReachExtensions` | pkg/resources/otel_conf_gen/pipeline/components/extension/basic_auth_extension.go:44-78 | the fields of every output's authentication extension have the form of a variable reference, and resolving it through the collector's environment and the derived secret gives what the output's own secret holds under the configured or default name, for all outputs exactly if clashing outputs agree |
| `Secrets.AuthExtensionsIff` | pkg/resources/otel_conf_gen/otel_conf_gen.go:121-160 | an authentication extension is defined exactly if an output of that name asks for it |
| `Secrets.ExporterIs` | pkg/resources/otel_conf_gen/pipeline/components/exporter/otlp_exporter.go:47-92 | an output's exporter names the extension with that output's own credentials, basic before bearer and only for kinds that authenticate, and queues in the storage of a tenant with a subscription that lists the output |
| `Closure.ClosedIffCompilable` | pkg/resources/otel_conf_gen/otel_conf_gen.go:66-287 | every component, storage, authenticator and pipeline that the configuration names, default pipelines included, is defined in it exactly if no list is empty but not nil, every subscription has an output, and the default pipelines of every tenant with subscriptions name pipelines of the input; in every mode |
| `Collector.EndToEndClosure` | pkg/resources/manager/collector_manager.go:64-159 | after building and validating, the configuration is closed exactly if every listed subscription has outputs in its status and all default pipelines in use exist |
| `Join.ReadyTenantsCompile` | controllers/telemetry/route_controller.go:98-113 | tenants whose statuses were earned by their runs compile to a configuration that forwards exactly the outputs the subscriptions ask for, and that is closed exactly if all default pipelines in use exist |
| `Join.ReadyOutputsHaveOneOwner` | pkg/resources/otel_conf_gen/pipeline/components/common.go:91-108 | while the owners held, every output of such an input has one owner, whatever the order of the tenant map |
| `Names.PipelineNameInjective` | pkg/resources/otel_conf_gen/otel_conf_gen.go:223-280 | no two root, subscription, output or metrics pipelines share a key |
| `Names.ComponentNameInjective` | pkg/resources/otel_conf_gen/otel_conf_gen.go:66-287 | no two generated receivers, processors, exporters, connectors or extensions share a name |
| `Names.StringIdentifies` | api/telemetry/v1alpha1/common.go:27-29 | the string form of a namespaced name identifies it |
| `Ordering.SortUnique` | pkg/resources/otel_conf_gen/pipeline/components/common.go:169-173 | whatever sorting algorithm is used, sorting by an identifying key gives one list |
| `Ordering.SortSorts` | pkg/resources/otel_conf_gen/pipeline/components/common.go:169-173 | the list is sorted |
| `Ordering.LeqIsLexicographic` | pkg/resources/otel_conf_gen/pipeline/components/common.go:169-173 | the order is that of the first differing character, prefixes first |
| `Api.NamesAreSorted` | pkg/resources/otel_conf_gen/pipeline/components/common.go:169-173 | names are sorted by namespace, slash, name, and none is lost or added |
| `Api.FindOutput` | pkg/resources/otel_conf_gen/otel_conf_gen.go:250-262 | finds an output of that name exactly if one is listed |
| `Api.ExporterNameOfKind` | pkg/resources/otel_conf_gen/pipeline/components/common.go:44-62 | the exporter name of an output with one exporter section is the name of that kind and output |
| `Ownership.VersionsIdentify` | pkg/resources/manager/tenant_resource_manager.go:111-134 | two stored copies of a resource with the same version are equal |
| `Ownership.StatusWriteFollowsCurrentOwner` | pkg/resources/manager/tenant_resource_manager.go:94-192 | an accepted status write replaces the owner that is current, however old the copy it was made from |
| `Ownership.CreatedUnowned` | pkg/resources/manager/tenant_resource_manager.go:94-124 | a resource starts without an owner |
| `ApiClient.Client.constructor` | controllers/telemetry/route_controller.go:65-76 | a run starts at any moment of a legal history |
| `ApiClient.Client.Interfere` | pkg/resources/manager/tenant_resource_manager.go:58-192 | between two calls the history grows by any legal events of other runs and users |
| `ApiClient.Client.List` | pkg/resources/manager/tenant_resource_manager.go:78-92 | a list holds, for a kind and a namespace or owner, any mix of current and outdated copies, and exactly the current ones in a calm cluster; a read that fails is on record |
| `ApiClient.Client.UpdateStatus` | pkg/resources/manager/tenant_resource_manager.go:111-134 | a status write succeeds only from a version that is current when it arrives, and is then the last event of the history; it may fail anyway, and the attempt is on record either way |
| `ApiClient.Client.WriteIsLegal` | pkg/resources/manager/tenant_resource_manager.go:111-134 | a version-checked write from a stored copy keeps the history legal |
| `TenantResources.NormalizeNamespaceSlice` | pkg/resources/manager/tenant_resource_manager.go:290-306 | a strictly sorted list with the same namespaces |
| `TenantResources.GetNamespacesForSelectorSlice` | pkg/resources/manager/tenant_resource_manager.go:253-275 | every selector is asked for, in order, and the result is the sorted union of the answers; it fails only after a failed read |
| `TenantResources.ListInNamespaces` | pkg/resources/manager/tenant_resource_manager.go:78-92 | all resources of a kind that the server lists for distinct namespaces, in its order and without duplicates; in a calm cluster all there are |
| `TenantResources.CountedOnce` | pkg/resources/manager/tenant_resource_manager.go:94-124 | every listed resource falls in exactly one of owned, to adopt and disputed |
| `TenantResources.WithOwnerMembers` | pkg/resources/manager/tenant_resource_manager.go:117-121 | the owned and the free resources are exactly the listed ones with that owner |
| `TenantResources.DisputedMembers` | pkg/resources/manager/tenant_resource_manager.go:95-115 | the disputed resources are exactly the listed ones of another tenant |
| `TenantResources.ClassifyResources` | pkg/resources/manager/tenant_resource_manager.go:94-124 | sorts by owner and tries to mark every disputed resource as failed, in order, and no other; in a calm cluster exactly these become failed |
| `TenantResources.GetResourceOwnedByTenant` | pkg/resources/manager/tenant_resource_manager.go:58-125 | the owned and the free resources of the selected namespaces, from known copies; disputes keep their owner and become failed |
| `TenantResources.UpdateResourcesForTenant` | pkg/resources/manager/tenant_resource_manager.go:129-143 | tries to adopt every free resource, in order, and returns exactly those whose write succeeded; in a calm cluster all of them |
| `TenantResources.GetResourcesReferencingTenantButNotSelected` | pkg/resources/manager/tenant_resource_manager.go:147-177 | what still names the tenant and was not selected; complete in a calm cluster |
| `TenantResources.NotSelectedMembers` | pkg/resources/manager/tenant_resource_manager.go:167-174 | the filter keeps exactly the resources whose name is not among the selected |
| `TenantResources.DisownResources` | pkg/resources/manager/tenant_resource_manager.go:181-192 | tries to give up every one of the resources, in order, and writes nothing else; in a calm cluster exactly these become free |
| `SubscriptionOutputs.CheckOutput` | pkg/resources/manager/tenant_resource_manager.go:199-246 | a valid output belongs to the subscription's owner and its secret, if it needs one, was read; an invalid one is foreign or its secret was not found; its state says so, and a failed write makes the copy failed without changing the verdict |
| `SubscriptionOutputs.ValidateSubscriptionReferencedOutputsWithCache` | pkg/resources/manager/tenant_resource_manager.go:195-250 | splits the references in order into valid and invalid ones; an invalid one is not cached, foreign, or authenticated with a secret that this run failed to read |
| `SubscriptionOutputs.ValidateSubscriptionOutputs` | controllers/telemetry/route_controller.go:291-329 | writes the subscriptions in order and stops exactly at the first refused write; what it writes, or tries in vain, lists the outputs that are the tenant's and do not lack their secret, sorted, is ready if that is all of them and failed if not, and keeps its owner |
| `SubscriptionOutputs.ReadyMeansAllOutputs` | controllers/telemetry/route_controller.go:310-319 | ready or failed, the status of a judged subscription lists exactly outputs it asks for, sorted: all that were not rejected, and none that is missing or foreign; a ready one lists all, a failed one has one that is missing, foreign or lacks its secret; nothing else changes |
| `SubscriptionOutputs.WhyFailed` | pkg/resources/manager/tenant_resource_manager.go:199-224 | against a cache of one tenant's outputs the owner check never fails: the status lists every output that is cached and does not lack its secret, and a failed subscription has one that is not cached or lacks it |
| `SubscriptionOutputs.NothingRejected` | controllers/telemetry/route_controller.go:310-313 | if nothing was rejected the valid outputs are all outputs, in order |
| `RouteController.TakeOwnership` | controllers/telemetry/route_controller.go:252-265 | asks for every selector, lists, marks, adopts, lists again and disowns, trying every resource that each step calls for, and returns the owned ones followed by those adopted; it fails only after a failed read; in a calm cluster one pass over the owners, with every dispute failed and resources of other tenants otherwise unchanged |
| `RouteController.TakenOver` | controllers/telemetry/route_controller.go:252-265 | adopting what is free and disowning the rest is one pass over the owners, and leaves the tenant exactly what it took |
| `RouteController.OutputPass` | controllers/telemetry/route_controller.go:281-285 | a run is blocked exactly if the tenant owns or adopts a failed output, and then the next one is blocked too |
| `RouteController.DisputeBlocksOwner` | pkg/resources/manager/tenant_resource_manager.go:95-114 | an output that is marked as disputed by a run of a second tenant blocks its owner's next run |
| `RouteController.HandleLogSourceNamespaces` | controllers/telemetry/route_controller.go:232-241 | asks for every selector of log sources and lists the namespaces that were answered, sorted, once each; in a calm cluster those that the selectors match; it fails only after a failed read |
| `RouteController.FirstFailed` | controllers/telemetry/route_controller.go:281-285 | finds the first failed resource exactly if there is one |
| `RouteController.HandleOwnedResources` | controllers/telemetry/route_controller.go:243-289 | outputs before subscriptions; success means the listed subscriptions are earned; a failure has its cause among the calls; in a calm cluster a failed output ends the run before the Subscription pass, and resources of other tenants at most become failed |
| `RouteController.JudgedIsEarned` | controllers/telemetry/route_controller.go:307-326 | a subscription that was judged and is not failed was written ready with all its outputs, each seen as the tenant's |
| `RouteController.AllEarned` | controllers/telemetry/route_controller.go:271-285 | the sorted list of subscriptions has no duplicates and each entry is earned |
| `RouteController.AllListed` | controllers/telemetry/route_controller.go:271-274 | the status lists exactly the subscriptions the tenant owns |
| `RouteController.GetBridgesForTenant` | pkg/resources/manager/bridge_manager.go:33-58 | lists the bridges that start at the tenant and those that end there, once each, and returns the first followed by the second; it fails only after a failed read |
| `RouteController.ValidateBridgeConnection` | pkg/resources/manager/bridge_manager.go:78-95 | succeeds only if the tenants at both ends are the run's own or were found; fails only if the tenant at an end is not the run's own and was not found, or could not be asked for |
| `RouteController.HandleBridge` | controllers/telemetry/route_controller.go:341-365 | ready is tried for a valid bridge exactly if its status differs, failed with the reason for an invalid one, and nothing else; a bridge read from the API and found valid is always written |
| `RouteController.HandleBridgeResources` | controllers/telemetry/route_controller.go:331-367 | unless the bridges cannot be listed, the status names every listed bridge, as often as it was listed, sorted; success means all of them are valid and ready; a failure has its cause among the calls |
| `RouteController.ListedNames` | controllers/telemetry/route_controller.go:337-339 | a name is in such a status exactly if the run was told of a bridge of that name |
| `RouteController.RunSteps` | controllers/telemetry/route_controller.go:78-102 | the steps run in order and the first failure ends the run, with its cause among the calls; success earns the status; it names all log source namespaces and bridges that the run was told of before it failed; a calm run has the outcome described at `RouteController.Reconcile` |
| `RouteController.HandleTenantReconcileError` | controllers/telemetry/route_controller.go:218-230 | lists the reason once, after the earlier ones, sets Failed and tries to write |
| `Convergence.PassLowersMeasure` | pkg/resources/manager/tenant_resource_manager.go:58-192 | every owner that a pass changes takes at least one from the measure |
| `Convergence.OwnerChangesAreBounded` | pkg/resources/manager/tenant_resource_manager.go:58-192 | however many passes run, at most two owner changes a resource |
| `Convergence.StableIffUnchanging` | pkg/resources/manager/tenant_resource_manager.go:58-192 | owners are stable exactly if no pass of any tenant changes one |
| `Convergence.OneRoundSettlesIff` | pkg/resources/manager/tenant_resource_manager.go:58-192 | one round settles a resource exactly unless its owner must give it up and no tenant that selects it runs later |
| `Convergence.FreeIsAdopted` | pkg/resources/manager/tenant_resource_manager.go:129-143 | a free resource goes to a tenant that selects it, and stays free only if none in the round does |
| `Convergence.SelectingOwnerStays` | pkg/resources/manager/tenant_resource_manager.go:147-177 | an owner that selects the resource keeps it |
| `Convergence.KindPassedOverIsPass` | controllers/telemetry/route_controller.go:252-265 | what a calm run does to the store is one pass over the owners |
| `Collector.QueryOutputSecretWithData` | pkg/resources/otel_conf_gen/pipeline/components/common.go:130-167 | finds the secret exactly if one authentication method, and not both, names a secret and it exists |
| `Collector.BuildConfigInputForCollector` | pkg/resources/manager/collector_manager.go:64-143 | succeeds exactly if no tenant has failed and everything the statuses mention can be fetched; the input indexes exactly what was listed; an error names a failed tenant or something mentioned that cannot be fetched |
| `Collector.ReadTenants` | pkg/resources/manager/collector_manager.go:77-102 | the subscription map and the bridge list of all tenants, tenant by tenant, or an error that names what cannot be fetched |
| `Collector.ReadOutputs` | pkg/resources/manager/collector_manager.go:104-124 | every listed output with its secret, or an error exactly if one cannot be fetched, which names it |
| `Collector.ValidateConfigInput` | pkg/resources/manager/collector_manager.go:145-159 | reports no error exactly if the input is valid |
| `Collector.ValidateTenants` | pkg/resources/manager/collector_manager.go:377-391 | reports no error exactly if there are tenants and each selects log sources in one way; every error names a tenant that does not |
| `Collector.ValidateSubscriptions` | pkg/resources/manager/collector_manager.go:402-408 | reports no error exactly if every subscription specifies outputs; every error names one that does not |
| `Collector.ValidateBridges` | pkg/resources/manager/collector_manager.go:410-424 | reports no error exactly if both ends of every bridge are listed tenants; every error names a bridge with an end that is not |
| `Collector.BuiltAndValidIsWellFormed` | pkg/resources/manager/collector_manager.go:64-159 | an input that was built and validated meets the conditions of all compiler theorems |
| `Collector.BuiltOutputsAgree` | pkg/resources/manager/collector_manager.go:104-124 | an output read for several subscriptions is the same each time, as stored, with the secret that one of its authentication methods refers to |
| `Collector.BuiltBridgesAre` | pkg/resources/manager/collector_manager.go:77-102 | the input has exactly the bridges that the statuses of the tenants name |
| `Collector.AxoflowImages` | pkg/resources/manager/collector_manager.go:583-587 | no image and the default image count as the Axoflow distribution, others exactly if they come from its repository |
| `Pipelines.FilterEmptyPipelines` | pkg/resources/otel_conf_gen/pipeline/pipeline.go:89-98 | keeps the non-empty names in order |
| `Pipelines.GeneratePipeline` | pkg/resources/otel_conf_gen/pipeline/pipeline.go:27-33 | a new pipeline object without empty receivers and exporters |
| `Pipelines.GenerateRootPipeline` | pkg/resources/otel_conf_gen/pipeline/pipeline.go:35-62 | a new root pipeline, as the last tenant of that name asks |
| `Pipelines.RootOfTenant` | pkg/resources/otel_conf_gen/pipeline/pipeline.go:35-62 | for unique tenants the root pipeline reads that tenant's sources, if it selects all namespaces or has a list of them, and leads to its routing connector |
| `Pipelines.AddConnectorToPipeline` | pkg/resources/otel_conf_gen/pipeline/components/connector/routing_connector.go:110-119 | adds a connector to the needed sides of the object in place |
| `Pipelines.GenerateRoutingConnectorForBridgesTenantPipeline` | pkg/resources/otel_conf_gen/pipeline/components/connector/routing_connector.go:133-139 | wires all bridges of a tenant in place |
| `Pipelines.WiredConnectors` | pkg/resources/otel_conf_gen/pipeline/components/connector/routing_connector.go:110-139 | a pipeline has a bridge connector as receiver exactly if a bridge ends at its tenant, as exporter exactly if one starts there |
| `Pipelines.DuplicateBridgesAreHarmless` | pkg/resources/otel_conf_gen/pipeline/components/connector/routing_connector.go:105-139 | wiring a list with duplicates equals wiring its first occurrences |
| `Pipelines.WiringExtends` | pkg/resources/otel_conf_gen/pipeline/components/connector/routing_connector.go:110-119 | what was there stays in front, and each connector appears at most once a side |
| `Pipelines.GenerateTransformProcessorForTenantPipeline` | pkg/resources/otel_conf_gen/pipeline/components/processor/transform_processor.go:51-57 | appends the transform processors of the tenant in place |
| `Pipelines.TransformAddsProcessors` | pkg/resources/otel_conf_gen/pipeline/components/processor/transform_processor.go:51-57 | adds exactly the named transform processors of that tenant, after what was there |
| `NamedPipelines.GenerateNamedPipelines` | pkg/resources/otel_conf_gen/otel_conf_gen.go:216-287 | for any traversal of the tenant map: fresh, pairwise distinct objects, one for every pipeline of the input and no other |
| `NamedPipelines.IterationOrderDoesNotMatter` | pkg/resources/otel_conf_gen/otel_conf_gen.go:216-287 | two traversals give the same pipelines |
| `NamedPipelines.GenerateMetricsPipelines` | pkg/resources/otel_conf_gen/pipeline/pipeline.go:64-87 | adds the metrics pipelines outside dry-run mode |
| `NamedPipelines.GenerateTenantRoot` | pkg/resources/otel_conf_gen/otel_conf_gen.go:231-236 | completes the root pipeline of a tenant that was put earlier |
| `NamedPipelines.GenerateOutputPipelines` | pkg/resources/otel_conf_gen/otel_conf_gen.go:248-280 | one pipeline for every listed output that exists |
| `Meaning.ReceiversAre` | pkg/resources/otel_conf_gen/otel_conf_gen.go:216-287 | the receivers of every pipeline are exactly those the relations call for |
| `Meaning.ExportersAre` | pkg/resources/otel_conf_gen/otel_conf_gen.go:216-287 | the exporters of every pipeline are exactly those the relations call for |
| `Meaning.EdgeIsJoin` | pkg/resources/otel_conf_gen/pipeline/components/connector/routing_connector.go:133-139 | a connector joins two pipelines only as the connector of a tenant's subscriptions, of a subscription's outputs or of a bridge, between the two pipelines it belongs to, or into a metrics pipeline |
| `Meaning.JoinsNeighbours` | pkg/resources/otel_conf_gen/pipeline/components/connector/routing_connector.go:57-103 | a connector exported by one pipeline and received by another names both: tenant and subscription, subscription and output, both ends of a bridge, or a metrics pipeline |
| `Meaning.FlowDelivers` | pkg/resources/otel_conf_gen/otel_conf_gen.go:216-287 | every path from a receiver to an exporter is a delivery |
| `Meaning.DeliveryFlows` | pkg/resources/otel_conf_gen/otel_conf_gen.go:216-287 | every delivery is a path |
| `Routing.GenerateRoutingConnectorForTenantsSubscriptions` | pkg/resources/otel_conf_gen/pipeline/components/connector/routing_connector.go:57-75 | one row for each distinct condition of the tenant's subscriptions |
| `Routing.PopulateRoutingConnectorTable` | pkg/resources/otel_conf_gen/pipeline/components/connector/routing_connector.go:39-47 | one row for each condition, in the order of the traversal, which may be any |
| `Routing.GroupingPreservesRouting` | pkg/resources/otel_conf_gen/pipeline/components/connector/routing_connector.go:57-75 | for any truth assignment the pipelines of the matching rows are those of the subscriptions whose condition holds |
| `Routing.OneRowEach` | pkg/resources/otel_conf_gen/pipeline/components/connector/routing_connector.go:57-75 | each subscription sits in one row |
| `Routing.FirstMatchServesOneCondition` | pkg/resources/otel_conf_gen/pipeline/components/connector/routing_connector.go:57-75 | when one condition holds, its row alone delivers to all that want it |
| `Routing.FirstMatchServesAllIff` | pkg/resources/otel_conf_gen/pipeline/components/connector/routing_connector.go:39-75 | a matching row delivers to all that want the record exactly if no other row matches, so which subscriptions a first-match reading serves depends on the order of the map |
| `Routing.GenerateRoutingConnectorForSubscriptionsOutputs` | pkg/resources/otel_conf_gen/pipeline/components/connector/routing_connector.go:77-92 | one row with the pipelines of all outputs |
| `Generators.CreateIncludeList` | pkg/resources/otel_conf_gen/pipeline/components/receiver/filelog_receiver.go:124-137 | one path for each namespace, or one for all |
| `Generators.GenerateReceivers` | pkg/resources/otel_conf_gen/otel_conf_gen.go:162-180 | exactly the receivers of listed tenants with log sources, each with its tenant's storage |
| `Generators.GenerateExtensions` | pkg/resources/otel_conf_gen/otel_conf_gen.go:121-160 | exactly the extensions in use, and their names sorted |
| `Generators.GenerateProcessors` | pkg/resources/otel_conf_gen/otel_conf_gen.go:89-119 | exactly the processors in use; of entries that share a name the last one stays |
| `Generators.GenerateExporters` | pkg/resources/otel_conf_gen/otel_conf_gen.go:66-87 | exactly one exporter for each output, with its owner's storage and its authenticator |
| `Generators.GenerateExportersOfKind` | pkg/resources/otel_conf_gen/pipeline/components/exporter/otlp_exporter.go:47-92 | the exporters of one kind |
| `Generators.GenerateConnectors` | pkg/resources/otel_conf_gen/otel_conf_gen.go:182-214 | exactly the connectors in use, each with its table, and those of tenants with the configured default pipelines |
| `Tables.DefinedIffMember` | pkg/resources/otel_conf_gen/otel_conf_gen.go:66-287 | a name is defined exactly if its component belongs to the section |
| `Assembly.PrependMemoryLimiter` | pkg/resources/otel_conf_gen/otel_conf_gen.go:326-335 | every pipeline object gets the limiter in front, once, which needs the objects to be distinct |
| `Assembly.AssembleConfig` | pkg/resources/otel_conf_gen/otel_conf_gen.go:317-351 | all sections, for any traversal order of each map |
| `Closure.MemoryLimiterComesFirstAndOnce` | pkg/resources/otel_conf_gen/otel_conf_gen.go:326-335 | every pipeline starts with the limiter and has it nowhere else |
| `Closure.BatchComesLast` | pkg/resources/otel_conf_gen/otel_conf_gen.go:253-262 | an output with a batch has it last in each of its pipelines in the assembled configuration, after the limiter and the exporter name |
| `Closure.TablesAgreeWithWiring` | pkg/resources/otel_conf_gen/pipeline/components/connector/routing_connector.go:57-103 | the pipelines in a connector's table are exactly those that have it as a receiver |
| `Closure.ExporterLabelsAreRight` | pkg/resources/otel_conf_gen/otel_conf_gen.go:110-111 | records carry the right exporter name exactly if outputs with one bare name share their exporter |
| `Closure.TransformsAreRight` | pkg/resources/otel_conf_gen/otel_conf_gen.go:96-115 | every tenant's records are transformed by its own statements exactly if tenants with one transform name share the statements |
| `Closure.BatchesAreRight` | pkg/resources/otel_conf_gen/otel_conf_gen.go:109-116 | every output is batched by its own settings exactly if batched outputs with one bare name share them |
| `Closure.DistinctExportersAreNamedApart` | pkg/resources/otel_conf_gen/pipeline/components/common.go:44-62 | outputs that differ never share their exporter |
| `Closure.EmptySubscriptionsDangle` | pkg/resources/otel_conf_gen/pipeline/pipeline.go:35-62 | a subscription list that is empty but not nil leaves a dangling connector |
| `Closure.EmptyLogSourcesDangle` | pkg/resources/otel_conf_gen/pipeline/pipeline.go:35-62 | a namespace list that is empty but not nil leaves a dangling receiver |
| `Closure.OutputlessSubscriptionDangles` | pkg/resources/otel_conf_gen/otel_conf_gen.go:199-205 | a subscription without outputs leaves a dangling connector |
| `Closure.MissingDefaultDangles` | pkg/resources/otel_conf_gen/pipeline/components/connector/routing_connector.go:49-55 | a default pipeline that does not exist leaves a connector with a dangling pipeline |
| `Closure.ApiListsAreNormal` | pkg/resources/otel_conf_gen/pipeline/pipeline.go:35-62 | for lists read from the API, which are never empty but not nil, what remains is that every subscription has outputs in its status and that default pipelines exist |
| `Owners.FindTenantForOutput` | pkg/resources/otel_conf_gen/pipeline/components/common.go:91-108 | the first tenant in map order whose subscriptions list the output |
| `Owners.GetTenantByName` | pkg/resources/otel_conf_gen/pipeline/components/common.go:110-118 | the first tenant of that name |
| `Owners.OwnerInOwns` | pkg/resources/otel_conf_gen/pipeline/components/common.go:91-108 | a tenant is found exactly if one lists the output, and it does |
| `Owners.OwnerIsWellDefined` | pkg/resources/otel_conf_gen/pipeline/components/common.go:91-108 | the result is the same for every map order exactly if at most one tenant lists the output |
| `Credentials.AuthSecret` | pkg/resources/manager/collector_manager.go:269-291 | the derived secret holds a value for every credential, and only values of the outputs |
| `Credentials.BasicAuthSecretData` | pkg/resources/otel_conf_gen/pipeline/components/extension/basic_auth_extension.go:80-103 | the keys and values of one output's user name and password |
| `Credentials.BearerAuthSecretData` | pkg/resources/otel_conf_gen/pipeline/components/extension/bearer_token_auth_extension.go:49-63 | the key and value of one output's token |
| `Credentials.AppendAuthEnv` | pkg/resources/manager/collector_manager.go:210-252 | one variable for each credential, in the order of the outputs |
| `Credentials.ClashTogether` | pkg/resources/otel_conf_gen/pipeline/components/extension/basic_auth_extension.go:44-78 | two credentials share a variable exactly if they share a secret key |
| `Credentials.CredentialsArriveIntact` | pkg/resources/manager/collector_manager.go:210-252 | resolving every variable through the environment and the derived secret gives each output its own values exactly if clashing outputs agree on them |
| `Credentials.DistinctNamesArriveIntact` | pkg/resources/otel_conf_gen/pipeline/components/extension/basic_auth_extension.go:70-78 | distinct sanitized names are enough |
| `Credentials.SanitizedNamesCanCollide` | pkg/resources/otel_conf_gen/pipeline/components/extension/basic_auth_extension.go:70-78 | two outputs with different names that share their keys |
| `Credentials.SanitizedNamesAreValid` | pkg/resources/otel_conf_gen/pipeline/components/extension/basic_auth_extension.go:70-78 | every variable consists of capitals, digits and underscores and starts with a letter, every key of small letters, digits and underscores, whatever the names |
| `Credentials.AuthSecretNamesDiffer` | pkg/resources/manager/collector_manager.go:579-581 | collectors of different names have different secrets |
| `Volumes.AppendAdditionalVolumesForTenantsFileStorage` | pkg/resources/manager/collector_manager.go:448-482 | appends a volume, a mount and a chmod for each tenant's buffer whose name is free |
| `Volumes.AppendFileExporterVolume` | pkg/resources/manager/collector_manager.go:484-523 | the same for the directories of file exporters; skipping processed paths changes nothing |
| `Volumes.HandleVolumes` | pkg/resources/manager/collector_manager.go:429-446 | both, with one init container if anything was added |
| `Volumes.SetOtelCommonFieldsDefaults` | pkg/resources/manager/collector_manager.go:539-577 | image, account, arguments and the log volumes that are missing |
| `Volumes.VolumesStayConsistent` | pkg/resources/manager/collector_manager.go:429-577 | volume names stay unique, earlier entries stay in front, every added volume has its mount, and one init container mounts all that was added and opens path after path as long as that succeeds |
| `Volumes.ConfiguredTwice` | pkg/resources/manager/collector_manager.go:429-577 | applying both again changes nothing |
| `Volumes.DirectoriesMountedIff` | pkg/resources/manager/collector_manager.go:484-527 | every file exporter's directory is mounted, under its sanitized name and writable, exactly if the names are free and no two directories share one |
| `Volumes.BuffersMounted` | pkg/resources/manager/collector_manager.go:448-482 | a tenant's storage directory, configured or default, is mounted and writable exactly if its volume name was free |
| `Volumes.DirectoriesCanCollide` | pkg/resources/manager/collector_manager.go:525-527 | two directories that share a volume name |
| `Volumes.SanitizedIsPlain` | pkg/resources/manager/collector_manager.go:525-527 | a volume name made from a path has no slash and no capital letter |
| `Volumes.VolumeExists` | pkg/resources/manager/collector_manager.go:529-537 | finds a volume of that name exactly if there is one |
| `Volumes.SettingsAre` | pkg/resources/manager/collector_manager.go:539-577 | a configured image stays, additional arguments win over earlier ones and lose none, and the log directories are mounted read-only unless their names are taken |
| `ComponentIds.RoundTrip` | pkg/resources/otel_conf_gen/validator/hooks.go:38-74 | an identifier is accepted exactly if it has a slash or is an exception, and prints back to itself exactly unless nothing follows the first slash |
| `ComponentIds.GeneratedComponentsParse` | pkg/resources/otel_conf_gen/validator/hooks.go:38-74 | every generated component name is accepted and prints back to itself, except for an unnamed transform processor |
| `ComponentIds.ExporterKinds` | pkg/resources/otel_conf_gen/validator/hooks.go:38-74 | the name of an output's exporter is read as the type of its section |
| `ComponentIds.ConnectorKinds` | pkg/resources/otel_conf_gen/validator/hooks.go:38-74 | connectors are read as routing, count or bytes connectors |
| `ComponentIds.AttributesKind` | pkg/resources/otel_conf_gen/validator/hooks.go:38-74 | what inserts attributes is read as an attributes processor |
| `ComponentIds.ProcessorKinds` | pkg/resources/otel_conf_gen/validator/hooks.go:38-74 | filter, batch and transform processors are read as such |
| `ComponentIds.ExtensionKinds` | pkg/resources/otel_conf_gen/validator/hooks.go:38-74 | storage and authentication extensions are read as such |
| `ComponentIds.GeneratedPipelinesParse` | pkg/resources/otel_conf_gen/validator/hooks.go:61-69 | every generated pipeline name is accepted as one of its signal, logs or metrics, and prints back to itself |
| `ComponentIds.NoComponentIsLost` | pkg/resources/otel_conf_gen/validator/validator.go:74-85 | different components are read as different identifiers |
| `ComponentIds.NoPipelineIsLost` | pkg/resources/otel_conf_gen/validator/validator.go:136-147 | different pipelines are read as different identifiers |
| `ComponentIds.ParsersAgreeIff` | pkg/resources/otel_conf_gen/validator/validator.go:122-134 | the two parsers agree on a name exactly if it has one slash or is an exception |
| `ComponentIds.ExtensionsAgree` | pkg/resources/otel_conf_gen/validator/validator.go:122-134 | they agree on every generated extension name |
| `ComponentIds.DecodeExtensionsConfig` | pkg/resources/otel_conf_gen/validator/validator.go:122-134 | reads every listed extension, in order |
| `Counterexamples.OneIsMislabelled` | pkg/resources/otel_conf_gen/otel_conf_gen.go:109-116 | two outputs of one bare name: one has the label, one the batch of the other |
| `Counterexamples.ClashingIsWellFormed` | pkg/resources/otel_conf_gen/otel_conf_gen.go:109-116 | that input meets the conditions of the compiler's theorems |
| `Counterexamples.OneIsTransformedByTheOther` | pkg/resources/otel_conf_gen/otel_conf_gen.go:96-103 | two tenants with one transform name: one gets the statements of the other |
| `Counterexamples.DefaultDangles` | pkg/resources/otel_conf_gen/pipeline/components/connector/routing_connector.go:49-55 | a well-formed input whose configuration names a default pipeline that does not exist |
| `Counterexamples.DanglingIsWellFormed` | pkg/resources/otel_conf_gen/pipeline/components/connector/routing_connector.go:49-55 | that input meets the conditions of the compiler's theorems |
| `Counterexamples.OneConnectorIsLoose` | pkg/resources/otel_conf_gen/otel_conf_gen.go:206-214 | two tenants with a bridge and no subscription: the connector that counts outputs is joined to nothing |
| `Counterexamples.OneGetsTheOthersToken` | pkg/resources/otel_conf_gen/pipeline/components/extension/bearer_token_auth_extension.go:49-63 | two outputs whose sanitized names agree: one gets the token of the other, whatever the secret holds |
| `Counterexamples.OneRoundIsNotEnough` | controllers/telemetry/route_controller.go:252-265 | a round of two tenants that leaves a selected output free |
| `Counterexamples.OwnerIsStopped` | controllers/telemetry/route_controller.go:281-285 | a ready output selected by two tenants: after one run of the other tenant, its owner is never written Ready again |

## Left out

- Watches, caches, field indexes, finalizers and RBAC: the API server is a history of events, reads may return any earlier copy.
- Listed objects are values here and pointers in Go; the lists a run works on are sequences of copies, and one run does not see a copy change under it.
- A status write that changes nothing still gets a new version; the API server would keep the old one, which only makes conflicts rarer.
- Statuses of Tenants and Bridges are written without a version check of their own; any such write may fail, and what another run's write to the same Bridge leaves behind is not modelled.
- Problem texts: the reason of a failure stands for its message, and problems of Outputs and Subscriptions are not kept.
- A resource whose owner no longer exists is never given up; convergence assumes that owners exist.
- Convergence is about owners, not about the states of resources.
- "A tenant never gives up what it selects" is proved for calm clusters only; with stale lists it does not hold.
- Label selectors and OTTL conditions are uninterpreted; a selector matches any set of namespaces.
- One build of the input reads a consistent snapshot; a missing entry stands for any failure to fetch it.
- Sorting in place is a function that returns the sorted list; sharing of backing arrays between slices is not modelled.
- Bodies of exporters, receivers and processors are opaque apart from storage, authenticator, labels, batch settings and transform statements; defaults of queues, retries and the memory limiter are not modelled.
- Each Output sets one exporter section, and users do not set an authenticator by hand.
- Dry-run mode has no log exporters, so the statement about reachability is for the other modes; closure covers all modes.
- The emptiness test by reflection before validation, the memory limit of the Go runtime, additional arguments, telemetry settings and the OpenTelemetry library's own validation.
- A routing connector is taken to send a record to every matching row, and to the default pipelines if there is none; the truth of a condition does not change on the way, and processors other than the inserting ones leave the three inserted attributes alone.
- Component identifiers are split and printed, but the library's rules for types and names are not part of this model.
- `filepath.Dir` is applied before the model starts: an Output carries the directory of its file exporter. Lower-casing of volume names covers ASCII.
