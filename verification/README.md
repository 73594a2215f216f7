# capishim: convergence of setup and the certificate state it rests on

The project models the `setup` subcommand of capishim, which prepares a management
cluster from vendored provider manifests, and the certificate inventory it is
authenticated by. Both claim to be idempotent and safe to cut off: the claims are
about every run, every history of runs and every point at which one may stop, and
that is what is proved here.

Five parts are linked; `Subcommand` joins them.

- **Setup against an abstract apiserver** (`ApiServer`, `Apply`, `Loading`, `Filters`,
  `CrdWait`, `Setup`; laws in `ApplyLaws`, `LoadingLaws`, `Convergence`, `Completion`). The
  store maps keys to content and a resourceVersion. Create fails on an existing key and
  refuses an object that carries a resourceVersion, Update needs the current one, and the
  roleRef of a binding never changes. The client has a budget of calls: when it is spent
  the next call fails, so a run with a small budget is a run cut, or failed, at any call.
  There is one writer.
- **Webhook rewriting in place** (`Webhook`; laws in `WebhookLaws`, `RewriteLaws`), over
  URLs read and printed as Go's net/url does (`Urls`).
- **RBAC rewriting** (`Rbac`) with a meaning for bindings (`RbacMeaning`): what a cluster
  with the aggregation controller derives from roles by their labels, and what one without
  it derives from the rewritten objects. `Shells` reads concreteness off the labels, and
  `LivePermissions` joins the meaning to the store that setup converges to, whatever else
  that store holds.
- **The certificate inventory** (`Pki`; laws in `PkiLaws`, `PkiCompletion`) on a disk
  whose writes empty a file before they fill it, and the atomic replacement of
  kubeconfigs (`AtomicFile`).
- **The subcommand whole** (`Subcommand`): Generate, then the batches with the CA as it
  lies on disk, over histories cut in either and with files damaged between. `Identities`
  takes the permissions in the store to the certificates on disk whose names they are for.

Every method is proved equal to a function of its inputs and the old state; the laws
are lemmas about those functions. Where a name, a table or a field of a document decides,
a law ending in Exactly says it with the text written out.

Eight results differ from what the repository's own comments say; the code is followed.
For each there is an input for which the comment fails and the exact condition under
which it holds.

- `internal/webhookrewrite/webhookrewrite.go:16-21` calls the rewrite idempotent. A second
  pass over a rewritten core webhook sends it to the external host, because core and the
  hypervisor manager share port 9443 (`CoreIsRedirectedBySecondPass`). `SettlesExactly`
  gives the condition under which a second pass changes nothing, `SecondRewriteOfSetup`
  says it of the component table, and a third pass never changes anything. Setup is safe
  because it rewrites from the kept objects.
- `internal/webhookrewrite/webhookrewrite.go:326-331` has the path of a redirected URL
  preserved verbatim. net/url prints it again: it is verbatim exactly when it is tidy
  (`RestIsVerbatimExactly`), and an escaped slash beside a space is not
  (`EscapedSlashIsLost`).
- `internal/pki/pki.go:184-186` says one clock keeps every leaf from outliving the CA.
  That fails for a leaf issued by any run after the one that created the CA
  (`ReissuedLeafOutlivesCA`, `IssuedLeafOutlivesCAExactly`).
- `internal/pki/pki.go:560-562` has every pair chain to the CA. Once both CA files are lost
  the next run succeeds with a new CA and the old leaves (`LostCAUnchainsLeaves`);
  `LeavesChainExactly` says which leaves chain after a run, and `AcceptedPairsAreAnchored`
  that in histories which spare the CA all accepted ones do.
- `internal/pki/pki.go:90-95` has a configured webhook host join the serving certificate of
  the external webhook. A host configured after the first run does not: setup points
  webhooks at it, and the certificate keeps the old one (`ChangedHostIsNotNamed`,
  `WebhookHostNamedExactly`).
- `cmd/capishim/setup.go:349-358` gives dedupe the purpose of keeping Apply from refusing a
  batch. Two objects of one cluster-scoped kind and name still clash when a stray
  namespace, or `/v1` for `v1`, tells their identities apart (`RefusedOnlyOnClash`,
  `DedupeMissesTheSecondSpelling`).
- `cmd/capishim/setup.go:149-155` has every run converge. The vendored hypervisor
  manifests serve webhooks from namespace `system`, which no component maps, and no run
  completes on files that hold one (`UpgradePlanWebhookStopsSetup`,
  `VendoredHypervisorStopsSetup`). `InvocationCompletesExactly` says which invocations do,
  certificates included.
- `internal/manifests/rbac.go:68-75` redirects bindings from shells to manager roles.
  Redirecting keeps the meaning of every binding exactly when the rules each shell draws
  through its labels are those of its manager role (`RedirectingIsFaithfulExactly`,
  `AggregationComputed`); a second role under the label is enough to lose some
  (`SecondLabelledRoleLosesRule`).

## Model

| member | source | states |
|---|---|---|
| Apply.CheckIdentifiers | internal/manifests/apply.go:64-82 | the pass with the seen map finds the first reason to refuse, naming the earlier object |
| Apply.RefusalMeans | internal/manifests/apply.go:60-82 | a batch is accepted exactly when every kind is applied and no two objects share an identifier |
| Apply.RefusalNames | internal/manifests/apply.go:64-82 | a refusal names the first kind that is not applied, or kind and name of the first object under the earliest repeated identifier |
| Apply.CreateOrUpdate | internal/manifests/apply.go:84-111 | create, else adopt the existing resourceVersion in a copy and update; the caller's object is untouched |
| Apply.Apply | internal/manifests/apply.go:64-113 | a refused batch makes no call; otherwise the calls of the batch in order, stopping at the first failure |
| ApiServer.Client.Create | internal/manifests/apply.go:85-97 | Create fails on an existing key and refuses an object that carries a resourceVersion |
| ApiServer.Client.Update | internal/manifests/apply.go:102-107 | Update needs the current resourceVersion and an unchanged roleRef |
| ApplyLaws.ApplyOneEffect | internal/manifests/apply.go:84-111 | one object overrides its own key or changes nothing, and is accepted exactly when it fits the store |
| ApplyLaws.StaleUpdateIsRefused | internal/manifests/apply.go:96-107 | no lost updates: what was read before an accepted write to its key cannot be used for an update after it |
| ApplyLaws.ApplyAllPrefix | internal/manifests/apply.go:84-112 | wherever a batch stops, the store is overridden by exactly a prefix of it |
| ApplyLaws.ApplyAllSucceeds | internal/manifests/apply.go:84-112 | a batch goes through exactly when each object may be created and keeps the roleRef it replaces |
| ApplyLaws.ApplySetsItsKeys | internal/manifests/apply.go:58-63 | a batch that goes through sets its keys to its objects' contents and no other key |
| ApplyLaws.ApplyTwice | internal/manifests/apply.go:58-60 | a repeated Apply cannot fail and changes no content |
| Loading.LoadDedupedObjects | cmd/capishim/setup.go:359-394 | succeeds exactly when all files load and same-identity documents agree; returns first occurrences; drift names both files, a load failure the first file that fails |
| LoadingLaws.FirstByExactly | cmd/capishim/setup.go:349-352 | the result is the documents at the first positions of their identities, in order |
| LoadingLaws.NothingLost | cmd/capishim/setup.go:349-358 | every document is kept, once |
| LoadingLaws.PermutedFiles | cmd/capishim/setup.go:359-394 | permuting the files changes neither success nor the set of objects |
| LoadingLaws.DedupeIdempotent | cmd/capishim/setup.go:359-394 | deduplicating again changes nothing |
| LoadingLaws.KeptExactly | internal/manifests/manifests.go:87-109 | the eight kinds, each at v1 of its group; a Namespace's group may be spelt with a slash |
| LoadingLaws.AppliedExactly | internal/manifests/apply.go:27-56 | the kinds Apply takes are those kept under some apiVersion |
| LoadingLaws.SameApplyKey | internal/manifests/apply.go:115-123 | on NUL-free components equal keys mean equal scope, kind and name |
| LoadingLaws.SameIdExactly | cmd/capishim/setup.go:396-400 | NUL-free documents are the same to the loader exactly when apiVersion, kind, namespace and name agree |
| LoadingLaws.LoadsExactly | cmd/capishim/setup.go:349-394 | the files load exactly when all can be read and no two documents agree in those four fields and differ elsewhere; of those that agree one is kept |
| LoadingLaws.RolesStandApart | cmd/capishim/setup.go:396-400 | Roles of one name in two namespaces are both kept, by the loader, the filter and Apply |
| LoadingLaws.RefusedOnlyOnClash | internal/manifests/apply.go:60-82 | after dedupe a batch is refused exactly when two objects of one cluster-scoped kind share a name |
| LoadingLaws.DedupeMissesTheSecondSpelling | internal/manifests/manifests.go:90-92 | one namespace under both spellings of its apiVersion passes dedupe and is refused by Apply |
| LoadingLaws.LoadedBatchRefusedOnlyOnClash | cmd/capishim/setup.go:207-218 | the same for what is loaded, restricted and kept from any files |
| Filters.RestrictCAPIVersionsToV1Beta2 | cmd/capishim/setup.go:681-710 | narrows copies and passes the other objects through as they are |
| LoadingLaws.RestrictionMeans | cmd/capishim/setup.go:671-680 | a CRD of cluster.x-k8s.io or addons.cluster.x-k8s.io is left with its first entry named v1beta2 and no conversion, nothing else changed; dropped exactly when it has no such entry; any other object is left alone |
| LoadingLaws.ServedEntryIsFirst | cmd/capishim/setup.go:732-747 | the entry kept is the first that names v1beta2 |
| LoadingLaws.RestrictionSettles | cmd/capishim/setup.go:679-680 | idempotent over its own output, and commutes with the filter of kept kinds |
| Filters.KeepObjects | cmd/capishim/setup.go:749-759 | the kept objects in order, as they are |
| Filters.WithoutRBACBindings | cmd/capishim/setup.go:650-669 | everything but bindings, in order, as it is |
| LoadingLaws.FilterMapInOrder | cmd/capishim/setup.go:749-759 | filters keep the order: what comes of two lists put together is what comes of the first and then of the second |
| LoadingLaws.UnboundExactly | cmd/capishim/setup.go:650-669 | the first batch is every kept object that is no binding |
| Filters.CrdNamesFrom | cmd/capishim/setup.go:569-591 | the wait list, computed with the seen set |
| LoadingLaws.WaitListIsComplete | cmd/capishim/setup.go:569-575 | the list names exactly the CRDs, each once, in the order first seen |
| CrdWait.FirstUnestablishedCRD | internal/manifests/apply.go:158-176 | the first CRD that is not ready, all before it being ready: unestablished, or an error if it cannot be read |
| CrdWait.EstablishedExactly | internal/manifests/apply.go:178-187 | the condition Established with status True, among whatever others |
| CrdWait.WaitForCRDEstablished | internal/manifests/apply.go:125-156 | succeeds if and only if the CRDs come up: some pass reads all of them Established, and each before it stopped at one it could read, in time and uncancelled; each failure for its reason; at most timeout / 50 ms + 2 passes |
| Convergence.WaitListIsInTheStore | cmd/capishim/setup.go:216-219 | after the first batch every CRD on the wait list is in the store |
| Setup.WebhookObjects | cmd/capishim/setup.go:761-792 | the webhook carriers decoded into fresh typed objects, or a failure |
| Setup.UnstructuredObjects | cmd/capishim/setup.go:794-806 | the typed objects encoded, or a failure |
| Setup.Setup | cmd/capishim/setup.go:197-262 | from loading to the third batch the run, and whether it comes to its end, equal the three-batch function of the files, of whether their CRDs come up before the watch, and of CA and host: nothing is left to the method |
| Convergence.SoundExactly | cmd/capishim/setup.go:207-233 | what setup asks of the files, said of the files: they agree, bindings can be rewritten, nothing clashes, none is named as the admin binding |
| Convergence.RunMoves | cmd/capishim/setup.go:207-262 | a run cut anywhere loses nothing, leaves unmanaged keys alone and gives bindings only their redirected roleRef |
| Convergence.EveryReachableStateIsSafe | cmd/capishim/setup.go:202-234 | roleRef safety and foreign keys, in every state any history of runs leads to |
| Convergence.BindingsInFirstBatchBlock | cmd/capishim/setup.go:650-658 | with bindings in the first batch, a redirected one would block the second for good |
| Convergence.ShellBindingBlocks | cmd/capishim/setup.go:650-658 | so does any ClusterRoleBinding to an aggregation shell |
| Convergence.UnhinderedRun | cmd/capishim/setup.go:207-262 | an unhindered run completes exactly when no managed binding has another roleRef, and then the store holds the goal |
| Convergence.SetupConverges | cmd/capishim/setup.go:149-155 | after any history of cut or failed runs, with any CAs and hosts, one uninterrupted run leaves the goal over the store from before |
| Convergence.SetupIsIdempotent | cmd/capishim/setup.go:149-155 | running setup again changes no content |
| Convergence.GoalAtWebhook | cmd/capishim/setup.go:235-262 | under a webhook carrier's key the goal holds the rewritten carrier |
| Convergence.GoalAtOther | cmd/capishim/setup.go:223-234 | under any other key it holds the object as the RBAC pass left it |
| Completion.SetupCompletesExactly | cmd/capishim/setup.go:197-262 | from loading on, a run with the calls it needs completes if and only if the files are sound, their objects creatable, the CRDs up, the CA readable, every webhook carrier goes through, and no managed binding has another roleRef |
| Completion.SuccessMeansGoal | cmd/capishim/setup.go:197-262 | a run that reports success, however few calls it had, met every condition and left the goal over what was there |
| Completion.WebhookBatchExactly | cmd/capishim/setup.go:235-259 | there is a third batch exactly when each carrier converts and each of its clientConfigs has a target and a CA |
| Completion.GoesThroughAsWritten | internal/webhookrewrite/webhookrewrite.go:174-207 | whether a carrier goes through, read off the document: it converts and each clientConfig written in it has a target |
| Completion.UnmappedServiceStopsSetup | internal/webhookrewrite/webhookrewrite.go:309-318 | a document with a service namespace outside the table stops every run |
| Completion.UpgradePlanWebhookStopsSetup | templates/manifests/bootstrap-hypervisor/provider.yaml:1807-1826 | with the vendored webhook of namespace system in any kept configuration no run completes |
| Completion.VendoredHypervisorStopsSetup | templates/manifests/bootstrap-hypervisor/provider.yaml:1714-1826 | the vendored configuration cut down to that webhook: a sound file of creatable objects on which no run completes |
| Completion.ConvertersExist | cmd/capishim/setup.go:761-806 | the two assumptions made of the typed conversion are met together by a converter that reads every carrier |
| Completion.CarriersExactly | cmd/capishim/setup.go:761-792 | the third batch stands for every kept webhook configuration and CRD |
| Completion.WebhookBatchIsRewritten | cmd/capishim/setup.go:235-259 | each of its objects differs from its carrier in clientConfigs alone; they have a URL, the CA as read and no service |
| Completion.SetupRedirectsOneTarget | cmd/capishim/setup.go:96-101 | of all URLs, setup redirects those of a loopback name on port 9443 and no others |
| Completion.AddressGoesToHost | templates/manifests/bootstrap-hypervisor/provider.yaml:1725 | the vendored URLs on 127.0.0.1:9443 go to the configured host |
| Completion.ServiceGoesToItsManager | internal/config/components.go:94-147 | a service is given the port its own manager listens on, under its own path, and nothing else of a clientConfig is kept; exactly when its namespace has a manager and there is a CA |
| Completion.SecondRewriteOfSetup | internal/config/components.go:33-37 | which services of the component table a second rewrite would send elsewhere |
| Subcommand.RunSetup | cmd/capishim/setup.go:156-262 | Generate, the health check, the CA as read back and the batches, in this order, equal the modelled invocation, the wait going as the watch has it; and it is done if and only if it can complete |
| Subcommand.EveryHistoryIsSafe | cmd/capishim/setup.go:149-155 | invocations cut on disk or at any call, and damage that spares the CA, keep the disk anchored and the roleRefs redirected |
| Subcommand.SubcommandConverges | cmd/capishim/setup.go:149-155 | after any such history an unstopped invocation completes: inventory complete, all leaves signed by the CA, the store the goal for that CA and host over what was there before it all |
| Subcommand.InvocationCompletesExactly | cmd/capishim/setup.go:149-155 | the whole subcommand completes if and only if configuration, CA and hosts allow the certificates, apiserver, CRDs and CA file are there, the files are sound, every carrier goes through with that CA, and no managed binding has another roleRef |
| Subcommand.SuccessIsTrue | cmd/capishim/setup.go:156-262 | an invocation that reports success leaves every certificate beside its own key and the store the goal for the CA on disk and the configured host |
| Identities.TableNamesCertificates | cmd/capishim/setup.go:406-414 | the User that stands for a provider namespace is the common name of that provider's manager certificate, artifact by artifact |
| Identities.ManagersActAsTheirAccounts | internal/config/components.go:94-147 | after any history and an unstopped invocation: the client certificate on disk for a namespace's manager, beside its key and signed by the CA, bears the User whom the live store permits exactly what it permitted that namespace's ServiceAccounts, and that User, before |
| Identities.AdminHoldsClusterAdmin | cmd/capishim/setup.go:76 | the admin certificate on disk bears the User that the live store permits all of cluster-admin |
| Subcommand.StoredWebhooksCarryAnchor | cmd/capishim/setup.go:235-259 | under the key of every webhook carrier the store then holds it with rewritten clientConfigs that carry the CA on disk |
| Subcommand.WebhooksAndTheirServers | internal/pki/pki.go:90-95 | after any history and an unstopped invocation: stored webhooks carry the CA, it signed what serves them, and the external server's certificate names the configured host exactly if issued now or for it before |
| Subcommand.SecondInvocationChangesNothing | cmd/capishim/setup.go:149-155 | and a further invocation writes no file and changes no content |
| Rbac.RewriteItems | internal/manifests/rbac.go:106-127 | subjects replaced one by one in place until one cannot be; what was replaced before it stays so |
| Rbac.RedirectAggregatedManagerRoleRef | internal/manifests/rbac.go:75-93 | a roleRef to a shell redirected in place, any other left alone |
| Rbac.RewriteRBACSubjects | internal/manifests/rbac.go:42-66 | every object rewritten in a fresh copy, or the first error |
| RbacMeaning.RewriteSucceedsExactly | internal/manifests/rbac.go:33-41 | succeeds exactly when subject lists are lists, ServiceAccounts are mapped and RoleBindings have a namespace |
| RbacMeaning.RewriteOneShape | internal/manifests/rbac.go:33-41 | subjects and the roleRef's name change, nothing else |
| RbacMeaning.SubjectExactly | internal/manifests/rbac.go:106-127 | a ServiceAccount becomes the User of its namespace, or the error that names what is missing; any other subject stays |
| RbacMeaning.RewriteErrorsExactly | internal/manifests/rbac.go:95-127 | which error a binding fails with: the first thing amiss |
| RbacMeaning.RedirectedNameExactly | internal/manifests/rbac.go:75-93 | a role name loses its aggregated suffix for the manager suffix, any other name stays |
| RbacMeaning.AggregationComputed | internal/manifests/rbac.go:68-75 | what the aggregation controller converges to is the rules of the roles reached from label to label, a finite computation |
| RbacMeaning.RedirectingIsFaithfulExactly | internal/manifests/rbac.go:68-93 | among whatever else a cluster holds, every binding keeps what it grants exactly when the roles bound to are concrete by labels and rules |
| Shells.ShellExactly | internal/manifests/rbac.go:68-75 | a shell is concrete exactly when its manager role has each rule of every role it selects and no other |
| Shells.LabelledShellIsConcrete | templates/manifests/core/provider.yaml:19995-20013 | a shell whose labels select its manager role alone is concrete |
| Shells.SecondLabelledRoleLosesRule | internal/manifests/rbac.go:68-75 | with a second role under the label a redirected binding loses that role's rule |
| RbacMeaning.PermissionsPreserved | internal/manifests/rbac.go:33-41 | a User gains exactly its ServiceAccounts' aggregated permissions, Groups keep theirs, no ServiceAccount is named, among whatever else a cluster holds |
| RbacMeaning.ManagerInheritsItsAccounts | internal/manifests/rbac.go:33-36 | with an injective table a manager is permitted exactly what its namespace's ServiceAccounts were |
| RbacMeaning.AdminIsClusterAdmin | internal/manifests/rbac.go:131-152 | the admin binding gives the admin, and only the admin, the rules of cluster-admin |
| LivePermissions.LivePermissions | cmd/capishim/setup.go:223-234 | from any store without foreign roleRefs under managed keys, after any history and a full run: the live store permits what its foreign bindings do, what the manifests' bindings permit under aggregation, and cluster-admin to the admin |
| Webhook.RewriteByNamespace | internal/webhookrewrite/webhookrewrite.go:212-238 | the webhooks of either admission kind rewritten in place until one fails |
| Webhook.RewriteCRDByNamespace | internal/webhookrewrite/webhookrewrite.go:274-299 | the conversion webhook of a CRD rewritten in place, if it has one |
| Webhook.RewriteAll | internal/webhookrewrite/webhookrewrite.go:181-207 | every object behind the pointers in turn, repeated pointers and partial work included |
| Urls.PrintedReadsBack | internal/webhookrewrite/webhookrewrite.go:364-367 | a URL printed with any host is read back with that host, or, where the host is no host name, not as a URL of a named host |
| Urls.TidyExactly | internal/webhookrewrite/webhookrewrite.go:364-367 | the characters that leave a path or fragment verbatim are those of sections 3.3 and 3.5 of RFC 3986, and square brackets |
| WebhookLaws.RedirectedExactly | internal/webhookrewrite/webhookrewrite.go:326-370 | which URLs are redirected, loopback names compared by case folding, and where to, stated without a parser |
| WebhookLaws.IsLoopbackExactly | internal/webhookrewrite/webhookrewrite.go:372-377 | the loopback names, without folding: 127.0.0.1, and localhost letter by letter in either case or with a long s |
| WebhookLaws.AddressIsRedirected | internal/webhookrewrite/webhookrewrite.go:341-370 | a URL on 127.0.0.1, an external port and a path of one slug goes to the external host, whatever that is, and nothing else in it changes |
| WebhookLaws.RedirectionKeepsRoute | internal/webhookrewrite/webhookrewrite.go:20-23 | a redirected URL keeps user, port, path, query and fragment as they are printed; with a host that is no host name it reads as no URL of a named host |
| WebhookLaws.RestIsVerbatimExactly | internal/webhookrewrite/webhookrewrite.go:326-331 | path, query and fragment come through verbatim exactly when they are tidy |
| WebhookLaws.EscapedSlashIsLost | internal/webhookrewrite/webhookrewrite.go:364-367 | a path with an escaped slash and a space is redirected to another path |
| WebhookLaws.ServiceURLRedirection | internal/webhookrewrite/webhookrewrite.go:95-99 | when the URL given to a service would itself be redirected |
| WebhookLaws.ServiceURLStaysExactly | internal/webhookrewrite/webhookrewrite.go:95-99 | when a second pass leaves it as it is |
| RewriteLaws.ConfigOutcome | internal/webhookrewrite/webhookrewrite.go:86-112 | the three outcomes of a clientConfig, when each succeeds and what it writes |
| RewriteLaws.ObjectOutcome | internal/webhookrewrite/webhookrewrite.go:209-299 | an object is rewritten exactly when each clientConfig can be, and only those change |
| RewriteLaws.ObjectFailure | internal/webhookrewrite/webhookrewrite.go:209-299 | an object that fails has the clientConfigs before the failing one rewritten and no other part changed; of an unsupported kind it stays as it is |
| RewriteLaws.HeapFailure | internal/webhookrewrite/webhookrewrite.go:181-207 | a failing RewriteAll has rewritten the objects before the failing one whole, that one as far as it goes, and no other |
| RewriteLaws.SucceedsExactly | internal/webhookrewrite/webhookrewrite.go:174-207 | RewriteAll succeeds exactly on supported kinds, reachable targets and a CA where one is needed |
| WebhookLaws.RedirectionSettles | internal/webhookrewrite/webhookrewrite.go:20-23 | whatever the external host, a redirected URL is not redirected again, or only to itself |
| RewriteLaws.SecondPass | internal/webhookrewrite/webhookrewrite.go:16-21 | a second pass changes nothing exactly when the URL given to the service stays put; redirected URLs it never changes |
| RewriteLaws.BothTargetsConflict | internal/webhookrewrite/webhookrewrite.go:224-227 | with service and loopback URL both set the service stays and wins the next pass |
| RewriteLaws.CoreIsRedirectedBySecondPass | internal/config/components.go:33-37 | the shared port sends core's webhook to the external host on a second pass |
| RewriteLaws.SettlesExactly | internal/webhookrewrite/webhookrewrite.go:16-21 | idempotence of the whole rewrite, exactly, by ports, hosts and paths of the services; a fixed point after two passes always |
| RewriteLaws.ServiceURLsTellEndpoints | internal/webhookrewrite/webhookrewrite.go:95-99 | a service URL determines port and path |
| RewriteLaws.SharedPortConfusesEndpoints | internal/webhookrewrite/webhookrewrite.go:301-310 | two endpoints become one URL exactly when their namespaces share a port and their paths agree |
| Pki.StateDir.Write | internal/pki/pki.go:710-723 | empty, fill, set the mode, cut at any of the three |
| Pki.StateDir.EnsureCertificateAuthority | internal/pki/pki.go:406-448 | reuse a valid pair, refuse a broken one, create a missing one, certificate first |
| Pki.StateDir.EnsureOneLeaf | internal/pki/pki.go:560-591 | leave a matching pair, else issue and write certificate then key |
| Pki.StateDir.EnsureServiceAccount | internal/pki/pki.go:593-615 | leave a matching RSA pair, else write key then certificate |
| Pki.StateDir.Generate | internal/pki/pki.go:163-283 | the CA, the fifteen leaves in order, the service account, to the first failure |
| PkiLaws.AcceptedExactly | internal/pki/pki.go:617-629 | a pair is accepted exactly when both files parse and the certificate's public key is the key's |
| PkiLaws.AnchorExactly | internal/pki/pki.go:449-469 | a CA is taken exactly when its key matches and the certificate may sign certificates |
| PkiLaws.InventoryExactly | internal/pki/pki.go:200-257 | the leaves in order, each with its common name, its use and the host it is to name |
| PkiLaws.NewAccountExactly | internal/pki/pki.go:517-545 | a service account pair made anew is an RSA key in a certificate that is no authority |
| PkiLaws.RefusedOutright | internal/pki/pki.go:164-190 | what stops a run before it issues anything, in this order: cancellation, a bad bind address, a CA that is no pair or half there; the disk stays as it is |
| PkiLaws.LeafFailsExactly | internal/pki/pki.go:560-591 | a leaf fails for a host beyond ASCII or at a cut, and until its certificate is whole its key is as it was |
| PkiLaws.AccountFailsExactly | internal/pki/pki.go:593-615 | the service account fails only at a cut, its key being written before its certificate |
| PkiLaws.TrustAnchorIsPermanent | internal/pki/pki.go:164-166 | once valid, neither CA file changes in any history of runs, cuts and damage to other files |
| PkiLaws.BrokenCAIsRefused | internal/pki/pki.go:422-431 | a broken CA makes every run fail with the disk unchanged |
| PkiLaws.BrokenCAIsForGood | internal/pki/pki.go:406-408 | and so it stays, whatever happens to other files |
| PkiLaws.GenerateStaysConsistent | internal/pki/pki.go:257-282 | a run cut anywhere keeps everything on disk anchored to the CA and no key twice |
| PkiLaws.AcceptedPairsAreAnchored | internal/pki/pki.go:617-629 | in every state reached from an empty directory without damage to the CA an accepted leaf pair was signed by the CA on disk, under its own name and usage, and the certificate's public key is that of the key beside it |
| PkiCompletion.GenerateCompletes | internal/pki/pki.go:163-168 | an uninterrupted run completes the inventory exactly when configuration, CA and the hosts still to be certified allow, and success means complete |
| PkiCompletion.CompleteExactly | internal/pki/pki.go:617-629 | the inventory is complete exactly when each certificate file holds the public key of the key file beside it, the CA is an authority and the account key is RSA |
| PkiCompletion.NothingToWriteExactly | quadlet/capishim-setup.container:8 | a run needs no write exactly when the inventory is complete |
| PkiCompletion.SecondRunWritesNothing | internal/pki/pki.go:167-168 | after a successful run the next writes nothing under any valid configuration |
| PkiCompletion.CutDuringCreation | internal/pki/pki.go:433-446 | which cuts during CA creation leave nothing, something broken, or the anchor |
| PkiCompletion.RepairableExactly | internal/pki/pki.go:422-447 | the next full run whose hosts can be certified repairs exactly the cuts that did not fall between emptying ca.crt and filling ca.key |
| PkiCompletion.AnchoredHistoriesRecover | internal/pki/pki.go:560-591 | once the CA stands, any history that spares it is repaired by one full run whose hosts can be certified, and by no other |
| PkiCompletion.IssuedLeafOutlivesCAExactly | internal/pki/pki.go:184-186 | a leaf issued now, by a run that succeeds or not, outlives the CA exactly when the CA is from an earlier time |
| PkiCompletion.ReissuedLeafOutlivesCA | internal/pki/pki.go:184-186 | a leaf lost and issued anew an hour after the CA outlives it |
| PkiCompletion.LeavesChainExactly | internal/pki/pki.go:560-562 | after a successful run a leaf chains to the CA exactly when the run issued it or the CA it found had signed it |
| PkiCompletion.LostCAUnchainsLeaves | internal/pki/pki.go:617-629 | with both CA files lost the next run succeeds, and no leaf chains to its CA |
| PkiCompletion.StandingLeavesAreNeverReissued | internal/pki/pki.go:563-566 | standing pairs keep their certificates whatever the configuration |
| PkiCompletion.WebhookHostNamedExactly | internal/pki/pki.go:90-95 | the external webhook's certificate names the configured host exactly when the run issued it or found one that did |
| PkiCompletion.ChangedHostIsNotNamed | internal/pki/pki.go:90-95 | a host configured after the first run is not named |
| AtomicFile.Directory.WriteFileAtomic | cmd/capishim/setup.go:506-538 | old bytes until the rename and new ones after, whatever fails; no temporary file left where it can be removed |

## Left out

- YAML decoding, the real Kubernetes clients, the health probe and its TLS: foreign
  libraries; a file is its documents or a failure to load.
- Typed conversion: `FromUnstructured` and `ToUnstructured` are a parameter, assumed to keep
  an object's kind, namespace, name and resourceVersion (`Faithful`) and, where it matters, to
  read the URL and service that are written (`ReadsTargets`); ConvertersExist has one that does.
- net/url: its rules for reading and printing are written out in Urls, a character standing
  for a byte. A host in brackets is an IPv6 address, no loopback name, and is not read further.
- clientConfigs are values rewritten by functions that return the new one; the loops over
  webhooks and objects work in place, so what an error leaves behind is modelled there.
- SettlesExactly: supposes clientConfigs that do not name both a service and a URL, as the
  API has it; BothTargetsConflict says what happens to one that does.
- SetupConverges: supposes a run that nothing outside setup stops and a store without foreign
  roleRefs under managed keys; InvocationCompletesExactly shows each part of that to be necessary.
- PermissionsPreserved: supposes ServiceAccount subjects that have names, as the API has it, and
  concrete roles, which RedirectingIsFaithfulExactly shows to be what every single binding
  needs; unions of bindings may mask a difference.
- RunSetup: the kubeconfigs at the end of the subcommand are not written in it; the health check
  is an answer or none.
- ServiceURLRedirection: supposes a path that starts with a slash or is empty, as the API has it;
  SecondPass and SettlesExactly do without, through the guard of the redirection itself.
- Error texts: errors keep what tells them apart and the names they carry.
- Label selectors other than matchLabels, the apiGroup of subjects, non-resource rules and the groups a
  ServiceAccount belongs to implicitly, in the meaning of RBAC.
- Other writers to the apiserver, status, defaulting and namespace existence: not decided
  by this code. Content means everything an object says but its resourceVersion.
- Cryptography, PEM and X.509 encoding, file modes, directories and unreadable files:
  a file is garbage, a certificate or a key; keys are drawn fresh. The name lists of
  serving certificates are reduced to the configured host that joins them, names are
  compared as they are spelt, and a name is refused for not being ASCII alone.
- The configuration loader, the kubeconfig format, quadlet units, image tags, the e2e
  driver: table lookups and assembly; the component table appears as constants.
- Concrete random temporary names: WriteFileAtomic is given one that is free and is not
  the target.
