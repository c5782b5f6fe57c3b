# EdgeLake operator reconcilers, modelled in Dafny

EdgeLake nodes run on Kubernetes under an operator that watches
`EdgeLakeOperator` custom resources. For each resource it keeps a set of
child objects in line with the resource's spec:

- a ConfigMap of environment variables for the node;
- a Secret with inline credentials (Python operator only);
- up to four PersistentVolumeClaims (anylog, blockchain, data, scripts);
- a Service;
- a single-replica Deployment.

The repository has two implementations of this reconciler. They differ in
observable ways, and this project models them as two separate families of
modules that share only primitive helpers.

**Python operator** (kopf handlers; modules `Py*`):

- `PyNames` derives the eight object names and the status endpoints from the resource name.
- `PySpec` holds the spec datatypes, their defaults, the field constraints and `has_inline_secrets`.
- `PyStatus` holds the phases, the conditions and the replace-by-type `set_condition`.
- `PyValidation` is the semantic validator. It collects every error and never stops early.
- `PyConfigMap`, `PySecret`, `PyPvc`, `PyService` and `PyDeployment` are the five manifest builders.
- `PyKubernetes` is the apply layer over an API server reduced to an in-memory object store:
  - create if absent, replace if present;
  - `resourceVersion` and a Service's `clusterIP` are carried forward;
  - claims are create-only;
  - a delete answered with 404 counts as done.
- `PyOperator`:
  - the three diff classifiers;
  - the write plans of create and update;
  - the create, update, delete and timer handlers.

**Go operator** (controller-runtime reconciler; modules `Go*`):

- `GoDefaults` is `setDefaults`, filling every unset field section by section.
- `GoLabels`, `GoConfigMap`, `GoService`, `GoPvc` and `GoDeployment` are the builders.
- `GoCluster` is the client over an in-memory store of objects and custom resources.
- `GoDecode` is how the client decodes a server reply into an object that already holds values.
- `GoApply` is the reconcile step each `reconcile*` function performs, and their ordered sequence:
  - a ConfigMap update copies only the data;
  - a Service update copies only ports, type and selector, so its ClusterIP is kept;
  - a Deployment update copies the spec;
  - a claim is never updated.
- `GoStatus` is the condition and finalizer bookkeeping and the readiness-to-phase rule.
- `GoController` is `Reconcile` and its helpers, as methods over the client and the fetched copy of the resource.
  - Every status write that goes through decodes the server's reply, the stored resource, into the copy (`GoDecode`, `GoCluster.StatusReply`). Every field of the spec is `omitempty`, so what the store leaves unset is absent from the reply and keeps the copy's value.
  - The defaults `setDefaults` filled in memory therefore survive the write. The copy already holds every field the store sets, so it comes back unchanged (`GoDecode.DecodeIntoDefaulted`, `GoController.DefaultedCopyKept`).
  - The builders always work from the defaulted spec. They never meet a nil section, and the live path never panics (`GoController.ReconcileLive`). `reconcileResources` is modelled for any copy, and on a copy with a nil section it panics.

**Shared modules:**

- `Common`: Option, substring containment, decimal and boolean rendering, and joins.
- `Base64`: section 4 of RFC 4648.
- `Utf8`: section 3 of RFC 3629.

The two builders of the ConfigMap behave differently:

- The Python ConfigMap never holds a password or the licence key. Those go to the Secret, or are referenced from a user Secret.
- The Go ConfigMap writes the inline licence key and the three inline passwords as plain values (`GoConfigMap.InlineCredentialsWritten`).

Where the source's own comments and docstrings say otherwise, the model follows the code:

- The docstring of `_config_fields_changed` says it detects the changes that need a new ConfigMap (kube-operator/src/edgelake_operator/operator.py:325). The Python ConfigMap leaves every password to the Secret (kube-operator-py/src/edgelake_operator/resources/configmap.py:143-149). Yet an edit of a credential field such as `database.password` counts as a config change, because its dotted path contains a config section name as a substring (`PyOperator.CredentialFieldEdit`). Such an edit also rebuilds the ConfigMap and the Deployment.
- The Python validators document the ledger connection as `host:port` (kube-operator-py/src/edgelake_operator/utils/validation.py:51 and :116). They use `re.match` with a pattern ending in `$`, which also accepts one trailing newline, and the model accepts it as well.

Code that changes state step by step is modelled imperatively:

- The Python apply layer is a class `PyKubernetes.ApiServer` holding the store.
- The Go client is a class `GoCluster.Client`.
- The fetched Go resource is a class `GoTypes.Instance`, whose spec, finalizers and status `Reconcile` changes in place.
- The builders that assign fields and append to lists are methods, each proved equal to a specification function about which the properties are stated.

## Model

| member | source | states |
|---|---|---|
| Common.BoolStr | kube-operator-py/src/edgelake_operator/resources/configmap.py:38-39 | Python's `str(b).lower()`: the text is exactly "true" or "false", and "true" exactly when `b` holds |
| Common.Decimal | kube-operator-py/src/edgelake_operator/resources/configmap.py:41-42 | `str(n)` of a natural number: non-empty decimal digits with no leading zero |
| Common.ParseDecimal | kube-operator-py/src/edgelake_operator/resources/configmap.py:41-42 | the decimal rendering of `n` parses back to `n` |
| Common.IntStr | kube-operator-py/src/edgelake_operator/resources/configmap.py:41-42 | `str(i)`: the decimal digits of the absolute value of `i`, with a leading '-' exactly when `i` is negative |
| Common.IntStrRoundTrip | kube-operator-py/src/edgelake_operator/resources/configmap.py:41-42 | the rendering determines the integer: parsing `str(i)` gives back `i` |
| Common.ContainsExtended | kube-operator/src/edgelake_operator/operator.py:342-344 | Python `needle in hay`: a substring of `hay` is also a substring of any text around `hay` |
| Common.JoinContainsParts | kube-operator/src/edgelake_operator/operator.py:62-65 | `"; ".join(errors)`: every error string appears in the joined message |
| Base64.Alphabet | kube-operator-py/src/edgelake_operator/resources/secret.py:63-65 | each 6-bit group maps to a character of the RFC 4648 table 1 alphabet |
| Base64.IndexOf | kube-operator-py/src/edgelake_operator/resources/secret.py:63-65 | an alphabet character's position maps back to that character |
| Base64.IndexOfAlphabet | kube-operator-py/src/edgelake_operator/resources/secret.py:63-65 | the alphabet is injective: looking up the character of group `i` gives `i` |
| Base64.Encode | kube-operator-py/src/edgelake_operator/resources/secret.py:63-65 | `b64encode` output is a whole number of four-character blocks, empty exactly for no octets |
| Base64.EncodeLength | kube-operator-py/src/edgelake_operator/resources/secret.py:63-65 | the output has exactly 4 * ceil(n / 3) characters for n octets |
| Base64.BlockRoundTrip | kube-operator-py/src/edgelake_operator/resources/secret.py:63-65 | three octets split into four groups and joined back are the same octets |
| Base64.DecodeBlockPrefix | kube-operator-py/src/edgelake_operator/resources/secret.py:63-65 | a full encoded block in front of decodable text decodes to its three octets in front of that text's octets |
| Base64.DecodeOne | kube-operator-py/src/edgelake_operator/resources/secret.py:63-65 | one octet (two padding characters) decodes back to itself |
| Base64.DecodeTwo | kube-operator-py/src/edgelake_operator/resources/secret.py:63-65 | two octets (one padding character) decode back to themselves |
| Base64.DecodeEncodeBlock | kube-operator-py/src/edgelake_operator/resources/secret.py:63-65 | when the octets after the first three survive the round trip, so does the whole sequence |
| Base64.DecodeEncode | kube-operator-py/src/edgelake_operator/resources/secret.py:63-65 | decoding the encoding of any octet sequence gives it back |
| Utf8.EncodeChar | kube-operator-py/src/edgelake_operator/resources/secret.py:63-65 | `str.encode()` writes each character as one to four octets |
| Utf8.DecodeCharPrefix | kube-operator-py/src/edgelake_operator/resources/secret.py:63-65 | a decoded prefix consumes between one and four octets of the input |
| Utf8.DecodeTwoOctets | kube-operator-py/src/edgelake_operator/resources/secret.py:63-65 | a character in U+0080..U+07FF decodes from its two octets, whatever follows |
| Utf8.DecodeThreeOctets | kube-operator-py/src/edgelake_operator/resources/secret.py:63-65 | a character in U+0800..U+FFFF, surrogates excluded, decodes from its three octets |
| Utf8.DecodeFourOctets | kube-operator-py/src/edgelake_operator/resources/secret.py:63-65 | a character above U+FFFF decodes from its four octets |
| Utf8.DecodeCharEncodeChar | kube-operator-py/src/edgelake_operator/resources/secret.py:63-65 | the encoding of any character, followed by anything, decodes back to that character and its length |
| Utf8.DecodeEncode | kube-operator-py/src/edgelake_operator/resources/secret.py:63-65 | strict decoding of the encoding of any string gives it back |
| Utf8.EncodeInjective | kube-operator-py/src/edgelake_operator/resources/secret.py:63-65 | two strings with the same encoding are equal |
| PyNames.AllNames | kube-operator/src/edgelake_operator/operator.py:292-303 | the derived names are exactly eight |
| PyNames.GenerateResourceNames | kube-operator/src/edgelake_operator/operator.py:292-303 | each of the eight names is the resource name followed by its own fixed suffix, in dictionary order |
| PyNames.SuffixesDistinct | kube-operator/src/edgelake_operator/operator.py:294-302 | the eight suffixes are pairwise distinct |
| PyNames.PrefixCancels | kube-operator/src/edgelake_operator/operator.py:294-302 | two names with the same prefix are equal only if their suffixes are |
| PyNames.ResourceNamesDistinct | kube-operator/src/edgelake_operator/operator.py:292-303 | for every resource name the eight derived object names are pairwise distinct |
| PyNames.HostPortRoundTrip | kube-operator/src/edgelake_operator/operator.py:313-314 | an endpoint `host:port` holds the host, then ':', then text that parses back to the port |
| PyNames.BuildEndpoints | kube-operator/src/edgelake_operator/operator.py:306-321 | tcp and rest are always `<service>.<ns>.svc.cluster.local:<port>`; broker is absent exactly when the broker port is falsy, otherwise the same form with the broker port |
| PySpec.Credentials | kube-operator/src/edgelake_operator/models/spec.py:372-381 | the four credentials that `has_inline_secrets` inspects, database first, licence key last |
| PySpec.HasInlineSecretsIff | kube-operator/src/edgelake_operator/models/spec.py:372-381 | `has_inline_secrets` holds exactly when one of the four credentials has an inline value and no Secret reference |
| PySpec.RefsOnlyHaveNoInlineSecrets | kube-operator/src/edgelake_operator/models/spec.py:372-381 | when every credential has a Secret reference, there are no inline secrets whatever the inline values |
| PySpec.WellFormedBrokerTruthy | kube-operator/src/edgelake_operator/models/spec.py:142-144 | on a parsed spec (ports in 1..65535) a given broker port is truthy, so "truthy" and "given" coincide |
| PySpec.MinimalSpecDefaults | kube-operator/src/edgelake_operator/models/spec.py:99-108 | a resource giving only the required sections gets persistence on and retained, ReadWriteOnce, sizes 5Gi/1Gi/10Gi/1Gi, ports 32148/32149, no broker port, a NodePort Service, and partitioning on with "*", insert_timestamp, "14 days", keep 3, "1 day" |
| PyStatus.FirstOfType | kube-operator/src/edgelake_operator/models/status.py:105-108 | the index found is that of the first condition of the type, or -1 when no condition has it |
| PyStatus.UpsertReplacesFirst | kube-operator/src/edgelake_operator/models/status.py:105-108 | with the type present, the first condition of that type is overwritten in place and nothing else changes |
| PyStatus.UpsertAppends | kube-operator/src/edgelake_operator/models/status.py:110-111 | with the type absent, the new condition is appended at the end |
| PyStatus.UpsertLength | kube-operator/src/edgelake_operator/models/status.py:94-111 | the list grows by at most one element and holds the new condition afterwards |
| PyStatus.OtherTypesAppend | kube-operator/src/edgelake_operator/models/status.py:94-111 | filtering out one type distributes over concatenation |
| PyStatus.OtherTypesReplace | kube-operator/src/edgelake_operator/models/status.py:105-108 | overwriting a condition of type `t` leaves the conditions of every other type as they were |
| PyStatus.UpsertKeepsOthers | kube-operator/src/edgelake_operator/models/status.py:94-111 | conditions of other types, and their relative order and positions, are unchanged |
| PyStatus.UpsertKeepsTypesUnique | kube-operator/src/edgelake_operator/models/status.py:94-111 | setting a condition on a list with unique types keeps the types unique |
| PyStatus.OperatorStatus.constructor | kube-operator/src/edgelake_operator/models/status.py:81-89 | a new status is Pending with no conditions, no PVC names and every optional field unset |
| PyStatus.OperatorStatus.SetCondition | kube-operator/src/edgelake_operator/models/status.py:94-111 | the loop leaves the condition list equal to the replace-first-or-append specification |
| PyManifest.ParseKind | kube-operator/src/edgelake_operator/utils/kubernetes.py:45-56 | a kind string selects the supported kind whose name it is, and none when no supported kind has that name |
| PyManifest.KindOf | kube-operator/src/edgelake_operator/utils/kubernetes.py:45-56 | a manifest has a kind exactly when it is not of an unsupported kind |
| PyManifest.Adopt | kube-operator/src/edgelake_operator/operator.py:76 | `kopf.adopt` marks the object as owned by the custom resource and changes neither its kind nor its other metadata |
| PyManifest.Labels | kube-operator-py/src/edgelake_operator/resources/configmap.py:207-213 | the four standard labels: name, component and managed-by are fixed, instance is the resource name |
| PyManifest.SelectorLabels | kube-operator-py/src/edgelake_operator/resources/service.py:87-93 | the three selector labels: name is fixed, instance and app are the resource name |
| PyManifest.SelectorSharesNameAndInstance | kube-operator-py/src/edgelake_operator/resources/service.py:77-93 | the selector agrees with the labels on name and instance, and `app` is a selector-only label |
| PySecret.EncodeValueRoundTrip | kube-operator-py/src/edgelake_operator/resources/secret.py:63-65 | a consumer decoding a stored value (Base64, then UTF-8) reads back exactly the inline string |
| PySecret.EncodeValueInjective | kube-operator-py/src/edgelake_operator/resources/secret.py:63-65 | different inline strings are stored as different values |
| PySecret.HasInlineSecretsByKey | kube-operator-py/src/edgelake_operator/resources/secret.py:31-45 | `has_inline_secrets` holds exactly when some Secret key's credential is inline-only |
| PySecret.InsertIfInline | kube-operator-py/src/edgelake_operator/resources/secret.py:32-33 | one guarded insertion: the key gets the encoded value exactly when the credential is inline-only, otherwise the data is unchanged; the step is `PySecret.WithInline` |
| PySecret.SecretData | kube-operator-py/src/edgelake_operator/resources/secret.py:29-45 | each of db-password, nosql-password, mqtt-password and license-key is present exactly when its credential has a truthy inline value and no reference, and holds that value's encoding; the whole map is `PySecret.SecretDataOf` |
| PySecret.BuildSecret | kube-operator-py/src/edgelake_operator/resources/secret.py:9-60 | None exactly when no credential is inline-only (so exactly when `has_inline_secrets` fails); otherwise an Opaque Secret named from the derived names with the four labels, whose keys are the inline-only credentials and whose values decode back to the inline strings; the result is `PySecret.SecretOf`, the value the handlers are held to |
| PyPvc.BuildPvc | kube-operator-py/src/edgelake_operator/resources/pvc.py:68-98 | one claim: the given name, namespace and labels, `accessModes == [accessMode]`, the requested size, and a storage class exactly when the class is truthy |
| PyPvc.PvcNames | kube-operator/src/edgelake_operator/operator.py:298-301 | the claim names are the last four derived names, anylog, blockchain, data, scripts |
| PyPvc.PvcSizes | kube-operator-py/src/edgelake_operator/resources/pvc.py:35-59 | four requested sizes, one per claim |
| PyPvc.BuildPvcs | kube-operator-py/src/edgelake_operator/resources/pvc.py:8-65 | no claims exactly when persistence is disabled; otherwise exactly four in the order anylog, blockchain, data, scripts, each with its own derived name and size and the shared mode, class and labels; claim i is `PyPvc.ClaimOf` i |
| PyPvc.ClaimOf | kube-operator-py/src/edgelake_operator/resources/pvc.py:8-65 | claim i carries the i-th derived claim name, the namespace and the four labels, the shared access mode, the i-th volume size, and the storage class exactly when it is truthy |
| PyPvc.PvcNamesDistinct | kube-operator/src/edgelake_operator/operator.py:298-301 | for derived names the four claims have four different names |
| PyService.BuildService | kube-operator-py/src/edgelake_operator/resources/service.py:8-74 | type is the service type, selector the selector labels, no clusterIP; ports tcp-server and rest-api, plus mqtt-broker exactly when the broker port is truthy; every port targets its own number over TCP, and has a nodePort (equal to its port) exactly under NodePort; the result is `PyService.ServiceOf`, the value the handlers are held to |
| PyService.PortOf | kube-operator-py/src/edgelake_operator/resources/service.py:29-59 | a port is named as given, exposes and targets its number over TCP, and has that number as its nodePort exactly under NodePort |
| PyDeployment.BuildVolumes | kube-operator-py/src/edgelake_operator/resources/deployment.py:138-167 | four volumes named like the four mounts; claim-backed exactly when persistence is enabled, then mounting the derived claim names in order, otherwise emptyDir |
| PyDeployment.VolumesUseBuiltClaims | kube-operator-py/src/edgelake_operator/resources/deployment.py:138-160 | every claim a volume mounts is a claim that `build_pvcs` creates for the same spec |
| PyDeployment.CredentialVar | kube-operator-py/src/edgelake_operator/resources/deployment.py:170-280 | each credential is exposed as one of the four credential variables |
| PyDeployment.CredentialVarInjective | kube-operator-py/src/edgelake_operator/resources/deployment.py:170-280 | different credentials are exposed as different variables |
| PyDeployment.CredentialEnvList | kube-operator-py/src/edgelake_operator/resources/deployment.py:177-200 | one credential contributes at most one entry, named after its variable, exactly when the precedence rule gives it one |
| PyDeployment.AppendCredentialEnv | kube-operator-py/src/edgelake_operator/resources/deployment.py:177-200 | one `if ref … elif value …` step appends exactly that credential's entry |
| PyDeployment.BuildSecretEnvVars | kube-operator-py/src/edgelake_operator/resources/deployment.py:170-280 | the four conditional appends build the credential entries in the order database, NoSQL, MQTT, licence |
| PyDeployment.SecretEnvSound | kube-operator-py/src/edgelake_operator/resources/deployment.py:170-280 | at most four entries, each a credential variable produced by the precedence rule of its own credential |
| PyDeployment.SecretEnvComplete | kube-operator-py/src/edgelake_operator/resources/deployment.py:170-280 | a credential gets an entry exactly when it has a reference or a truthy inline value, and then the entry is in the list |
| PyDeployment.RankedConcat | kube-operator-py/src/edgelake_operator/resources/deployment.py:170-280 | the four parts, appended in rank order, keep that order |
| PyDeployment.PartRanked | kube-operator-py/src/edgelake_operator/resources/deployment.py:177-200 | one credential's part is ranked at its own variable's position |
| PyDeployment.RankedPartsDistinct | kube-operator-py/src/edgelake_operator/resources/deployment.py:170-280 | four parts at increasing ranks join into a list without a repeated variable name |
| PyDeployment.SecretEnvAtMostOnce | kube-operator-py/src/edgelake_operator/resources/deployment.py:170-280 | no credential variable occurs twice among the entries |
| PyDeployment.GeneratedKeysAreStored | kube-operator-py/src/edgelake_operator/resources/deployment.py:189-199 | an entry for a credential without a reference names the generated Secret and that credential's Secret key, and the credential is inline-only, so `build_secret` stores that key |
| PyDeployment.BuildDeployment | kube-operator-py/src/edgelake_operator/resources/deployment.py:14-135 | one replica; selector and pod labels are the selector labels; the config-hash annotation on the pod template exactly when the hash is truthy, otherwise none; one container; the built volumes; imagePullSecrets exactly when a pull secret is named; the result is `PyDeployment.DeploymentOf`, the value the handlers are held to |
| PyDeployment.BuildNodeContainer | kube-operator-py/src/edgelake_operator/resources/deployment.py:63-106 | the container has image `repo:tag`, envFrom naming only the ConfigMap, the two or three ports, exactly four mounts, and an `env` key exactly when the credential entries are non-empty; the result is `PyDeployment.NodeContainerOf` |
| PyKubernetes.WithVersion | kube-operator/src/edgelake_operator/utils/kubernetes.py:112 | the manifest with the given `resourceVersion` and nothing else changed |
| PyKubernetes.CarriedForward | kube-operator/src/edgelake_operator/utils/kubernetes.py:105-164 | a replace carries the existing `resourceVersion` forward, and for a Service the existing `clusterIP` too; nothing else of the old object is kept |
| PyKubernetes.ApiServer.constructor | kube-operator/src/edgelake_operator/utils/kubernetes.py:28-59 | an empty store with the given injected faults and readiness reports |
| PyKubernetes.ApiServer.Read | kube-operator/src/edgelake_operator/utils/kubernetes.py:111 | a read answers the injected error, a 404 when absent, or the stored object |
| PyKubernetes.ApiServer.Create | kube-operator/src/edgelake_operator/utils/kubernetes.py:117 | a create answers 409 when the name is taken; otherwise stores the manifest under a fresh version |
| PyKubernetes.ApiServer.Replace | kube-operator/src/edgelake_operator/utils/kubernetes.py:113 | a replace succeeds exactly when the object exists and no fault is injected, and then stores the manifest under a fresh version |
| PyKubernetes.ApiServer.Delete | kube-operator/src/edgelake_operator/utils/kubernetes.py:76-90 | a delete answers the injected error, a 404 when absent, or removes exactly that object |
| PyKubernetes.ApplyByReplace | kube-operator/src/edgelake_operator/utils/kubernetes.py:105-184 | read, then replace with the carried `resourceVersion`, or create on 404, or re-raise another error: the store ends as the apply specification says |
| PyKubernetes.ApplyService | kube-operator/src/edgelake_operator/utils/kubernetes.py:145-164 | as the apply specification says, with the existing `clusterIP` copied as well |
| PyKubernetes.ApplyPvc | kube-operator/src/edgelake_operator/utils/kubernetes.py:187-204 | an existing claim is returned and the store is unchanged; on 404 the claim is created; another error propagates |
| PyKubernetes.ApplyResource | kube-operator/src/edgelake_operator/utils/kubernetes.py:28-59 | dispatch on the kind; an unsupported kind is a ValueError that leaves the store untouched |
| PyKubernetes.DeleteResource | kube-operator/src/edgelake_operator/utils/kubernetes.py:62-102 | True when deleted, False for a 404 or an unknown kind, other errors propagate, as the delete specification says |
| PyKubernetes.CheckDeploymentReady | kube-operator/src/edgelake_operator/utils/kubernetes.py:207-225 | `(readyReplicas or 0) >= (replicas or 1)`, and false on any API error |
| PyKubernetes.ApplyFailsOnlyOn | kube-operator/src/edgelake_operator/utils/kubernetes.py:55-59 | apply fails exactly for an unsupported kind or an injected API error on that object, returns that error unchanged, and a failed apply changes nothing |
| PyKubernetes.ApplyStores | kube-operator/src/edgelake_operator/utils/kubernetes.py:105-204 | a successful apply stores what it returns under the manifest's key, changes no other object, creates an absent object as given (with its version), replaces a present one carrying its version (and a Service's clusterIP), and leaves an existing claim as it was |
| PyKubernetes.ApplyTwice | kube-operator/src/edgelake_operator/utils/kubernetes.py:105-184 | applying a manifest twice first creates or replaces, then replaces without error; the second apply changes only the `resourceVersion`, and for a claim nothing |
| PyKubernetes.DeleteLeavesAbsent | kube-operator/src/edgelake_operator/utils/kubernetes.py:62-102 | after True or a 404 False the object is absent; True exactly when it was present and not faulted; any failure is a non-404 error that changes nothing; no other object changes |
| PyKubernetes.DeleteUnknownKind | kube-operator/src/edgelake_operator/utils/kubernetes.py:91-93 | an unknown kind is answered False and nothing is deleted |
| PyKubernetes.ReadyNeedsReplicas | kube-operator/src/edgelake_operator/utils/kubernetes.py:219-225 | a ready Deployment asking for a non-negative number of replicas has at least one ready replica; an absent or unreadable one is never ready |
| PyValidation.ErrorIf | kube-operator-py/src/edgelake_operator/utils/validation.py:21-22 | one rule contributes at most one message: its own message exactly when it is violated |
| PyValidation.StorageKeeps | kube-operator-py/src/edgelake_operator/utils/validation.py:47-65 | the ledger and database rules only append, so an earlier message stays |
| PyValidation.FeaturesKeep | kube-operator-py/src/edgelake_operator/utils/validation.py:67-82 | the feature rules only append |
| PyValidation.ServiceKeeps | kube-operator-py/src/edgelake_operator/utils/validation.py:84-102 | the service-type and node-port rules only append |
| PyValidation.PartitionKeeps | kube-operator-py/src/edgelake_operator/utils/validation.py:104-107 | the partition rule only appends |
| PyValidation.ValidIffAccepted | kube-operator-py/src/edgelake_operator/utils/validation.py:18-109 | there is no message at all exactly when every rule holds |
| PyValidation.DuplicateNodePortReportsRange | kube-operator-py/src/edgelake_operator/utils/validation.py:41-45 | under NodePort, equal server and REST ports outside 30000..32767 give the clash message and both node-port range messages |
| PyValidation.DuplicateClusterIpPortsOnlyClash | kube-operator-py/src/edgelake_operator/utils/validation.py:41-45 | under ClusterIP, equal in-range ports give only the clash message and no range message |
| PyValidation.WellFormedPassesParsedRules | kube-operator-py/src/edgelake_operator/utils/validation.py:20-52 | a spec the parser accepted passes the required-field, port-range and ledger-format rules, so only the clash rule of those can fire |
| PyValidation.FirstColon | kube-operator-py/src/edgelake_operator/utils/validation.py:121-122 | the position of the first ':' of the string, or none when there is no ':' |
| PyValidation.SplitIsFirstColon | kube-operator-py/src/edgelake_operator/utils/validation.py:121-122 | a `host:digits` split can only be at the first colon, because the host has no ':' |
| PyValidation.LedgerMatchIff | kube-operator-py/src/edgelake_operator/utils/validation.py:121-124 | the two-group matcher succeeds exactly when the format pattern of `validate_spec` matches |
| PyValidation.ValidateLedgerConnection | kube-operator-py/src/edgelake_operator/utils/validation.py:112-131 | None exactly when the text, less one optional final newline, is `host:digits` with the port in 1..65535; the format message whenever the pattern fails, and the port message with the parsed port whenever it matches and the port is out of range |
| PyValidation.SplitPortUnique | kube-operator-py/src/edgelake_operator/utils/validation.py:121-127 | the port group is determined: a matching string splits in only one place |
| PyValidation.FormatRuleIgnoresPortRange | kube-operator-py/src/edgelake_operator/utils/validation.py:48-52 | `validate_spec` checks only the format: "ledger:0" passes it and fails `validate_ledger_connection` |
| PyValidation.AppendIf | kube-operator-py/src/edgelake_operator/utils/validation.py:21-22 | one `if violated: errors.append(message)` step appends exactly the rule's messages |
| PyValidation.CheckRequired | kube-operator-py/src/edgelake_operator/utils/validation.py:20-30 | the five required-field checks append what the required-field rules specify |
| PyValidation.CheckPorts | kube-operator-py/src/edgelake_operator/utils/validation.py:32-45 | the range checks and the uniqueness check append what the port rules specify |
| PyValidation.DistinctCount | kube-operator-py/src/edgelake_operator/utils/validation.py:41-45 | `len(ports) != len(set(ports))` holds exactly when two of the two or three ports coincide |
| PyValidation.CheckStorage | kube-operator-py/src/edgelake_operator/utils/validation.py:47-65 | the ledger-format, database-type and PostgreSQL checks append what their rules specify |
| PyValidation.CheckFeatures | kube-operator-py/src/edgelake_operator/utils/validation.py:67-82 | MQTT needs a broker, OPC-UA a url, EtherIP a url unless simulated |
| PyValidation.CheckService | kube-operator-py/src/edgelake_operator/utils/validation.py:84-102 | a service type outside ClusterIP/NodePort/LoadBalancer is reported; under NodePort the server and REST ports (not the broker's) are each checked against 30000..32767 |
| PyValidation.ValidateSpec | kube-operator-py/src/edgelake_operator/utils/validation.py:9-109 | every rule is evaluated in the fixed order without returning early; the result is empty exactly when every rule holds |
| PyConfigMap.Tagged | kube-operator-py/src/edgelake_operator/resources/configmap.py:26-113 | the keys of one group are its variables, each tagged with the group |
| PyConfigMap.AllEnvKeysComplete | kube-operator-py/src/edgelake_operator/resources/configmap.py:26-192 | the groups together list every variable the ConfigMap can hold |
| PyConfigMap.DataFromAt | kube-operator-py/src/edgelake_operator/resources/configmap.py:121-188 | inserting the present entries of a key list one by one: a key is in the result exactly when it is in the list and its entry is present, with the entry's value |
| PyConfigMap.DataAt | kube-operator-py/src/edgelake_operator/resources/configmap.py:26-192 | one key of `data` is present exactly when its table entry is, with that entry's value |
| PyConfigMap.DataIsTable | kube-operator-py/src/edgelake_operator/resources/configmap.py:26-192 | the keys of `data` are exactly the present table entries, and its values are their values |
| PyConfigMap.BuildConfigMap | kube-operator-py/src/edgelake_operator/resources/configmap.py:9-213 | named from the derived names with the four labels; IS_KUBERNETES "true", INIT_TYPE "prod", NODE_TYPE "operator" and PROXY_IP `<service>.<ns>.svc.cluster.local` are always present, whatever the spec |
| PyConfigMap.CredentialEntriesAbsent | kube-operator-py/src/edgelake_operator/resources/configmap.py:116-119 | the table has no entry for any of the four credential variables |
| PyConfigMap.NoCredentialKeys | kube-operator-py/src/edgelake_operator/resources/configmap.py:116-149 | no password or licence-key variable is ever a key of the ConfigMap |
| PyConfigMap.NetworkingEntries | kube-operator-py/src/edgelake_operator/resources/configmap.py:40-49 | ports, threads and timeout are decimals that parse back to the fields; binds are rendered booleans; OVERLAY_IP, CONFIG_NAME, NIC_TYPE appear exactly when truthy; ANYLOG_BROKER_PORT exactly when the broker port is truthy |
| PyConfigMap.DatabaseEntries | kube-operator-py/src/edgelake_operator/resources/configmap.py:50-56 | type, host, port and flags always; DB_USER exactly when truthy; never DB_PASSWD |
| PyConfigMap.NoSqlEntries | kube-operator-py/src/edgelake_operator/resources/configmap.py:57-63 | the NoSQL keys always; NOSQL_USER exactly when truthy; never NOSQL_PASSWD |
| PyConfigMap.LedgerEntries | kube-operator-py/src/edgelake_operator/resources/configmap.py:64-75 | SYNC_TIME and BLOCKCHAIN_SYNC both carry `blockchain.syncTime`; the operator keys carry the operator section; MEMBER exactly when truthy |
| PyConfigMap.PartitionEntries | kube-operator-py/src/edgelake_operator/resources/configmap.py:76-82 | the partitioning keys carry the partitioning section |
| PyConfigMap.MqttEntries | kube-operator-py/src/edgelake_operator/resources/configmap.py:83-86 | flags and port always; MQTT_BROKER and MQTT_USER exactly when truthy; never MQTT_PASSWD; the five MSG_* keys and MSG_TOPIC exactly when the topic is set, with MSG_DBMS the message's dbms falling back to the operator's default database |
| PyConfigMap.NodeEntries | kube-operator-py/src/edgelake_operator/resources/configmap.py:96-109 | the monitoring, MCP and advanced settings are always present, rendered from their fields |
| PyConfigMap.EraseCredentials | kube-operator-py/src/edgelake_operator/resources/configmap.py:116-119 | the spec with every password and the licence key removed has no inline secrets and four empty credentials |
| PyConfigMap.EntryIgnoresCredentials | kube-operator-py/src/edgelake_operator/resources/configmap.py:116-149 | erasing the credentials changes no table entry |
| PyConfigMap.ConfigMapIgnoresCredentials | kube-operator-py/src/edgelake_operator/resources/configmap.py:116-149 | no credential value can reach the ConfigMap: the manifest is the same with all credentials erased |
| PyOperator.AnyEditMentions | kube-operator/src/edgelake_operator/operator.py:341-345 | the scan of the diff answers true exactly when some edit's dotted path contains one of the needles as a substring |
| PyOperator.NetworkingChangeIsConfigChange | kube-operator/src/edgelake_operator/operator.py:359-365 | whenever the networking classifier fires the config classifier fires too, since "networking" is one of the config sections (operator.py lines 326-340) |
| PyOperator.CredentialEditIsSecretAndConfigChange | kube-operator/src/edgelake_operator/operator.py:341-356 | an edit whose path has a config section as one segment and a secret fragment as another makes both the secret and the config classifier fire |
| PyOperator.CredentialFieldEdit | kube-operator/src/edgelake_operator/operator.py:348-356 | editing `database.password`, `database.nosql.password`, `mqtt.password` or `general.licenseKey` counts as both a secret change and a config change |
| PyOperator.PvcSteps | kube-operator/src/edgelake_operator/operator.py:90-101 | the claim writes are the four claims anylog, blockchain, data and scripts in that order, named by the generated names |
| PyOperator.CreatePlanShape | kube-operator/src/edgelake_operator/operator.py:73-118 | a create writes the Secret first exactly when there are inline credentials, then the ConfigMap, the four claims only with persistence enabled, then the Service and last the Deployment |
| PyOperator.CreatePlanDistinct | kube-operator/src/edgelake_operator/operator.py:292-303 | with the generated names no object is written twice during a create |
| PyOperator.UpdatePlanCoupling | kube-operator/src/edgelake_operator/operator.py:172-208 | an update that rewrites the Service also rewrites the ConfigMap, and a ConfigMap write is always immediately followed by the Deployment write and vice versa |
| PyOperator.CredentialEditRebuilds | kube-operator/src/edgelake_operator/operator.py:172-199 | a credential edit rewrites the ConfigMap and the Deployment, and the Secret exactly when there are inline credentials |
| PyOperator.SentConcat | kube-operator/src/edgelake_operator/operator.py:73-118 | concatenating two correctly sent parts gives the concatenated plan, correctly sent |
| PyOperator.SecretPart | kube-operator/src/edgelake_operator/operator.py:73-79 | the Secret is sent exactly when it is wanted and the spec has inline credentials, and what is sent is the built Secret, adopted |
| PyOperator.ConfigMapPart | kube-operator/src/edgelake_operator/operator.py:81-88 | the ConfigMap sent is the one built from the spec, adopted |
| PyOperator.ServicePart | kube-operator/src/edgelake_operator/operator.py:103-108 | one manifest is sent, the built Service, adopted |
| PyOperator.DeploymentPart | kube-operator/src/edgelake_operator/operator.py:110-118 | one manifest is sent, the Deployment built with the config hash, adopted |
| PyOperator.ClaimPart | kube-operator/src/edgelake_operator/operator.py:90-101 | with persistence enabled the four built claims are sent in order, each adopted exactly when claims are not retained on delete, and their names are recorded; otherwise nothing |
| PyOperator.ClaimsSentAs | kube-operator/src/edgelake_operator/operator.py:90-101 | the four built claims, each adopted unless retained, are sent as the four claim steps plan them |
| PyOperator.BuiltClaimAtSlot | kube-operator/src/edgelake_operator/operator.py:90-101 | with the derived names, the claim sent for the i-th claim step is the i-th built claim |
| PyOperator.CreateSendsBuiltClaims | kube-operator/src/edgelake_operator/operator.py:73-101 | in a create with persistence enabled and derived names, the four claims are sent right after the ConfigMap, the i-th being the i-th built claim, adopted unless retained |
| PyOperator.CreateManifests | kube-operator/src/edgelake_operator/operator.py:73-118 | the manifests of a create follow the create plan one by one: each of the right kind and name, adopted as required, and each the built object itself (the Secret, the ConfigMap, the claims, the Service, the Deployment built with the config hash) |
| PyOperator.UpdateManifests | kube-operator/src/edgelake_operator/operator.py:172-208 | the manifests of an update follow the update plan one by one, every one the built object of its kind, adopted |
| PyOperator.ApplyAllEffect | kube-operator/src/edgelake_operator/utils/kubernetes.py:28-59 | applying a sequence keeps every existing object, changes only the keys of the manifests sent, adds no other key, leaves faults and readiness alone; a full run stores every manifest and a failure is the injected fault of one of their keys |
| PyOperator.ApplyInOrder | kube-operator/src/edgelake_operator/operator.py:73-118 | awaiting each apply in turn gives exactly the failure and the server state of applying the sequence and stopping at the first failure |
| PyOperator.StatusPatch.constructor | kube-operator/src/edgelake_operator/operator.py:34-56 | a fresh status patch has no phase written |
| PyOperator.ValidationMessageNamesEveryError | kube-operator/src/edgelake_operator/operator.py:60-65 | every validation error appears verbatim in the permanent error's message |
| PyOperator.CreateHandler | kube-operator/src/edgelake_operator/operator.py:34-137 | phase Creating then: an unparsable spec is a retried error with phase Failed and nothing written; a validation failure is a permanent error listing the problems, nothing written; otherwise the built manifests of the create plan are applied in order, a complete run returns the Running status with the names, claim names and endpoints, and the first failure sets phase Failed and retries after 30 seconds |
| PyOperator.UpdateHandler | kube-operator/src/edgelake_operator/operator.py:140-221 | the same error handling with phase Updating, applying, in order, the built manifests of only the writes the update plan derives from the diff, and returning the Running status with generation and endpoints |
| PyOperator.DeleteClaimsEffect | kube-operator/src/edgelake_operator/operator.py:250-258 | deleting the status's claims removes every named claim without an injected fault, keeps a faulted claim as it was and leaves every other object, the faults and the readiness alone |
| PyOperator.DeleteHandler | kube-operator/src/edgelake_operator/operator.py:224-262 | unless the resource retains its claims, which is the default when the flag is absent, each claim named in the status is deleted in turn with failures ignored; otherwise the server is untouched |
| PyOperator.MonitorHandler | kube-operator/src/edgelake_operator/operator.py:265-289 | the readiness is checked exactly when the phase is Running and a deployment name is recorded, and then it is the Deployment's readiness; nothing is written |
| GoApply.Merged | kube-operator-go/internal/controller/edgelakeoperator_controller.go:404-508 | the update step keeps the fetched copy's metadata and kind; a ConfigMap takes the desired data, a Service the desired ports, type and selector while keeping its ClusterIP, a Deployment the desired spec, and a found claim is never changed |
| GoApply.MergedIdempotent | kube-operator-go/internal/controller/edgelakeoperator_controller.go:404-508 | merging a second time changes nothing, and an object merged with itself is unchanged |
| GoApply.ApplyOn | kube-operator-go/internal/controller/edgelakeoperator_controller.go:414-426 | one reconcile step leaves the store as it was when it fails, and otherwise changes at most the object's own key, which then holds an object |
| GoApply.ApplyTouchesOnlyItsKey | kube-operator-go/internal/controller/edgelakeoperator_controller.go:404-508 | a reconcile step neither adds, removes nor changes any key but the object's own |
| GoApply.ApplyUnrefused | kube-operator-go/internal/controller/edgelakeoperator_controller.go:414-426 | a step the API server does not refuse succeeds: it creates the object when absent, leaves a found claim alone (edgelakeoperator_controller.go lines 442-451) and otherwise stores the found copy merged with the desired one |
| GoApply.ApplyConverges | kube-operator-go/internal/controller/edgelakeoperator_controller.go:404-508 | after an unrefused step the object's key holds a copy reflecting the desired object, and a second step succeeds without changing anything |
| GoApply.ApplyAllOn | kube-operator-go/internal/controller/edgelakeoperator_controller.go:367-401 | the sequence of reconcile steps keeps the store well keyed, each object under its own key |
| GoApply.ApplyAllAppend | kube-operator-go/internal/controller/edgelakeoperator_controller.go:367-401 | running two sequences of steps is running the first and, only if it succeeded, the second from its result |
| GoApply.ApplyAllOne | kube-operator-go/internal/controller/edgelakeoperator_controller.go:367-401 | a sequence of one step is that step |
| GoApply.ApplyAllTouchesOnlyItsKeys | kube-operator-go/internal/controller/edgelakeoperator_controller.go:367-401 | a sequence of steps leaves every key it does not name exactly as it was |
| GoApply.ApplyAllConverges | kube-operator-go/internal/controller/edgelakeoperator_controller.go:367-401 | with distinct keys and no refusals the sequence succeeds and every object's key holds a copy that reflects it |
| GoApply.Owned | kube-operator-go/internal/controller/edgelakeoperator_controller.go:409-412 | each desired object is marked as controlled by the custom resource, in the same order |
| GoApply.OwnedAppend | kube-operator-go/internal/controller/edgelakeoperator_controller.go:367-401 | marking ownership distributes over concatenation |
| GoApply.ApplyReflected | kube-operator-go/internal/controller/edgelakeoperator_controller.go:404-508 | a step whose object is already reflected, and is not refused, succeeds and changes nothing |
| GoApply.ApplyAllReflected | kube-operator-go/internal/controller/edgelakeoperator_controller.go:367-401 | re-running the steps on a store that already reflects every object succeeds and changes nothing |
| GoApply.ApplyLayout | kube-operator-go/internal/controller/edgelakeoperator_controller.go:367-401 | the sequence is the ConfigMap step, then the claims, then the Service, then the Deployment, each run only when everything before it succeeded |
| GoApply.ApplyPrefixStep | kube-operator-go/internal/controller/edgelakeoperator_controller.go:367-401 | the steps up to one more object are the steps so far and then, if they succeeded, that object's step |
| GoApply.ApplyPrefixStops | kube-operator-go/internal/controller/edgelakeoperator_controller.go:367-401 | once a prefix of the steps fails, the whole sequence ends with that same failure and store |
| GoApply.DefaultedIsBuildable | kube-operator-go/internal/controller/edgelakeoperator_controller.go:123-179 | after defaulting every section the four builders dereference is non-nil |
| GoApply.DefaultedResource | kube-operator-go/internal/controller/edgelakeoperator_controller.go:71-72 | the defaulted resource can be built from and keeps its name and namespace |
| GoApply.ClaimKeysDistinct | kube-operator-go/internal/resources/pvc.go:20-55 | the built claims are all claims, and once owned they sit under pairwise distinct keys |
| GoApply.OwnedLayoutDistinct | kube-operator-go/internal/controller/edgelakeoperator_controller.go:367-401 | a ConfigMap, distinctly keyed claims, a Service and a Deployment, all owned, have pairwise distinct keys |
| GoApply.ConfigMapIgnoresStatus | kube-operator-go/internal/resources/configmap.go:14-27 | the built ConfigMap does not depend on the resource's status |
| GoApply.ClaimsIgnoreStatus | kube-operator-go/internal/resources/pvc.go:20-55 | the built claims do not depend on the resource's status |
| GoApply.ServiceAndDeploymentIgnoreStatus | kube-operator-go/internal/resources/deployment.go:15-43 | the built Service and Deployment do not depend on the resource's status |
| GoApply.DesiredIgnoresStatus | kube-operator-go/internal/controller/edgelakeoperator_controller.go:367-401 | the desired objects are the same whatever the status holds, so the phase written before them does not change them |
| GoApply.DesiredDeploymentKey | kube-operator-go/internal/controller/edgelakeoperator_controller.go:512-516 | the Deployment the status step fetches is exactly the last desired object, the one the Deployment step writes |
| GoApply.DesiredKeysDistinct | kube-operator-go/internal/controller/edgelakeoperator_controller.go:367-401 | the desired objects sit under pairwise distinct keys |
| GoApply.ReconcileResourcesConverges | kube-operator-go/internal/controller/edgelakeoperator_controller.go:367-401 | when the API server refuses nothing on the desired keys, reconciling the resources succeeds and every desired object is reflected afterwards |
| GoApply.FaultFreeResources | kube-operator-go/internal/controller/edgelakeoperator_controller.go:367-401 | with an API server that refuses nothing, reconciling the resources succeeds, every desired object is reflected and the Deployment the status step fetches exists |
| GoApply.ApplyAllFaultFree | kube-operator-go/internal/controller/edgelakeoperator_controller.go:367-401 | with an API server that refuses nothing, every sequence of steps succeeds |
| GoApply.ApplyHeadLayout | kube-operator-go/internal/controller/edgelakeoperator_controller.go:373-385 | the steps on the ConfigMap alone are the ConfigMap step, and on the ConfigMap and the claims the ConfigMap step followed, only if it succeeded, by the claims' steps |
| GoApply.ReachedPrefix | kube-operator-go/internal/controller/edgelakeoperator_controller.go:367-401 | with every section the builders dereference set, the objects reached are the desired ones; otherwise no Deployment is reached, and nothing at all exactly when the ConfigMap builder's sections are nil |
| GoApply.ReachedIgnoresStatus | kube-operator-go/internal/controller/edgelakeoperator_controller.go:367-401 | whether the copy can be built, and what the builders reach before a nil section, do not depend on its status |
| GoDecode.DecodeHoldsReply | kube-operator-go/api/v1alpha1/edgelakeoperator_types.go:8-28 | after the reply is decoded into the copy, the copy holds every field the reply sets, whatever it held before |
| GoDecode.DecodeKeepsHeld | kube-operator-go/api/v1alpha1/edgelakeoperator_types.go:8-28 | every field of the spec is omitempty, so a copy that already holds every field the reply sets comes out of decoding exactly as it went in |
| GoDecode.DefaultedHoldsStored | kube-operator-go/internal/controller/edgelakeoperator_controller.go:123-345 | defaulting in memory keeps every field the stored spec sets, in every section, map and volume |
| GoDecode.DecodeIntoDefaulted | kube-operator-go/internal/controller/edgelakeoperator_controller.go:89-94 | the stored spec decoded into its defaulted copy gives back the defaulted copy |
| GoCluster.GetOn | kube-operator-go/internal/controller/edgelakeoperator_controller.go:416-421 | a fetch succeeds exactly when it is not refused and the key is stored, and then returns the stored object; an absent key is NotFound |
| GoCluster.CreateOn | kube-operator-go/internal/controller/edgelakeoperator_controller.go:417-419 | a create succeeds exactly when it is not refused and the key is free, and then adds the object under its key; a failed create changes nothing |
| GoCluster.UpdateOn | kube-operator-go/internal/controller/edgelakeoperator_controller.go:423-426 | an update succeeds exactly when it is not refused and the key is stored, and then replaces the object under its key; a failed update changes nothing |
| GoCluster.GetCrOn | kube-operator-go/internal/controller/edgelakeoperator_controller.go:61-69 | fetching the custom resource succeeds exactly when it is not refused and the resource is stored, and then returns it |
| GoCluster.UpdateCrOn | kube-operator-go/internal/controller/edgelakeoperator_controller.go:80-84 | updating the custom resource writes its spec and finalizers and never its status, and only when not refused and present; otherwise nothing changes |
| GoCluster.UpdateCrStatusOn | kube-operator-go/internal/controller/edgelakeoperator_controller.go:89-93 | updating the status subresource writes the status and nothing else, only when not refused and present; otherwise nothing changes |
| GoCluster.Client.constructor | kube-operator-go/internal/controller/edgelakeoperator_controller.go:56-62 | the client starts with the given stores, refusals and deployment states |
| GoCluster.Client.Get | kube-operator-go/internal/controller/edgelakeoperator_controller.go:416 | the client's fetch answers as fetching from its object store |
| GoCluster.Client.Create | kube-operator-go/internal/controller/edgelakeoperator_controller.go:419 | the client's create changes the object store exactly as the create on the store, leaving the custom resources alone |
| GoCluster.Client.Update | kube-operator-go/internal/controller/edgelakeoperator_controller.go:426 | the client's update changes the object store exactly as the update on the store, leaving the custom resources alone |
| GoCluster.Client.GetResource | kube-operator-go/internal/controller/edgelakeoperator_controller.go:62 | the client's fetch of the custom resource answers as fetching from its resource store |
| GoCluster.Client.UpdateResource | kube-operator-go/internal/controller/edgelakeoperator_controller.go:82 | the client's resource update changes the resource store exactly as the spec-and-finalizer update, leaving the objects alone |
| GoCluster.Client.UpdateResourceStatus | kube-operator-go/internal/controller/edgelakeoperator_controller.go:89-94 | the client's status update changes the resource store exactly as the status write, leaving the objects alone; the copy afterwards is the server's reply decoded into it, and a refused write leaves the copy as it was |
| GoCluster.StatusReply | kube-operator-go/internal/controller/edgelakeoperator_controller.go:89-94 | a refused status write leaves the copy as it was; in every case the copy keeps its name, namespace, generation, deletion mark and the status it sent |
| GoCluster.StatusReplyIsStored | kube-operator-go/internal/controller/edgelakeoperator_controller.go:89-94 | after a status write that goes through, the copy holds every field the stored spec sets, and the stored finalizers when the store has any (its own otherwise) |
| GoCluster.StatusReplyKeepsHeld | kube-operator-go/internal/controller/edgelakeoperator_controller.go:89-94 | a copy that already holds every field the stored spec sets, and the stored finalizers, comes back from a status write exactly as it was sent, whether the write goes through or not |
| GoStatus.FindCondition | kube-operator-go/internal/controller/edgelakeoperator_controller.go:100-106 | the lookup of a condition type finds one exactly when some condition has that type, and what it finds is one of them with that type |
| GoStatus.Updated | kube-operator-go/internal/controller/edgelakeoperator_controller.go:100-106 | an existing condition takes the new status, reason and message, and its transition time moves only when the status changes |
| GoStatus.SetCondition | kube-operator-go/internal/controller/edgelakeoperator_controller.go:100-106 | setting a condition keeps the list's length when its type is present and adds one entry otherwise |
| GoStatus.SetConditionFinds | kube-operator-go/internal/controller/edgelakeoperator_controller.go:531-549 | after setting a condition its type is found holding the new condition merged into what was there, and every other type finds what it found before |
| GoStatus.SetConditionIdempotent | kube-operator-go/internal/controller/edgelakeoperator_controller.go:531-549 | setting the same condition twice is setting it once |
| GoStatus.WithFinalizer | kube-operator-go/internal/controller/edgelakeoperator_controller.go:80-81 | adding the finalizer makes it present, adds nothing else, and leaves a list that already has it unchanged |
| GoStatus.Without | kube-operator-go/internal/controller/edgelakeoperator_controller.go:357 | removing the finalizer drops every occurrence of it, keeps every other entry, and leaves a list without it unchanged |
| GoStatus.AddThenRemove | kube-operator-go/internal/controller/edgelakeoperator_controller.go:80-81 | removing a finalizer just added to a list that lacked it gives back the original list |
| GoStatus.WithoutAppend | kube-operator-go/internal/controller/edgelakeoperator_controller.go:357 | removing a finalizer from a concatenation removes it from each part |
| GoStatus.ReadyCondition | kube-operator-go/internal/controller/edgelakeoperator_controller.go:529-549 | the condition the status step records is of type Ready and is True exactly when the Deployment is ready |
| GoStatus.ObservedStatus | kube-operator-go/internal/controller/edgelakeoperator_controller.go:512-555 | the status step marks the resource ready exactly when the Deployment was found with some replicas all ready, sets phase Running when ready and Creating otherwise, keeps the conditions when the Deployment is missing, and records the three names and the generation |
| GoStatus.ObservedReadyCondition | kube-operator-go/internal/controller/edgelakeoperator_controller.go:527-549 | for a found Deployment the Ready condition afterwards exists and is True exactly when the Deployment is ready, with reason DeploymentReady or DeploymentNotReady to match |
| GoStatus.FailedStatus | kube-operator-go/internal/controller/edgelakeoperator_controller.go:97-107 | a failed reconcile sets phase Failed and leaves readiness and the observed generation as they were |
| GoStatus.FailedCondition | kube-operator-go/internal/controller/edgelakeoperator_controller.go:99-106 | after a failure the Ready condition is False with reason ReconciliationFailed and the error's message |
| GoController.ApplyObject | kube-operator-go/internal/controller/edgelakeoperator_controller.go:414-426 | the client performs exactly one reconcile step on the object store and leaves the custom resources alone |
| GoController.ReconcileConfigMap | kube-operator-go/internal/controller/edgelakeoperator_controller.go:404-427 | the ConfigMap built from the resource, owned by it, is applied as one reconcile step |
| GoController.ApplyClaims | kube-operator-go/internal/controller/edgelakeoperator_controller.go:433-454 | the claims are applied in order, each owned by the resource, returning at the first error with exactly the effect of that prefix of steps |
| GoController.ReconcilePvcs | kube-operator-go/internal/controller/edgelakeoperator_controller.go:430-455 | the claims built from the resource are applied in order as a sequence of steps |
| GoController.ReconcileService | kube-operator-go/internal/controller/edgelakeoperator_controller.go:458-483 | the Service built from the resource, owned by it, is applied as one reconcile step |
| GoController.ReconcileDeployment | kube-operator-go/internal/controller/edgelakeoperator_controller.go:486-509 | the Deployment built from the resource, owned by it, is applied as one reconcile step |
| GoController.ApplyReached | kube-operator-go/internal/controller/edgelakeoperator_controller.go:373-400 | the ConfigMap, claims (only with persistence enabled), Service and Deployment steps on the copy, stopping at the first error; the store changes exactly as the steps on the objects built before the first nil section, and the call panics exactly when there is such a section and no step failed |
| GoController.ReconcileResources | kube-operator-go/internal/controller/edgelakeoperator_controller.go:367-401 | the phase becomes Creating and is written with its outcome ignored, the copy afterwards being the reply decoded into it; the object store then changes exactly as the ordered steps on what the builders reach from that copy, stopping at the first error, which is returned; the call panics exactly when a builder meets a nil section before any step failed |
| GoController.UpdateStatus | kube-operator-go/internal/controller/edgelakeoperator_controller.go:512-556 | an error other than NotFound on fetching the Deployment is returned with nothing changed; otherwise the observed status is written to the status subresource and the copy becomes the reply decoded into it; the object store is untouched |
| GoController.HandleDeletion | kube-operator-go/internal/controller/edgelakeoperator_controller.go:347-364 | the finalizer is removed from the in-memory copy; when it was present the resource is updated once, and when it was absent nothing is written and no error returned; no object is touched |
| GoController.MarkPending | kube-operator-go/internal/controller/edgelakeoperator_controller.go:89-94 | an empty phase becomes Pending and is written to the status subresource, the copy becoming the reply decoded into it; a set phase changes nothing |
| GoController.ReportFailure | kube-operator-go/internal/controller/edgelakeoperator_controller.go:96-109 | the status becomes the failed status carrying the error's message and is written with its outcome ignored, the copy becoming the reply decoded into it; no object is touched |
| GoController.Report | kube-operator-go/internal/controller/edgelakeoperator_controller.go:96-119 | after `reconcileResources`: a panic ends the call with nothing written; an error is returned with the failed status stored when that write goes through; otherwise the observed status is stored and the request requeued after 30 seconds, always so when nothing is refused |
| GoController.AppliedIgnoresStatus | kube-operator-go/internal/controller/edgelakeoperator_controller.go:367-401 | the phase written before the builders run changes nothing of what a live reconcile applies |
| GoController.ConvergedIgnoresStatus | kube-operator-go/internal/controller/edgelakeoperator_controller.go:367-401 | nor whether the owned objects have converged |
| GoController.ReconcileAndReport | kube-operator-go/internal/controller/edgelakeoperator_controller.go:96-119 | everything is built from the copy the Creating write leaves, the reply decoded into it; the objects change as the steps on what the builders reach; a nil section panics, a step's error is returned with the failed status stored when that write goes through; otherwise the observed status is stored and the request requeued after 30 seconds; with nothing refused every desired object is reflected and readiness matches the Deployment's replica counts |
| GoController.DefaultedCopyKept | kube-operator-go/internal/controller/edgelakeoperator_controller.go:88-94 | the defaulted copy of the stored resource comes back from a status write unchanged, whatever status it carries and whether the write goes through or not |
| GoController.MarkDefaultedPending | kube-operator-go/internal/controller/edgelakeoperator_controller.go:88-94 | on the defaulted copy, the Pending write leaves the copy's spec and finalizers as they were and changes only the status in the store; it fails exactly when the phase was empty and the write is refused |
| GoController.ReconcileLive | kube-operator-go/internal/controller/edgelakeoperator_controller.go:88-119 | past the finalizer check, the builders work from the defaulted copy and the call never panics; no error exactly when it requeues after 30 seconds, and then every object the defaulted resource owns has been applied; with nothing refused it succeeds and every such object is stored and reflects its build |
| GoController.Reconcile | kube-operator-go/internal/controller/edgelakeoperator_controller.go:56-120 | a missing resource ends quietly and any other fetch error is returned, nothing written; a resource being deleted loses its finalizer; one without the finalizer gets it, written with the defaulted spec, and is requeued; otherwise the live path runs on the defaulted copy and never panics; with nothing refused it succeeds and leaves every object built from the defaulted resource reflected |
| GoDefaults.DefaultedIsComplete | kube-operator-go/internal/controller/edgelakeoperator_controller.go:123-345 | after defaulting a resource with a non-empty name every defaulted section exists and every defaulted string and number is set |
| GoDefaults.CompleteIsFixed | kube-operator-go/internal/controller/edgelakeoperator_controller.go:123-345 | defaulting a spec whose defaulted fields are all set leaves it exactly as it is |
| GoDefaults.DefaultsIdempotent | kube-operator-go/internal/controller/edgelakeoperator_controller.go:123-345 | defaulting twice is defaulting once |
| GoDefaults.DefaultsKeepSetFields | kube-operator-go/internal/controller/edgelakeoperator_controller.go:123-345 | defaulting never overwrites a field that is already set, and never touches the resource requirements |
| GoDefaults.NodeConfigDefaultsKeep | kube-operator-go/internal/controller/edgelakeoperator_controller.go:182-345 | node-config defaulting keeps every set field of every present section |
| GoDefaults.UndefaultedSections | kube-operator-go/internal/controller/edgelakeoperator_controller.go:182-345 | Geolocation, OPC-UA, EtherIP, Monitoring, MCP and Nebula are carried over unchanged, nil when nil |
| GoDefaults.MetadataFromName | kube-operator-go/internal/controller/edgelakeoperator_controller.go:124-141 | missing metadata becomes hostname "edgelake-operator", the resource's name as application name, "<name>-service" and "<name>-configmap", and service type NodePort |
| GoDefaults.PersistenceDefaulting | kube-operator-go/internal/controller/edgelakeoperator_controller.go:156-173 | Enabled and ReadWriteOnce are set only when the whole persistence section is nil, so an existing section keeps both even when false and empty; each nil volume gets 5Gi, 1Gi, 10Gi or 1Gi |
| GoDefaults.FillStr | kube-operator-go/internal/controller/edgelakeoperator_controller.go:127-129 | an empty string field takes the default and a set one is kept |
| GoDefaults.FillInt | kube-operator-go/internal/controller/edgelakeoperator_controller.go:209-211 | a zero number field takes the default and a set one is kept |
| GoDefaults.SetMetadataDefaults | kube-operator-go/internal/controller/edgelakeoperator_controller.go:124-141 | the metadata section is filled field by field to the defaulted metadata |
| GoDefaults.SetImageDefaults | kube-operator-go/internal/controller/edgelakeoperator_controller.go:143-154 | the image section is filled to the defaulted image: repository anylogco/edgelake-network, tag 1.3.2500, pull policy IfNotPresent when unset |
| GoDefaults.SetPersistenceDefaults | kube-operator-go/internal/controller/edgelakeoperator_controller.go:156-173 | the persistence section is filled to the defaulted persistence |
| GoDefaults.SetDirectoriesDefaults | kube-operator-go/internal/controller/edgelakeoperator_controller.go:183-195 | the directories section is filled to the defaulted directories |
| GoDefaults.SetGeneralDefaults | kube-operator-go/internal/controller/edgelakeoperator_controller.go:196-205 | the general section is filled to the defaulted general section: node type operator and company New Company when unset |
| GoDefaults.SetNetworkingDefaults | kube-operator-go/internal/controller/edgelakeoperator_controller.go:206-227 | the networking section is filled to the defaulted networking: ports 32148 and 32149, six threads and a 30 second timeout when unset |
| GoDefaults.SetDatabaseDefaults | kube-operator-go/internal/controller/edgelakeoperator_controller.go:228-249 | the database section is filled to the defaulted database: sqlite and mongo on 127.0.0.1, ports 5432 and 27017 when unset |
| GoDefaults.SetBlockchainDefaults | kube-operator-go/internal/controller/edgelakeoperator_controller.go:250-268 | the blockchain section is filled to the defaulted blockchain section |
| GoDefaults.SetOperatorDefaults | kube-operator-go/internal/controller/edgelakeoperator_controller.go:269-299 | the operator section is filled to the defaulted operator section, partitioning included |
| GoDefaults.SetMqttDefaults | kube-operator-go/internal/controller/edgelakeoperator_controller.go:300-321 | the MQTT section is filled to the defaulted MQTT section, port 1883 when unset |
| GoDefaults.SetAggregationsDefaults | kube-operator-go/internal/controller/edgelakeoperator_controller.go:322-331 | the aggregations section is filled to the defaulted aggregations section |
| GoDefaults.SetAdvancedDefaults | kube-operator-go/internal/controller/edgelakeoperator_controller.go:332-345 | the advanced section is filled to the defaulted advanced section |
| GoDefaults.SetNodeConfigDefaults | kube-operator-go/internal/controller/edgelakeoperator_controller.go:182-345 | node-config defaulting fills exactly nine sections and leaves the other six alone |
| GoDefaults.SetDefaults | kube-operator-go/internal/controller/edgelakeoperator_controller.go:123-179 | the resource's spec becomes the defaulted spec for its name, with finalizers and status unchanged |
| GoConfigMap.Tagged | kube-operator-go/internal/resources/configmap.go:29-259 | the keys of one group are its variables, each tagged with the group, in order |
| GoConfigMap.AllKeysComplete | kube-operator-go/internal/resources/configmap.go:29-259 | the groups together list every key the ConfigMap can hold |
| GoConfigMap.DataFromAt | kube-operator-go/internal/resources/configmap.go:29-259 | inserting the present entries of a key list one by one: a key is in the result exactly when it is in the list and its entry is present, with that entry's value |
| GoConfigMap.DataAt | kube-operator-go/internal/resources/configmap.go:29-259 | one key of `data` is present exactly when its table entry is, with that entry's value |
| GoConfigMap.BuildConfigMap | kube-operator-go/internal/resources/configmap.go:14-27 | the ConfigMap is named after the metadata's ConfigMap name in the resource's namespace with the standard labels and no owner yet; IS_KUBERNETES is "true" and PROXY_IP the Service's cluster DNS name (configmap.go lines 34-37) |
| GoConfigMap.KeysOnlyFromPresentSections | kube-operator-go/internal/resources/configmap.go:40-257 | every key of `data` other than the two fixed ones comes from a node-config section that is non-nil |
| GoConfigMap.EmptyNodeConfigsData | kube-operator-go/internal/resources/configmap.go:29-259 | with every node-config section nil, `data` holds exactly IS_KUBERNETES and PROXY_IP |
| GoConfigMap.NetworkingEntries | kube-operator-go/internal/resources/configmap.go:80-104 | the ports and counts are written in decimal, the broker port only when positive, the overlay IP, config name and NIC type only when non-empty, the binds as booleans |
| GoConfigMap.DatabaseEntries | kube-operator-go/internal/resources/configmap.go:106-120 | the user and the password only when non-empty, the type, address, port and flags always |
| GoConfigMap.NoSqlEntries | kube-operator-go/internal/resources/configmap.go:121-133 | the NoSQL user and password only when non-empty, type, address, port and blob flags always |
| GoConfigMap.OperatorEntries | kube-operator-go/internal/resources/configmap.go:144-161 | MEMBER only when non-empty; the cluster, database, HA flag, start date, threads and every partitioning key always |
| GoConfigMap.MqttEntries | kube-operator-go/internal/resources/configmap.go:163-186 | broker, user, password and topic only when non-empty; the flags, port and message columns always |
| GoConfigMap.NodeEntries | kube-operator-go/internal/resources/configmap.go:221-257 | monitoring, MCP and advanced keys always; the Nebula flags always and its addresses only when non-empty |
| GoConfigMap.InlineCredentialsWritten | kube-operator-go/internal/resources/configmap.go:47-175 | the licence key and the three passwords are keys of `data` exactly when their section is set and the field non-empty, holding the plain value |
| GoConfigMap.NodeNameFallback | kube-operator-go/internal/resources/configmap.go:47-62 | NODE_NAME and INIT_TYPE are in `data` exactly when the general section is set, and NODE_NAME falls back to the application name when the node name is empty |
| GoConfigMap.BrokerPortKey | kube-operator-go/internal/resources/configmap.go:86-88 | ANYLOG_BROKER_PORT is in `data` exactly when networking is set and the broker port positive |
| GoObjects.Controlled | kube-operator-go/internal/controller/edgelakeoperator_controller.go:409-412 | making the resource the controller of an object records it as the owner and changes nothing else, its kind included |
| GoLabels.Labels | kube-operator-go/internal/resources/labels.go:8-18 | six labels: name and managed-by edgelake-operator, component edgelake, instance the resource's name, version the image tag, app the application name |
| GoLabels.SelectorLabels | kube-operator-go/internal/resources/labels.go:20-26 | three labels: name, instance and app, with the same values as in the full label set |
| GoLabels.SelectorIsSubmap | kube-operator-go/internal/resources/labels.go:8-26 | the selector labels are a sub-map of the labels, so every pod labelled with the full set is selected |
| GoService.BuildServicePorts | kube-operator-go/internal/resources/service.go:33-70 | tcp-server and rest-api, then mqtt-broker exactly when the broker port is positive; every port is TCP, forwards to the same container port, and has the port as its NodePort exactly under NodePort or LoadBalancer, unset otherwise |
| GoService.BuildService | kube-operator-go/internal/resources/service.go:12-30 | the Service is named after the metadata's Service name with the standard labels, of the configured type, selecting by the selector labels, requesting no cluster IP, with those ports |
| GoPvc.ClaimNames | kube-operator-go/internal/resources/pvc.go:29-46 | the four claim names are the application name with -anylog-pvc, -blockchain-pvc, -data-pvc and -scripts-pvc |
| GoPvc.ClaimNamesDistinct | kube-operator-go/internal/resources/pvc.go:29-46 | the four claim names differ whatever the application name |
| GoPvc.EffectiveAccessMode | kube-operator-go/internal/resources/pvc.go:58-61 | the claim's access mode is never empty: the configured one, or ReadWriteOnce when unset |
| GoPvc.BuildPvc | kube-operator-go/internal/resources/pvc.go:57-85 | a claim in the resource's namespace with the given labels, name and size, a single access mode, and a storage class exactly when one is configured |
| GoPvc.BuildPvcs | kube-operator-go/internal/resources/pvc.go:20-55 | no claims exactly when persistence is nil or disabled; otherwise the four claims anylog, blockchain, data and scripts, each with its own volume's size and the standard labels |
| GoDeployment.VolumeMounts | kube-operator-go/internal/resources/deployment.go:151-171 | the four fixed mounts under /app/EdgeLake/anylog, /app/EdgeLake/blockchain, /app/EdgeLake/data and /app/deployment-scripts |
| GoDeployment.Volumes | kube-operator-go/internal/resources/deployment.go:173-238 | one volume per mount, in order; each backed by the claim of the same index that the claim builder names when persistence is enabled, by an emptyDir otherwise |
| GoDeployment.VolumeNamesDistinct | kube-operator-go/internal/resources/deployment.go:173-238 | the four volume names are pairwise distinct, so each mount names exactly one volume |
| GoDeployment.BuildContainerPorts | kube-operator-go/internal/resources/deployment.go:124-149 | tcp-server and rest-api on the configured ports, then mqtt-broker exactly when the broker port is positive, all TCP |
| GoDeployment.BuildContainer | kube-operator-go/internal/resources/deployment.go:69-122 | the container is named after the host, runs repository:tag with the pull policy, takes the ConfigMap as environment, has a terminal, the four mounts, a liveness probe (60s delay, 30s period) and a readiness probe (30s, 10s) on the REST port, and the resource's requirements when given |
| GoDeployment.BuildPodSpec | kube-operator-go/internal/resources/deployment.go:45-67 | the pod has one container and the four volumes; the node selector only when non-empty and the pull secret only when a secret name is set |
| GoDeployment.BuildDeployment | kube-operator-go/internal/resources/deployment.go:15-43 | the Deployment is named <AppName>-deployment with the standard labels, one replica, selecting and labelling its pods by the selector labels, no annotations, one container fed by the ConfigMap |
| GoTypes.Instance.constructor | kube-operator-go/internal/controller/edgelakeoperator_controller.go:61-62 | the fetched copy describes exactly the stored resource |

## Left out

Shared and general:

- Base64 and UTF-8 are modelled only as the encoding the Secret builder applies. Decoding exists only to state the round trip.
- I/O is a parameter of the model. The API server is an in-memory store with injected per-key faults. Clock readings are `now` parameters.
- Logging, metrics and events are not modelled. They have no effect on the objects or the status.
- Concurrency and asynchrony are not modelled: kopf's `async` handlers, and the Go manager's workers and caches.
- Each reconcile is one sequential run.

Python operator:

- The kopf framework is not modelled. That covers its decorators, `kopf.configure`, its retry back-off and the persistence of handler progress.
- The exceptions the handlers raise are modelled as results: `kopf.TemporaryError` as a retried outcome, `kopf.PermanentError` as a permanent one.
- `kopf.adopt` is modelled only as marking the object owned by the custom resource. Its owner-reference fields, labels and namespace defaulting are not modelled.
- `compute_config_hash` is a `configHash` parameter of the create and update handlers. The hashing module is not part of this model.
- The handlers are modelled as building every manifest first and then applying them in order, stopping at the first failure. The source interleaves building and applying. The builders are pure, so the objects written and the order are the same.
- Pydantic parsing of the spec body is modelled as an input that is either a parsed spec or malformed, with the parsed ranges as a predicate. The individual Pydantic messages are not modelled.
- `get_k8s_client` and kubeconfig loading are not modelled. Only the API calls the apply layer makes are.
- The monitor timer's 30-second interval is not modelled, nor is its logging. The model makes exactly the reads the timer makes, and no writes.
- `PyConfigMap.BuildConfigMap` describes `data` as a table of keys to optional values, inserted key by key in a fixed order. The source builds a Python dict whose insertion order the model does not keep; the resulting map is the same.
- The delete handler's handling of PVC errors is modelled as ignoring every failed deletion. The handler returns a status regardless.
- create_deployment_policy.py and `__main__.py` are not part of this model. `constants.py` values appear as plain constants.

Go operator:

- `SetControllerReference` failing, and the owner-reference fields it writes, are not modelled. Ownership is recorded as the controller's name (`GoObjects.Controlled`).
- GoPvc.BuildPvc: `resource.MustParse` (kube-operator-go/internal/resources/pvc.go:73) panics on a storage size it cannot parse, and the model builds the claim with the size string as it is. A reconcile that panics there in the source is modelled as one that builds and applies the claim.
- The Go side models no `resourceVersion`, so it models no optimistic-concurrency conflicts. A conflict appears only as an injected refusal.
- `meta.SetStatusCondition` is modelled without `ObservedGeneration` on the condition; the source never sets it.
- `int32` fields are modelled as unbounded integers. The operator only copies, compares and prints them.
- `RequeueAfter` is modelled as a duration in the result. Timers, watches, `SetupWithManager` and `Owns` are not modelled.
- Garbage collection of owned objects by the API server after the finalizer is removed is not modelled.
- `GoConfigMap.BuildConfigMap` describes `data` as a table of keys to optional values, inserted key by key in a fixed order. The source inserts while walking the nil checks; the resulting map is the same.
- The Deployment status that `updateStatus` reads is the client's separate read-only `deployments` map. The Deployment controller that fills it in is not modelled.
- A status write that goes through decodes the server's reply into the copy (`GoCluster.StatusReply`). The reply's finalizers, spec and status are modelled. Its name, namespace, generation and deletion mark are taken to be the copy's, because nothing in the model changes them in the store between the fetch and the write. Its `resourceVersion`, managed fields and timestamps are not modelled.
- GoDecode.DecodeSpec: a field the store holds with an explicit zero value (`port: 0`, `enabled: false`, `""`) comes back in the reply and overwrites the copy's value in the source. The model treats every zero value as a key the reply leaves out, so the copy keeps its own value there. Only a writer other than this operator can store such a zero, since the operator writes every field `omitempty`.
- The API server's defaulting from the CRD schema is not modelled. The `+kubebuilder:default` markers (kube-operator-go/api/v1alpha1/edgelakeoperator_types.go:34-690) fill unset leaf fields of a section object before it is stored, e.g. the application name "edgelake-operator" (:39). The model's store holds the spec without them, so for a stored `spec.metadata: {}` the model lets `GoDefaults.MetadataFromName` derive the names, while in the source the server has already filled them.
- `GoCluster.Client.UpdateResource` does not decode the reply into the copy. `Reconcile` returns right after the finalizer writes and reads the copy no more, so nothing depends on it.
- A builder meeting a nil section dereferences nil in the source. The model ends `reconcileResources` there with `Panicked`. `Reconcile` only ever hands it the defaulted copy, so this needs a caller other than `Reconcile`. The controller runtime's recovery from that panic, and its requeue, are not modelled.
