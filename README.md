# DDE backend core: SSH registry and deployment provisioning

This project models the two sequential cores of a NestJS backend that gives
each user a container in a Kubernetes cluster and relays a remote shell to it.

- **SSH registry** (`Ssh`, `ssh_service.dfy`): the `SshService` class. It keeps
  a growing list of connection records `{id, clientId, isOpen}` and a growing
  list of shell records `{id, isOpen, clientId}`. Each list has its own id
  counter. The operations are connect, close, look up a connection id by
  client, open a shell, and send a message to a client's shell. They are
  imperative methods on a class. The ssh2 handles are replaced by a ghost
  `effects` log of the calls made on them (connect, close, shell, write).
  Whether an awaited ssh2 call resolves is a boolean parameter of the
  operation that awaits it. The private finders are loops, and each is proved
  equal to a first-match function (`IndexOfId`, `IndexOfClient`,
  `ShellIndexOfClient`). `Valid()` keeps ids strictly increasing and below
  their counter. `ConnectionsEvolve` says no record is removed or renamed and
  no closed record opens again.
- **Gateway disconnect** (`SshGateway`, `ssh_gateway.dfy`): the disconnect
  handler looks up the client's first connection id and closes it. It is
  modelled as a method that calls the two registry operations.
- **Provisioning** (`Kubernetes`, `kubernetes_service.dfy`): the manifest
  builder is a pure function. `createDeployment` is a method on a class whose
  state is what the cluster lists (namespace names) and a log of the create
  requests the service submits.
- **Image-name accessors** (`PodConfigs`, `pod_config.dfy`): JavaScript's
  `split(':')` as a function, with both round trips against `join` proved.
  The setter is a method on a `PodConfig` class. The getter is modelled as
  written: its tagged branch evaluates the accessor again, so it can only end
  in a stack overflow. The getter takes the number of stack frames left as a
  parameter, and it is proved to fail for every value of that parameter.

The code differs from a typical provisioner in three ways:
- `createDeployment` never checks for an existing deployment, so a second
  call submits a second identical create. The code raises no error of its
  own for an existing deployment; whether the cluster accepts the duplicate
  create (a real cluster answers 409 AlreadyExists) is the `accepted`
  outcome, passed through as `Upstream`.
- Resource names use the image string verbatim. Nothing strips a registry
  path or a `:tag`. `SampleImageNameVerbatim` shows
  `j19k1107-flusinerd/ubuntussh:latest-deployment`.
- No service is created.

## Model

| member | source | states |
|---|---|---|
| Ssh.IndexOfId | src/ssh/ssh.service.ts:98-102 | the first record with the id, or none exactly when no record has it |
| Ssh.IndexOfClient | src/ssh/ssh.service.ts:104-109 | the first connection of the client, or none exactly when the client has none |
| Ssh.ShellIndexOfClient | src/ssh/ssh.service.ts:111-115 | the first shell of the client, or none exactly when the client has none |
| Ssh.SendTarget | src/ssh/ssh.service.ts:117-126 | the guards in order: NoConnectionFound iff the client has no connection; ConnectionClosed iff its first connection is closed; NoShellSocketFound iff that connection is open and the client has no shell; otherwise the client's first shell |
| Ssh.IndexOfIdOfMember | src/ssh/ssh.service.ts:98-102 | with increasing ids, looking up a record's id finds exactly that record |
| Ssh.SshService.constructor | src/ssh/ssh.service.ts:12-15 | both lists empty, both counters 0, no effects |
| Ssh.SshService.ConnectToServer | src/ssh/ssh.service.ts:21-36 | appends `{old idCounter, clientId, open}` and adds 1 to the counter before the handshake, so the record stays when connecting fails; shells untouched; ids stay increasing |
| Ssh.SshService.CloseConnection | src/ssh/ssh.service.ts:42-59 | unknown id: NoConnectionWithId, no close call, list unchanged; known id: one close call, then only that record's isOpen becomes false (also when already closed) and true is returned; a rejected close leaves the list unchanged |
| Ssh.SshService.GetConnectionId | src/ssh/ssh.service.ts:61-67 | the id of the client's first connection, open or closed; none iff the client has no connection |
| Ssh.SshService.OpenShellSession | src/ssh/ssh.service.ts:73-92 | unknown connection id: NoConnectionWithId and nothing changes; otherwise one shell call, open or closed connection alike, and on success appends `{old socketIdCounter, open, clientId}` and adds 1 to that counter only |
| Ssh.SshService.FindConnectionWithId | src/ssh/ssh.service.ts:98-102 | the loop returns the first record with the id, else NoConnectionWithId |
| Ssh.SshService.FindConnectionWithClientId | src/ssh/ssh.service.ts:104-109 | the loop returns the client's first connection, else NoConnectionFound |
| Ssh.SshService.FindShellSocket | src/ssh/ssh.service.ts:111-115 | the loop returns the client's first shell, else NoShellSocketFound |
| Ssh.SshService.SendShellMessage | src/ssh/ssh.service.ts:117-126 | when every guard passes, exactly one write of the message verbatim to the first shell of the client; on each guard's failure its error and no write |
| SshGateway.OnDisconnect | src/ssh/sshgateway.ts:33-37 | the client's first connection is closed and no other record changes; a client without a connection gets NoConnectionWithId with no effect |
| Kubernetes.CreateDeploymentData | src/kubernetes/kubernetes.service.ts:89-130 | the selector equals the pod template labels and the metadata labels; the namespace is the `user` label; every container runs the `app` label's image |
| Kubernetes.Username | src/kubernetes/kubernetes.service.ts:52 | a username only when `user` is present and `username` is set and non-empty; none when `user` is missing or `username` is unset or empty |
| Kubernetes.ProvisionRequests | src/kubernetes/kubernetes.service.ts:55-66 | every request is a namespace create for the username, made only when it is not listed, or a deployment create in the user's namespace with a manifest for that namespace |
| Kubernetes.DeploymentDataShape | src/kubernetes/kubernetes.service.ts:89-130 | manifest name `${username}-${image}-deployment`, namespace username, 1 replica, one container running the image, named `${username}-${image}`, with ports exactly `[22]` |
| Kubernetes.DeploymentLabelsAgree | src/kubernetes/kubernetes.service.ts:95-115 | metadata labels, selector matchLabels and pod template labels are all `{app: image, user: username}` |
| Kubernetes.ManifestIdentifiesOwner | src/kubernetes/kubernetes.service.ts:94-99 | two manifests with the same namespace and name come from the same user and image |
| Kubernetes.SampleImageNameVerbatim | src/kubernetes/kubernetes.service.ts:94 | the image string goes into the name unchanged, registry path and tag included |
| Kubernetes.ProvisionSubmitsOneDeployment | src/kubernetes/kubernetes.service.ts:55-66 | past the guard: exactly one deployment create, last, in the user's namespace with the user's manifest; a namespace create for the username iff no listed namespace has that name |
| Kubernetes.RepeatedProvisionResubmits | src/kubernetes/kubernetes.service.ts:55-66 | no existing-deployment check: for any two listings, namespace listed or not, the two request batches hold two deployment creates and both end in the same create |
| Kubernetes.CreateDeploymentTwice | src/kubernetes/kubernetes.service.ts:51-68 | two successful createDeployment calls append the same batch twice, add exactly two deployment creates, and return the same manifest |
| Kubernetes.KubernetesService.NamespaceExists | src/kubernetes/kubernetes.service.ts:70-77 | true iff some listed namespace has the name |
| Kubernetes.KubernetesService.CreateDeployment | src/kubernetes/kubernetes.service.ts:51-68 | missing user or falsy username: NoUsername before any cluster call; failed listing: no request; otherwise the requests above are submitted and the manifest is returned when the deployment create resolves |
| PodConfigs.Split | src/kubernetes/dto/PodConfig.class.ts:13 | at least one piece, and no piece holds the separator |
| PodConfigs.JoinSplit | src/kubernetes/dto/PodConfig.class.ts:13 | joining the pieces of a split gives back the string |
| PodConfigs.SplitJoin | src/kubernetes/dto/PodConfig.class.ts:13 | splitting a join of separator-free pieces gives back the pieces |
| PodConfigs.SplitAtFirst | src/kubernetes/dto/PodConfig.class.ts:13-14 | the first piece is the text before the first separator; the rest are the pieces of the text after it |
| PodConfigs.NameBeforeFirstColon | src/kubernetes/dto/PodConfig.class.ts:13-14 | the stored name is the text before the first ':', or the whole string without one |
| PodConfigs.TagBetweenColons | src/kubernetes/dto/PodConfig.class.ts:13-17 | the tag becomes the text between the first and second ':' when it is non-empty; without it the old tag stays |
| PodConfigs.TagAfterSet | src/kubernetes/dto/PodConfig.class.ts:15-17 | a tag that changes is non-empty and holds no ':'; a set tag is never cleared |
| PodConfigs.SampleImageSplit | src/kubernetes/dto/PodConfig.class.ts:13-16 | `flusinerd/ubuntussh:latest` gives name `flusinerd/ubuntussh` and tag `latest` |
| PodConfigs.PodConfig.constructor | src/kubernetes/dto/PodConfig.class.ts:6-7 | name and tag start unset |
| PodConfigs.PodConfig.SetImageName | src/kubernetes/dto/PodConfig.class.ts:12-18 | name := first piece; tag := second piece when non-empty, else unchanged |
| PodConfigs.PodConfig.GetImageName | src/kubernetes/dto/PodConfig.class.ts:20-26 | without a truthy tag the stored name; with one a stack overflow |
| PodConfigs.GetterAsWritten | src/kubernetes/dto/PodConfig.class.ts:20-26 | it returns exactly when the tag is not truthy, and then it returns the stored name; on a truthy tag it fails at any stack depth |
| PodConfigs.UntaggedGetterReturnsName | src/kubernetes/dto/PodConfig.class.ts:23-25 | without a truthy tag the getter returns the stored name at any stack depth |
| PodConfigs.ColonFreeRoundTrip | src/kubernetes/dto/PodConfig.class.ts:12-25 | on a fresh object a name without ':' set and read back is the same string |
| PodConfigs.TaggedGetterNeverReturns | src/kubernetes/dto/PodConfig.class.ts:21-22 | with a truthy tag the getter fails at every stack depth |
| PodConfigs.TaggedRoundTripFails | src/kubernetes/dto/PodConfig.class.ts:12-22 | setting `flusinerd/ubuntussh:latest` and reading it back fails |
| PodConfigs.IntendedGetter | src/kubernetes/dto/PodConfig.class.ts:20-26 | corrected getter: with a colon-free name and a truthy colon-free tag, splitting the result on ':' gives back exactly that name and tag |
| PodConfigs.IntendedRoundTrip | src/kubernetes/dto/PodConfig.class.ts:20-26 | with the corrected getter, a name with at most one ':' and a non-empty tag reads back as set |

## Left out

- ssh2 handles and socket I/O: connect, close, shell and write are entries in a ghost effect log, and their outcomes are parameters. Data flowing back from a shell to a client is not modelled.
- Ssh.SshService.ConnectToServer: returns the record by value. The source returns the object stored in the list, so a later close is visible through the returned object. The model does not capture that aliasing.
- Ssh.SshService.SendShellMessage: `socket.write`'s return value (backpressure) is not modelled.
- `BehaviorSubject.next` publishing: the model has no observers. The source publishes the same array it mutated.
- The HTTP controller only reads the connection counter, which is the public field `idCounter` here.
- `getPods` just wraps a cluster listing, and it is not modelled.
- The `KubernetesService` constructor loads kubeconfig and requests a startup test deployment. Neither is modelled. That startup request uses a fresh `User` with no username, so `CreateDeployment` would reject it with NoUsername.
- Kubernetes.KubernetesService.CreateDeployment: the namespace create is not awaited. It is modelled as a submitted request, with no claim about when it happens relative to the deployment create. The namespace listing is not updated by the model. The returned body is modelled as the submitted manifest, not as the server's copy of it.
- Kubernetes.KubernetesService.CreateDeployment: takes the image string directly. In the source it comes from the PodConfig `imageName` property, and the startup request passes it as a plain string.
- PodConfig's `volumeName`, `sshConfig` and `user` are plain fields with no logic, and they are not modelled.
- Authentication, configuration and module wiring are outside the core and are not modelled.
- Ssh.SshService.ConnectToServer: ids are unbounded naturals. The source's `_idCounter` and `_socketIdCounter` are JavaScript numbers, exact only up to 2^53, so the proved uniqueness of ids ignores that bound.
- Concurrency: every operation runs to completion in sequence. Async interleaving between clients is not modelled.

## Findings

| source | as written | input that shows it | evidently intended | confidence | as-written member | corrected member |
|---|---|---|---|---|---|---|
| src/kubernetes/dto/PodConfig.class.ts:22 | the tagged branch returns `${this.imageName}:${this._imageTag}`, which evaluates the getter again with the tag still set | set `flusinerd/ubuntussh:latest`, then read `imageName` | return `${this._imageName}:${this._imageTag}`, so the name set is the name read (proved in PodConfigs.IntendedRoundTrip) | high, not executed | PodConfigs.TaggedGetterNeverReturns | PodConfigs.IntendedGetter |

`PodConfig.GetImageName` keeps the as-written behaviour, because that is what
the program does. Nothing else in the model reads the getter.
