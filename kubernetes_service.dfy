/**
 * Deployment provisioning of src/kubernetes/kubernetes.service.ts.
 *
 * The cluster is abstract: the namespace names a listing returns, and a log
 * of the create requests the service submits. Whether an awaited cluster call
 * resolves is a parameter of the operation that awaits it.
 */
module Kubernetes {
  import opened Wrappers

  /** The `{app, user}` label pair. */
  datatype Labels = Labels(app: string, user: string)

  datatype ObjectMeta = ObjectMeta(name: string, labels: Labels, namespace: string)

  datatype ContainerPort = ContainerPort(containerPort: nat)

  datatype Container = Container(image: string, name: string, ports: seq<ContainerPort>)

  /** A pod template: its `metadata.labels` and its `spec.containers`. */
  datatype PodTemplate = PodTemplate(labels: Labels, containers: seq<Container>)

  /** A deployment spec; `matchLabels` is `selector.matchLabels`. */
  datatype DeploymentSpec = DeploymentSpec(replicas: nat, matchLabels: Labels, template: PodTemplate)

  datatype Deployment = Deployment(apiVersion: string, kind: string, metadata: ObjectMeta, spec: DeploymentSpec)

  /** The SSH port every container exposes. */
  const SshPort: nat := 22

  /** _createDeploymentData: the manifest for one user and one image string. */
  function CreateDeploymentData(username: string, image: string): (d: Deployment)
    ensures SelectorMatchesTemplate(d) && d.metadata.labels == d.spec.template.labels
    ensures d.metadata.namespace == d.metadata.labels.user
    ensures forall c :: c in d.spec.template.containers ==> c.image == d.metadata.labels.app
  {
    var labels := Labels(image, username);
    Deployment(
      "apps/v1",
      "Deployment",
      ObjectMeta(username + "-" + image + "-deployment", labels, username),
      DeploymentSpec(
        1,
        labels,
        PodTemplate(labels, [Container(image, username + "-" + image, [ContainerPort(SshPort)])])))
  }

  /** The manifest's selector picks exactly the labels its pods carry. */
  predicate SelectorMatchesTemplate(d: Deployment)
  {
    d.spec.matchLabels == d.spec.template.labels
  }

  /** A create request submitted to the cluster. */
  datatype Request =
    | CreateNamespace(name: string)
    | CreateNamespacedDeployment(namespace: string, body: Deployment)

  /** The stored user; a missing `username` is `None`. */
  datatype User = User(username: Option<string>)

  /** The fields of a PodConfig that createDeployment reads. */
  datatype PodSettings = PodSettings(user: Option<User>, imageName: string)

  datatype ProvisionError =
    | NoUsername   // 'No username was provided'
    | Upstream     // a rejected cluster call, passed through

  /** The username, when `user` is present and `username` is truthy. */
  function Username(pod: PodSettings): (r: Option<string>)
    ensures r.Some? ==> r.value != "" && pod.user.Some? && pod.user.value.username == r
    ensures r.None? ==> pod.user.None? || pod.user.value.username.None? || pod.user.value.username == Some("")
  {
    if pod.user.Some? && pod.user.value.username.Some? && pod.user.value.username.value != ""
    then pod.user.value.username
    else None
  }

  /** The requests createDeployment submits once the namespace listing is in. */
  function ProvisionRequests(namespaces: seq<string>, username: string, image: string): (rs: seq<Request>)
    ensures forall q :: q in rs ==>
              || (q.CreateNamespace? && q.name == username && username !in namespaces)
              || (q.CreateNamespacedDeployment? && q.namespace == username && q.body.metadata.namespace == username)
  {
    (if username in namespaces then [] else [CreateNamespace(username)])
    + [CreateNamespacedDeployment(username, CreateDeploymentData(username, image))]
  }

  function CountDeploymentCreates(rs: seq<Request>): nat
  {
    if rs == [] then 0
    else (if rs[0].CreateNamespacedDeployment? then 1 else 0) + CountDeploymentCreates(rs[1..])
  }

  lemma {:induction false} CountDeploymentCreatesAppend(a: seq<Request>, b: seq<Request>)
    ensures CountDeploymentCreates(a + b) == CountDeploymentCreates(a) + CountDeploymentCreates(b)
  {
    if a == [] {
      assert a + b == b;
    } else {
      assert (a + b)[1..] == a[1..] + b;
      CountDeploymentCreatesAppend(a[1..], b);
    }
  }

  /**
   * The manifest: named after user and image, in the user's namespace, one
   * replica, and one container running the image on the SSH port.
   */
  lemma DeploymentDataShape(username: string, image: string)
    ensures var d := CreateDeploymentData(username, image);
      && d.apiVersion == "apps/v1" && d.kind == "Deployment"
      && d.metadata.name == username + "-" + image + "-deployment"
      && d.metadata.namespace == username
      && d.spec.replicas == 1
      && |d.spec.template.containers| == 1
      && d.spec.template.containers[0].image == image
      && d.spec.template.containers[0].name == username + "-" + image
      && d.spec.template.containers[0].ports == [ContainerPort(22)]
  {
  }

  /**
   * The deployment's labels, its selector and its pod labels are the one pair
   * `{app: image, user: username}`, so the selector picks the pods it creates.
   */
  lemma DeploymentLabelsAgree(username: string, image: string)
    ensures var d := CreateDeploymentData(username, image);
      && d.metadata.labels == Labels(image, username)
      && d.spec.matchLabels == Labels(image, username)
      && d.spec.template.labels == Labels(image, username)
      && SelectorMatchesTemplate(d)
  {
  }

  /**
   * Within one namespace the manifest name determines the image: two manifests
   * with the same namespace and name were built from the same user and image.
   */
  lemma {:induction false} ManifestIdentifiesOwner(u1: string, i1: string, u2: string, i2: string)
    requires CreateDeploymentData(u1, i1).metadata.namespace == CreateDeploymentData(u2, i2).metadata.namespace
    requires CreateDeploymentData(u1, i1).metadata.name == CreateDeploymentData(u2, i2).metadata.name
    ensures u1 == u2 && i1 == i2
  {
    var n1 := CreateDeploymentData(u1, i1).metadata.name;
    var n2 := CreateDeploymentData(u2, i2).metadata.name;
    assert u1 == u2;
    var lo := |u1| + 1;
    assert |i1| == |i2| by {
      assert |n1| == lo + |i1| + 11;
      assert |n2| == lo + |i2| + 11;
    }
    assert n1[lo..lo + |i1|] == i1;
    assert n2[lo..lo + |i2|] == i2;
  }

  /** The resource names keep the image string as it is, registry path and tag included. */
  lemma SampleImageNameVerbatim()
    ensures CreateDeploymentData("j19k1107", "flusinerd/ubuntussh:latest").metadata.name
            == "j19k1107-flusinerd/ubuntussh:latest-deployment"
  {
  }

  /**
   * One pass past the guard submits exactly one deployment create, last, in
   * the user's namespace with the user's manifest, preceded by a namespace
   * create exactly when no listed namespace has the username.
   */
  lemma {:induction false} ProvisionSubmitsOneDeployment(namespaces: seq<string>, username: string, image: string)
    ensures var rs := ProvisionRequests(namespaces, username, image);
      && CountDeploymentCreates(rs) == 1
      && rs[|rs| - 1] == CreateNamespacedDeployment(username, CreateDeploymentData(username, image))
      && (CreateNamespace(username) in rs <==> username !in namespaces)
      && forall q :: q in rs && q.CreateNamespace? ==> q.name == username
  {
    var rs := ProvisionRequests(namespaces, username, image);
    var last := [CreateNamespacedDeployment(username, CreateDeploymentData(username, image))];
    var first := if username in namespaces then [] else [CreateNamespace(username)];
    assert rs == first + last;
    CountDeploymentCreatesAppend(first, last);
    assert CountDeploymentCreates(last) == 1 by {
      assert last[1..] == [];
    }
    assert CountDeploymentCreates(first) == 0 by {
      if first != [] {
        assert first[1..] == [];
      }
    }
  }

  /**
   * Nothing checks for an existing deployment: provisioning the same user and
   * image twice, whatever the listings of the two calls, submits two
   * deployment creates with the same manifest.
   */
  lemma {:induction false} RepeatedProvisionResubmits(ns1: seq<string>, ns2: seq<string>, username: string, image: string)
    ensures var first := ProvisionRequests(ns1, username, image);
      var second := ProvisionRequests(ns2, username, image);
      && CountDeploymentCreates(first + second) == 2
      && first[|first| - 1] == second[|second| - 1]
         == CreateNamespacedDeployment(username, CreateDeploymentData(username, image))
  {
    ProvisionSubmitsOneDeployment(ns1, username, image);
    ProvisionSubmitsOneDeployment(ns2, username, image);
    CountDeploymentCreatesAppend(ProvisionRequests(ns1, username, image), ProvisionRequests(ns2, username, image));
  }

  class KubernetesService {
    /** The names of the namespaces the cluster lists. */
    var namespaces: seq<string>
    /** The create requests submitted so far, oldest first. */
    var requests: seq<Request>

    constructor (existing: seq<string>)
      ensures namespaces == existing && requests == []
    {
      namespaces, requests := existing, [];
    }

    /** _namespaceExists: whether some listed namespace carries the name. */
    method NamespaceExists(namespace: string) returns (found: bool)
      ensures found <==> exists i :: 0 <= i < |namespaces| && namespaces[i] == namespace
    {
      var i := 0;
      while i < |namespaces|
        invariant 0 <= i <= |namespaces|
        invariant forall j :: 0 <= j < i ==> namespaces[j] != namespace
      {
        if namespaces[i] == namespace {
          return true;
        }
        i := i + 1;
      }
      return false;
    }

    /**
     * createDeployment: the username guard, the namespace check, a namespace
     * create when it is missing, and always a deployment create. `listed` says
     * whether the namespace listing resolves, `accepted` whether the deployment
     * create does. The namespace create is not awaited and its outcome is not
     * observed.
     */
    method CreateDeployment(pod: PodSettings, listed: bool, accepted: bool) returns (r: Result<Deployment, ProvisionError>)
      modifies this`requests
      ensures Username(pod).None? ==> r == Err(NoUsername) && requests == old(requests)
      ensures Username(pod).Some? && !listed ==> r == Err(Upstream) && requests == old(requests)
      ensures Username(pod).Some? && listed ==>
                var username := Username(pod).value;
                && requests == old(requests) + ProvisionRequests(namespaces, username, pod.imageName)
                && r == if accepted then Ok(CreateDeploymentData(username, pod.imageName)) else Err(Upstream)
    {
      if pod.user.None? || pod.user.value.username.None? || pod.user.value.username.value == "" {
        return Err(NoUsername);
      }
      var username := pod.user.value.username.value;
      if !listed {
        return Err(Upstream);
      }
      var namespaceExists := NamespaceExists(username);
      if !namespaceExists {
        requests := requests + [CreateNamespace(username)];
      }
      var manifest := CreateDeploymentData(username, pod.imageName);
      requests := requests + [CreateNamespacedDeployment(username, manifest)];
      if accepted {
        r := Ok(manifest);
      } else {
        r := Err(Upstream);
      }
    }
  }

  /**
   * Two createDeployment calls for the same user and image, both past the
   * guard: the second submits the same deployment create again. The second
   * `Ok` assumes a cluster that accepts the duplicate create, for example
   * because the first deployment was deleted in between; a real cluster
   * answers 409 AlreadyExists, which is `accepted == false` and gives
   * `Upstream`.
   */
  method CreateDeploymentTwice(service: KubernetesService, pod: PodSettings)
    returns (r1: Result<Deployment, ProvisionError>, r2: Result<Deployment, ProvisionError>)
    requires Username(pod).Some?
    modifies service`requests
    ensures var one := ProvisionRequests(service.namespaces, Username(pod).value, pod.imageName);
      service.requests == old(service.requests) + one + one
    ensures CountDeploymentCreates(service.requests) == CountDeploymentCreates(old(service.requests)) + 2
    ensures r1 == r2 == Ok(CreateDeploymentData(Username(pod).value, pod.imageName))
  {
    r1 := service.CreateDeployment(pod, true, true);
    r2 := service.CreateDeployment(pod, true, true);
    var one := ProvisionRequests(service.namespaces, Username(pod).value, pod.imageName);
    RepeatedProvisionResubmits(service.namespaces, service.namespaces, Username(pod).value, pod.imageName);
    CountDeploymentCreatesAppend(old(service.requests), one + one);
    assert service.requests == old(service.requests) + (one + one);
  }
}
