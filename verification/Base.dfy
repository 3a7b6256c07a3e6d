/** Objects the operator works on: the Eip custom resource, pods, nodes and Elastic IP addresses. */
module Base {

  datatype Option<+T> = None | Some(value: T)

  datatype Result<+T> = Ok(value: T) | Err(error: Error)

  /** The errors the controllers branch on or return. `CallFailed` is any transport or service failure. */
  datatype Error =
    | CallFailed
    | NotFound
    | Conflict
    | AddressInUse
    | MissingEipStatus
    | MissingAllocationId
    | MissingPodIp
    | MissingNodeIp
    | MissingProviderId
    | MalformedProviderId
    | MissingNodeReadyCondition
    | MissingNodeName
    | NoInterfaceWithThatIp
    | NoEipResourceWithThatNodeSelector
    | MultipleEipsTaggedForPod

  /** What a reconcile asks its controller to do next: nothing, or run again after three seconds. */
  datatype Action = Await | Requeue

  datatype Key = Key(ns: string, name: string)

  datatype Selector = PodSelector(podName: string) | NodeSelector(labels: map<string, string>)

  datatype Status = Status(
    allocationId: Option<nat>, publicIp: Option<string>, eni: Option<string>,
    privateIp: Option<string>, resourceId: Option<string>, associationId: Option<nat>)

  const EMPTY_STATUS := Status(None, None, None, None, None, None)

  datatype Eip = Eip(
    key: Key, uid: nat, version: nat, selector: Selector,
    status: Option<Status>, finalizer: bool, deleting: bool)
  {
    function AllocationId(): Option<nat> {
      if status.Some? then status.value.allocationId else None
    }

    function ResourceId(): Option<string> {
      if status.Some? then status.value.resourceId else None
    }

    function AssociationId(): Option<nat> {
      if status.Some? then status.value.associationId else None
    }

    predicate MatchesPod(name: string) {
      selector == PodSelector(name)
    }

    predicate MatchesNode(labels: map<string, string>) {
      selector.NodeSelector? && LabelsMatch(selector.labels, labels)
    }

    /** A node may take this Eip: it has a status that names no resource, or names that node. */
    predicate FreeFor(name: string) {
      status.Some? && (status.value.resourceId == None || status.value.resourceId == Some(name))
    }
  }

  predicate LabelsMatch(selector: map<string, string>, labels: map<string, string>) {
    forall k :: k in selector ==> k in labels && labels[k] == selector[k]
  }

  datatype Annotation = Annotation(allocationId: nat, publicIp: string)

  datatype Pod = Pod(
    key: Key, uid: nat, version: nat, finalizer: bool, deleting: bool, autocreate: bool,
    ip: Option<string>, nodeName: Option<string>, eni: Option<string>, annotation: Option<Annotation>)

  /** `ready` is the status of the node's Ready condition, when it has one. */
  datatype Node = Node(
    name: string, labels: map<string, string>, ip: Option<string>,
    providerId: Option<string>, ready: Option<string>)

  datatype Association = Association(id: nat, eni: string, ip: string)

  /** An Elastic IP: `uid` and `ns` are the tags written when it was allocated. */
  datatype Address = Address(uid: nat, ns: string, publicIp: string, association: Option<Association>)
  {
    predicate At(eni: string, ip: string) {
      association.Some? && association.value.eni == eni && association.value.ip == ip
    }
  }

  const EGRESS_LABEL := "egress-gateway.materialize.cloud/ready-status"
}
