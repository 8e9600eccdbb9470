/** The Service of service.go: exposes the first container's ports of a DeploymentConfig. */
module Services {
  import opened Wrappers
  import opened Kube
  import Meta

  /** The container ports a list of service ports forwards to, read back from their targets. */
  function TargetContainerPorts(ports: seq<ServicePort>): (cps: seq<ContainerPort>)
    ensures |cps| == |ports|
  {
    if ports == [] then []
    else
      var p := ports[0];
      var target := if p.targetPort.IntValue? then p.targetPort.intValue else p.port;
      [ContainerPort(p.name, target, p.protocol)] + TargetContainerPorts(ports[1..])
  }

  /** Each service port listens on the number it forwards to. */
  predicate ForwardsToSameNumber(ports: seq<ServicePort>) {
    forall i :: 0 <= i < |ports| ==> ports[i].targetPort == IntValue(ports[i].port)
  }

  /**
   * buildServicePorts: fails when the DC has no container or its first container no port;
   * otherwise one service port per container port, in order, forwarding to that port's number.
   */
  method BuildServicePorts(dc: DeploymentConfig) returns (r: Result<seq<ServicePort>, Error>)
    ensures r.Failure? <==> |dc.template.spec.containers| == 0 || |dc.template.spec.containers[0].ports| == 0
    ensures r.Failure? ==> r.error == NoServicePorts(dc.meta.name)
    ensures r.Success? ==> ForwardsToSameNumber(r.value)
    ensures r.Success? ==> TargetContainerPorts(r.value) == dc.template.spec.containers[0].ports
  {
    var containers := dc.template.spec.containers;
    if |containers| == 0 || |containers[0].ports| == 0 {
      return Failure(NoServicePorts(dc.meta.name));
    }
    var containerPorts := containers[0].ports;
    var ports: seq<ServicePort> := [];
    var i := 0;
    while i < |containerPorts|
      invariant 0 <= i <= |containerPorts|
      invariant |ports| == i
      invariant ForwardsToSameNumber(ports)
      invariant TargetContainerPorts(ports) == containerPorts[..i]
    {
      var port := containerPorts[i];
      var servicePort := ServicePort(port.name, port.protocol, port.containerPort, IntValue(port.containerPort));
      TargetContainerPortsAppend(ports, [servicePort]);
      assert containerPorts[..i + 1] == containerPorts[..i] + [port];
      ports := ports + [servicePort];
      i := i + 1;
    }
    assert containerPorts[..i] == containerPorts;
    return Success(ports);
  }

  lemma {:induction false} TargetContainerPortsAppend(a: seq<ServicePort>, b: seq<ServicePort>)
    ensures TargetContainerPorts(a + b) == TargetContainerPorts(a) + TargetContainerPorts(b)
    decreases |a|
  {
    if a == [] {
      assert a + b == b;
    } else {
      assert (a + b)[0] == a[0];
      assert (a + b)[1..] == a[1..] + b;
      TargetContainerPortsAppend(a[1..], b);
    }
  }

  /**
   * newService: a ClusterIP service carrying the DC's metadata with the default metadata added,
   * the DC's selector, and the DC's ports; fails as buildServicePorts does.
   */
  method NewService(app: KogitoApp, dc: DeploymentConfig) returns (r: Result<Service, Error>)
    ensures r.Failure? <==> |dc.template.spec.containers| == 0 || |dc.template.spec.containers[0].ports| == 0
    ensures r.Failure? ==> r.error == NoServicePorts(dc.meta.name)
    ensures r.Success? ==> r.value.kind == ServiceKind && r.value.serviceType == ClusterIP
    ensures r.Success? ==> r.value.meta == Meta.StampMeta(dc.meta, app.spec.name)
    ensures r.Success? ==> r.value.selector == dc.selector
    ensures r.Success? ==> ForwardsToSameNumber(r.value.ports)
    ensures r.Success? ==> TargetContainerPorts(r.value.ports) == dc.template.spec.containers[0].ports
  {
    var ports := BuildServicePorts(dc);
    if ports.Failure? {
      return Failure(ports.error);
    }
    var service := Service(NoKind, dc.meta, dc.selector, ClusterIP, ports.value);
    service := service.(kind := ServiceKind);
    var meta := Meta.AddDefaultMeta(Some(service.meta), app.spec.name);
    service := service.(meta := meta.value);
    return Success(service);
  }
}
