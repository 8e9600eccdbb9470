/**
 * Concrete label values worked through the model by lemmas: the expose-services parser on a few
 * labels, and the image of service_test.go with and without its labels.
 */
module Scenario {
  import opened Wrappers
  import opened Kube
  import opened GoStrings
  import opened DeploymentConfigs
  import Services
  import Composition
  import Meta

  const HttpPort8080 := ContainerPort("http", 8080, ProtocolTCP)
  const GrpcPort9000 := ContainerPort("grpc", 9000, ProtocolTCP)

  lemma ParseEightyEighty()
    ensures ParseDecimal("8080") == Some(8080)
  {
    assert AllDigits("8080");
    assert "8080"[..3] == "808";
    assert "808"[..2] == "80";
    assert "80"[..1] == "8";
    assert "8"[..0] == "";
    assert DecimalValue("8") == 8;
    assert DecimalValue("80") == 80;
    assert DecimalValue("808") == 808;
  }

  lemma ParseNinetyHundred()
    ensures ParseDecimal("9000") == Some(9000)
  {
    assert AllDigits("9000");
    assert "9000"[..3] == "900";
    assert "900"[..2] == "90";
    assert "90"[..1] == "9";
    assert "9"[..0] == "";
    assert DecimalValue("9") == 9;
    assert DecimalValue("90") == 90;
    assert DecimalValue("900") == 900;
  }

  lemma SplitHttpEntry()
    ensures Split("8080:http", PortSep) == ["8080", "http"]
  {
    assert "8080:http" == "8080" + [':'] + "http";
    SplitTwoParts("8080", "http", ':');
  }

  lemma SplitGrpcEntry()
    ensures Split("9000:grpc", PortSep) == ["9000", "grpc"]
  {
    assert "9000:grpc" == "9000" + [':'] + "grpc";
    SplitTwoParts("9000", "grpc", ':');
  }

  lemma SplitWebEntry()
    ensures Split("web:http", PortSep)[0] == "web"
  {
    var s := "web:http";
    assert s[3] == ':' && s[..3] == "web" && ':' !in s[..3];
    SplitAtFirst(s, ':', 3);
  }

  lemma SplitTwoServices()
    ensures Split("8080:http,9000:grpc", DockerLabelServicesSep) == ["8080:http", "9000:grpc"]
  {
    assert "8080:http,9000:grpc" == "8080:http" + [','] + "9000:grpc";
    SplitTwoParts("8080:http", "9000:grpc", ',');
  }

  /** `8080:http` is the http port 8080. */
  lemma HttpEntry()
    ensures WellFormedEntry("8080:http")
    ensures EntryPort("8080:http") == Some(HttpPort8080)
  {
    SplitHttpEntry();
    ParseEightyEighty();
    assert ':' in "8080:http";
  }

  /** `9000:grpc` is the (non-http) port 9000. */
  lemma GrpcEntry()
    ensures WellFormedEntry("9000:grpc")
    ensures EntryPort("9000:grpc") == Some(GrpcPort9000)
  {
    SplitGrpcEntry();
    ParseNinetyHundred();
    assert ':' in "9000:grpc";
  }

  /** `web:http` has a non-numeric port and yields nothing. */
  lemma NonNumericEntry()
    ensures WellFormedEntry("web:http")
    ensures EntryPort("web:http") == None
  {
    SplitWebEntry();
    assert !IsDigit("web"[0]);
  }

  /** Two services: both ports in label order, and the probe on the http one. */
  lemma TwoServices()
    ensures WellFormedEntries(Split("8080:http,9000:grpc", DockerLabelServicesSep))
    ensures ParsedPorts(Split("8080:http,9000:grpc", DockerLabelServicesSep)) == [HttpPort8080, GrpcPort9000]
    ensures HttpPort(Split("8080:http,9000:grpc", DockerLabelServicesSep)) == Some(8080)
  {
    SplitTwoServices();
    HttpEntry();
    GrpcEntry();
    OneEntry("8080:http");
    OneEntry("9000:grpc");
    TwoEntries("8080:http", "9000:grpc");
  }

  /** A non-numeric entry is skipped and the entries after it are still read. */
  lemma SkippedEntry()
    ensures WellFormedEntries(["web:http", "9000:grpc"])
    ensures ParsedPorts(["web:http", "9000:grpc"]) == [GrpcPort9000]
    ensures HttpPort(["web:http", "9000:grpc"]) == None
  {
    NonNumericEntry();
    GrpcEntry();
    OneEntry("web:http");
    OneEntry("9000:grpc");
    TwoEntries("web:http", "9000:grpc");
  }

  /** The image of service_test.go: it exposes `8080:http` and carries one `org.kie/` label. */
  const TestLabels := map[LabelExposeServices := "8080:http", OrgKieNamespaceLabelKey + "operator" := "kogito"]
  const TestImage := Some(DockerImage(Some(DockerConfig(Some(TestLabels)))))

  /** The application of service_test.go. */
  const TestApp := KogitoApp("test", "test", KogitoAppSpec(
    "test",
    OtherRuntime(""),
    BuildObject(GitSource("https://github.com/kiegroup/kogito-examples", "", "jbpm-quarkus-example"), [], false),
    [],
    ResourceRequirements(map[], map[]),
    None))

  lemma TestExposeEntries()
    ensures ExposeEntries(TestImage) == ["8080:http"]
  {
    assert ImageLabels(TestImage) == TestLabels;
    assert TestLabels[LabelExposeServices] == "8080:http";
    SplitTestExposeLabel();
  }

  lemma TestImageDiscovery()
    ensures WellFormedExposeLabel(TestImage)
    ensures DiscoveredPorts(TestImage) == [HttpPort8080]
    ensures DiscoveredProbe(TestImage) == Some(DefaultProbe.(tcpSocketPort := Some(IntValue(8080))))
  {
    TestExposeEntries();
    HttpEntry();
    OneEntry("8080:http");
  }

  lemma SplitKieKey()
    ensures Split("org.kie/operator", LabelNamespaceSep) == ["org.kie", "operator"]
  {
    assert "org.kie/operator" == "org.kie" + ['/'] + "operator";
    SplitTwoParts("org.kie", "operator", '/');
  }

  lemma SplitTestExposeLabel()
    ensures Split("8080:http", DockerLabelServicesSep) == ["8080:http"]
  {
    SplitWithoutSep("8080:http", ',');
  }

  lemma KieOperatorKey()
    ensures IsKieKey("org.kie/operator") && ImportedKey("org.kie/operator") == "operator"
  {
    assert "org.kie/operator"[..8] == OrgKieNamespaceLabelKey;
    SplitKieKey();
  }

  lemma ExposeKeyNotKie()
    ensures !IsKieKey(LabelExposeServices)
  {
    assert '/' in OrgKieNamespaceLabelKey;
    MissingCharNotContained(LabelExposeServices, OrgKieNamespaceLabelKey, '/');
  }

  /** Of a plain label and a promotable one, only the promotable one is imported. */
  lemma OnePromotableOfTwo(labels: StrMap, plain: string, kie: string)
    requires labels.Keys == {plain, kie}
    requires !IsKieKey(plain) && IsKieKey(kie)
    ensures ImportedKeys(labels, labels.Keys) == {ImportedKey(kie)}
    ensures forall k1, k2 ::
      (k1 in labels && k2 in labels && IsKieKey(k1) && IsKieKey(k2) && ImportedKey(k1) == ImportedKey(k2)) ==> k1 == k2
  {
    assert forall k :: k in labels && IsKieKey(k) ==> k == kie;
  }

  lemma TestLabelKeys()
    ensures TestLabels.Keys == {LabelExposeServices, "org.kie/operator"}
  {
    assert OrgKieNamespaceLabelKey + "operator" == "org.kie/operator";
  }

  /** The test image's only promoted label is `operator`, imported from `org.kie/operator`. */
  lemma TestImagePromotion()
    ensures ImportedKeys(TestLabels, TestLabels.Keys) == {"operator"}
    ensures forall k1, k2 ::
      (k1 in TestLabels && k2 in TestLabels && IsKieKey(k1) && IsKieKey(k2) && ImportedKey(k1) == ImportedKey(k2)) ==> k1 == k2
  {
    KieOperatorKey();
    ExposeKeyNotKie();
    TestLabelKeys();
    OnePromotableOfTwo(TestLabels, LabelExposeServices, "org.kie/operator");
  }

  /** With the test image the service has exactly one port, numbered 8080. */
  lemma TestServicePorts(res: Composition.Resources)
    requires WellFormedExposeLabel(TestImage)
    requires Composition.ResourcesFor(TestApp, TestImage, res)
    ensures |res.service.ports| == 1 && res.service.ports[0].port == 8080
  {
    TestImageDiscovery();
    assert Services.TargetContainerPorts(res.service.ports)[0] == HttpPort8080;
  }

  /** With the test image the service carries the `operator` label promoted from the image. */
  lemma TestServiceLabel(res: Composition.Resources)
    requires WellFormedExposeLabel(TestImage)
    requires Composition.ResourcesFor(TestApp, TestImage, res)
    ensures res.service.meta.labels.Some? && "operator" in res.service.meta.labels.value
    ensures res.service.meta.labels.Some? && res.service.meta.labels.value["operator"] == "kogito"
  {
    TestImagePromotion();
    KieOperatorKey();
    TestLabelKeys();
    assert ImageLabels(TestImage) == TestLabels;
    DeploymentCarriesPromotedLabel(TestApp, res.builds.buildRunner, res.serviceAccount, TestImage, res.deployment, "org.kie/operator");
  }

  /**
   * Test_serviceResource_NewWithAndWithoutDockerImg: without an image the deployment exposes no
   * port and the service fails; with the test image the service has exactly the port 8080, and
   * the service carries the `operator` label promoted from the image.
   */
  method ServiceWithAndWithoutDockerImage() returns (without: Result<Composition.Resources, Error>,
                                                     with: Result<Composition.Resources, Error>)
    ensures without == Failure(NoServicePorts("test"))
    ensures with.Success? && |with.value.service.ports| == 1 && with.value.service.ports[0].port == 8080
    ensures with.Success? && with.value.service.meta.labels.Some? && "operator" in with.value.service.meta.labels.value
    ensures with.Success? && with.value.service.meta.labels.Some? && with.value.service.meta.labels.value["operator"] == "kogito"
  {
    without := Composition.BuildAll(TestApp, None);
    TestImageDiscovery();
    with := Composition.BuildAll(TestApp, TestImage);
    TestServicePorts(with.value);
    TestServiceLabel(with.value);
  }
}
