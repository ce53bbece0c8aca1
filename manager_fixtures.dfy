/** The concrete records, outputs and expectations of the manager's own test suite,
    checked against the model. */
module ManagerFixtures {
  import opened Wrappers
  import opened Storage
  import opened Bosh
  import Terraform
  import CloudFormation
  import opened ManagerProperties

  const VariablesYAML := "admin_password: some-admin-password\ndirector_ssl:\n  ca: some-ca\n  certificate: some-certificate\n  private_key: some-private-key\n"

  const PriorBOSHState: Blob := map["some-key" := Str("some-value")]
  const NewBOSHState: Blob := map["some-new-key" := Str("some-new-value")]

  const TestVariables := DirectorVariables(map[], "some-admin-password", "some-ca", "some-certificate", "some-private-key")

  const TestTerraformOutputs := Terraform.Outputs(
    "some-network", "some-subnetwork", "some-bosh-open-tag", "some-internal-tag", "some-external-ip", "some-director-address")

  const TestStack := CloudFormation.Stack(map[
    "BOSHSubnetAZ" := "some-bosh-subnet-az",
    "BOSHUserAccessKey" := "some-bosh-user-access-key",
    "BOSHUserSecretAccessKey" := "some-bosh-user-secret-access-key",
    "BOSHSecurityGroup" := "some-bosh-security-group",
    "BOSHSubnet" := "some-bosh-subnet",
    "BOSHEIP" := "some-bosh-elastic-ip",
    "BOSHURL" := "some-bosh-url"])

  const IncomingGCPState := EmptyState.(
    iaas := "gcp",
    envID := "some-env-id",
    keyPair := KeyPair("", "some-private-key"),
    gcp := GCP("some-zone", "some-project-id", "some-credential-json"),
    bosh := EmptyBOSH.(state := PriorBOSHState),
    tfState := "some-tf-state",
    lb := LB("cf"))

  const IncomingAWSState := EmptyState.(
    iaas := "aws",
    envID := "some-env-id",
    keyPair := KeyPair("some-keypair-name", "some-private-key"),
    aws := AWS("some-region"),
    stack := Stack("some-stack"),
    bosh := EmptyBOSH.(state := PriorBOSHState),
    lb := LB("cf"))

  const ExpectedGCPInput := ZeroInterpolateInput.(
    iaas := "gcp",
    directorName := "bosh-some-env-id",
    zone := "some-zone",
    network := "some-network",
    subnetwork := "some-subnetwork",
    tags := ["some-bosh-open-tag", "some-internal-tag"],
    projectID := "some-project-id",
    externalIP := "some-external-ip",
    credentialsJSON := "some-credential-json",
    privateKey := "some-private-key",
    boshState := PriorBOSHState,
    variables := "")

  const ExpectedAWSInput := ZeroInterpolateInput.(
    iaas := "aws",
    directorName := "bosh-some-env-id",
    az := "some-bosh-subnet-az",
    accessKeyID := "some-bosh-user-access-key",
    secretAccessKey := "some-bosh-user-secret-access-key",
    region := "some-region",
    defaultKeyName := "some-keypair-name",
    defaultSecurityGroups := ["some-bosh-security-group"],
    subnetID := "some-bosh-subnet",
    externalIP := "some-bosh-elastic-ip",
    privateKey := "some-private-key",
    boshState := PriorBOSHState,
    variables := "")

  function ExpectedBOSH(directorAddress: string): BOSH
  {
    BOSH(NewBOSHState, VariablesYAML, "some-manifest", "bosh-some-env-id", directorAddress,
         "admin", "some-admin-password", "some-ca", "some-certificate", "some-private-key")
  }

  const ExpectedCreateEnvInput := CreateEnvInput("some-manifest", PriorBOSHState, VariablesYAML)

  /** The fakes of the test suite: every collaborator answers with its fixed value,
      whatever it is asked, and the marshaller produces the expected YAML. */
  ghost predicate IsTestManager(m: Manager)
  {
    && (forall tf, lb :: m.terraformOutputProvider(tf, lb) == Success(TestTerraformOutputs))
    && (forall name :: m.stackManager(name) == Success(TestStack))
    && (forall i :: m.executor.interpolate(i) == Success(InterpolateOutput("some-manifest", TestVariables)))
    && (forall i :: m.executor.createEnv(i) == Success(CreateEnvOutput(NewBOSHState)))
    && m.marshal(TestVariables) == VariablesYAML
  }

  lemma GCPCreateExample(m: Manager)
    requires IsTestManager(m)
    ensures Create(m, IncomingGCPState).calls ==
      [TerraformGet("some-tf-state", "cf"), ExecutorInterpolate(ExpectedGCPInput), ExecutorCreateEnv(ExpectedCreateEnvInput)]
    ensures Create(m, IncomingGCPState).result ==
      Success(IncomingGCPState.(bosh := ExpectedBOSH("some-director-address")))
  {
    var s := IncomingGCPState;
    var outs := GCPOutputs(TestTerraformOutputs);
    assert m.terraformOutputProvider(s.tfState, s.lb.lbType) == Success(TestTerraformOutputs);
    assert FetchOutputs(m, s).result == Success(outs);
    GCPExampleInput();
    assert m.executor.interpolate(ExpectedGCPInput) == Success(InterpolateOutput("some-manifest", TestVariables));
    assert m.executor.createEnv(ExpectedCreateEnvInput) == Success(CreateEnvOutput(NewBOSHState));
    CreatesWithTestExecutor(m, s, outs);
  }

  lemma AWSCreateExample(m: Manager)
    requires IsTestManager(m)
    ensures Create(m, IncomingAWSState).calls ==
      [StackDescribe("some-stack"), ExecutorInterpolate(ExpectedAWSInput), ExecutorCreateEnv(ExpectedCreateEnvInput)]
    ensures Create(m, IncomingAWSState).result ==
      Success(IncomingAWSState.(bosh := ExpectedBOSH("some-bosh-url")))
  {
    var s := IncomingAWSState;
    var outs := AWSOutputs(TestStack);
    assert m.stackManager(s.stack.name) == Success(TestStack);
    assert FetchOutputs(m, s).result == Success(outs);
    AWSExampleInput();
    assert m.executor.interpolate(ExpectedAWSInput) == Success(InterpolateOutput("some-manifest", TestVariables));
    assert m.executor.createEnv(ExpectedCreateEnvInput) == Success(CreateEnvOutput(NewBOSHState));
    CreatesWithTestExecutor(m, s, outs);
  }

  lemma GCPExampleInput()
    ensures BuildInterpolateInput(IncomingGCPState, GCPOutputs(TestTerraformOutputs)) == ExpectedGCPInput
  {
  }

  lemma AWSExampleInput()
    ensures BuildInterpolateInput(IncomingAWSState, AWSOutputs(TestStack)) == ExpectedAWSInput
  {
  }

  /** Shared tail of both examples: with the test executor, whatever the outputs, create-env
      gets the expected input and the director credentials come out of the test variables. */
  lemma CreatesWithTestExecutor(m: Manager, s: State, outs: IAASOutputs)
    requires m.executor.interpolate(BuildInterpolateInput(s, outs)) == Success(InterpolateOutput("some-manifest", TestVariables))
    requires m.executor.createEnv(ExpectedCreateEnvInput) == Success(CreateEnvOutput(NewBOSHState))
    requires m.marshal(TestVariables) == VariablesYAML
    requires s.bosh.state == PriorBOSHState && s.envID == "some-env-id"
    requires FetchOutputs(m, s).result == Success(outs)
    ensures Create(m, s).calls == FetchOutputs(m, s).calls +
      [ExecutorInterpolate(BuildInterpolateInput(s, outs)), ExecutorCreateEnv(ExpectedCreateEnvInput)]
    ensures Create(m, s).result == Success(s.(bosh := ExpectedBOSH(DirectorAddress(outs))))
  {
    var out := InterpolateOutput("some-manifest", TestVariables);
    FlattenRecoversCredentials(map[], "some-admin-password", "some-ca", "some-certificate", "some-private-key");
    assert CreateEnvInput(out.manifest, s.bosh.state, m.marshal(out.variables)) == ExpectedCreateEnvInput;
    CreateReturnsNewBOSH(m, s, outs, out, CreateEnvOutput(NewBOSHState));
    var b := Create(m, s).result.value.bosh;
    assert b.directorPassword == "some-admin-password";
    assert b.directorSSLCA == "some-ca";
    assert b == ExpectedBOSH(DirectorAddress(outs));
  }

  lemma InvalidIAASExample(m: Manager)
    ensures Create(m, EmptyState).result == Failure(Error("A valid IAAS was not provided"))
    ensures Create(m, EmptyState).calls == []
  {
  }

  lemma DeleteExample(m: Manager)
    requires forall i :: m.executor.deleteEnv(i) == Pass
    ensures Delete(m, EmptyState.(bosh := EmptyBOSH.(manifest := "some-manifest", state := map["key" := Str("value")], variables := VariablesYAML)))
         == Run(Success(()), [ExecutorDeleteEnv(DeleteEnvInput("some-manifest", map["key" := Str("value")], VariablesYAML))])
  {
  }
}
