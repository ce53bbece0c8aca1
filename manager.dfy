/** The BOSH environment manager: turns a persisted record plus infrastructure outputs into
    the BOSH CLI's inputs, drives interpolate and create-env, and folds the result back. */
module Bosh {
  import opened Wrappers
  import opened Storage
  import Terraform
  import CloudFormation

  const InvalidIAASMessage := "A valid IAAS was not provided"
  const DirectorUsername := "admin"

  /** The interpolation descriptor, a flat struct: the fields of the other IAAS stay zero. */
  datatype InterpolateInput = InterpolateInput(
    iaas: string,
    directorName: string,
    zone: string,
    network: string,
    subnetwork: string,
    tags: seq<string>,
    projectID: string,
    externalIP: string,
    credentialsJSON: string,
    privateKey: string,
    boshState: Blob,
    variables: string,
    az: string,
    accessKeyID: string,
    secretAccessKey: string,
    region: string,
    defaultKeyName: string,
    defaultSecurityGroups: seq<string>,
    subnetID: string)

  const ZeroInterpolateInput := InterpolateInput("", "", "", "", "", [], "", "", "", "", map[], "", "", "", "", "", "", [], "")

  datatype InterpolateOutput = InterpolateOutput(manifest: string, variables: Variables)

  datatype CreateEnvInput = CreateEnvInput(manifest: string, state: Blob, variables: string)

  datatype CreateEnvOutput = CreateEnvOutput(state: Blob)

  datatype DeleteEnvInput = DeleteEnvInput(manifest: string, state: Blob, variables: string)

  /** The BOSH executor as seen by the manager: each operation's outcome for a given input. */
  datatype Executor = Executor(
    interpolate: InterpolateInput -> Result<InterpolateOutput>,
    createEnv: CreateEnvInput -> Result<CreateEnvOutput>,
    deleteEnv: DeleteEnvInput -> Outcome)

  /** `bosh.NewManager(executor, terraformOutputProvider, stackManager)`; `marshal` stands for
      the YAML encoder the manager applies to the interpolated variables. */
  datatype Manager = Manager(
    executor: Executor,
    terraformOutputProvider: (string, string) -> Result<Terraform.Outputs>,
    stackManager: string -> Result<CloudFormation.Stack>,
    marshal: Variables -> string)

  // ----- Call trace: which collaborator was consulted, with what, in which order -----

  datatype Collaborator = TerraformOutputProvider | StackManager | BOSHExecutor

  datatype Call =
    | TerraformGet(tfState: string, lbType: string)
    | StackDescribe(stackName: string)
    | ExecutorInterpolate(interpolateInput: InterpolateInput)
    | ExecutorCreateEnv(createEnvInput: CreateEnvInput)
    | ExecutorDeleteEnv(deleteEnvInput: DeleteEnvInput)

  function Target(c: Call): Collaborator
  {
    match c
    case TerraformGet(_, _) => TerraformOutputProvider
    case StackDescribe(_) => StackManager
    case _ => BOSHExecutor
  }

  /** How many calls of the trace went to `who` (the fakes' `CallCount`). */
  function CallCount(calls: seq<Call>, who: Collaborator): (n: nat)
    ensures n <= |calls|
    ensures n == 0 <==> forall k :: 0 <= k < |calls| ==> Target(calls[k]) != who
  {
    if calls == [] then 0
    else (if Target(calls[0]) == who then 1 else 0) + CallCount(calls[1..], who)
  }

  lemma {:induction false} CountAppend(a: seq<Call>, b: seq<Call>, who: Collaborator)
    ensures CallCount(a + b, who) == CallCount(a, who) + CallCount(b, who)
  {
    if a == [] {
      assert a + b == b;
    } else {
      assert (a + b)[1..] == a[1..] + b;
      CountAppend(a[1..], b, who);
    }
  }

  /** The outcome of one manager operation together with the calls it made. */
  datatype Run<+T> = Run(result: Result<T>, calls: seq<Call>)

  // ----- Source selection -----

  predicate IsValidIAAS(iaas: string)
  {
    iaas == "gcp" || iaas == "aws"
  }

  /** Infrastructure outputs, tagged by the source that produced them. */
  datatype IAASOutputs = GCPOutputs(tf: Terraform.Outputs) | AWSOutputs(stack: CloudFormation.Stack)

  /** Validates the IAAS and consults exactly the output source that belongs to it. */
  function FetchOutputs(m: Manager, s: State): (r: Run<IAASOutputs>)
    ensures !IsValidIAAS(s.iaas) ==> r == Run(Failure(Error(InvalidIAASMessage)), [])
    ensures s.iaas == "gcp" ==> r.calls == [TerraformGet(s.tfState, s.lb.lbType)]
    ensures s.iaas == "aws" ==> r.calls == [StackDescribe(s.stack.name)]
    ensures r.result.Success? ==> (r.result.value.GCPOutputs? <==> s.iaas == "gcp")
  {
    if s.iaas == "gcp" then
      var call := TerraformGet(s.tfState, s.lb.lbType);
      match m.terraformOutputProvider(s.tfState, s.lb.lbType)
      case Success(o) => Run(Success(GCPOutputs(o)), [call])
      case Failure(e) => Run(Failure(e), [call])
    else if s.iaas == "aws" then
      var call := StackDescribe(s.stack.name);
      match m.stackManager(s.stack.name)
      case Success(st) => Run(Success(AWSOutputs(st)), [call])
      case Failure(e) => Run(Failure(e), [call])
    else
      Run(Failure(Error(InvalidIAASMessage)), [])
  }

  // ----- Input assembly -----

  function DirectorName(envID: string): string
  {
    "bosh-" + envID
  }

  /** The descriptor for the IAAS the outputs belong to; the prior BOSH state and variables
      are carried forward so that interpolation can reuse them. */
  function BuildInterpolateInput(s: State, outs: IAASOutputs): InterpolateInput
  {
    var iaasInput :=
      match outs
      case GCPOutputs(tf) =>
        ZeroInterpolateInput.(
          iaas := "gcp",
          directorName := DirectorName(s.envID),
          zone := s.gcp.zone,
          network := tf.networkName,
          subnetwork := tf.subnetworkName,
          tags := [tf.boshTag, tf.internalTag],
          projectID := s.gcp.projectID,
          externalIP := tf.externalIP,
          credentialsJSON := s.gcp.serviceAccountKey,
          privateKey := s.keyPair.privateKey)
      case AWSOutputs(st) =>
        ZeroInterpolateInput.(
          iaas := "aws",
          directorName := DirectorName(s.envID),
          az := CloudFormation.Output(st, "BOSHSubnetAZ"),
          accessKeyID := CloudFormation.Output(st, "BOSHUserAccessKey"),
          secretAccessKey := CloudFormation.Output(st, "BOSHUserSecretAccessKey"),
          region := s.aws.region,
          defaultKeyName := s.keyPair.name,
          defaultSecurityGroups := [CloudFormation.Output(st, "BOSHSecurityGroup")],
          subnetID := CloudFormation.Output(st, "BOSHSubnet"),
          externalIP := CloudFormation.Output(st, "BOSHEIP"),
          privateKey := s.keyPair.privateKey);
    iaasInput.(boshState := s.bosh.state, variables := s.bosh.variables)
  }

  /** Where the director will listen: a terraform output on GCP, a stack output on AWS. */
  function DirectorAddress(outs: IAASOutputs): string
  {
    match outs
    case GCPOutputs(tf) => tf.directorAddress
    case AWSOutputs(st) => CloudFormation.Output(st, "BOSHURL")
  }

  // ----- Flattening the interpolated variables -----

  datatype Credentials = Credentials(
    username: string,
    password: string,
    sslCA: string,
    sslCertificate: string,
    sslPrivateKey: string)

  /** `vars[key].(string)`, with a missing or non-string entry reading as "". */
  function StringEntry(vars: Variables, key: string): string
  {
    if key in vars && vars[key].Str? then vars[key].text else ""
  }

  /** An entry of the nested `director_ssl` mapping, "" when either level is missing. */
  function DirectorSSL(vars: Variables, key: string): string
  {
    if "director_ssl" in vars && vars["director_ssl"].Nested? then StringEntry(vars["director_ssl"].entries, key)
    else ""
  }

  function FlattenVariables(vars: Variables): Credentials
  {
    Credentials(
      DirectorUsername,
      StringEntry(vars, "admin_password"),
      DirectorSSL(vars, "ca"),
      DirectorSSL(vars, "certificate"),
      DirectorSSL(vars, "private_key"))
  }

  /** The variables shape the director's manifest produces: an admin password and a
      `director_ssl` certificate bundle, plus whatever else `others` holds. */
  function DirectorVariables(others: Variables, password: string, ca: string, certificate: string, privateKey: string): (v: Variables)
    ensures others.Keys <= v.Keys
    ensures "admin_password" in v && v["admin_password"] == Str(password)
    ensures "director_ssl" in v && v["director_ssl"] == Nested(map["ca" := Str(ca), "certificate" := Str(certificate), "private_key" := Str(privateKey)])
    ensures forall k :: k in others && k != "admin_password" && k != "director_ssl" ==> v[k] == others[k]
  {
    others + map[
      "admin_password" := Str(password),
      "director_ssl" := Nested(map["ca" := Str(ca), "certificate" := Str(certificate), "private_key" := Str(privateKey)])]
  }

  /** The director sub-record that a successful create stores. */
  function NewBOSH(s: State, outs: IAASOutputs, interpolated: InterpolateOutput, variables: string, created: CreateEnvOutput): BOSH
  {
    var creds := FlattenVariables(interpolated.variables);
    BOSH(
      state := created.state,
      variables := variables,
      manifest := interpolated.manifest,
      directorName := DirectorName(s.envID),
      directorAddress := DirectorAddress(outs),
      directorUsername := creds.username,
      directorPassword := creds.password,
      directorSSLCA := creds.sslCA,
      directorSSLCertificate := creds.sslCertificate,
      directorSSLPrivateKey := creds.sslPrivateKey)
  }

  // ----- The manager's operations -----

  /** `Manager.Create`: fetch outputs, interpolate, create-env; stop at the first failure and
      return its error unchanged; on success return a copy of `s` with only `bosh` replaced. */
  function Create(m: Manager, s: State): (r: Run<State>)
    ensures !IsValidIAAS(s.iaas) ==> r == Run(Failure(Error(InvalidIAASMessage)), [])
    ensures IsValidIAAS(s.iaas) ==> 1 <= |r.calls| <= 3 && r.calls[0] == FetchOutputs(m, s).calls[0]
    ensures forall k :: 1 <= k < |r.calls| ==> Target(r.calls[k]) == BOSHExecutor
    ensures r.result.Success? ==> |r.calls| == 3 && r.result.value.(bosh := s.bosh) == s
    ensures r.result.Success? ==> r.result.value.bosh.directorName == "bosh-" + s.envID
  {
    var fetched := FetchOutputs(m, s);
    match fetched.result
    case Failure(e) => Run(Failure(e), fetched.calls)
    case Success(outs) =>
      var input := BuildInterpolateInput(s, outs);
      var calls := fetched.calls + [ExecutorInterpolate(input)];
      match m.executor.interpolate(input)
      case Failure(e) => Run(Failure(e), calls)
      case Success(interpolated) =>
        var variables := m.marshal(interpolated.variables);
        var envInput := CreateEnvInput(interpolated.manifest, s.bosh.state, variables);
        var calls' := calls + [ExecutorCreateEnv(envInput)];
        match m.executor.createEnv(envInput)
        case Failure(e) => Run(Failure(e), calls')
        case Success(created) =>
          Run(Success(s.(bosh := NewBOSH(s, outs, interpolated, variables, created))), calls')
  }

  /** `Manager.Delete`: hand the stored manifest, state and variables to delete-env. */
  function Delete(m: Manager, s: State): (r: Run<()>)
    ensures |r.calls| == 1 && r.calls[0].ExecutorDeleteEnv?
    ensures r.calls[0].deleteEnvInput.manifest == s.bosh.manifest
    ensures r.calls[0].deleteEnvInput.state == s.bosh.state
    ensures r.calls[0].deleteEnvInput.variables == s.bosh.variables
    ensures r.result.Failure? <==> m.executor.deleteEnv(r.calls[0].deleteEnvInput).Fail?
    ensures r.result.Failure? ==> r.result.error == m.executor.deleteEnv(r.calls[0].deleteEnvInput).error
  {
    var input := DeleteEnvInput(s.bosh.manifest, s.bosh.state, s.bosh.variables);
    var calls := [ExecutorDeleteEnv(input)];
    match m.executor.deleteEnv(input)
    case Pass => Run(Success(()), calls)
    case Fail(e) => Run(Failure(e), calls)
  }
}
