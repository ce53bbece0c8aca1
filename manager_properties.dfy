/** What `Bosh.Create` and `Bosh.Delete` promise, stated over all records and all
    collaborator behaviours. */
module ManagerProperties {
  import opened Wrappers
  import opened Storage
  import opened Bosh
  import Terraform
  import CloudFormation

  /** Every field of the descriptor that only AWS uses is zero. */
  predicate AWSFieldsZero(i: InterpolateInput)
  {
    && i.az == "" && i.accessKeyID == "" && i.secretAccessKey == "" && i.region == ""
    && i.defaultKeyName == "" && i.defaultSecurityGroups == [] && i.subnetID == ""
  }

  /** Every field of the descriptor that only GCP uses is zero. */
  predicate GCPFieldsZero(i: InterpolateInput)
  {
    && i.zone == "" && i.network == "" && i.subnetwork == "" && i.tags == []
    && i.projectID == "" && i.credentialsJSON == ""
  }

  // ----- Source selection -----

  lemma CreateConsultsTerraformForGCP(m: Manager, s: State)
    requires s.iaas == "gcp"
    ensures Create(m, s).calls[0] == TerraformGet(s.tfState, s.lb.lbType)
    ensures CallCount(Create(m, s).calls, TerraformOutputProvider) == 1
    ensures CallCount(Create(m, s).calls, StackManager) == 0
  {
  }

  lemma CreateConsultsStackForAWS(m: Manager, s: State)
    requires s.iaas == "aws"
    ensures Create(m, s).calls[0] == StackDescribe(s.stack.name)
    ensures CallCount(Create(m, s).calls, StackManager) == 1
    ensures CallCount(Create(m, s).calls, TerraformOutputProvider) == 0
  {
  }

  /** Create's trace is its fetch step's trace followed only by executor calls, so the output
      sources see exactly the calls the fetch step made, and the executor the rest. */
  lemma CreateCountsSplitAtFetch(m: Manager, s: State, who: Collaborator)
    ensures var c := Create(m, s).calls; var f := FetchOutputs(m, s).calls;
      && |f| <= |c| && c[..|f|] == f
      && CallCount(c, who) == CallCount(f, who) + (if who == BOSHExecutor then |c| - |f| else 0)
  {
    var c := Create(m, s).calls;
    var f := FetchOutputs(m, s).calls;
    var rest := c[|f|..];
    assert c == f + rest;
    CountAppend(f, rest, who);
    if who == BOSHExecutor {
      ExecutorCountIsLength(rest);
    }
  }

  lemma {:induction false} ExecutorCountIsLength(calls: seq<Call>)
    requires forall k :: 0 <= k < |calls| ==> Target(calls[k]) == BOSHExecutor
    ensures CallCount(calls, BOSHExecutor) == |calls|
  {
    if calls != [] {
      assert forall k :: 0 <= k < |calls[1..]| ==> calls[1..][k] == calls[k + 1];
      ExecutorCountIsLength(calls[1..]);
    }
  }

  /** Which output source is consulted, and how often, is decided by the IAAS alone:
      neither the rest of the record nor any collaborator's answer changes it. */
  lemma SourceSelectionDependsOnlyOnIAAS(m1: Manager, s1: State, m2: Manager, s2: State, who: Collaborator)
    requires s1.iaas == s2.iaas
    requires who != BOSHExecutor
    ensures CallCount(Create(m1, s1).calls, who) == CallCount(Create(m2, s2).calls, who)
  {
  }

  // ----- Input assembly -----

  lemma GCPInterpolateInput(m: Manager, s: State, o: Terraform.Outputs)
    requires s.iaas == "gcp"
    requires m.terraformOutputProvider(s.tfState, s.lb.lbType) == Success(o)
    ensures |Create(m, s).calls| >= 2
    ensures Create(m, s).calls[1].ExecutorInterpolate?
    ensures var i := Create(m, s).calls[1].interpolateInput;
      && i.iaas == "gcp"
      && i.directorName == "bosh-" + s.envID
      && i.zone == s.gcp.zone && i.projectID == s.gcp.projectID && i.credentialsJSON == s.gcp.serviceAccountKey
      && i.network == o.networkName && i.subnetwork == o.subnetworkName && i.externalIP == o.externalIP
      && i.tags == [o.boshTag, o.internalTag]
      && i.privateKey == s.keyPair.privateKey
      && i.boshState == s.bosh.state && i.variables == s.bosh.variables
      && AWSFieldsZero(i)
  {
  }

  lemma AWSInterpolateInput(m: Manager, s: State, st: CloudFormation.Stack)
    requires s.iaas == "aws"
    requires m.stackManager(s.stack.name) == Success(st)
    ensures |Create(m, s).calls| >= 2
    ensures Create(m, s).calls[1].ExecutorInterpolate?
    ensures var i := Create(m, s).calls[1].interpolateInput;
      && i.iaas == "aws"
      && i.directorName == "bosh-" + s.envID
      && i.az == CloudFormation.Output(st, "BOSHSubnetAZ")
      && i.accessKeyID == CloudFormation.Output(st, "BOSHUserAccessKey")
      && i.secretAccessKey == CloudFormation.Output(st, "BOSHUserSecretAccessKey")
      && i.region == s.aws.region
      && i.defaultKeyName == s.keyPair.name
      && i.defaultSecurityGroups == [CloudFormation.Output(st, "BOSHSecurityGroup")]
      && i.subnetID == CloudFormation.Output(st, "BOSHSubnet")
      && i.externalIP == CloudFormation.Output(st, "BOSHEIP")
      && i.privateKey == s.keyPair.privateKey
      && i.boshState == s.bosh.state && i.variables == s.bosh.variables
      && GCPFieldsZero(i)
  {
  }

  // ----- Interpolate, then create-env -----

  /** Create-env gets the interpolated manifest, the PRIOR BOSH state and the marshalled
      interpolated variables. */
  lemma CreateEnvReceivesInterpolation(m: Manager, s: State, outs: IAASOutputs, out: InterpolateOutput)
    requires FetchOutputs(m, s).result == Success(outs)
    requires m.executor.interpolate(BuildInterpolateInput(s, outs)) == Success(out)
    ensures |Create(m, s).calls| == 3
    ensures Create(m, s).calls[2] == ExecutorCreateEnv(CreateEnvInput(out.manifest, s.bosh.state, m.marshal(out.variables)))
  {
  }

  /** The record a successful create returns: only `bosh` changes, and it is rebuilt from the
      create-env state, the interpolation and the outputs; nothing of the old `bosh` survives. */
  lemma CreateReturnsNewBOSH(m: Manager, s: State, outs: IAASOutputs, out: InterpolateOutput, created: CreateEnvOutput)
    requires FetchOutputs(m, s).result == Success(outs)
    requires m.executor.interpolate(BuildInterpolateInput(s, outs)) == Success(out)
    requires m.executor.createEnv(CreateEnvInput(out.manifest, s.bosh.state, m.marshal(out.variables))) == Success(created)
    ensures Create(m, s).result.Success?
    ensures var b := Create(m, s).result.value.bosh;
      && Create(m, s).result.value == s.(bosh := b)
      && b.state == created.state
      && b.manifest == out.manifest
      && b.variables == m.marshal(out.variables)
      && b.directorName == "bosh-" + s.envID
      && b.directorAddress == DirectorAddress(outs)
      && b.directorUsername == "admin"
      && b.directorPassword == StringEntry(out.variables, "admin_password")
      && b.directorSSLCA == DirectorSSL(out.variables, "ca")
      && b.directorSSLCertificate == DirectorSSL(out.variables, "certificate")
      && b.directorSSLPrivateKey == DirectorSSL(out.variables, "private_key")
  {
  }

  /** The director address is the terraform `DirectorAddress` on GCP and the stack's
      `BOSHURL` output on AWS. */
  lemma CreateDirectorAddress(m: Manager, s: State)
    requires Create(m, s).result.Success?
    ensures s.iaas == "gcp" ==>
      (exists o :: && m.terraformOutputProvider(s.tfState, s.lb.lbType) == Success(o)
                   && Create(m, s).result.value.bosh.directorAddress == o.directorAddress)
    ensures s.iaas == "aws" ==>
      (exists st :: && m.stackManager(s.stack.name) == Success(st)
                    && Create(m, s).result.value.bosh.directorAddress == CloudFormation.Output(st, "BOSHURL"))
  {
  }

  // ----- Flattening the variables -----

  /** Flattening reads back exactly the password and certificate bundle the variables hold,
      whatever other entries there are; the username is always "admin". */
  lemma FlattenRecoversCredentials(others: Variables, password: string, ca: string, certificate: string, privateKey: string)
    ensures FlattenVariables(DirectorVariables(others, password, ca, certificate, privateKey))
         == Credentials("admin", password, ca, certificate, privateKey)
  {
  }

  /** The director's variables shape adds exactly the two director entries and nothing else. */
  lemma DirectorVariablesKeys(others: Variables, password: string, ca: string, certificate: string, privateKey: string)
    ensures DirectorVariables(others, password, ca, certificate, privateKey).Keys == others.Keys + {"admin_password", "director_ssl"}
  {
  }

  /** Missing entries are not an error: the corresponding fields stay empty. */
  lemma FlattenToleratesMissingEntries(vars: Variables)
    ensures "admin_password" !in vars ==> FlattenVariables(vars).password == ""
    ensures "director_ssl" !in vars ==>
      FlattenVariables(vars) == Credentials("admin", FlattenVariables(vars).password, "", "", "")
  {
  }

  // ----- Errors -----

  lemma CreateOutputSourceFailure(m: Manager, s: State, e: Error)
    requires || (s.iaas == "gcp" && m.terraformOutputProvider(s.tfState, s.lb.lbType) == Failure(e))
             || (s.iaas == "aws" && m.stackManager(s.stack.name) == Failure(e))
    ensures Create(m, s).result == Failure(e)
    ensures |Create(m, s).calls| == 1 && CallCount(Create(m, s).calls, BOSHExecutor) == 0
  {
  }

  lemma CreateInterpolateFailure(m: Manager, s: State, outs: IAASOutputs, e: Error)
    requires FetchOutputs(m, s).result == Success(outs)
    requires m.executor.interpolate(BuildInterpolateInput(s, outs)) == Failure(e)
    ensures Create(m, s).result == Failure(e)
    ensures |Create(m, s).calls| == 2 && Create(m, s).calls[1] == ExecutorInterpolate(BuildInterpolateInput(s, outs))
  {
  }

  lemma CreateEnvFailure(m: Manager, s: State, outs: IAASOutputs, out: InterpolateOutput, e: Error)
    requires FetchOutputs(m, s).result == Success(outs)
    requires m.executor.interpolate(BuildInterpolateInput(s, outs)) == Success(out)
    requires m.executor.createEnv(CreateEnvInput(out.manifest, s.bosh.state, m.marshal(out.variables))) == Failure(e)
    ensures Create(m, s).result == Failure(e)
  {
  }

  /** Create succeeds exactly when the IAAS is valid and all three collaborator calls succeed. */
  lemma CreateSucceedsIff(m: Manager, s: State)
    ensures Create(m, s).result.Success? <==>
      && IsValidIAAS(s.iaas)
      && FetchOutputs(m, s).result.Success?
      && m.executor.interpolate(BuildInterpolateInput(s, FetchOutputs(m, s).result.value)).Success?
      && var out := m.executor.interpolate(BuildInterpolateInput(s, FetchOutputs(m, s).result.value)).value;
         m.executor.createEnv(CreateEnvInput(out.manifest, s.bosh.state, m.marshal(out.variables))).Success?
  {
  }

  // ----- Create and Delete together -----

  /** Deleting what a successful create stored hands delete-env the manifest and variables
      create-env was given and the state create-env returned. */
  lemma CreateThenDelete(m: Manager, s: State, m': Manager)
    requires Create(m, s).result.Success?
    ensures Create(m, s).calls[2].ExecutorCreateEnv?
    ensures var given := Create(m, s).calls[2].createEnvInput;
      var deleted := Delete(m', Create(m, s).result.value).calls[0].deleteEnvInput;
      && deleted.manifest == given.manifest
      && deleted.variables == given.variables
      && m.executor.createEnv(given) == Success(CreateEnvOutput(deleted.state))
  {
  }

  /** A second create starts from what the first stored: interpolation sees the first
      create's BOSH state and variables, and create-env gets the state the first create-env
      returned, so no state blob is dropped between cycles. */
  lemma CreateTwiceCarriesStateForward(m: Manager, s: State, m': Manager)
    requires Create(m, s).result.Success?
    requires FetchOutputs(m', Create(m, s).result.value).result.Success?
    ensures Create(m, s).calls[2].ExecutorCreateEnv?
    ensures var first := Create(m, s);
      var given := first.calls[2].createEnvInput;
      var second := Create(m', first.result.value);
      && |second.calls| >= 2 && second.calls[1].ExecutorInterpolate?
      && m.executor.createEnv(given) == Success(CreateEnvOutput(second.calls[1].interpolateInput.boshState))
      && second.calls[1].interpolateInput.variables == given.variables
      && (|second.calls| == 3 ==>
            && second.calls[2].ExecutorCreateEnv?
            && second.calls[2].createEnvInput.state == second.calls[1].interpolateInput.boshState)
  {
  }
}
