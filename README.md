# BOSH environment manager (bosh-bootloader) in Dafny

This project models `bosh.Manager` of bosh-bootloader, the component that stands a BOSH
director up and tears it down. `Create(state)` reads the persisted `storage.State`. It checks
the IAAS and asks the matching infrastructure output source for outputs: the terraform
output provider on `gcp`, the CloudFormation stack manager on `aws`. From the record and the
outputs it builds a `bosh.InterpolateInput` and calls the executor's interpolate and then
create-env. It returns a copy of the record in which only the `BOSH` sub-record is replaced.
The credentials and certificates are flattened out of the interpolated variables.
`Delete(state)` forwards the stored manifest, BOSH state and variables to delete-env.

The model is pure, as the manager is: no record is updated in place.

- `Storage` (`storage.dfy`) holds the record and the opaque `interface{}` payloads.
- `Terraform` and `CloudFormation` (`outputs.dfy`) hold the two kinds of outputs.
  `CloudFormation.Output` reads a missing stack output as `""`, as Go map indexing does.
- `Bosh` (`manager.dfy`) holds the executor's input and output records and the `Manager`.
  The `Manager` carries its collaborators as function values: what each one answers for each
  input. It also holds the call trace (`Call`, `CallCount`, the fakes' call recorders),
  input assembly, flattening, `Create` and `Delete`.
  Every operation returns a `Run`: its result together with the calls it made, in order.
- `ManagerProperties` (`manager_properties.dfy`) holds the properties over all records and
  all collaborator behaviours.
- `ManagerFixtures` (`manager_fixtures.dfy`) replays the test suite's concrete records and
  expectations against the model.

The implementation file `bosh/manager.go` is not part of this model. The behaviour follows
the contract its test suite `bosh/manager_test.go` asserts. Two design points go beyond it:

- Interpolate receives only the `InterpolateInput`, with the prior BOSH state inside it
  (manager_test.go:173-175). It does not take the prior state as a separate argument.
- `DirectorUsername` is the constant `"admin"` whatever the variables hold. It is never
  derived from the variables.

## Model

| member | source | states |
|---|---|---|
| `Bosh.Create` | bosh/manager_test.go:129-325 | An invalid IAAS fails with "A valid IAAS was not provided" and makes no call. Otherwise the first call goes to the IAAS's output source, every later call goes to the executor, and there are at most three calls. On success all three calls were made, every non-`BOSH` field equals the input's, and the director name is "bosh-" + EnvID |
| `Bosh.FetchOutputs` | bosh/manager_test.go:129-147 | gcp makes exactly one terraform Get call with TFState and LB type. aws makes exactly one Describe call with the stack name. Any other IAAS fails with the validation error and makes no call. The kind of outputs returned matches the IAAS |
| `Bosh.CallCount` | bosh/manager_test.go:134-145 | Counts the calls a collaborator received, like a fake's CallCount. The count is zero exactly when no call in the trace went to that collaborator |
| `Bosh.CountAppend` | bosh/manager_test.go:134-145 | The count over a concatenated trace is the sum of the counts over its parts |
| `Bosh.Delete` | bosh/manager_test.go:344-369 | Makes exactly one delete-env call, with the record's BOSH manifest, state and variables unchanged. It fails exactly when delete-env fails, with delete-env's error |
| `Bosh.DirectorVariables` | bosh/manager_test.go:109-116 | The director's variables shape: admin_password holds the password, and director_ssl is a nested mapping of ca, certificate and private_key. Every other entry keeps its key and value |
| `ManagerProperties.CreateConsultsTerraformForGCP` | bosh/manager_test.go:129-138 | For gcp the terraform provider is asked once, with TFState and LB type. Describe is never called |
| `ManagerProperties.CreateConsultsStackForAWS` | bosh/manager_test.go:140-148 | For aws Describe is called once, with the stack name. The terraform provider is never called |
| `ManagerProperties.CreateCountsSplitAtFetch` | bosh/manager_test.go:129-147 | Create's trace starts with exactly its fetch step's calls. The output sources see only those calls, and every later call goes to the executor |
| `ManagerProperties.ExecutorCountIsLength` | bosh/manager_test.go:134-145 | A trace made only of executor calls counts each of them as an executor call |
| `ManagerProperties.SourceSelectionDependsOnlyOnIAAS` | bosh/manager_test.go:129-147 | Two records with the same IAAS consult each output source equally often. This holds whatever else the records hold and whatever the collaborators answer |
| `ManagerProperties.GCPInterpolateInput` | bosh/manager_test.go:157-177 | GCP descriptor: DirectorName "bosh-"+EnvID. Zone, ProjectID and CredentialsJSON come from the record. Network, Subnetwork and ExternalIP come from the outputs. Tags are [BOSHTag, InternalTag]. PrivateKey comes from the KeyPair. The prior BOSH state and variables are carried over. Every AWS field is zero |
| `ManagerProperties.AWSInterpolateInput` | bosh/manager_test.go:178-196 | AWS descriptor: AZ, AccessKeyID, SecretAccessKey, SubnetID and ExternalIP come from the stack outputs BOSHSubnetAZ, BOSHUserAccessKey, BOSHUserSecretAccessKey, BOSHSubnet and BOSHEIP. DefaultSecurityGroups is [BOSHSecurityGroup]. Region and DefaultKeyName come from the record. The prior BOSH state and variables are carried over. Every GCP field is zero |
| `ManagerProperties.CreateEnvReceivesInterpolation` | bosh/manager_test.go:199-210 | Create-env receives the interpolated manifest, the prior BOSH state (not the new one) and the marshalled interpolated variables |
| `ManagerProperties.CreateReturnsNewBOSH` | bosh/manager_test.go:212-287 | On success only `BOSH` changes. Its State is exactly create-env's output, and the old keys are gone. Manifest is the interpolated manifest and Variables the marshalled variables. DirectorName is "bosh-"+EnvID and DirectorUsername "admin". DirectorPassword and the three SSL fields come from admin_password and director_ssl's ca, certificate and private_key |
| `ManagerProperties.CreateDirectorAddress` | bosh/manager_test.go:228-281 | The director address is the terraform DirectorAddress on gcp and the stack's BOSHURL output on aws |
| `ManagerProperties.FlattenRecoversCredentials` | bosh/manager_test.go:236-240 | Flattening variables of the director's shape returns exactly their password and SSL bundle, whatever other entries exist. The username is "admin" |
| `ManagerProperties.DirectorVariablesKeys` | bosh/manager_test.go:109-116 | The director's variables shape adds exactly admin_password and director_ssl to the other entries, and no other key |
| `ManagerProperties.FlattenToleratesMissingEntries` | bosh/manager_test.go:236-240 | A missing admin_password or director_ssl entry leaves the matching fields empty. It is not an error |
| `ManagerProperties.CreateOutputSourceFailure` | bosh/manager_test.go:290-304 | A terraform or stack failure is returned as the same error. No record is produced and the executor is never called |
| `ManagerProperties.CreateInterpolateFailure` | bosh/manager_test.go:311-317 | An interpolate failure is returned as the same error. Create-env is never called |
| `ManagerProperties.CreateEnvFailure` | bosh/manager_test.go:319-325 | A create-env failure is returned as the same error and no record is produced |
| `ManagerProperties.CreateSucceedsIff` | bosh/manager_test.go:289-325 | Create succeeds if and only if the IAAS is valid and the output fetch, interpolate and create-env all succeed |
| `ManagerProperties.CreateThenDelete` | bosh/manager_test.go:344-361 | Deleting a freshly created record hands delete-env the manifest and variables create-env got and the state create-env returned |
| `ManagerProperties.CreateTwiceCarriesStateForward` | bosh/manager_test.go:173-207 | A second create interpolates with the first create's new state and variables, and passes that state to create-env. No state blob is dropped between cycles |
| `ManagerFixtures.GCPCreateExample` | bosh/manager_test.go:129-247 | With the suite's fakes, the gcp record gives exactly the expected call sequence, descriptor, create-env input and returned state |
| `ManagerFixtures.AWSCreateExample` | bosh/manager_test.go:140-286 | With the suite's fakes, the aws record gives exactly the expected call sequence, descriptor, create-env input and returned state |
| `ManagerFixtures.GCPExampleInput` | bosh/manager_test.go:157-177 | The suite's gcp record and terraform outputs assemble exactly the expected GCP descriptor |
| `ManagerFixtures.AWSExampleInput` | bosh/manager_test.go:178-196 | The suite's aws record and stack outputs assemble exactly the expected AWS descriptor |
| `ManagerFixtures.CreatesWithTestExecutor` | bosh/manager_test.go:199-286 | With the suite's executor answers, create-env gets the expected input and the returned BOSH record is the expected one, for either IAAS |
| `ManagerFixtures.InvalidIAASExample` | bosh/manager_test.go:306-309 | The empty record fails with "A valid IAAS was not provided" and makes no call |
| `ManagerFixtures.DeleteExample` | bosh/manager_test.go:344-362 | The suite's delete record gives exactly the expected DeleteEnvInput |

## Left out

- commands/aws_lbs_test.go, the `lbs` CLI command: it only formats terraform outputs for a logger, which is presentation and I/O.
- YAML encoding of the variables: the manager's `marshal` field stands for it, and its text is not modelled. A marshalling error is not modelled either; `marshal` always returns a string.
- The real collaborators: the terraform output provider, the CloudFormation stack manager and the BOSH CLI executor. Only their answers are modelled, as function values, and their calls are recorded as a trace.
- `interface{}` payloads, meaning the BOSH state and the nested variables map: they are a `Value` tree with string keys. Their schema belongs to the BOSH CLI.
- `storage.State` fields the manager never reads or writes (version, AWS credentials, LB certificates, and so on): they are not in the record. They would pass through unchanged, like the modelled non-`BOSH` fields.
- Go's distinction between a nil slice and an empty slice in the zero-valued descriptor fields: both are `[]`.
- `Bosh.FlattenVariables`: a missing or non-string `admin_password` or `director_ssl` entry reads as `""`. The test suite never exercises that case. If the Go code used an unchecked type assertion there, it would panic instead.
- On-disk state storage, locking and concurrency belong to the callers.
