/** The persisted environment record (`storage.State`) and the opaque payloads it carries. */
module Storage {

  /** An `interface{}` payload whose schema belongs to the BOSH CLI, not to the manager:
      a string, a nested mapping, or any other scalar or list (kept as its text). */
  datatype Value = Str(text: string) | Nested(entries: map<string, Value>) | Other(repr: string)

  /** The BOSH CLI's state file (`map[string]interface{}`), round-tripped without interpretation. */
  type Blob = map<string, Value>

  /** The decoded variables map the interpolation step returns (passwords, certificates, ...). */
  type Variables = map<string, Value>

  datatype KeyPair = KeyPair(name: string, privateKey: string)

  datatype GCP = GCP(zone: string, projectID: string, serviceAccountKey: string)

  datatype AWS = AWS(region: string)

  /** The CloudFormation stack the environment was provisioned with. */
  datatype Stack = Stack(name: string)

  datatype LB = LB(lbType: string)

  /** The director sub-record: everything `Create` replaces. */
  datatype BOSH = BOSH(
    state: Blob,
    variables: string,
    manifest: string,
    directorName: string,
    directorAddress: string,
    directorUsername: string,
    directorPassword: string,
    directorSSLCA: string,
    directorSSLCertificate: string,
    directorSSLPrivateKey: string)

  datatype State = State(
    iaas: string,
    envID: string,
    keyPair: KeyPair,
    gcp: GCP,
    aws: AWS,
    stack: Stack,
    bosh: BOSH,
    tfState: string,
    lb: LB)

  /** The zero value of `storage.BOSH`. */
  const EmptyBOSH := BOSH(map[], "", "", "", "", "", "", "", "", "")

  /** The zero value of `storage.State`. */
  const EmptyState := State("", "", KeyPair("", ""), GCP("", "", ""), AWS(""), Stack(""), EmptyBOSH, "", LB(""))
}
