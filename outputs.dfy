/** What the terraform output provider returns for a GCP environment. */
module Terraform {

  datatype Outputs = Outputs(
    networkName: string,
    subnetworkName: string,
    boshTag: string,
    internalTag: string,
    externalIP: string,
    directorAddress: string)
}

/** What a CloudFormation stack description returns for an AWS environment. */
module CloudFormation {

  datatype Stack = Stack(outputs: map<string, string>)

  /** Go's `stack.Outputs[key]`: a missing key reads as the empty string. */
  function Output(stack: Stack, key: string): string
  {
    if key in stack.outputs then stack.outputs[key] else ""
  }
}
