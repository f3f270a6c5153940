/** The provider dispatch of the library crate root (src/lib.rs): a provider
    name chosen on the command line selects the workflow to run. */
module Dispatch {
  import opened Wrappers
  import opened Text

  /** The providers the crate names. */
  datatype Provider = Aws | Google

  /** The workflows `create_workflow` can return, with the fields they are
      created with: the AWS workflow starts with an empty start URL and region
      (`AwsSsoWorkflow::new`), the GCP workflow carries a project id. The
      `AwsSso` case is the initial state of the class `AwsSso.AwsSsoWorkflow`,
      whose constructor and `RunWorkflow` model that workflow's behaviour. */
  datatype Workflow = AwsSso(startUrl: string, region: string) | Gcp(projectId: string)

  const GCP_PROJECT_ID := "gcp-project-id"

  /** The provider a workflow serves. */
  function ProviderOf(w: Workflow): Provider {
    match w
    case AwsSso(_, _) => Aws
    case Gcp(_) => Google
  }

  /** `create_workflow`: choose by the lower-cased provider name; report any other
      name, as typed, as not yet implemented. */
  function CreateWorkflow(provider: string): (r: Result<Workflow>)
    ensures r.Ok? <==> Lower(provider) in {"aws", "google"}
    ensures Lower(provider) == "aws" ==> r == Ok(AwsSso("", ""))
    ensures Lower(provider) == "google" ==> r == Ok(Gcp(GCP_PROJECT_ID))
    ensures r.Err? ==> r.error == "To still be implemented: " + provider
  {
    match Lower(provider)
    case "aws" => Ok(AwsSso("", ""))
    case "google" => Ok(Gcp(GCP_PROJECT_ID))
    case _ => Err("To still be implemented: " + provider)
  }

  /** The choice depends only on the lower-cased name: a name and its lower-case
      form select the same workflow, or are both rejected. */
  lemma CreateWorkflowIgnoresCase(provider: string)
    ensures CreateWorkflow(provider).Ok? == CreateWorkflow(Lower(provider)).Ok?
    ensures CreateWorkflow(provider).Ok? ==> CreateWorkflow(provider) == CreateWorkflow(Lower(provider))
  {
    LowerIdempotent(provider);
  }

  /** Every letter-case spelling of "aws" selects the AWS workflow. */
  lemma CreateWorkflowAwsAnyCase(provider: string)
    requires |provider| == 3
    requires provider[0] in "aA" && provider[1] in "wW" && provider[2] in "sS"
    ensures CreateWorkflow(provider) == Ok(AwsSso("", ""))
    ensures ProviderOf(CreateWorkflow(provider).value) == Aws
  {
    assert Lower(provider) == "aws";
  }

  /** Every letter-case spelling of "google" selects the GCP workflow. */
  lemma CreateWorkflowGoogleAnyCase(provider: string)
    requires |provider| == 6
    requires provider[0] in "gG" && provider[1] in "oO" && provider[2] in "oO"
    requires provider[3] in "gG" && provider[4] in "lL" && provider[5] in "eE"
    ensures CreateWorkflow(provider) == Ok(Gcp("gcp-project-id"))
    ensures ProviderOf(CreateWorkflow(provider).value) == Google
  {
    assert Lower(provider) == "google";
  }
}
