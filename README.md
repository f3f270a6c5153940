# rustssm sign-in core, modelled in Dafny

`rustssm` is a command-line tool that signs a user in to AWS IAM Identity
Center (AWS SSO) and writes temporary role credentials into
`~/.aws/credentials`. This project models the deterministic core of that
sign-in, in `src/aws.rs`, and the provider dispatch in `src/lib.rs`:

- `wrappers.dfy`: `Option`, `Result` and `Outcome` (a `Result` without a value).
- `text.dfy` (module `Text`): the parts of Rust's `str` that the program
  relies on. These are `contains`, `split` with a string separator (leftmost,
  non-overlapping matches) and `to_lowercase`, restricted to ASCII.
- `dispatch.dfy` (module `Dispatch`): `create_workflow`, a match on the
  lower-cased provider name.
- `oidc.dfy` (module `Oidc`): the checks on the identity provider's answers.
  These cover `register_client`, `start_device_authorization` and
  `extract_access_token`, plus the `i32` to `u64` conversion of the polling
  interval.
- `poller.dfy` (module `TokenPoller`): `poll_for_token`, the token polling loop
  of the OAuth 2.0 Device Authorization Grant (sections 3.4 and 3.5 of
  RFC 8628). It is a method with a loop, proved against the reference function
  `Poll`. The endpoint's answers are a finite script, and each sleep is
  recorded as a duration in seconds.
- `selection.dfy` (module `Selection`): how lines of the form
  `"{id} - {name} - {role}"` are built by `fetch_accounts_and_roles`, and how
  a chosen line is taken apart again.
- `credentials.dfy` (module `Credentials`): `write_default_aws_credentials`.
  The class `Host` stands for the operating system. It has the home
  directory, the paths on which every operation fails, and a disk of files and
  directories that its methods change.
- `batch.dfy` (module `RoleBatch`): `process_selected_accounts_and_roles`, a
  loop over the chosen lines that fetches and writes credentials. It is proved
  against the reference function `Batch`.
- `workflow.dfy` (module `AwsSso`): the class `AwsSsoWorkflow` and
  `run_workflow`, which chains all of the above. It ends with an example run
  proved end to end.

Every SDK call is a value. `create_token` is repeated with the same request
until the user has approved the sign-in, so its answers are a scripted
sequence. Every other call is a function from its request fields to
`Ok(output)` or `Err(message)`. Optional fields of an SDK output are
`Option`s.

On three points the code behaves in a way a reader of the device flow might
not expect, and the model follows the code:

- A "slow_down" answer makes the program wait `interval + 5` seconds. The
  penalty does not accumulate from one "slow_down" to the next. Section 3.5
  of RFC 8628 instead has the client add 5 seconds to its interval for this
  and every later request.
- A failed `get_role_credentials` call, or a failed write, ends the whole
  batch with that error. It is not skipped.
- Polling has no deadline and no retry limit. In the model it ends only when
  the scripted answers run out (`StillPolling`, `AwaitingToken`).

Splitting a line on `" - "` does not always give back the fields it was built
from, even when no field contains `" - "`. A field that ends in `" -"` lets
the separator match one character early. For the line built from `"123"`,
`"Dev -"` and `"Admin"`, the role read back is `"- Admin"`. The exact
condition for a field is `Selection.SafeField`, and the round trip is proved
under it.

## Model

| member | source | states |
|---|---|---|
| Text.Contains | src/aws.rs:131-134 | true exactly when the pattern occurs at some position of the text |
| Text.Split | src/aws.rs:155 | `split(" - ")`: the pieces between leftmost non-overlapping matches of the separator, always at least one |
| Text.SplitShape | src/aws.rs:155-156 | splitting gives at least one piece, and exactly one (the whole text) when the separator does not occur |
| Text.SplitJoin | src/aws.rs:155 | a piece that the separator cannot overlap is split off intact in front of the split of the rest |
| Text.SplitOfContaining | src/aws.rs:155-158 | a text containing the separator splits into at least two pieces |
| Text.LowerChar | src/lib.rs:12 | upper-case ASCII letters move to lower case, every other character is kept |
| Text.Lower | src/lib.rs:12 | lower-casing keeps the length and lower-cases each character in place |
| Text.LowerIdempotent | src/lib.rs:12 | lower-casing twice is lower-casing once |
| Dispatch.CreateWorkflow | src/lib.rs:11-19 | succeeds exactly for "aws" and "google" after lower-casing: AWS workflow with empty settings, GCP workflow with project id "gcp-project-id"; otherwise "To still be implemented: " followed by the name as typed |
| Dispatch.CreateWorkflowIgnoresCase | src/lib.rs:12 | a name and its lower-case form are both accepted with the same workflow, or both rejected |
| Dispatch.CreateWorkflowAwsAnyCase | src/lib.rs:12-13 | every letter-case spelling of "aws" selects the AWS workflow |
| Dispatch.CreateWorkflowGoogleAnyCase | src/lib.rs:14-16 | every letter-case spelling of "google" selects the GCP workflow with project id "gcp-project-id" |
| Oidc.AsU64 | src/aws.rs:331 | `as u64` on an `i32`: non-negative values are kept, negative values wrap to value + 2^64 |
| Oidc.RegisterClient | src/aws.rs:69-76 | an SDK error is passed on; the result is the id and secret exactly when both are present; "Missing client_id" is reported before "Missing client_secret" |
| Oidc.StartDeviceAuthorization | src/aws.rs:92-105 | an SDK error is passed on; the first missing of device_code, user_code, verification_uri, verification_uri_complete is reported as "Missing <field>"; a success carries exactly the fields received, interval included |
| Oidc.StartDeviceAuthorizationComplete | src/aws.rs:93-104 | a complete answer always passes, unchanged |
| Oidc.ExtractAccessToken | src/aws.rs:221-227 | the access token when present, "Missing access_token" otherwise |
| TokenPoller.Classify | src/aws.rs:129-143 | an error is pending when it contains "authorization_pending", slow-down when it contains "slow_down" but not "authorization_pending", fatal otherwise |
| TokenPoller.PollForToken | src/aws.rs:108-147 | the loop's outcome, sleeps and number of calls are those of `Poll`; every `create_token` request carries the client id, client secret, device-code grant type and device code |
| TokenPoller.PollCounts | src/aws.rs:115-146 | every call consumes one answer; a finished poll made one call more than it slept |
| TokenPoller.PollSleeps | src/aws.rs:131-139 | the k-th sleep follows the k-th answer, which was retryable, and lasts `interval` after a pending answer and `interval + 5` after a slow-down answer |
| TokenPoller.PollStopsAtFirstFinalAnswer | src/aws.rs:125-143 | polling stops at the first answer that is not retryable: a token is returned as received, another error as "CreateToken failed: " + its text; a poll still running has seen only retryable answers |
| TokenPoller.PollIgnoresLaterAnswers | src/aws.rs:125-128 | once polling has ended, answers after it change nothing |
| TokenPoller.RepeatedSlowDownSleepsStayConstant | src/aws.rs:134-139 | n slow-down answers in a row give n sleeps of `interval + 5`: the penalty does not grow |
| Selection.FormatSelection | src/aws.rs:261 | the offered line: id, name and role joined by " - "; what splitting it gives back is stated by the lemmas below |
| Selection.ParseSelection | src/aws.rs:155-162 | a line is accepted exactly when it splits into three pieces, and then gives the first as account id and the third as role name |
| Selection.ParseFormatted | src/aws.rs:155-162 | a line built from safe id and name fields and a role without " - " splits into exactly those three fields and parses to (id, role) |
| Selection.SafeFieldSplitsOff | src/aws.rs:155 | a safe field followed by " - " is split off intact in front of the split of the rest |
| Selection.NameWithSeparatorRejected | src/aws.rs:155-158 | an account name containing " - " gives more than three pieces, so the line is rejected |
| Selection.NameEndingInDashShiftsRole | src/aws.rs:155-162 | an account name ending in " -" makes the role read back with "- " in front |
| Selection.NameEndingInDashExample | src/aws.rs:155-162 | the line for id "123", name "Dev -" (no " - " inside) and role "Admin" parses to role "- Admin" |
| Selection.FetchAccountsAndRoles | src/aws.rs:229-268 | a failed account listing is passed on; otherwise the lines are those of `AccountRoleStrings`, in account order and role order, or the first failed role listing |
| Selection.ErrorPersists | src/aws.rs:250-256 | a failed role listing ends the traversal, so later accounts do not change the result |
| Selection.OfferedLineOrigin | src/aws.rs:247-262 | every line offered comes from an account with an id and one of its named roles, with the account's name or "Unknown" |
| Selection.RoleLinesOrigin | src/aws.rs:258-262 | every line of one account comes from one of its roles that has a name |
| Selection.RolesListedForEveryAccount | src/aws.rs:247-256 | when the traversal succeeds, the roles of every account with an id were listed successfully |
| Selection.OfferedLineComplete | src/aws.rs:247-262 | conversely, when the traversal succeeds, every named role of every account with an id is offered, with the account's name or "Unknown" |
| Selection.RoleLinesComplete | src/aws.rs:258-262 | every role of one account that has a name gives one of that account's lines |
| Selection.OfferedLinesParseBack | src/aws.rs:155-162 | choosing an offered line from a listing with safe names gives back the account id and role name it was built from |
| Selection.MissingNamesInListing | src/aws.rs:248-261 | example: a listing of one account without a name, with a named role and then an unnamed one, offers the single line "<id> - Unknown - <role>"; the general statement is `OfferedLineOrigin` with `OfferedLineComplete` |
| Credentials.CredentialsPath | src/aws.rs:33 | the path is the home directory followed by the two components ".aws" and "credentials" |
| Credentials.CredentialsDirectory | src/aws.rs:33-38 | the directory created is the credentials path without its last component |
| Credentials.Render | src/aws.rs:44-47 | the file text has the access key id, the secret key and the session token at fixed offsets after their labels, and ends with a newline |
| Credentials.RenderIsLines | src/aws.rs:44-47 | the file text is the four lines "[default]", "aws_access_key_id = A", "aws_secret_access_key = S", "aws_session_token = T", each ended by a newline |
| Credentials.LinesSplit | src/aws.rs:44-47 | lines without newlines, each ended by a newline, split on newlines into those lines followed by one empty piece |
| Credentials.RenderLines | src/aws.rs:42-47 | the file reads, line by line, "[default]", "aws_access_key_id = A", "aws_secret_access_key = S", "aws_session_token = T", and ends with a newline |
| Credentials.Host.CreateDirAll | src/aws.rs:38 | a failing directory leaves the disk as it was; otherwise the directory and all directories above it exist afterwards |
| Credentials.Host.WriteFile | src/aws.rs:42-48 | a failing path, or a missing parent directory, leaves the disk as it was; otherwise the file is created or replaced with the new content |
| Credentials.WriteCredentials | src/aws.rs:27-56 | no home directory gives "Could not locate home directory" and changes nothing; otherwise the first failing step's error is returned, and on success `home/.aws/credentials` holds exactly the rendered text, with every other file unchanged |
| Credentials.WriteDefaultAwsCredentials | src/aws.rs:27-56 | the outcome and the new disk are those of `WriteCredentials` |
| Credentials.SecondWriteReplacesFirst | src/aws.rs:42-48 | two writes leave the host exactly as the second write alone: the file is replaced, not appended to |
| RoleBatch.ProcessSelectedAccountsAndRoles | src/aws.rs:149-196 | the outcome and the new disk are those of `Batch` over the chosen lines in order |
| RoleBatch.BatchAppend | src/aws.rs:154-194 | processing two runs of lines is processing the first run and then, unless it failed, the second |
| RoleBatch.SkippedItemIgnored | src/aws.rs:156-193 | a line that does not split into three pieces, or whose role has no credentials, changes nothing wherever it stands, and later lines are still processed |
| RoleBatch.FailedItemAborts | src/aws.rs:169-187 | a failed fetch or write ends the batch with that error, and later lines are not processed; after a failed fetch the disk is as the lines before it left it, while a failed write keeps the directories it created |
| RoleBatch.LastRoleWins | src/aws.rs:177-187 | after a successful batch the credentials file holds the last fetched credentials, with "" for missing fields; with none fetched, the disk is unchanged |
| RoleBatch.OnlyCredentialsFileChanges | src/aws.rs:154-194 | no file other than the credentials file is created, removed or changed, and without a home directory nothing changes |
| AwsSso.AwsSsoWorkflow.constructor | src/aws.rs:20-25 | a new workflow has an empty start URL and region |
| AwsSso.AwsSsoWorkflow.RunWorkflow | src/aws.rs:279-359 | the workflow keeps the start URL and region entered; the outcome, the sleeps and the disk are those of `SessionOf` |
| AwsSso.AwsSsoWorkflow.Run | src/aws.rs:362-368 | a fresh workflow runs once, with the effect of `SessionOf` |
| AwsSso.RunTouchesOnlyCredentialsFile | src/aws.rs:279-359 | however a run ends, no file but the credentials file changes, and without a home directory the disk is unchanged |
| AwsSso.ExamplePoll | src/aws.rs:108-147 | with interval 5, the answers pending, slow-down, token give sleeps of 5 and 10 seconds and three calls |
| AwsSso.ExampleListing | src/aws.rs:229-268 | one account with one role gives the one line "111122223333 - Dev - Admin" |
| AwsSso.ExampleLineParses | src/aws.rs:155-162 | that line parses to account "111122223333" and role "Admin" |
| AwsSso.ExampleRun | src/aws.rs:279-359 | the example run completes after sleeping 5 and 10 seconds, and the disk then holds only the credentials file with the role's credentials |

## Left out

- SDK network calls (`register_client`, `start_device_authorization`, `create_token`, `list_accounts`, `list_account_roles`, `get_role_credentials`) are inputs, not connections. Their requests are visible only as the arguments of the service functions.
- Output fields of `CreateTokenOutput` other than `access_token` are not modelled, because the program does not read them.
- The tokio runtime, `async` and real time are left out. A sleep is only its recorded duration.
- TokenPoller.PollForToken: `interval + 5` is computed on unbounded integers. A `u64` overflow is not modelled; it could only occur for a wrapped negative interval.
- AwsSso.AwsSsoWorkflow.RunWorkflow: the answers to the two prompts are given as already-trimmed strings. Failures to read stdin or flush stdout are not modelled.
- AwsSso.AwsSsoWorkflow.RunWorkflow: opening the browser and waiting for Enter have no effect on the result, so they are left out.
- The fuzzy finder (`perform_fuzzy_search`) is reduced to the function `pickLines` from the offered lines to the chosen lines, or to `None` when it is aborted. Its layout options are left out.
- `println!`/`eprintln!` messages are not modelled.
- The service functions are deterministic: two identical `list_account_roles` or `get_role_credentials` requests (for example two chosen lines with the same account id and role) get the same answer.
- Text.Lower: lower-casing covers ASCII letters only, not Unicode case mapping.
- Credentials.Host.CreateDirAll: a failure is modelled only on the exact directory asked for, not on a directory above it.
- Paths are lists of components. Joining `".aws/credentials"` onto the home directory adds two components.
- The region selects the SDK endpoints, which the service functions stand for. It is stored but has no other effect.
- `Dispatch.Provider` is declared but unused by the code, as in the source.
- The GCP workflow (`src/gcp.rs`) is only a printed placeholder. Its `run` is not modelled.
- The SSM/EC2 helpers, the interactive menu, the SSH launcher, the command-line parsing and the SDK configuration loading are not part of this model.
