/** `AwsSsoWorkflow` (src/aws.rs): one sign-in through AWS IAM Identity
    Center. Register a public OIDC client, start the device authorization, poll
    for the token, list the accounts and roles, let the user choose lines, and
    write the chosen roles' credentials. The identity provider and the SSO
    portal are the `Services` a run talks to; the user's answers to the prompts
    are parameters. */
module AwsSso {
  import opened Wrappers
  import opened Text
  import opened Oidc
  import opened TokenPoller
  import opened Selection
  import opened Credentials
  import opened RoleBatch

  const NO_SELECTION_MADE := "No selection made."

  /** The remote calls of a run, and the selection dialogue. `createTokenAnswers`
      are the successive answers of `create_token`; `pickLines` is what the
      fuzzy finder returns for the offered lines (`None` when it is aborted). */
  datatype Services = Services(
    registerClient: (string, string) -> Result<RegisterClientOutput>,
    startDeviceAuthorization: (string, string, string) -> Result<StartDeviceAuthorizationOutput>,
    createTokenAnswers: seq<Result<CreateTokenOutput>>,
    listAccounts: string -> Result<seq<AccountInfo>>,
    listAccountRoles: (string, string) -> Result<seq<RoleInfo>>,
    pickLines: seq<string> -> Option<seq<string>>,
    getRoleCredentials: RoleCredentialsService)

  /** How a run ends: normally, with the error `run_workflow` returns, or still
      waiting for the token when the scripted answers run out. */
  datatype RunOutcome = Completed | Aborted(error: string) | AwaitingToken

  /** What a run does: its outcome, the sleeps while polling, and the disk after it. */
  datatype Session = Session(outcome: RunOutcome, sleeps: seq<nat>, disk: Disk)

  /** The lines offered for selection, or the error that ended the listing. */
  function Listing(accessToken: string, s: Services): Result<seq<string>> {
    match s.listAccounts(accessToken)
    case Err(e) => Err(e)
    case Ok(accounts) => AccountRoleStrings(accounts, accessToken, s.listAccountRoles)
  }

  /** The part of a run after the access token is known. */
  function WithToken(home: Option<Path>, faults: map<Path, string>, disk: Disk, accessToken: string, s: Services)
    : (RunOutcome, Disk)
  {
    match Listing(accessToken, s)
    case Err(e) => (Aborted(e), disk)
    case Ok(lines) =>
      if lines == [] then (Completed, disk)
      else match s.pickLines(lines)
        case None => (Aborted(NO_SELECTION_MADE), disk)
        case Some(chosen) =>
          if chosen == [] then (Completed, disk)
          else
            var b := Batch(home, faults, disk, accessToken, chosen, s.getRoleCredentials);
            (if b.0.Pass? then Completed else Aborted(b.0.error), b.1)
  }

  /** The effect of `run_workflow` with the start URL the user entered. */
  function SessionOf(startUrl: string, home: Option<Path>, faults: map<Path, string>, disk: Disk, s: Services): Session {
    match RegisterClient(s.registerClient(CLIENT_NAME, CLIENT_TYPE))
    case Err(e) => Session(Aborted(e), [], disk)
    case Ok(client) =>
      match StartDeviceAuthorization(s.startDeviceAuthorization(client.clientId, client.clientSecret, startUrl))
      case Err(e) => Session(Aborted(e), [], disk)
      case Ok(auth) =>
        var poll := Poll(AsU64(auth.interval), s.createTokenAnswers);
        match poll.outcome
        case StillPolling => Session(AwaitingToken, poll.sleeps, disk)
        case Failed(m) => Session(Aborted(m), poll.sleeps, disk)
        case Token(out) =>
          match ExtractAccessToken(out)
          case Err(e) => Session(Aborted(e), poll.sleeps, disk)
          case Ok(accessToken) =>
            var rest := WithToken(home, faults, disk, accessToken, s);
            Session(rest.0, poll.sleeps, rest.1)
  }

  class AwsSsoWorkflow {
    var startUrl: string
    var region: string

    /** `AwsSsoWorkflow::new`: both settings empty. */
    constructor ()
      ensures startUrl == "" && region == ""
    {
      startUrl := "";
      region := "";
    }

    /** `run_workflow`. The answers to the two prompts are given already trimmed;
        the region only selects the endpoints, which `s` stands for. */
    method RunWorkflow(host: Host, startUrlAnswer: string, regionAnswer: string, s: Services)
      returns (r: RunOutcome, sleeps: seq<nat>)
      modifies this, host
      ensures startUrl == startUrlAnswer && region == regionAnswer
      ensures Session(r, sleeps, host.disk) == SessionOf(startUrlAnswer, host.home, host.faults, old(host.disk), s)
    {
      startUrl := startUrlAnswer;
      region := regionAnswer;
      sleeps := [];
      var client := RegisterClient(s.registerClient(CLIENT_NAME, CLIENT_TYPE));
      if client.Err? {
        return Aborted(client.error), sleeps;
      }
      var clientId, clientSecret := client.value.clientId, client.value.clientSecret;
      var auth := StartDeviceAuthorization(s.startDeviceAuthorization(clientId, clientSecret, startUrl));
      if auth.Err? {
        return Aborted(auth.error), sleeps;
      }
      var polled, requests;
      polled, sleeps, requests := PollForToken(clientId, clientSecret, auth.value.deviceCode, AsU64(auth.value.interval),
                                               s.createTokenAnswers);
      if polled.StillPolling? {
        return AwaitingToken, sleeps;
      }
      if polled.Failed? {
        return Aborted(polled.message), sleeps;
      }
      var accessToken := ExtractAccessToken(polled.output);
      if accessToken.Err? {
        return Aborted(accessToken.error), sleeps;
      }
      var accountRoleStrings := FetchAccountsAndRoles(accessToken.value, s.listAccounts, s.listAccountRoles);
      if accountRoleStrings.Err? {
        return Aborted(accountRoleStrings.error), sleeps;
      }
      if accountRoleStrings.value == [] {
        return Completed, sleeps;
      }
      var selectedItems := s.pickLines(accountRoleStrings.value);
      if selectedItems.None? {
        return Aborted(NO_SELECTION_MADE), sleeps;
      }
      if selectedItems.value == [] {
        return Completed, sleeps;
      }
      var done := ProcessSelectedAccountsAndRoles(host, accessToken.value, selectedItems.value, s.getRoleCredentials);
      r := if done.Pass? then Completed else Aborted(done.error);
    }

    /** `Workflow::run` for this workflow: a fresh workflow runs once. */
    static method Run(host: Host, startUrlAnswer: string, regionAnswer: string, s: Services)
      returns (r: RunOutcome, sleeps: seq<nat>)
      modifies host
      ensures Session(r, sleeps, host.disk) == SessionOf(startUrlAnswer, host.home, host.faults, old(host.disk), s)
    {
      var workflow := new AwsSsoWorkflow();
      r, sleeps := workflow.RunWorkflow(host, startUrlAnswer, regionAnswer, s);
    }
  }

  /** A run changes no file but the credentials file, however it ends. */
  lemma RunTouchesOnlyCredentialsFile(startUrl: string, home: Option<Path>, faults: map<Path, string>, disk: Disk,
                                      s: Services)
    ensures var after := SessionOf(startUrl, home, faults, disk, s).disk;
            forall p :: home.Some? && p != CredentialsPath(home.value) ==>
              (p in after.files <==> p in disk.files) && (p in disk.files ==> after.files[p] == disk.files[p])
    ensures home.None? ==> SessionOf(startUrl, home, faults, disk, s).disk == disk
  {
    var client := RegisterClient(s.registerClient(CLIENT_NAME, CLIENT_TYPE));
    if client.Ok? {
      var auth := StartDeviceAuthorization(s.startDeviceAuthorization(client.value.clientId, client.value.clientSecret, startUrl));
      if auth.Ok? {
        var poll := Poll(AsU64(auth.value.interval), s.createTokenAnswers);
        if poll.outcome.Token? && ExtractAccessToken(poll.outcome.output).Ok? {
          var accessToken := ExtractAccessToken(poll.outcome.output).value;
          var lines := Listing(accessToken, s);
          if lines.Ok? && lines.value != [] && s.pickLines(lines.value).Some? {
            OnlyCredentialsFileChanges(home, faults, disk, accessToken, s.pickLines(lines.value).value, s.getRoleCredentials);
          }
        }
      }
    }
  }

  // --- an example run ---------------------------------------------------------

  const EXAMPLE_HOME: Path := ["home", "dev"]
  const EXAMPLE_ACCOUNT := "111122223333"
  const EXAMPLE_ROLE := "Admin"
  /** "111122223333 - Dev - Admin" */
  const EXAMPLE_LINE := FormatSelection(EXAMPLE_ACCOUNT, "Dev", EXAMPLE_ROLE)

  /** Services under which the token endpoint answers "authorization_pending",
      then "slow_down", then issues a token; the one account has one role, which
      the user picks. */
  function ExampleServices(): Services {
    Services(
      (name, kind) => Ok(RegisterClientOutput(Some("client"), Some("secret"))),
      (clientId, clientSecret, startUrl) =>
        Ok(StartDeviceAuthorizationOutput(Some("device"), Some("ABCD-EFGH"), Some("https://device.example"),
                                          Some("https://device.example?user_code=ABCD-EFGH"), 5)),
      [Err(AUTHORIZATION_PENDING), Err(SLOW_DOWN), Ok(CreateTokenOutput(Some("token")))],
      accessToken => Ok([AccountInfo(Some(EXAMPLE_ACCOUNT), Some("Dev"))]),
      (accountId, accessToken) => Ok([RoleInfo(Some(EXAMPLE_ROLE))]),
      lines => Some(lines),
      (accountId, roleName, accessToken) =>
        Ok(GetRoleCredentialsOutput(Some(RoleCredentials(Some("AKID"), Some("SECRET"), Some("SESSION"))))))
  }

  /** Polling every 5 seconds: 5 after "authorization_pending", 10 after
      "slow_down", then the token. */
  lemma ExamplePoll()
    ensures Poll(5, ExampleServices().createTokenAnswers) ==
              PollTrace(Token(CreateTokenOutput(Some("token"))), [5, 10], 3)
  {
    assert OccursAt(AUTHORIZATION_PENDING, AUTHORIZATION_PENDING, 0);
    assert OccursAt(SLOW_DOWN, SLOW_DOWN, 0);
    assert Classify(SLOW_DOWN) == SlowDown;
    var answers := ExampleServices().createTokenAnswers;
    assert answers[1..][1..] == [Ok(CreateTokenOutput(Some("token")))];
  }

  /** The one line offered. */
  lemma ExampleListing()
    ensures Listing("token", ExampleServices()) == Ok([EXAMPLE_LINE])
  {
    var accounts := [AccountInfo(Some(EXAMPLE_ACCOUNT), Some("Dev"))];
    var roles := [RoleInfo(Some(EXAMPLE_ROLE))];
    assert accounts[..0] == [] && roles[..0] == [];
    assert RoleLines(EXAMPLE_ACCOUNT, "Dev", roles) == [EXAMPLE_LINE];
    assert AccountRoleStrings(accounts, "token", ExampleServices().listAccountRoles) == Ok([EXAMPLE_LINE]);
  }

  /** The line parses back to the account and the role. */
  lemma ExampleLineParses()
    ensures ParseSelection(EXAMPLE_LINE) == Some((EXAMPLE_ACCOUNT, EXAMPLE_ROLE))
  {
    assert SafeField(EXAMPLE_ACCOUNT) by { NoSpacedDash(EXAMPLE_ACCOUNT); }
    assert SafeField("Dev") by { NoSpacedDash("Dev"); }
    assert !Contains(EXAMPLE_ROLE, SEP) by { NoSpacedDash(EXAMPLE_ROLE); }
    ParseFormatted(EXAMPLE_ACCOUNT, "Dev", EXAMPLE_ROLE);
  }

  /** The whole run: it completes after sleeping 5 and 10 seconds and leaves
      exactly the credentials file, holding the role's credentials. */
  lemma ExampleRun()
    ensures var run := SessionOf("https://example.awsapps.com/start", Some(EXAMPLE_HOME), map[], Disk(map[], {}),
                                 ExampleServices());
            && run.outcome == Completed
            && run.sleeps == [5, 10]
            && run.disk.files == map[CredentialsPath(EXAMPLE_HOME) := Render("AKID", "SECRET", "SESSION")]
  {
    ExamplePoll();
    ExampleListing();
    ExampleLineParses();
  }
}
