/** `process_selected_accounts_and_roles` (src/aws.rs): for every chosen line,
    fetch the role's temporary credentials and write them as the default
    profile. Lines that do not split into three parts are skipped, a role
    without credentials is skipped, and the first failed fetch or failed write
    ends the whole batch. */
module RoleBatch {
  import opened Wrappers
  import opened Text
  import opened Selection
  import opened Credentials

  datatype RoleCredentials = RoleCredentials(accessKeyId: Option<string>, secretAccessKey: Option<string>,
                                             sessionToken: Option<string>)
  datatype GetRoleCredentialsOutput = GetRoleCredentialsOutput(roleCredentials: Option<RoleCredentials>)

  /** `get_role_credentials`, answering for (account id, role name, access token). */
  type RoleCredentialsService = (string, string, string) -> Result<GetRoleCredentialsOutput>

  /** Writing one set of credentials; missing values are written as "". */
  function WriteRole(home: Option<Path>, faults: map<Path, string>, disk: Disk, c: RoleCredentials): (Outcome, Disk) {
    WriteCredentials(home, faults, disk, c.accessKeyId.GetOr(""), c.secretAccessKey.GetOr(""), c.sessionToken.GetOr(""))
  }

  /** The effect of one chosen line: `(Pass, _)` to go on with the next line,
      `(Fail(_), _)` to stop. */
  function ProcessItem(home: Option<Path>, faults: map<Path, string>, disk: Disk, accessToken: string,
                       item: string, getRoleCredentials: RoleCredentialsService): (Outcome, Disk)
  {
    match ParseSelection(item)
    case None => (Pass, disk)
    case Some((accountId, roleName)) =>
      match getRoleCredentials(accountId, roleName, accessToken)
      case Err(e) => (Fail(e), disk)
      case Ok(resp) =>
        if resp.roleCredentials.None? then (Pass, disk)
        else WriteRole(home, faults, disk, resp.roleCredentials.value)
  }

  /** The effect of the whole batch, item by item in order. */
  function Batch(home: Option<Path>, faults: map<Path, string>, disk: Disk, accessToken: string,
                 items: seq<string>, getRoleCredentials: RoleCredentialsService): (Outcome, Disk)
    decreases |items|
  {
    if items == [] then (Pass, disk)
    else
      var step := ProcessItem(home, faults, disk, accessToken, items[0], getRoleCredentials);
      if step.0.Fail? then step
      else Batch(home, faults, step.1, accessToken, items[1..], getRoleCredentials)
  }

  /** `process_selected_accounts_and_roles`. */
  method ProcessSelectedAccountsAndRoles(host: Host, accessToken: string, selectedItems: seq<string>,
                                         getRoleCredentials: RoleCredentialsService)
    returns (r: Outcome)
    modifies host
    ensures (r, host.disk) == Batch(host.home, host.faults, old(host.disk), accessToken, selectedItems, getRoleCredentials)
  {
    for i := 0 to |selectedItems|
      invariant Batch(host.home, host.faults, old(host.disk), accessToken, selectedItems, getRoleCredentials)
                  == Batch(host.home, host.faults, host.disk, accessToken, selectedItems[i..], getRoleCredentials)
    {
      assert selectedItems[i..][1..] == selectedItems[i + 1..];
      var parsed := ParseSelection(selectedItems[i]);
      if parsed.None? {
        continue;
      }
      var (accountId, roleName) := parsed.value;
      var credentialsResp := getRoleCredentials(accountId, roleName, accessToken);
      if credentialsResp.Err? {
        return Fail(credentialsResp.error);
      }
      if credentialsResp.value.roleCredentials.Some? {
        var credentials := credentialsResp.value.roleCredentials.value;
        r := WriteDefaultAwsCredentials(host, credentials.accessKeyId.GetOr(""), credentials.secretAccessKey.GetOr(""),
                                        credentials.sessionToken.GetOr(""));
        if r.Fail? {
          return;
        }
      }
    }
    assert selectedItems[|selectedItems|..] == [];
    r := Pass;
  }

  /** Processing `xs + ys` is processing `xs` and then, unless it failed,
      processing `ys` on the resulting disk. */
  lemma {:induction false} BatchAppend(home: Option<Path>, faults: map<Path, string>, disk: Disk, accessToken: string,
                                       xs: seq<string>, ys: seq<string>, getRoleCredentials: RoleCredentialsService)
    ensures Batch(home, faults, disk, accessToken, xs + ys, getRoleCredentials) ==
              var first := Batch(home, faults, disk, accessToken, xs, getRoleCredentials);
              if first.0.Fail? then first else Batch(home, faults, first.1, accessToken, ys, getRoleCredentials)
    decreases |xs|
  {
    if xs == [] {
      assert xs + ys == ys;
    } else {
      assert (xs + ys)[0] == xs[0];
      assert (xs + ys)[1..] == xs[1..] + ys;
      var step := ProcessItem(home, faults, disk, accessToken, xs[0], getRoleCredentials);
      if step.0.Pass? {
        BatchAppend(home, faults, step.1, accessToken, xs[1..], ys, getRoleCredentials);
      }
    }
  }

  /** A line that is passed over: it does not split into exactly three parts,
      or its role comes back without credentials. */
  predicate Skipped(accessToken: string, item: string, getRoleCredentials: RoleCredentialsService) {
    match ParseSelection(item)
    case None => true
    case Some((accountId, roleName)) =>
      var resp := getRoleCredentials(accountId, roleName, accessToken);
      resp.Ok? && resp.value.roleCredentials.None?
  }

  /** A skipped line changes nothing, wherever it stands in the batch: the
      lines after it are still processed. */
  lemma SkippedItemIgnored(home: Option<Path>, faults: map<Path, string>, disk: Disk, accessToken: string,
                           xs: seq<string>, item: string, ys: seq<string>, getRoleCredentials: RoleCredentialsService)
    requires Skipped(accessToken, item, getRoleCredentials)
    ensures Batch(home, faults, disk, accessToken, xs + [item] + ys, getRoleCredentials) ==
              Batch(home, faults, disk, accessToken, xs + ys, getRoleCredentials)
  {
    BatchAppend(home, faults, disk, accessToken, xs, [item] + ys, getRoleCredentials);
    BatchAppend(home, faults, disk, accessToken, xs, ys, getRoleCredentials);
    assert xs + [item] + ys == xs + ([item] + ys);
    assert ([item] + ys)[1..] == ys;
  }

  /** A line whose credentials cannot be fetched, or whose write fails, ends the
      batch with that error, and the lines after it are not processed. After a
      failed fetch the disk is as the lines before it left it; a failed write
      keeps whatever directories it created before failing. */
  lemma FailedItemAborts(home: Option<Path>, faults: map<Path, string>, disk: Disk, accessToken: string,
                         xs: seq<string>, item: string, ys: seq<string>, getRoleCredentials: RoleCredentialsService)
    requires Batch(home, faults, disk, accessToken, xs, getRoleCredentials).0 == Pass
    requires ProcessItem(home, faults, Batch(home, faults, disk, accessToken, xs, getRoleCredentials).1, accessToken,
                         item, getRoleCredentials).0.Fail?
    ensures Batch(home, faults, disk, accessToken, xs + [item] + ys, getRoleCredentials) ==
              ProcessItem(home, faults, Batch(home, faults, disk, accessToken, xs, getRoleCredentials).1, accessToken,
                          item, getRoleCredentials)
    ensures ParseSelection(item).Some?
    ensures var (accountId, roleName) := ParseSelection(item).value;
            var resp := getRoleCredentials(accountId, roleName, accessToken);
            resp.Err? ==> Batch(home, faults, disk, accessToken, xs + [item] + ys, getRoleCredentials) ==
                            (Fail(resp.error), Batch(home, faults, disk, accessToken, xs, getRoleCredentials).1)
  {
    BatchAppend(home, faults, disk, accessToken, xs, [item] + ys, getRoleCredentials);
    assert xs + [item] + ys == xs + ([item] + ys);
    assert ([item] + ys)[0] == item;
  }

  /** The credentials a line yields when everything before it went well. */
  function Fetched(accessToken: string, item: string, getRoleCredentials: RoleCredentialsService): Option<RoleCredentials> {
    match ParseSelection(item)
    case None => None
    case Some((accountId, roleName)) =>
      match getRoleCredentials(accountId, roleName, accessToken)
      case Err(_) => None
      case Ok(resp) => resp.roleCredentials
  }

  /** The credentials of the last line that yields any. */
  function LastFetched(accessToken: string, items: seq<string>, getRoleCredentials: RoleCredentialsService)
    : Option<RoleCredentials>
    decreases |items|
  {
    if items == [] then None
    else
      var later := LastFetched(accessToken, items[1..], getRoleCredentials);
      if later.Some? then later else Fetched(accessToken, items[0], getRoleCredentials)
  }

  /** Every chosen role overwrites the previous one: after a successful batch
      the credentials file holds the last fetched credentials, and the disk is
      untouched when no line yielded credentials. */
  lemma {:induction false} LastRoleWins(home: Option<Path>, faults: map<Path, string>, disk: Disk, accessToken: string,
                                        items: seq<string>, getRoleCredentials: RoleCredentialsService)
    requires Batch(home, faults, disk, accessToken, items, getRoleCredentials).0 == Pass
    ensures var last := LastFetched(accessToken, items, getRoleCredentials);
            var after := Batch(home, faults, disk, accessToken, items, getRoleCredentials).1;
            && (last.None? ==> after == disk)
            && (last.Some? ==>
                  var c := last.value;
                  && home.Some?
                  && CredentialsPath(home.value) in after.files
                  && after.files[CredentialsPath(home.value)] ==
                       Render(c.accessKeyId.GetOr(""), c.secretAccessKey.GetOr(""), c.sessionToken.GetOr("")))
    decreases |items|
  {
    if items != [] {
      var step := ProcessItem(home, faults, disk, accessToken, items[0], getRoleCredentials);
      LastRoleWins(home, faults, step.1, accessToken, items[1..], getRoleCredentials);
      var later := LastFetched(accessToken, items[1..], getRoleCredentials);
      if later.None? {
        assert Batch(home, faults, disk, accessToken, items, getRoleCredentials).1 == step.1;
      }
    }
  }

  /** No file other than the credentials file is created, removed or changed,
      whatever the outcome. */
  lemma {:induction false} OnlyCredentialsFileChanges(home: Option<Path>, faults: map<Path, string>, disk: Disk,
                                                      accessToken: string, items: seq<string>,
                                                      getRoleCredentials: RoleCredentialsService)
    ensures var after := Batch(home, faults, disk, accessToken, items, getRoleCredentials).1;
            forall p :: home.Some? && p != CredentialsPath(home.value) ==>
              (p in after.files <==> p in disk.files) && (p in disk.files ==> after.files[p] == disk.files[p])
    ensures home.None? ==> Batch(home, faults, disk, accessToken, items, getRoleCredentials).1 == disk
    decreases |items|
  {
    if items != [] {
      var step := ProcessItem(home, faults, disk, accessToken, items[0], getRoleCredentials);
      OnlyCredentialsFileChanges(home, faults, step.1, accessToken, items[1..], getRoleCredentials);
    }
  }
}
