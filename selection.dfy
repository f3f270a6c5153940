/** The account/role lines the user chooses from (src/aws.rs): how
    `fetch_accounts_and_roles` builds them as "{id} - {name} - {role}" and how
    `process_selected_accounts_and_roles` takes a chosen line apart again. */
module Selection {
  import opened Wrappers
  import opened Text

  const SEP := " - "
  const UNKNOWN_ACCOUNT_NAME := "Unknown"

  /** One line offered for selection: the account id, the account name and the
      role name, in that order, with a separator after each of the first two. */
  function FormatSelection(accountId: string, accountName: string, roleName: string): string {
    accountId + SEP + accountName + SEP + roleName
  }

  /** A chosen line split on " - ": exactly three parts give the account id
      (first) and the role name (last); anything else is malformed. */
  function ParseSelection(line: string): (r: Option<(string, string)>)
    ensures r.Some? <==> |Split(line, SEP)| == 3
    ensures r.Some? ==> r.value == (Split(line, SEP)[0], Split(line, SEP)[2])
  {
    var parts := Split(line, SEP);
    if |parts| != 3 then None else Some((parts[0], parts[2]))
  }

  /** A field may be followed by " - " in a line when neither " - " occurs in
      it nor " -" ends it (the latter would let the separator match one
      character early). */
  predicate SafeField(field: string) {
    !Contains(field, SEP) && !(|field| >= 2 && field[|field| - 2..] == " -")
  }

  /** `SafeField` is exactly what the left-to-right split needs. */
  lemma SafeFieldDelimits(field: string)
    requires SafeField(field)
    ensures Delimits(field, SEP)
  {
    var u := field + SEP[..|SEP| - 1];
    assert u == field + [' ', '-'];
    forall j: nat
      ensures !OccursAt(u, SEP, j)
    {
      SafeFieldAt(field, j);
    }
  }

  /** `SafeFieldDelimits` at one position. */
  lemma SafeFieldAt(field: string, j: nat)
    requires SafeField(field)
    ensures !OccursAt(field + [' ', '-'], SEP, j)
  {
    if j + 3 <= |field| {
      InsideField(field, j);
    } else if j + 2 == |field| {
      StraddleNeedsDashEnding(field, j);
    } else if j + 1 == |field| {
      LastCharacterStartsNoMatch(field, j);
    }
  }

  /** No match of " - " starts at the last character of `field` in `field + " -"`. */
  lemma LastCharacterStartsNoMatch(field: string, j: nat)
    requires j + 1 == |field|
    ensures !OccursAt(field + [' ', '-'], SEP, j)
  {
    assert (field + [' ', '-'])[j..j + 3] == [field[j], ' ', '-'];
  }

  /** A match lying inside `field` is a match in `field`. */
  lemma InsideField(field: string, j: nat)
    requires !Contains(field, SEP) && j + 3 <= |field|
    ensures !OccursAt(field + [' ', '-'], SEP, j)
  {
    assert (field + [' ', '-'])[j..j + 3] == field[j..j + 3];
    assert !OccursAt(field, SEP, j);
  }

  /** A match of " - " starting two characters before the end of `field` in
      `field + " -"` needs `field` to end in " -". */
  lemma StraddleNeedsDashEnding(field: string, j: nat)
    requires !(|field| >= 2 && field[|field| - 2..] == " -")
    requires j + 2 == |field|
    ensures !OccursAt(field + [' ', '-'], SEP, j)
  {
    var u := field + [' ', '-'];
    assert u[j..j + 3] == [field[j], field[j + 1], ' '];
    assert field[|field| - 2..] == [field[j], field[j + 1]];
  }

  /** Round trip: a line built from safe id and name fields and a role name
      without " - " parses back to its account id and role name. */
  lemma {:induction false} ParseFormatted(accountId: string, accountName: string, roleName: string)
    requires SafeField(accountId) && SafeField(accountName) && !Contains(roleName, SEP)
    ensures Split(FormatSelection(accountId, accountName, roleName), SEP) == [accountId, accountName, roleName]
    ensures ParseSelection(FormatSelection(accountId, accountName, roleName)) == Some((accountId, roleName))
  {
    var rest := accountName + SEP + roleName;
    SafeFieldSplitsOff(accountName, roleName);
    SplitShape(roleName, SEP);
    SafeFieldSplitsOff(accountId, rest);
    assert FormatSelection(accountId, accountName, roleName) == accountId + SEP + rest;
  }

  /** A safe field followed by the separator is split off intact. */
  lemma SafeFieldSplitsOff(field: string, rest: string)
    requires SafeField(field)
    ensures Split(field + SEP + rest, SEP) == [field] + Split(rest, SEP)
  {
    SafeFieldDelimits(field);
    SplitJoin(field, SEP, rest);
  }

  /** An account name containing " - " makes the line split into more than
      three parts, so the selection is rejected. */
  lemma {:induction false} NameWithSeparatorRejected(accountId: string, accountName: string, roleName: string)
    requires SafeField(accountId) && Contains(accountName, SEP)
    ensures |Split(FormatSelection(accountId, accountName, roleName), SEP)| > 3
    ensures ParseSelection(FormatSelection(accountId, accountName, roleName)).None?
  {
    var line := FormatSelection(accountId, accountName, roleName);
    var rest := accountName + SEP + roleName;
    assert Split(line, SEP) == [accountId] + Split(rest, SEP) by {
      SafeFieldDelimits(accountId);
      assert line == accountId + SEP + rest;
      SplitJoin(accountId, SEP, rest);
    }
    SeparatorInFirstField(accountName, roleName);
  }

  /** " - " inside `a` adds at least one more piece to `a + " - " + b`. */
  lemma SeparatorInFirstField(a: string, b: string)
    requires Contains(a, SEP)
    ensures |Split(a + SEP + b, SEP)| >= 3
  {
    var rest := a + SEP + b;
    var k :| OccursAt(a, SEP, k);
    assert OccursAt(rest, SEP, k) by {
      OccursInPrefix(a, SEP + b, k);
      assert a + (SEP + b) == rest;
    }
    var i := Find(rest, SEP).value;
    assert i <= k;
    assert Split(rest, SEP) == [rest[..i]] + Split(rest[i + 3..], SEP);
    SeparatorAfterMatch(a, b, i);
  }

  /** After a match that ends inside `a`, the separator between `a` and `b` is
      still to come. */
  lemma SeparatorAfterMatch(a: string, b: string, i: nat)
    requires i + 3 <= |a|
    ensures |Split((a + SEP + b)[i + 3..], SEP)| >= 2
  {
    var tail := (a + SEP + b)[i + 3..];
    assert tail == a[i + 3..] + SEP + b;
    OccursAfter(a[i + 3..], SEP, b);
    SplitOfContaining(tail, SEP);
  }

  /** A match inside `a` is a match inside `a + b`. */
  lemma OccursInPrefix(a: string, b: string, k: nat)
    requires OccursAt(a, SEP, k)
    ensures OccursAt(a + b, SEP, k)
  {
    assert (a + b)[k..k + 3] == a[k..k + 3];
  }

  /** The separator between `a` and `b` is a match. */
  lemma OccursAfter(a: string, t: string, b: string)
    ensures OccursAt(a + t + b, t, |a|)
  {
    assert (a + t + b)[|a|..|a| + |t|] == t;
  }

  /** The absence of " - " in every field is not enough for the round trip:
      an account name ending in " -" lets the second separator match one
      character early, and the role name comes back with "- " in front. */
  lemma {:induction false} NameEndingInDashShiftsRole(accountId: string, accountName: string, roleName: string)
    requires SafeField(accountId) && SafeField(accountName) && !Contains("- " + roleName, SEP)
    ensures ParseSelection(FormatSelection(accountId, accountName + " -", roleName)) == Some((accountId, "- " + roleName))
  {
    assert FormatSelection(accountId, accountName + " -", roleName) == FormatSelection(accountId, accountName, "- " + roleName);
    ParseFormatted(accountId, accountName, "- " + roleName);
  }

  /** An instance: the line for role "Admin" of account "123" named "Dev -",
      although no field contains " - ", selects role "- Admin". */
  lemma NameEndingInDashExample()
    ensures !Contains("Dev -", SEP)
    ensures ParseSelection(FormatSelection("123", "Dev -", "Admin")) == Some(("123", "- Admin"))
  {
    assert !Contains("Dev -", SEP) by { NoSpacedDash("Dev -"); }
    assert SafeField("123") by { NoSpacedDash("123"); }
    assert SafeField("Dev") by { NoSpacedDash("Dev"); }
    assert "- " + "Admin" == "- Admin";
    assert "Dev" + " -" == "Dev -";
    assert !Contains("- Admin", SEP) by { NoSpacedDash("- Admin"); }
    NameEndingInDashShiftsRole("123", "Dev", "Admin");
  }

  /** A string in which no space is followed by "- " does not contain " - ";
      if, further, it does not end in " -", it is a safe field. */
  lemma NoSpacedDash(s: string)
    requires forall i :: 0 <= i < |s| - 2 ==> !(s[i] == ' ' && s[i + 1] == '-' && s[i + 2] == ' ')
    ensures !Contains(s, SEP)
    ensures !(|s| >= 2 && s[|s| - 2..] == " -") ==> SafeField(s)
  {
    forall j: nat | j + 3 <= |s|
      ensures !OccursAt(s, SEP, j)
    {
      assert s[j..j + 3] == [s[j], s[j + 1], s[j + 2]];
    }
  }

  // --- building the lines (fetch_accounts_and_roles) -------------------------

  datatype AccountInfo = AccountInfo(accountId: Option<string>, accountName: Option<string>)
  datatype RoleInfo = RoleInfo(roleName: Option<string>)

  /** The lines for one account's roles, in role order: roles without a name
      are left out. */
  function RoleLines(accountId: string, accountName: string, roles: seq<RoleInfo>): seq<string>
    decreases |roles|
  {
    if roles == [] then []
    else
      var last := roles[|roles| - 1];
      RoleLines(accountId, accountName, roles[..|roles| - 1])
        + (if last.roleName.Some? then [FormatSelection(accountId, accountName, last.roleName.value)] else [])
  }

  /** The lines for all accounts in account order; accounts without an id are
      left out without listing their roles, a missing name reads "Unknown", and
      the first failed role listing is the result. */
  function AccountRoleStrings(accounts: seq<AccountInfo>, accessToken: string,
                              listAccountRoles: (string, string) -> Result<seq<RoleInfo>>): Result<seq<string>>
    decreases |accounts|
  {
    if accounts == [] then Ok([])
    else
      var done := AccountRoleStrings(accounts[..|accounts| - 1], accessToken, listAccountRoles);
      var last := accounts[|accounts| - 1];
      if done.Err? then done
      else if last.accountId.None? then done
      else match listAccountRoles(last.accountId.value, accessToken)
        case Err(e) => Err(e)
        case Ok(roles) =>
          Ok(done.value + RoleLines(last.accountId.value, last.accountName.GetOr(UNKNOWN_ACCOUNT_NAME), roles))
  }

  /** `fetch_accounts_and_roles`: list the accounts, then each account's roles,
      collecting one line per named role. */
  method FetchAccountsAndRoles(accessToken: string,
                               listAccounts: string -> Result<seq<AccountInfo>>,
                               listAccountRoles: (string, string) -> Result<seq<RoleInfo>>)
    returns (r: Result<seq<string>>)
    ensures listAccounts(accessToken).Err? ==> r == Err(listAccounts(accessToken).error)
    ensures listAccounts(accessToken).Ok? ==>
              r == AccountRoleStrings(listAccounts(accessToken).value, accessToken, listAccountRoles)
  {
    var accountsResp := listAccounts(accessToken);
    if accountsResp.Err? {
      return Err(accountsResp.error);
    }
    var accounts := accountsResp.value;
    if |accounts| == 0 {
      return Ok([]);
    }
    var accountRoleStrings: seq<string> := [];
    for i := 0 to |accounts|
      invariant AccountRoleStrings(accounts[..i], accessToken, listAccountRoles) == Ok(accountRoleStrings)
    {
      assert accounts[..i + 1][..i] == accounts[..i];
      var account := accounts[i];
      if account.accountId.Some? {
        var accountId := account.accountId.value;
        var accountName := account.accountName.GetOr(UNKNOWN_ACCOUNT_NAME);
        var rolesResp := listAccountRoles(accountId, accessToken);
        if rolesResp.Err? {
          ErrorPersists(accounts, accessToken, listAccountRoles, i + 1);
          return Err(rolesResp.error);
        }
        var roles := rolesResp.value;
        ghost var before := accountRoleStrings;
        for j := 0 to |roles|
          invariant accountRoleStrings == before + RoleLines(accountId, accountName, roles[..j])
        {
          assert roles[..j + 1][..j] == roles[..j];
          if roles[j].roleName.Some? {
            accountRoleStrings := accountRoleStrings + [FormatSelection(accountId, accountName, roles[j].roleName.value)];
          }
        }
        assert roles[..|roles|] == roles;
      }
    }
    assert accounts[..|accounts|] == accounts;
    r := Ok(accountRoleStrings);
  }

  /** A failed role listing ends the traversal: later accounts do not change
      the result. */
  lemma {:induction false} ErrorPersists(accounts: seq<AccountInfo>, accessToken: string,
                                         listAccountRoles: (string, string) -> Result<seq<RoleInfo>>, m: nat)
    requires m <= |accounts|
    requires AccountRoleStrings(accounts[..m], accessToken, listAccountRoles).Err?
    ensures AccountRoleStrings(accounts, accessToken, listAccountRoles) ==
              AccountRoleStrings(accounts[..m], accessToken, listAccountRoles)
    decreases |accounts|
  {
    if m < |accounts| {
      assert accounts[..|accounts| - 1][..m] == accounts[..m];
      ErrorPersists(accounts[..|accounts| - 1], accessToken, listAccountRoles, m);
    } else {
      assert accounts[..m] == accounts;
    }
  }

  /** Every line offered comes from an account with an id and one of its named
      roles, formatted with the account's name or "Unknown". */
  lemma {:induction false} OfferedLineOrigin(accounts: seq<AccountInfo>, accessToken: string,
                                                 listAccountRoles: (string, string) -> Result<seq<RoleInfo>>,
                                                 line: string)
    requires AccountRoleStrings(accounts, accessToken, listAccountRoles).Ok?
    requires line in AccountRoleStrings(accounts, accessToken, listAccountRoles).value
    ensures exists k, role :: 0 <= k < |accounts| && accounts[k].accountId.Some? &&
              listAccountRoles(accounts[k].accountId.value, accessToken).Ok? &&
              role in listAccountRoles(accounts[k].accountId.value, accessToken).value && role.roleName.Some? &&
              line == FormatSelection(accounts[k].accountId.value,
                                      accounts[k].accountName.GetOr(UNKNOWN_ACCOUNT_NAME), role.roleName.value)
    decreases |accounts|
  {
    var n := |accounts|;
    var done := AccountRoleStrings(accounts[..n - 1], accessToken, listAccountRoles);
    var last := accounts[n - 1];
    if line in done.value {
      OfferedLineOrigin(accounts[..n - 1], accessToken, listAccountRoles, line);
      var k, role :| 0 <= k < n - 1 && accounts[..n - 1][k].accountId.Some? &&
              listAccountRoles(accounts[..n - 1][k].accountId.value, accessToken).Ok? &&
              role in listAccountRoles(accounts[..n - 1][k].accountId.value, accessToken).value && role.roleName.Some? &&
              line == FormatSelection(accounts[..n - 1][k].accountId.value,
                                      accounts[..n - 1][k].accountName.GetOr(UNKNOWN_ACCOUNT_NAME), role.roleName.value);
      assert accounts[..n - 1][k] == accounts[k];
    } else {
      var roles := listAccountRoles(last.accountId.value, accessToken).value;
      var role := RoleLinesOrigin(last.accountId.value, last.accountName.GetOr(UNKNOWN_ACCOUNT_NAME), roles, line);
      assert accounts[n - 1] == last;
    }
  }

  /** The role a line of `RoleLines` was made from. */
  lemma {:induction false} RoleLinesOrigin(accountId: string, accountName: string, roles: seq<RoleInfo>, line: string)
    returns (role: RoleInfo)
    requires line in RoleLines(accountId, accountName, roles)
    ensures role in roles && role.roleName.Some? && line == FormatSelection(accountId, accountName, role.roleName.value)
    decreases |roles|
  {
    var init := roles[..|roles| - 1];
    if line in RoleLines(accountId, accountName, init) {
      role := RoleLinesOrigin(accountId, accountName, init, line);
    } else {
      role := roles[|roles| - 1];
    }
  }

  /** When the listing succeeds, the roles of every account with an id were
      listed successfully. */
  lemma {:induction false} RolesListedForEveryAccount(accounts: seq<AccountInfo>, accessToken: string,
                                                      listAccountRoles: (string, string) -> Result<seq<RoleInfo>>,
                                                      k: nat)
    requires AccountRoleStrings(accounts, accessToken, listAccountRoles).Ok?
    requires k < |accounts| && accounts[k].accountId.Some?
    ensures listAccountRoles(accounts[k].accountId.value, accessToken).Ok?
    decreases |accounts|
  {
    var n := |accounts|;
    if k < n - 1 {
      assert accounts[..n - 1][k] == accounts[k];
      RolesListedForEveryAccount(accounts[..n - 1], accessToken, listAccountRoles, k);
    }
  }

  /** Every named role of every account with an id is offered, formatted with
      the account's name or "Unknown". */
  lemma {:induction false} OfferedLineComplete(accounts: seq<AccountInfo>, accessToken: string,
                                               listAccountRoles: (string, string) -> Result<seq<RoleInfo>>,
                                               k: nat, role: RoleInfo)
    requires AccountRoleStrings(accounts, accessToken, listAccountRoles).Ok?
    requires k < |accounts| && accounts[k].accountId.Some?
    requires listAccountRoles(accounts[k].accountId.value, accessToken).Ok?
    requires role in listAccountRoles(accounts[k].accountId.value, accessToken).value && role.roleName.Some?
    ensures FormatSelection(accounts[k].accountId.value, accounts[k].accountName.GetOr(UNKNOWN_ACCOUNT_NAME),
                            role.roleName.value) in AccountRoleStrings(accounts, accessToken, listAccountRoles).value
    decreases |accounts|
  {
    var n := |accounts|;
    if k < n - 1 {
      assert accounts[..n - 1][k] == accounts[k];
      OfferedLineComplete(accounts[..n - 1], accessToken, listAccountRoles, k, role);
    } else {
      var roles := listAccountRoles(accounts[k].accountId.value, accessToken).value;
      RoleLinesComplete(accounts[k].accountId.value, accounts[k].accountName.GetOr(UNKNOWN_ACCOUNT_NAME), roles, role);
    }
  }

  /** Every named role of one account has its line. */
  lemma {:induction false} RoleLinesComplete(accountId: string, accountName: string, roles: seq<RoleInfo>, role: RoleInfo)
    requires role in roles && role.roleName.Some?
    ensures FormatSelection(accountId, accountName, role.roleName.value) in RoleLines(accountId, accountName, roles)
    decreases |roles|
  {
    var init := roles[..|roles| - 1];
    if role in init {
      RoleLinesComplete(accountId, accountName, init, role);
    } else {
      assert role == roles[|roles| - 1] by { assert roles == init + [roles[|roles| - 1]]; }
    }
  }

  /** The names in a listing are safe to format: ids and account names can be
      followed by " - ", and role names contain no " - ". */
  predicate SafeListing(accounts: seq<AccountInfo>, accessToken: string,
                        listAccountRoles: (string, string) -> Result<seq<RoleInfo>>)
  {
    forall a :: a in accounts && a.accountId.Some? ==>
      && SafeField(a.accountId.value)
      && SafeField(a.accountName.GetOr(UNKNOWN_ACCOUNT_NAME))
      && (listAccountRoles(a.accountId.value, accessToken).Ok? ==>
            forall role :: role in listAccountRoles(a.accountId.value, accessToken).value && role.roleName.Some? ==>
              !Contains(role.roleName.value, SEP))
  }

  /** Selecting an offered line from a safe listing yields the account id and
      role name it was built from. */
  lemma OfferedLinesParseBack(accounts: seq<AccountInfo>, accessToken: string,
                              listAccountRoles: (string, string) -> Result<seq<RoleInfo>>, line: string)
    requires SafeListing(accounts, accessToken, listAccountRoles)
    requires AccountRoleStrings(accounts, accessToken, listAccountRoles).Ok?
    requires line in AccountRoleStrings(accounts, accessToken, listAccountRoles).value
    ensures exists k, role :: 0 <= k < |accounts| && accounts[k].accountId.Some? &&
              listAccountRoles(accounts[k].accountId.value, accessToken).Ok? &&
              role in listAccountRoles(accounts[k].accountId.value, accessToken).value && role.roleName.Some? &&
              ParseSelection(line) == Some((accounts[k].accountId.value, role.roleName.value))
  {
    OfferedLineOrigin(accounts, accessToken, listAccountRoles, line);
    var k, role :| 0 <= k < |accounts| && accounts[k].accountId.Some? &&
              listAccountRoles(accounts[k].accountId.value, accessToken).Ok? &&
              role in listAccountRoles(accounts[k].accountId.value, accessToken).value && role.roleName.Some? &&
              line == FormatSelection(accounts[k].accountId.value,
                                      accounts[k].accountName.GetOr(UNKNOWN_ACCOUNT_NAME), role.roleName.value);
    assert accounts[k] in accounts;
    ParseFormatted(accounts[k].accountId.value, accounts[k].accountName.GetOr(UNKNOWN_ACCOUNT_NAME), role.roleName.value);
  }

  /** Example: an account without a name is offered as "Unknown", and its
      roles without a name are not offered. The general statements are
      `OfferedLineOrigin` and `OfferedLineComplete`. */
  lemma MissingNamesInListing(accountId: string, roleName: string, accessToken: string,
                              listAccountRoles: (string, string) -> Result<seq<RoleInfo>>)
    requires listAccountRoles(accountId, accessToken) == Ok([RoleInfo(Some(roleName)), RoleInfo(None)])
    ensures AccountRoleStrings([AccountInfo(Some(accountId), None)], accessToken, listAccountRoles)
              == Ok([accountId + " - Unknown - " + roleName])
  {
    var roles := [RoleInfo(Some(roleName)), RoleInfo(None)];
    var line := FormatSelection(accountId, UNKNOWN_ACCOUNT_NAME, roleName);
    assert roles[..1] == [RoleInfo(Some(roleName))] && roles[..1][..0] == [];
    assert RoleLines(accountId, UNKNOWN_ACCOUNT_NAME, roles[..1]) == [line];
    assert RoleLines(accountId, UNKNOWN_ACCOUNT_NAME, roles) == [line];
    assert [AccountInfo(Some(accountId), None)][..0] == [];
    assert line == accountId + " - Unknown - " + roleName;
  }
}
