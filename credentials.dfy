/** `write_default_aws_credentials` (src/aws.rs): the role credentials are
    written as the `[default]` profile of `~/.aws/credentials`, replacing the
    whole file. The file system is a map from paths to contents plus the set of
    existing directories; the home directory and the paths on which the
    operating system refuses to work are fixed properties of the host. */
module Credentials {
  import opened Wrappers
  import opened Text

  /** A path as its list of components. */
  type Path = seq<string>

  datatype Disk = Disk(files: map<Path, string>, dirs: set<Path>)

  const HOME_DIRECTORY_MISSING := "Could not locate home directory"
  const NO_SUCH_DIRECTORY := "No such file or directory (os error 2)"

  /** `home.join(".aws/credentials")`. */
  function CredentialsPath(home: Path): (path: Path)
    ensures |path| == |home| + 2 && path[..|home|] == home
    ensures path[|home|] == ".aws" && path[|home| + 1] == "credentials"
  {
    home + [".aws", "credentials"]
  }

  /** The directory holding the credentials file, `credentials_path.parent()`. */
  function CredentialsDirectory(home: Path): (dir: Path)
    ensures |dir| + 1 == |CredentialsPath(home)| && dir == CredentialsPath(home)[..|dir|]
  {
    home + [".aws"]
  }

  /** `dir` and every directory above it. */
  function Ancestors(dir: Path): set<Path> {
    set i | 1 <= i <= |dir| :: dir[..i]
  }

  /** One line of a text file: `text` and its terminating newline. */
  function Line(text: string): string {
    text + "\n"
  }

  /** The text written to the credentials file: the `[default]` header line,
      then one `key = value` line for each of the three values, in that order.
      The values lie at fixed offsets after the values before them, and the
      text ends with a newline. */
  function Render(accessKeyId: string, secretAccessKey: string, sessionToken: string): (text: string)
    ensures |text| == 77 + |accessKeyId| + |secretAccessKey| + |sessionToken|
    ensures text[30..30 + |accessKeyId|] == accessKeyId
    ensures text[55 + |accessKeyId|..55 + |accessKeyId| + |secretAccessKey|] == secretAccessKey
    ensures text[76 + |accessKeyId| + |secretAccessKey|..|text| - 1] == sessionToken
    ensures text[|text| - 1] == '\n'
  {
    Line("[default]") + (Line("aws_access_key_id = " + accessKeyId) + (Line("aws_secret_access_key = " + secretAccessKey)
      + Line("aws_session_token = " + sessionToken)))
  }

  /** Read line by line, the file holds the `[default]` header and the three
      keys in fixed order, one per line, and nothing after the last newline. */
  lemma RenderLines(accessKeyId: string, secretAccessKey: string, sessionToken: string)
    requires '\n' !in accessKeyId && '\n' !in secretAccessKey && '\n' !in sessionToken
    ensures Split(Render(accessKeyId, secretAccessKey, sessionToken), "\n") ==
              ["[default]", "aws_access_key_id = " + accessKeyId, "aws_secret_access_key = " + secretAccessKey,
               "aws_session_token = " + sessionToken, ""]
  {
    var lines := ["[default]", "aws_access_key_id = " + accessKeyId, "aws_secret_access_key = " + secretAccessKey,
                  "aws_session_token = " + sessionToken];
    assert forall i :: 0 <= i < |lines| ==> '\n' !in lines[i];
    RenderIsLines(accessKeyId, secretAccessKey, sessionToken);
    LinesSplit(lines);
  }

  /** The text of `lines`, each ended by a newline. */
  function Lines(lines: seq<string>): string
    decreases |lines|
  {
    if lines == [] then "" else Line(lines[0]) + Lines(lines[1..])
  }

  /** The credentials text is its four lines. */
  lemma RenderIsLines(accessKeyId: string, secretAccessKey: string, sessionToken: string)
    ensures Render(accessKeyId, secretAccessKey, sessionToken) ==
              Lines(["[default]", "aws_access_key_id = " + accessKeyId, "aws_secret_access_key = " + secretAccessKey,
                     "aws_session_token = " + sessionToken])
  {
    var l0, l1, l2, l3 := "[default]", "aws_access_key_id = " + accessKeyId,
                          "aws_secret_access_key = " + secretAccessKey, "aws_session_token = " + sessionToken;
    assert [l0, l1, l2, l3][1..] == [l1, l2, l3];
    assert [l1, l2, l3][1..] == [l2, l3];
    assert [l2, l3][1..] == [l3];
    assert [l3][1..] == [];
    assert Lines([l3]) == Line(l3) + "" == Line(l3);
    assert Lines([l2, l3]) == Line(l2) + Line(l3);
    assert Lines([l1, l2, l3]) == Line(l1) + (Line(l2) + Line(l3));
    assert Lines([l0, l1, l2, l3]) == Line(l0) + (Line(l1) + (Line(l2) + Line(l3)));
  }

  /** Newline-free lines, each ended by a newline, split back into the lines
      and the empty rest after the last newline. */
  lemma {:induction false} LinesSplit(lines: seq<string>)
    requires forall i :: 0 <= i < |lines| ==> '\n' !in lines[i]
    ensures Split(Lines(lines), "\n") == lines + [""]
    decreases |lines|
  {
    if lines == [] {
      SplitShape("", "\n");
    } else {
      LinesSplit(lines[1..]);
      LineSplitsOff(lines[0], Lines(lines[1..]));
      assert [lines[0]] + (lines[1..] + [""]) == lines + [""];
    }
  }

  /** A line without a newline is split off intact. */
  lemma LineSplitsOff(line: string, rest: string)
    requires '\n' !in line
    ensures Split(Line(line) + rest, "\n") == [line] + Split(rest, "\n")
  {
    forall j: nat | j + 1 <= |line|
      ensures !OccursAt(line + "\n"[..0], "\n", j)
    {
      assert (line + "\n"[..0])[j..j + 1] == [line[j]];
    }
    SplitJoin(line, "\n", rest);
  }

  /** The operating system: what `dirs_next::home_dir()` reports, the paths on
      which every operation fails (with the message given), and the disk. */
  class Host {
    const home: Option<Path>
    const faults: map<Path, string>
    var disk: Disk

    constructor (home: Option<Path>, faults: map<Path, string>, disk: Disk)
      ensures this.home == home && this.faults == faults && this.disk == disk
    {
      this.home := home;
      this.faults := faults;
      this.disk := disk;
    }

    /** `fs::create_dir_all`. */
    method CreateDirAll(dir: Path) returns (r: Outcome)
      modifies this
      ensures dir in faults ==> r == Fail(faults[dir]) && disk == old(disk)
      ensures dir !in faults ==> r == Pass && disk == old(disk).(dirs := old(disk).dirs + Ancestors(dir))
    {
      if dir in faults {
        return Fail(faults[dir]);
      }
      disk := disk.(dirs := disk.dirs + Ancestors(dir));
      r := Pass;
    }

    /** `fs::write`: create or truncate the file and write `content`; the
        directory it is in must exist. */
    method WriteFile(path: Path, content: string) returns (r: Outcome)
      requires path != []
      modifies this
      ensures path in faults ==> r == Fail(faults[path]) && disk == old(disk)
      ensures path !in faults && path[..|path| - 1] !in old(disk).dirs ==> r == Fail(NO_SUCH_DIRECTORY) && disk == old(disk)
      ensures path !in faults && path[..|path| - 1] in old(disk).dirs ==>
                r == Pass && disk == old(disk).(files := old(disk).files[path := content])
    {
      if path in faults {
        return Fail(faults[path]);
      }
      if path[..|path| - 1] !in disk.dirs {
        return Fail(NO_SUCH_DIRECTORY);
      }
      disk := disk.(files := disk.files[path := content]);
      r := Pass;
    }
  }

  /** The effect of writing the credentials, as a function of the host. */
  function WriteCredentials(home: Option<Path>, faults: map<Path, string>, disk: Disk,
                            accessKeyId: string, secretAccessKey: string, sessionToken: string): (r: (Outcome, Disk))
    ensures home.None? ==> r == (Fail(HOME_DIRECTORY_MISSING), disk)
    ensures home.Some? ==>
      var path := CredentialsPath(home.value);
      var dir := CredentialsDirectory(home.value);
      && (r.0 == Pass <==> dir !in faults && path !in faults)
      && (dir in faults ==> r == (Fail(faults[dir]), disk))
      && (dir !in faults ==> r.1.dirs == disk.dirs + Ancestors(dir))
      && (dir !in faults && path in faults ==> r.0 == Fail(faults[path]) && r.1.files == disk.files)
      && (r.0 == Pass ==>
            && r.1.files.Keys == disk.files.Keys + {path}
            && r.1.files[path] == Render(accessKeyId, secretAccessKey, sessionToken)
            && forall p :: p in disk.files && p != path ==> r.1.files[p] == disk.files[p])
  {
    if home.None? then (Fail(HOME_DIRECTORY_MISSING), disk)
    else
      var dir := CredentialsDirectory(home.value);
      var path := CredentialsPath(home.value);
      if dir in faults then (Fail(faults[dir]), disk)
      else
        var withDir := disk.(dirs := disk.dirs + Ancestors(dir));
        if path in faults then (Fail(faults[path]), withDir)
        else (Pass, withDir.(files := withDir.files[path := Render(accessKeyId, secretAccessKey, sessionToken)]))
  }

  /** `write_default_aws_credentials`. */
  method WriteDefaultAwsCredentials(host: Host, accessKeyId: string, secretAccessKey: string, sessionToken: string)
    returns (r: Outcome)
    modifies host
    ensures (r, host.disk) == WriteCredentials(host.home, host.faults, old(host.disk), accessKeyId, secretAccessKey, sessionToken)
  {
    if host.home.None? {
      return Fail(HOME_DIRECTORY_MISSING);
    }
    var path := CredentialsPath(host.home.value);
    var dir := CredentialsDirectory(host.home.value);
    assert path[..|path| - 1] == dir;
    r := host.CreateDirAll(dir);
    if r.Fail? {
      return;
    }
    assert dir[..|dir|] == dir;
    r := host.WriteFile(path, Render(accessKeyId, secretAccessKey, sessionToken));
  }

  /** The file is replaced, not appended to: writing one set of credentials and
      then another leaves the host exactly as writing only the second. */
  lemma {:induction false} SecondWriteReplacesFirst(home: Option<Path>, faults: map<Path, string>, disk: Disk,
                                                    a1: string, s1: string, t1: string,
                                                    a2: string, s2: string, t2: string)
    ensures WriteCredentials(home, faults, WriteCredentials(home, faults, disk, a1, s1, t1).1, a2, s2, t2)
              == WriteCredentials(home, faults, disk, a2, s2, t2)
  {
    if home.Some? {
      var dir := CredentialsDirectory(home.value);
      var path := CredentialsPath(home.value);
      if dir !in faults {
        var once := disk.dirs + Ancestors(dir);
        assert once + Ancestors(dir) == once;
        if path !in faults {
          var content := Render(a2, s2, t2);
          assert disk.files[path := Render(a1, s1, t1)][path := content] == disk.files[path := content];
        }
      }
    }
  }
}
