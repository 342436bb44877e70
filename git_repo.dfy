/**
  The pure part of `GitRepo._setup`: which protocol a repository URL uses,
  the URL an access token is spliced into for https, and for ssh the
  MSYS-style paths of the key files and the `GIT_SSH_COMMAND` built from them.
*/
module GitRepo {
  import opened Wrappers
  import opened Python
  import opened Strings
  import opened PurePosix

  // ---------------------------------------------------------------------------
  // `_make_ssh_key_path`

  /** How a Windows drive part ends, as in `C:\`. */
  const DRIVE_SUFFIX: string := ":\\"

  /** The characters `rstrip(':\\')` removes. */
  const DRIVE_CHARS: set<char> := {':', '\\'}

  const TUPLE_INDEX: PyError := PyError(IndexError, "tuple index out of range")

  /**
    The parts `_make_ssh_key_path` hands to `PurePosixPath`: a Windows drive
    part `X:\` becomes the root `/` followed by the drive with its trailing
    `:` and `\` removed; any other first part leaves the parts unchanged. The
    parts after the first keep their order and count. A path without parts
    has no first part to look at.
  */
  function SshKeyParts(parts: seq<string>): (r: Result<seq<string>, PyError>)
    ensures r.Err? <==> parts == []
    ensures r.Err? ==> r.error == TUPLE_INDEX
    ensures r.Ok? ==> |r.value| == |parts| + (if EndsWith(parts[0], DRIVE_SUFFIX) then 1 else 0)
    ensures r.Ok? ==> r.value[|r.value| - |parts| + 1..] == parts[1..]
    ensures r.Ok? && EndsWith(parts[0], DRIVE_SUFFIX) ==>
      r.value[..2] == ["/", RStrip(parts[0], DRIVE_CHARS)] && !EndsWith(r.value[1], ":") && !EndsWith(r.value[1], "\\")
    ensures r.Ok? && !EndsWith(parts[0], DRIVE_SUFFIX) ==> r.value == parts
  {
    if parts == [] then Err(TUPLE_INDEX)
    else if EndsWith(parts[0], DRIVE_SUFFIX) then
      var drive := RStrip(parts[0], DRIVE_CHARS);
      assert drive == [] || drive[|drive| - 1] !in DRIVE_CHARS;
      Ok(["/", drive] + parts[1..])
    else Ok(parts)
  }

  /** `GitRepo._make_ssh_key_path(path)`, for the parts of `path`. */
  function MakeSshKeyPath(parts: seq<string>): (r: Result<Path, PyError>)
    ensures r.Err? <==> parts == []
    ensures r.Ok? ==> Valid(r.value)
  {
    var posixParts :- SshKeyParts(parts);
    Ok(FromSegments(posixParts))
  }

  /**
    A Windows path `X:\a\b` becomes the absolute POSIX path `/X/a/b`, the
    form the MSYS ssh of git for Windows understands.
  */
  lemma WindowsDriveBecomesRoot(drive: string, rest: seq<string>)
    requires IsPart(drive) && !EndsWith(drive, ":") && !EndsWith(drive, "\\")
    requires forall i | 0 <= i < |rest| :: IsPart(rest[i])
    ensures MakeSshKeyPath([drive + DRIVE_SUFFIX] + rest) == Ok(Path("/", [drive] + rest))
  {
    var parts := [drive] + rest;
    assert forall i | 0 <= i < |parts| :: IsPart(parts[i]) by {
      assert forall i | 1 <= i < |parts| :: parts[i] == rest[i - 1];
    }
    DriveParts(drive, rest);
    KeyPathOfParts([drive + DRIVE_SUFFIX] + rest, ["/"] + parts);
    FromSegmentsRooted(parts);
  }

  /** The key path `ssh` is given for `X:\a\b` reads `/X/a/b`. */
  lemma WindowsDriveKeyString(drive: string, rest: seq<string>)
    requires IsPart(drive) && !EndsWith(drive, ":") && !EndsWith(drive, "\\")
    requires forall i | 0 <= i < |rest| :: IsPart(rest[i])
    ensures MakeSshKeyPath([drive + DRIVE_SUFFIX] + rest).Ok?
    ensures ToString(MakeSshKeyPath([drive + DRIVE_SUFFIX] + rest).value) == "/" + Join([drive] + rest, "/")
  {
    WindowsDriveBecomesRoot(drive, rest);
  }

  lemma KeyPathOfParts(parts: seq<string>, posixParts: seq<string>)
    requires SshKeyParts(parts) == Ok(posixParts)
    ensures MakeSshKeyPath(parts) == Ok(FromSegments(posixParts))
  {
  }

  lemma DriveParts(drive: string, rest: seq<string>)
    requires IsPart(drive) && !EndsWith(drive, ":") && !EndsWith(drive, "\\")
    ensures SshKeyParts([drive + DRIVE_SUFFIX] + rest) == Ok(["/"] + ([drive] + rest))
  {
    var first := drive + DRIVE_SUFFIX;
    DriveStripped(drive);
    assert ([first] + rest)[0] == first;
    assert ([first] + rest)[1..] == rest;
    assert ["/", drive] + rest == ["/"] + ([drive] + rest);
  }

  /** `X:\`.rstrip(':\\') is `X` when `X` does not itself end in `:` or `\`. */
  lemma DriveStripped(drive: string)
    requires drive != "" && !EndsWith(drive, ":") && !EndsWith(drive, "\\")
    ensures EndsWith(drive + DRIVE_SUFFIX, DRIVE_SUFFIX)
    ensures RStrip(drive + DRIVE_SUFFIX, DRIVE_CHARS) == drive
  {
    var first := drive + DRIVE_SUFFIX;
    assert first[|first| - 2..] == DRIVE_SUFFIX;
    assert drive[|drive| - 1] !in DRIVE_CHARS by {
      assert drive[|drive| - 1..] == [drive[|drive| - 1]];
    }
    assert first[..|first| - 1] == drive + ":";
    assert (drive + ":")[..|drive|] == drive;
    assert RStrip(drive, DRIVE_CHARS) == drive;
  }

  /** A POSIX absolute path is kept as it is. */
  lemma PosixPathUnchanged(rest: seq<string>)
    requires forall i | 0 <= i < |rest| :: IsPart(rest[i])
    ensures MakeSshKeyPath(["/"] + rest) == Ok(Path("/", rest))
  {
    assert !EndsWith("/", DRIVE_SUFFIX);
    FromSegmentsRooted(rest);
  }

  // ---------------------------------------------------------------------------
  // `_setup_https_protocol`

  const HTTPS: string := "https://"

  const UNPACK_ERROR: PyError := PyError(ValueError, "not enough values to unpack (expected 2, got 1)")

  /** `if access_token:` — a token that is set and not empty. */
  predicate HasToken(accessToken: Option<string>) {
    accessToken.Some? && accessToken.value != ""
  }

  /**
    `_setup_https_protocol()` for the configured URL and `ACCESS_TOKEN`: the
    token is put in front of what follows the first `https://`; without a
    token the URL is used as it is. A URL with no `https://` at all cannot be
    split in two.
  */
  function SetupHttpsProtocol(repoUrl: string, accessToken: Option<string>): (r: Result<string, PyError>)
    ensures !HasToken(accessToken) ==> r == Ok(repoUrl)
    ensures HasToken(accessToken) ==> (r.Err? <==> Find(repoUrl, HTTPS) == -1)
    ensures r.Err? ==> r.error == UNPACK_ERROR
    ensures HasToken(accessToken) && r.Ok? ==>
      exists i | 0 <= i <= |repoUrl| - |HTTPS| ::
        && OccursAt(repoUrl, HTTPS, i)
        && (forall j | 0 <= j < i :: !OccursAt(repoUrl, HTTPS, j))
        && r.value == HTTPS + accessToken.value + "@" + repoUrl[i + |HTTPS|..]
  {
    if !HasToken(accessToken) then Ok(repoUrl)
    else
      var i := Find(repoUrl, HTTPS);
      if i == -1 then Err(UNPACK_ERROR)
      else Ok(HTTPS + accessToken.value + "@" + repoUrl[i + |HTTPS|..])
  }

  /**
    For an https URL the token is inserted right after the scheme, and the
    rest of the URL (later `https://` included) is kept.
  */
  lemma {:induction false} TokenAfterScheme(repoUrl: string, token: string)
    requires StartsWith(repoUrl, HTTPS) && token != ""
    ensures SetupHttpsProtocol(repoUrl, Some(token)) == Ok(HTTPS + token + "@" + repoUrl[|HTTPS|..])
  {
    assert OccursAt(repoUrl, HTTPS, 0) by {
      assert repoUrl[..|HTTPS|] == HTTPS;
    }
    assert Find(repoUrl, HTTPS) == 0;
  }

  /**
    The split is at the first `https://`: what precedes it is dropped, and
    everything after it, later `https://` included, is kept.
  */
  lemma SplitsAtFirstOccurrence(prefix: string, rest: string, token: string)
    requires token != ""
    requires forall j | 0 <= j < |prefix| :: !OccursAt(prefix + HTTPS + rest, HTTPS, j)
    ensures SetupHttpsProtocol(prefix + HTTPS + rest, Some(token)) == Ok(HTTPS + token + "@" + rest)
  {
    var url := prefix + HTTPS + rest;
    assert OccursAt(url, HTTPS, |prefix|) by {
      assert url[|prefix|..|prefix| + |HTTPS|] == HTTPS;
    }
    assert Find(url, HTTPS) == |prefix|;
    assert url[|prefix| + |HTTPS|..] == rest;
  }

  // ---------------------------------------------------------------------------
  // `_setup`: the protocol dispatch

  datatype Protocol = Ssh | Https

  function UnsupportedProtocol(repoUrl: string): PyError {
    PyError(ValueError, "The specified git repo URL '" + repoUrl + "' does neither use the https nor the ssh protocol")
  }

  /** `git@` selects ssh, `https://` selects https, and anything else is a `ValueError`. */
  function ProtocolOf(repoUrl: string): (r: Result<Protocol, PyError>)
    ensures r == Ok(Ssh) <==> StartsWith(repoUrl, "git@")
    ensures r == Ok(Https) <==> !StartsWith(repoUrl, "git@") && StartsWith(repoUrl, HTTPS)
    ensures r.Err? ==> r.error == UnsupportedProtocol(repoUrl)
  {
    if StartsWith(repoUrl, "git@") then Ok(Ssh)
    else if StartsWith(repoUrl, HTTPS) then Ok(Https)
    else Err(UnsupportedProtocol(repoUrl))
  }

  /** The environment variables the setup reads. */
  datatype Environ = Environ(sshPrivateKey: Option<string>, accessToken: Option<string>)

  /** What the ssh setup writes: the two key file paths and the ssh command git is told to use. */
  datatype SshFiles = SshFiles(keyPath: Path, authorizedKeysPath: Path, gitSshCommand: string)

  /** The URL git clones from, and the ssh files when ssh is used. */
  datatype Setup = Setup(repoUrl: string, ssh: Option<SshFiles>)

  const NO_PRIVATE_KEY: PyError := PyError(ValueError, "SSH_PRIVATE_KEY environment variable is not set.")

  function GitSshCommand(key: Path, authorizedKeys: Path): string {
    "ssh -F /dev/null -i " + ToString(key) + " -o UserKnownHostsFile=" + ToString(authorizedKeys)
      + " -o StrictHostKeyChecking=yes"
  }

  /**
    `_setup_ssh_protocol()` without the file writes: the key paths inside the
    temporary directory, a `ValueError` when no private key is set, and the
    configured URL unchanged.
  */
  function SetupSshProtocol(repoUrl: string, env: Environ, tempDir: seq<string>): (r: Result<Setup, PyError>)
    ensures r.Ok? <==> env.sshPrivateKey.Some?
    ensures r.Err? ==> r.error == NO_PRIVATE_KEY
    ensures r.Ok? ==> r.value.repoUrl == repoUrl && r.value.ssh.Some?
    ensures r.Ok? ==>
      var files := r.value.ssh.value;
      files.gitSshCommand == GitSshCommand(files.keyPath, files.authorizedKeysPath)
    ensures r.Ok? ==>
      && r.value.ssh.value.keyPath == MakeSshKeyPath(tempDir + ["ssh_key"]).value
      && r.value.ssh.value.authorizedKeysPath == MakeSshKeyPath(tempDir + ["ssh_authorized_keys"]).value
  {
    var key := MakeSshKeyPath(tempDir + ["ssh_key"]).value;
    var authorizedKeys := MakeSshKeyPath(tempDir + ["ssh_authorized_keys"]).value;
    if env.sshPrivateKey.None? then Err(NO_PRIVATE_KEY)
    else Ok(Setup(repoUrl, Some(SshFiles(key, authorizedKeys, GitSshCommand(key, authorizedKeys)))))
  }

  /** The protocol part of `_setup()`: dispatch on the URL, then the protocol's own setup. */
  function SetupProtocol(repoUrl: string, env: Environ, tempDir: seq<string>): (r: Result<Setup, PyError>)
    ensures ProtocolOf(repoUrl).Err? ==> r == Err(UnsupportedProtocol(repoUrl))
    ensures ProtocolOf(repoUrl) == Ok(Ssh) ==> r == SetupSshProtocol(repoUrl, env, tempDir)
    ensures r.Ok? && r.value.ssh.None? ==> ProtocolOf(repoUrl) == Ok(Https)
  {
    var protocol :- ProtocolOf(repoUrl);
    match protocol
    case Ssh => SetupSshProtocol(repoUrl, env, tempDir)
    case Https =>
      var url :- SetupHttpsProtocol(repoUrl, env.accessToken);
      Ok(Setup(url, None))
  }

  /** An https repository never fails to split, and gets the token right after its scheme. */
  lemma HttpsSetup(repoUrl: string, env: Environ, tempDir: seq<string>)
    requires ProtocolOf(repoUrl) == Ok(Https)
    ensures HasToken(env.accessToken) ==>
      SetupProtocol(repoUrl, env, tempDir) == Ok(Setup(HTTPS + env.accessToken.value + "@" + repoUrl[|HTTPS|..], None))
    ensures !HasToken(env.accessToken) ==> SetupProtocol(repoUrl, env, tempDir) == Ok(Setup(repoUrl, None))
  {
    if HasToken(env.accessToken) {
      TokenAfterScheme(repoUrl, env.accessToken.value);
    }
  }

  /**
    On POSIX the key files are directly inside the temporary directory, and
    the ssh command names both of them.
  */
  lemma SshSetupOnPosix(repoUrl: string, env: Environ, dirParts: seq<string>)
    requires StartsWith(repoUrl, "git@") && env.sshPrivateKey.Some?
    requires forall i | 0 <= i < |dirParts| :: IsPart(dirParts[i])
    ensures var key := Path("/", dirParts + ["ssh_key"]);
      var authorizedKeys := Path("/", dirParts + ["ssh_authorized_keys"]);
      SetupProtocol(repoUrl, env, ["/"] + dirParts)
        == Ok(Setup(repoUrl, Some(SshFiles(key, authorizedKeys, GitSshCommand(key, authorizedKeys)))))
  {
    assert (["/"] + dirParts) + ["ssh_key"] == ["/"] + (dirParts + ["ssh_key"]);
    assert (["/"] + dirParts) + ["ssh_authorized_keys"] == ["/"] + (dirParts + ["ssh_authorized_keys"]);
    assert IsPart("ssh_key") && IsPart("ssh_authorized_keys");
    PosixPathUnchanged(dirParts + ["ssh_key"]);
    PosixPathUnchanged(dirParts + ["ssh_authorized_keys"]);
  }
}
