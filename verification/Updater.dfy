/** Applying an update bundle to an install directory, and undoing it: verify, back up, copy,
    restore. A directory is a map from file paths to contents, and any copy may fail. */
module Updater {
  import opened Wrappers
  import Text

  type Path = seq<string>
  type Content = string

  // The time of an update to the second, which names its backup directory.
  datatype Stamp = Stamp(seconds: int)
  type Tree = map<Path, Content>

  const MANIFEST_FILE: Path := ["aigw-manifest.json"]
  const ADMIN_DIR: Path := ["web", "admin", "dist"]

  // ---------- Manifests and their verification ----------

  // A digest stands for what was hashed: hashing is taken to be injective.
  datatype Binary = Binary(path: Path, digest: Content, version: string)

  // The admin directory's digest: absent, white space only, or that of a tree.
  datatype AdminDist = Absent | BlankText | Digest(files: Tree)

  datatype Manifest = Manifest(
    schema: int, productVersion: string, platform: string, rpcVersion: string, snapshotSchema: int,
    binaries: map<string, Binary>, admin: AdminDist)

  // What the running program knows about itself.
  datatype Program = Program(schema: int, productVersion: string, platform: string, rpcVersion: string, snapshotSchema: int)

  datatype Options = Options(currentProduct: bool, currentRpc: bool, currentSnapshot: bool, shipped: bool, update: bool)

  const INCOMING := Options(false, false, false, true, true)

  const REQUIRED_DAEMONS := {"telemetryd", "gatewayd", "controld"}
  const SHIPPED := {"aigw", "gatewayd", "controld", "telemetryd", "gateway-cli"}
  const REQUIRED_FOR_UPDATE := {"aigw", "telemetryd", "gatewayd", "controld"}

  datatype Issue =
    | Schema | NoProductVersion | OtherProductVersion | OtherRpcVersion | OtherSnapshotSchema | OtherPlatform
    | DaemonMissing(name: string) | DaemonVersion(name: string) | RequiredMissing(name: string) | ShippedMissing(name: string)
    | PathBlank(name: string) | Unreadable(name: string) | Mismatch(name: string)
    | AdminUnreadable | AdminMismatch

  const HEADER_ISSUES := {Schema, NoProductVersion, OtherProductVersion, OtherRpcVersion, OtherSnapshotSchema, OtherPlatform}

  // The files of a directory, or the file itself, by path from the root.
  function Under(t: Tree, root: Path): Tree {
    map p | p in t && root <= p :: t[p]
  }

  // Exactly when does an issue belong in the report?
  predicate Wrong(t: Tree, m: Manifest, o: Options, self: Program, issue: Issue) {
    match issue
    case Schema => m.schema != self.schema
    case NoProductVersion => Text.Trim(m.productVersion) == ""
    case OtherProductVersion => o.currentProduct && m.productVersion != "" && m.productVersion != self.productVersion
    case OtherRpcVersion => o.currentRpc && m.rpcVersion != "" && m.rpcVersion != self.rpcVersion
    case OtherSnapshotSchema => o.currentSnapshot && m.snapshotSchema != 0 && m.snapshotSchema != self.snapshotSchema
    case OtherPlatform => m.platform != "" && m.platform != self.platform
    case DaemonMissing(n) => n in REQUIRED_DAEMONS && n !in m.binaries
    case DaemonVersion(n) =>
      n in REQUIRED_DAEMONS && n in m.binaries && m.binaries[n].version != "" && m.binaries[n].version != m.productVersion
    case RequiredMissing(n) => o.update && n in REQUIRED_FOR_UPDATE && n !in m.binaries
    case ShippedMissing(n) => o.shipped && n in SHIPPED && n !in m.binaries
    case PathBlank(n) => n in m.binaries && m.binaries[n].path == []
    case Unreadable(n) => n in m.binaries && m.binaries[n].path != [] && m.binaries[n].path !in t
    case Mismatch(n) =>
      n in m.binaries && m.binaries[n].path != [] && m.binaries[n].path in t && t[m.binaries[n].path] != m.binaries[n].digest
    case AdminUnreadable => m.admin != Absent && Under(t, ADMIN_DIR) == map[]
    case AdminMismatch => m.admin != Absent && Under(t, ADMIN_DIR) != map[] && m.admin != Digest(Under(t, ADMIN_DIR))
  }

  ghost predicate NothingWrong(t: Tree, m: Manifest, o: Options, self: Program) {
    forall issue :: !Wrong(t, m, o, self, issue)
  }

  // Every binary's file is there with the content that was hashed.
  ghost predicate BinariesMatch(t: Tree, m: Manifest) {
    forall n :: n in m.binaries ==>
      m.binaries[n].path != [] && m.binaries[n].path in t && t[m.binaries[n].path] == m.binaries[n].digest
  }

  // The files below the admin directory are those that were hashed, if any were. A blank
  // digest, which copying takes for none, matches nothing.
  ghost predicate AdminMatches(t: Tree, m: Manifest) {
    m.admin != Absent ==>
      && m.admin.Digest? && m.admin.files != map[]
      && forall p :: (p in m.admin.files <==> p in t && ["web", "admin", "dist"] <= p)
                     && (p in m.admin.files ==> m.admin.files[p] == t[p])
  }

  predicate NamesPresent(m: Manifest, o: Options) {
    && {"telemetryd", "gatewayd", "controld"} <= m.binaries.Keys
    && (o.update ==> {"aigw", "telemetryd", "gatewayd", "controld"} <= m.binaries.Keys)
    && (o.shipped ==> {"aigw", "gatewayd", "controld", "telemetryd", "gateway-cli"} <= m.binaries.Keys)
  }

  predicate VersionsFit(m: Manifest, o: Options, self: Program) {
    && m.schema == self.schema
    && Text.Trim(m.productVersion) != ""
    && m.platform in {"", self.platform}
    && (o.currentProduct ==> m.productVersion == self.productVersion)
    && (o.currentRpc ==> m.rpcVersion in {"", self.rpcVersion})
    && (o.currentSnapshot ==> m.snapshotSchema in {0, self.snapshotSchema})
    && forall n :: n in m.binaries && n in {"telemetryd", "gatewayd", "controld"} ==> m.binaries[n].version in {"", m.productVersion}
  }

  // A tree is what its manifest says.
  ghost predicate Verified(t: Tree, m: Manifest, o: Options, self: Program) {
    BinariesMatch(t, m) && AdminMatches(t, m) && NamesPresent(m, o) && VersionsFit(m, o, self)
  }

  lemma {:induction false} BinariesMatchIff(t: Tree, m: Manifest, o: Options, self: Program)
    ensures BinariesMatch(t, m)
       <==> forall n :: !Wrong(t, m, o, self, PathBlank(n)) && !Wrong(t, m, o, self, Unreadable(n)) && !Wrong(t, m, o, self, Mismatch(n))
  {
    if BinariesMatch(t, m) {
    } else {
      var n :| n in m.binaries && !(m.binaries[n].path != [] && m.binaries[n].path in t && t[m.binaries[n].path] == m.binaries[n].digest);
      assert Wrong(t, m, o, self, PathBlank(n)) || Wrong(t, m, o, self, Unreadable(n)) || Wrong(t, m, o, self, Mismatch(n));
    }
  }

  lemma {:induction false} AdminMatchesIff(t: Tree, m: Manifest, o: Options, self: Program)
    ensures AdminMatches(t, m) <==> !Wrong(t, m, o, self, AdminUnreadable) && !Wrong(t, m, o, self, AdminMismatch)
  {
    if AdminMatches(t, m) && m.admin != Absent {
      assert m.admin.files == Under(t, ADMIN_DIR);
    }
  }

  lemma {:induction false} NamesPresentIff(t: Tree, m: Manifest, o: Options, self: Program)
    ensures NamesPresent(m, o)
       <==> forall n :: !Wrong(t, m, o, self, DaemonMissing(n)) && !Wrong(t, m, o, self, RequiredMissing(n)) && !Wrong(t, m, o, self, ShippedMissing(n))
  {
    forall n ensures Wrong(t, m, o, self, DaemonMissing(n)) <==> n in {"telemetryd", "gatewayd", "controld"} && n !in m.binaries.Keys
             ensures Wrong(t, m, o, self, RequiredMissing(n)) <==> o.update && n in {"aigw", "telemetryd", "gatewayd", "controld"} && n !in m.binaries.Keys
             ensures Wrong(t, m, o, self, ShippedMissing(n)) <==> o.shipped && n in {"aigw", "gatewayd", "controld", "telemetryd", "gateway-cli"} && n !in m.binaries.Keys
    {
    }
  }

  lemma {:induction false} VersionsFitIff(t: Tree, m: Manifest, o: Options, self: Program)
    ensures VersionsFit(m, o, self)
       <==> && (forall n :: !Wrong(t, m, o, self, DaemonVersion(n)))
            && (forall i :: i in HEADER_ISSUES ==> !Wrong(t, m, o, self, i))
  {
    assert Text.Trim("") == "";
    if VersionsFit(m, o, self) {
    } else if m.schema != self.schema {
      assert Wrong(t, m, o, self, Schema);
    } else if Text.Trim(m.productVersion) == "" {
      assert Wrong(t, m, o, self, NoProductVersion);
    } else if m.platform !in {"", self.platform} {
      assert Wrong(t, m, o, self, OtherPlatform);
    } else if o.currentProduct && m.productVersion != self.productVersion {
      assert Wrong(t, m, o, self, OtherProductVersion);
    } else if o.currentRpc && m.rpcVersion !in {"", self.rpcVersion} {
      assert Wrong(t, m, o, self, OtherRpcVersion);
    } else if o.currentSnapshot && m.snapshotSchema !in {0, self.snapshotSchema} {
      assert Wrong(t, m, o, self, OtherSnapshotSchema);
    } else {
      var n :| n in m.binaries && n in {"telemetryd", "gatewayd", "controld"} && m.binaries[n].version !in {"", m.productVersion};
      assert Wrong(t, m, o, self, DaemonVersion(n));
    }
  }

  // A tree is what its manifest says exactly when no issue belongs in the report.
  lemma {:induction false} VerifiedIff(t: Tree, m: Manifest, o: Options, self: Program)
    ensures Verified(t, m, o, self) <==> NothingWrong(t, m, o, self)
  {
    BinariesMatchIff(t, m, o, self);
    AdminMatchesIff(t, m, o, self);
    NamesPresentIff(t, m, o, self);
    VersionsFitIff(t, m, o, self);
    if Verified(t, m, o, self) {
      forall issue ensures !Wrong(t, m, o, self, issue) {
        if issue.DaemonMissing? || issue.RequiredMissing? || issue.ShippedMissing? || issue.DaemonVersion?
           || issue.PathBlank? || issue.Unreadable? || issue.Mismatch? {
          NamedIssue(t, m, o, self, issue, issue.name);
        }
      }
    }
  }

  lemma {:induction false} NamedIssue(t: Tree, m: Manifest, o: Options, self: Program, issue: Issue, n: string)
    requires issue in {DaemonMissing(n), RequiredMissing(n), ShippedMissing(n), DaemonVersion(n), PathBlank(n), Unreadable(n), Mismatch(n)}
    requires !Wrong(t, m, o, self, DaemonMissing(n)) && !Wrong(t, m, o, self, RequiredMissing(n)) && !Wrong(t, m, o, self, ShippedMissing(n))
    requires !Wrong(t, m, o, self, DaemonVersion(n)) && !Wrong(t, m, o, self, PathBlank(n))
    requires !Wrong(t, m, o, self, Unreadable(n)) && !Wrong(t, m, o, self, Mismatch(n))
    ensures !Wrong(t, m, o, self, issue)
  {
  }

  // A manifest leaves no choice: two trees that verify against it have the same binaries and,
  // if it has a digest for them, the same admin files and no more.
  lemma {:induction false} ManifestPinsPayload(t: Tree, u: Tree, m: Manifest, o: Options, self: Program, p: Path)
    requires Verified(t, m, o, self) && Verified(u, m, o, self)
    ensures (exists n :: n in m.binaries && m.binaries[n].path == p) ==> p in t && p in u && t[p] == u[p]
    ensures m.admin != Absent && ["web", "admin", "dist"] <= p ==> (p in t <==> p in u) && (p in t ==> t[p] == u[p])
  {
  }

  // Which binary an issue found in the loops over binaries is about.
  predicate AboutBinary(issue: Issue) {
    issue.DaemonMissing? || issue.DaemonVersion? || issue.PathBlank? || issue.Unreadable? || issue.Mismatch?
  }

  method VerifyBinary(t: Tree, name: string, b: Binary) returns (issues: set<Issue>)
    ensures issues == if b.path == [] then {PathBlank(name)}
                      else if b.path !in t then {Unreadable(name)}
                      else if t[b.path] != b.digest then {Mismatch(name)}
                      else {}
  {
    if b.path == [] {
      return {PathBlank(name)};
    }
    if b.path !in t {
      return {Unreadable(name)};
    }
    issues := {};
    if t[b.path] != b.digest {
      issues := {Mismatch(name)};
    }
  }

  method VerifyHeader(t: Tree, m: Manifest, o: Options, self: Program) returns (issues: set<Issue>)
    ensures forall i :: i in issues <==> Wrong(t, m, o, self, i) && i in HEADER_ISSUES
  {
    issues := {};
    if m.schema != self.schema { issues := issues + {Schema}; }
    if Text.Trim(m.productVersion) == "" { issues := issues + {NoProductVersion}; }
    if o.currentProduct && m.productVersion != "" && m.productVersion != self.productVersion { issues := issues + {OtherProductVersion}; }
    if o.currentRpc && m.rpcVersion != "" && m.rpcVersion != self.rpcVersion { issues := issues + {OtherRpcVersion}; }
    if o.currentSnapshot && m.snapshotSchema != 0 && m.snapshotSchema != self.snapshotSchema { issues := issues + {OtherSnapshotSchema}; }
    if m.platform != "" && m.platform != self.platform { issues := issues + {OtherPlatform}; }
  }

  method VerifyNames(m: Manifest, names: set<string>) returns (missing: set<string>)
    ensures missing == set n | n in names && n !in m.binaries
  {
    missing := {};
    var todo := names;
    while todo != {}
      invariant todo <= names
      invariant missing == set n | n in names - todo && n !in m.binaries
      decreases |todo|
    {
      var n :| n in todo;
      todo := todo - {n};
      if n !in m.binaries {
        missing := missing + {n};
      }
    }
  }

  method VerifyOne(t: Tree, m: Manifest, o: Options, self: Program, name: string) returns (issues: set<Issue>)
    requires name in REQUIRED_DAEMONS || name in m.binaries
    ensures forall i :: i in issues <==> Wrong(t, m, o, self, i) && AboutBinary(i) && i.name == name
  {
    if name !in m.binaries {
      return {DaemonMissing(name)};
    }
    var b := m.binaries[name];
    issues := VerifyBinary(t, name, b);
    if name in REQUIRED_DAEMONS && b.version != "" && b.version != m.productVersion {
      issues := issues + {DaemonVersion(name)};
    }
  }

  // The required daemons first, each with its version and file, then the other binaries.
  method VerifyBinaries(t: Tree, m: Manifest, o: Options, self: Program) returns (issues: set<Issue>)
    ensures forall i :: i in issues <==> Wrong(t, m, o, self, i) && AboutBinary(i)
  {
    issues := {};
    var todo := REQUIRED_DAEMONS + m.binaries.Keys;
    while todo != {}
      invariant todo <= REQUIRED_DAEMONS + m.binaries.Keys
      invariant FoundSoFar(t, m, o, self, issues, todo)
      decreases |todo|
    {
      var name :| name in todo;
      var found := VerifyOne(t, m, o, self, name);
      FoundMore(t, m, o, self, issues, todo, name, found);
      todo := todo - {name};
      issues := issues + found;
    }
  }

  // The issues are those about the binaries looked at.
  ghost predicate FoundSoFar(t: Tree, m: Manifest, o: Options, self: Program, issues: set<Issue>, todo: set<string>) {
    forall i :: i in issues <==> Wrong(t, m, o, self, i) && AboutBinary(i) && i.name !in todo
  }

  lemma {:induction false} FoundMore(t: Tree, m: Manifest, o: Options, self: Program, issues: set<Issue>, todo: set<string>, name: string, found: set<Issue>)
    requires FoundSoFar(t, m, o, self, issues, todo) && name in todo
    requires forall i :: i in found <==> Wrong(t, m, o, self, i) && AboutBinary(i) && i.name == name
    ensures FoundSoFar(t, m, o, self, issues + found, todo - {name})
  {
    forall i ensures i in issues + found <==> Wrong(t, m, o, self, i) && AboutBinary(i) && i.name !in todo - {name} {
      assert i in issues + found <==> i in issues || i in found;
    }
  }

  method VerifyPresence(t: Tree, m: Manifest, o: Options, self: Program) returns (issues: set<Issue>)
    ensures forall i :: i in issues <==> Wrong(t, m, o, self, i) && (i.RequiredMissing? || i.ShippedMissing?)
  {
    issues := {};
    if o.update {
      var missing := VerifyNames(m, REQUIRED_FOR_UPDATE);
      issues := set n | n in missing :: RequiredMissing(n);
    }
    if o.shipped {
      var missing := VerifyNames(m, SHIPPED);
      issues := issues + set n | n in missing :: ShippedMissing(n);
    }
  }

  method VerifyAdmin(t: Tree, m: Manifest, o: Options, self: Program) returns (issues: set<Issue>)
    ensures forall i :: i in issues <==> Wrong(t, m, o, self, i) && (i.AdminUnreadable? || i.AdminMismatch?)
  {
    issues := {};
    if m.admin != Absent {
      var files := Under(t, ADMIN_DIR);
      if files == map[] {
        issues := {AdminUnreadable};
      } else if m.admin != Digest(files) {
        issues := {AdminMismatch};
      }
    }
  }

  /** The report lists exactly what is wrong, and is clean exactly when the tree is what its
      manifest says. */
  method VerifyManifest(t: Tree, m: Manifest, o: Options, self: Program) returns (ok: bool, issues: set<Issue>)
    ensures forall i :: i in issues <==> Wrong(t, m, o, self, i)
    ensures ok <==> Verified(t, m, o, self)
  {
    var header := VerifyHeader(t, m, o, self);
    var binaries := VerifyBinaries(t, m, o, self);
    var presence := VerifyPresence(t, m, o, self);
    var admin := VerifyAdmin(t, m, o, self);
    issues := header + binaries + presence + admin;
    ok := issues == {};
    assert !ok ==> exists i :: i in issues;
    VerifiedIff(t, m, o, self);
  }

  // ---------- What an update touches ----------

  predicate HasAdmin(m: Manifest) {
    m.admin.Digest?
  }

  function PathsOf(m: Manifest, names: set<string>): set<Path> {
    set n | n in names && n in m.binaries :: m.binaries[n].path
  }

  function BinaryPaths(m: Manifest): set<Path> {
    PathsOf(m, m.binaries.Keys)
  }

  // The files and directories that are backed up.
  function Roots(m: Manifest): set<Path> {
    {MANIFEST_FILE} + BinaryPaths(m) + (if HasAdmin(m) then {ADMIN_DIR} else {})
  }

  predicate Below(roots: set<Path>, p: Path) {
    exists r :: r in roots && r <= p
  }

  predicate InPayload(m: Manifest, p: Path) {
    Below(Roots(m), p)
  }

  function Part(t: Tree, roots: set<Path>): Tree {
    map p | p in t && Below(roots, p) :: t[p]
  }

  // The chosen files of a tree.
  function Only(t: Tree, paths: set<Path>): Tree {
    map p | p in t && p in paths :: t[p]
  }

  // The files of the bundle that are copied.
  function Copied(bundle: Tree, m: Manifest): Tree {
    Only(bundle, {MANIFEST_FILE} + BinaryPaths(m)) + (if HasAdmin(m) then Under(bundle, ADMIN_DIR) else map[])
  }

  // The install directory after a whole copy: the admin directory is replaced, not merged.
  function Updated(install: Tree, bundle: Tree, m: Manifest): Tree {
    (if HasAdmin(m) then install - Under(install, ADMIN_DIR).Keys else install) + Copied(bundle, m)
  }

  // Trees that agree on every path outside the payload.
  ghost predicate SameOutside(m: Manifest, before: Tree, after: Tree) {
    forall p :: !InPayload(m, p) ==> (p in before <==> p in after) && (p in before ==> before[p] == after[p])
  }

  // ---------- Copies that may fail ----------

  // One copy of a file: it goes well, fails before the target is opened, or leaves the target
  // cut short or half written.
  datatype Luck = Fine | FailsBefore | Spoils(left: Content)

  // The replacement of a directory once its copy is complete.
  datatype DirLuck = Replaced | CopyFails | RemovesOnly(gone: set<Path>) | RenameFails

  datatype Outcome = Rejected | DryRun | BackupFailed | Restored | RestoreFailed | Applied

  method CopyFile(src: Tree, p: Path, dst: Tree, luck: Luck) returns (after: Tree, ok: bool)
    ensures ok ==> p in src && after == dst[p := src[p]]
    ensures !ok ==> after == dst || (p in after && after == dst[p := after[p]])
  {
    if p !in src || luck.FailsBefore? {
      return dst, false;
    }
    if luck.Spoils? {
      return dst[p := luck.left], false;
    }
    return dst[p := src[p]], true;
  }

  class Installation {
    var install: Tree
    var backups: map<Stamp, Tree>   // by time stamp
    var copies: nat
    const luck: nat -> Luck
    const dirLuck: DirLuck

    constructor (install: Tree, backups: map<Stamp, Tree>, luck: nat -> Luck, dirLuck: DirLuck)
      ensures this.install == install && this.backups == backups
    {
      this.install, this.backups, copies := install, backups, 0;
      this.luck, this.dirLuck := luck, dirLuck;
    }

    // Copies the files below one root into a backup, if there are any.
    method BackUpRoot(root: Path, backup: Tree) returns (after: Tree, ok: bool)
      modifies `copies
      ensures ok ==> after == backup + Under(install, root)
    {
      after := backup;
      var todo := Under(install, root).Keys;
      while todo != {}
        invariant todo <= Under(install, root).Keys
        invariant after == backup + (Under(install, root) - todo)
        decreases |todo|
      {
        var p :| p in todo;
        OneMoreFile(backup, Under(install, root), todo, p);
        todo := todo - {p};
        after, ok := CopyFile(install, p, after, luck(copies));
        copies := copies + 1;
        if !ok {
          return after, false;
        }
      }
      ok := true;
    }

    method BackUpRoots(paths: seq<Path>, start: Tree) returns (backup: Tree, ok: bool)
      modifies `copies
      ensures ok ==> backup == start + Part(install, Among(paths))
    {
      backup, ok := start, true;
      for i := 0 to |paths|
        invariant ok && backup == start + Part(install, Among(paths[..i]))
      {
        backup, ok := BackUpRoot(paths[i], backup);
        if !ok {
          return;
        }
        PartGrows(install, start, Among(paths[..i]), paths[i]);
        assert Among(paths[..i + 1]) == Among(paths[..i]) + {paths[i]};
      }
      assert paths[..|paths|] == paths;
    }

    method BackUpInstallPayload(m: Manifest, stamp: Stamp) returns (ok: bool)
      modifies `backups, `copies
      ensures ok ==> backups == Backed(old(backups), stamp, Part(install, Roots(m)))
      ensures forall s :: s != stamp ==> (s in backups <==> s in old(backups)) && (s in backups ==> backups[s] == old(backups)[s])
    {
      var paths := PayloadPaths(m);
      var start := if stamp in backups then backups[stamp] else map[];
      var backup;
      backup, ok := BackUpRoots(paths, start);
      assert ok && stamp !in backups ==> backup == Part(install, Roots(m));
      if stamp in backups || backup != map[] {
        backups := backups[stamp := backup];
      }
    }

    // Copies the bundle's directory aside, removes the old one, renames the copy into place.
    method ReplaceDir(bundle: Tree, root: Path) returns (ok: bool)
      modifies `install
      ensures ok ==> root !in bundle && install == old(install) - Under(old(install), root).Keys + Under(bundle, root)
      ensures !ok ==> install == old(install) - (Under(old(install), root).Keys - install.Keys)
    {
      var files := Under(bundle, root);
      if root in bundle || files == map[] {
        return false;
      }
      var here := Under(install, root).Keys;
      match dirLuck
      case CopyFails => return false;
      case RemovesOnly(gone) =>
        install := install - (here * gone);
        return false;
      case RenameFails =>
        install := install - here;
        return false;
      case Replaced =>
        install := install - here + files;
        return true;
    }

    // One copy into the install directory.
    method CopyIn(bundle: Tree, p: Path, m: Manifest) returns (ok: bool)
      requires InPayload(m, p)
      modifies `install, `copies
      ensures ok ==> p in bundle && install == old(install)[p := bundle[p]]
      ensures SameOutside(m, old(install), install)
    {
      install, ok := CopyFile(bundle, p, install, luck(copies));
      copies := copies + 1;
    }

    method CopyBinaries(bundle: Tree, m: Manifest) returns (ok: bool)
      modifies `install, `copies
      ensures ok ==> BinaryPaths(m) <= bundle.Keys && install == old(install) + Only(bundle, BinaryPaths(m))
      ensures SameOutside(m, old(install), install)
    {
      var names := m.binaries.Keys;
      while names != {}
        invariant names <= m.binaries.Keys
        invariant var done := PathsOf(m, m.binaries.Keys - names);
                  done <= bundle.Keys && install == old(install) + Only(bundle, done)
        invariant SameOutside(m, old(install), install)
        decreases |names|
      {
        var n :| n in names;
        var p := m.binaries[n].path;
        BinaryInPayload(m, n);
        ok := CopyIn(bundle, p, m);
        if !ok {
          return;
        }
        PathsGrow(m, m.binaries.Keys - names, n);
        OnlyGrows(old(install), bundle, PathsOf(m, m.binaries.Keys - names), p);
        assert m.binaries.Keys - (names - {n}) == m.binaries.Keys - names + {n};
        names := names - {n};
      }
      ok := true;
      assert m.binaries.Keys - names == m.binaries.Keys;
    }

    method CopyBundlePayload(bundle: Tree, m: Manifest) returns (ok: bool)
      modifies `install, `copies
      ensures ok ==> Installable(bundle, m) && install == Updated(old(install), bundle, m)
      ensures SameOutside(m, old(install), install)
    {
      assert MANIFEST_FILE in Roots(m);
      ok := CopyIn(bundle, MANIFEST_FILE, m);
      if !ok {
        return;
      }
      ok := CopyBinaries(bundle, m);
      if !ok {
        return;
      }
      ghost var copied := install;
      if HasAdmin(m) {
        AdminInPayload(m);
        ok := ReplaceDir(bundle, ADMIN_DIR);
        if !ok {
          return;
        }
      }
      WholeCopy(old(install), bundle, m, copied, install);
    }

    method RestoreInstallPayload(stamp: Stamp) returns (ok: bool)
      modifies `install, `copies
      ensures ok ==> stamp in backups && install == old(install) + backups[stamp]
      ensures forall p :: stamp !in backups || p !in backups[stamp] ==>
        (p in install <==> p in old(install)) && (p in install ==> install[p] == old(install)[p])
    {
      if stamp !in backups {
        return false;
      }
      var backup := backups[stamp];
      var todo := backup.Keys;
      while todo != {}
        invariant todo <= backup.Keys
        invariant install == old(install) + (map p | p in backup && p !in todo :: backup[p])
        decreases |todo|
      {
        var p :| p in todo;
        todo := todo - {p};
        install, ok := CopyFile(backup, p, install, luck(copies));
        copies := copies + 1;
        if !ok {
          return;
        }
      }
      ok := true;
    }

    /** Verify, back up, copy; on a failed copy put the backup back. */
    method ApplyBundle(bundle: Tree, parse: Content -> Option<Manifest>, self: Program, dryRun: bool, stamp: Stamp)
        returns (outcome: Outcome)
      modifies `install, `backups, `copies
      ensures outcome == Rejected <==> !Acceptable(bundle, parse, self)
      ensures outcome in {Rejected, DryRun, BackupFailed} ==> install == old(install)
      ensures outcome in {Rejected, DryRun} ==> backups == old(backups)
      ensures outcome == Applied ==>
        var m := parse(bundle[MANIFEST_FILE]).value;
        && Installable(bundle, m) && install == Updated(old(install), bundle, m)
        && backups == Backed(old(backups), stamp, Part(old(install), Roots(m)))
        && Verified(bundle, m, INCOMING, self) && Verified(install, m, INCOMING, self)
      ensures outcome == Restored ==>
        PutBack(parse(bundle[MANIFEST_FILE]).value, old(install), Stale(old(backups), stamp), install)
      ensures outcome == RestoreFailed ==>
        SameBut(parse(bundle[MANIFEST_FILE]).value, old(install), Stale(old(backups), stamp), install)
    {
      if MANIFEST_FILE !in bundle || parse(bundle[MANIFEST_FILE]).None? {
        return Rejected;
      }
      var m := parse(bundle[MANIFEST_FILE]).value;
      var verified, _ := VerifyManifest(bundle, m, INCOMING, self);
      if !verified {
        return Rejected;
      }
      if dryRun {
        return DryRun;
      }
      var ok := BackUpInstallPayload(m, stamp);
      if !ok {
        return BackupFailed;
      }
      ok := CopyBundlePayload(bundle, m);
      if ok {
        AppliedStillVerifies(old(install), bundle, m, INCOMING, self);
        return Applied;
      }
      ghost var dirty := install;
      ok := RestoreInstallPayload(stamp);
      BackedFiles(old(backups), stamp, Part(old(install), Roots(m)), backups);
      if ok {
        RestoredIsPutBack(m, old(install), Stale(old(backups), stamp), dirty, install);
        return Restored;
      }
      return RestoreFailed;
    }

    method LatestBackup() returns (stamp: Option<Stamp>)
      ensures stamp.None? <==> backups == map[]
      ensures stamp.Some? ==> IsLatest(backups, stamp.value)
    {
      stamp := None;
      var todo := backups.Keys;
      while todo != {}
        invariant todo <= backups.Keys
        invariant stamp.None? ==> todo == backups.Keys
        invariant stamp.Some? ==> stamp.value in backups && forall k :: k in backups && k !in todo ==> k.seconds <= stamp.value.seconds
        decreases |todo|
      {
        var k: Stamp :| k in todo;
        todo := todo - {k};
        if stamp.None? || stamp.value.seconds < k.seconds {
          stamp := Some(k);
        }
      }
    }

    method Rollback() returns (ok: bool)
      modifies `install, `copies
      ensures ok ==> exists stamp :: IsLatest(backups, stamp) && install == old(install) + backups[stamp]
    {
      var stamp := LatestBackup();
      if stamp.None? {
        return false;
      }
      ok := RestoreInstallPayload(stamp.value);
    }
  }

  function Among(paths: seq<Path>): set<Path> {
    set p | p in paths
  }

  lemma {:induction false} AmongMore(paths: seq<Path>, p: Path)
    ensures Among(paths + [p]) == Among(paths) + {p}
  {
  }

  lemma {:induction false} OneMoreFile(start: Tree, files: Tree, todo: set<Path>, p: Path)
    requires p in todo && p in files
    ensures (start + (files - todo))[p := files[p]] == start + (files - (todo - {p}))
  {
  }

  lemma {:induction false} PathsGrow(m: Manifest, names: set<string>, n: string)
    requires n in m.binaries
    ensures PathsOf(m, names + {n}) == PathsOf(m, names) + {m.binaries[n].path}
  {
    assert n in names + {n};
    forall p | p in PathsOf(m, names) ensures p in PathsOf(m, names + {n}) {
      var k :| k in names && k in m.binaries && m.binaries[k].path == p;
      assert k in names + {n};
    }
  }

  method PayloadPaths(m: Manifest) returns (paths: seq<Path>)
    ensures Among(paths) == Roots(m)
  {
    paths := [MANIFEST_FILE];
    var names := m.binaries.Keys;
    while names != {}
      invariant names <= m.binaries.Keys
      invariant Among(paths) == {MANIFEST_FILE} + PathsOf(m, m.binaries.Keys - names)
      decreases |names|
    {
      var n :| n in names;
      PathsGrow(m, m.binaries.Keys - names, n);
      AmongMore(paths, m.binaries[n].path);
      assert m.binaries.Keys - (names - {n}) == m.binaries.Keys - names + {n};
      names := names - {n};
      paths := paths + [m.binaries[n].path];
    }
    assert m.binaries.Keys - names == m.binaries.Keys;
    if HasAdmin(m) {
      AmongMore(paths, ADMIN_DIR);
      paths := paths + [ADMIN_DIR];
    }
  }

  // The bundle holds all that has to be copied.
  predicate Installable(bundle: Tree, m: Manifest) {
    && MANIFEST_FILE in bundle && BinaryPaths(m) <= bundle.Keys
    && (HasAdmin(m) ==> ADMIN_DIR !in bundle)
  }

  lemma {:induction false} BinaryInPayload(m: Manifest, n: string)
    requires n in m.binaries
    ensures InPayload(m, m.binaries[n].path)
  {
    assert m.binaries[n].path in Roots(m);
  }

  lemma {:induction false} OnlyGrows(t: Tree, bundle: Tree, done: set<Path>, p: Path)
    requires p in bundle
    ensures (t + Only(bundle, done))[p := bundle[p]] == t + Only(bundle, done + {p})
  {
  }

  lemma {:induction false} AdminInPayload(m: Manifest)
    requires HasAdmin(m)
    ensures forall p :: ADMIN_DIR <= p ==> InPayload(m, p)
  {
    assert ADMIN_DIR in Roots(m);
  }

  lemma {:induction false} WholeCopy(install: Tree, bundle: Tree, m: Manifest, copied: Tree, after: Tree)
    requires MANIFEST_FILE in bundle && BinaryPaths(m) <= bundle.Keys
    requires copied == install[MANIFEST_FILE := bundle[MANIFEST_FILE]] + Only(bundle, BinaryPaths(m))
    requires after == if HasAdmin(m) then copied - Under(copied, ADMIN_DIR).Keys + Under(bundle, ADMIN_DIR) else copied
    ensures after == Updated(install, bundle, m)
  {
    var files := Only(bundle, {MANIFEST_FILE} + BinaryPaths(m));
    assert copied == install + files;
    if HasAdmin(m) {
      ReplacedBelow(install, files, Under(bundle, ADMIN_DIR));
    } else {
      assert files + map[] == files;
    }
  }

  lemma {:induction false} ReplacedBelow(install: Tree, files: Tree, admin: Tree)
    requires forall p :: p in files && ADMIN_DIR <= p ==> p in admin
    ensures install + files - Under(install + files, ADMIN_DIR).Keys + admin
         == install - Under(install, ADMIN_DIR).Keys + (files + admin)
  {
  }

  predicate IsLatest(backups: map<Stamp, Tree>, stamp: Stamp) {
    stamp in backups && forall k :: k in backups ==> k.seconds <= stamp.seconds
  }

  // What a backup directory of the same second held before.
  function Stale(backups: map<Stamp, Tree>, stamp: Stamp): Tree {
    if stamp in backups then backups[stamp] else map[]
  }

  // Can the bundle's manifest be read, and does the bundle match it?
  ghost predicate Acceptable(bundle: Tree, parse: Content -> Option<Manifest>, self: Program) {
    && MANIFEST_FILE in bundle && parse(bundle[MANIFEST_FILE]).Some?
    && Verified(bundle, parse(bundle[MANIFEST_FILE]).value, INCOMING, self)
  }

  // Every payload file that was there is as it was, and outside the payload nothing has
  // changed but what an older backup in the same directory overwrote.
  ghost predicate PutBack(m: Manifest, before: Tree, stale: Tree, after: Tree) {
    && (forall p :: p in before && InPayload(m, p) ==> p in after && after[p] == before[p])
    && (forall p :: !InPayload(m, p) ==>
          (p in after <==> p in before + stale) && (p in after ==> after[p] == (before + stale)[p]))
  }

  ghost predicate SameBut(m: Manifest, before: Tree, stale: Tree, after: Tree) {
    forall p :: !InPayload(m, p) && p !in stale ==> (p in before <==> p in after) && (p in before ==> before[p] == after[p])
  }

  lemma {:induction false} BackedFiles(before: map<Stamp, Tree>, stamp: Stamp, files: Tree, after: map<Stamp, Tree>)
    requires after == Backed(before, stamp, files)
    ensures Stale(after, stamp) == Stale(before, stamp) + files
  {
    assert map[] + files == files;
  }

  lemma {:induction false} RestoredIsPutBack(m: Manifest, before: Tree, stale: Tree, dirty: Tree, after: Tree)
    requires SameOutside(m, before, dirty)
    requires after == dirty + (stale + Part(before, Roots(m)))
    ensures PutBack(m, before, stale, after)
  {
  }

  // The backups with files added under a stamp; a directory exists once a file is in it.
  function Backed(backups: map<Stamp, Tree>, stamp: Stamp, files: Tree): map<Stamp, Tree> {
    if stamp in backups then backups[stamp := backups[stamp] + files]
    else if files == map[] then backups
    else backups[stamp := files]
  }

  lemma {:induction false} PartGrows(t: Tree, start: Tree, done: set<Path>, root: Path)
    ensures start + Part(t, done) + Under(t, root) == start + Part(t, done + {root})
  {
    forall p ensures Below(done + {root}, p) <==> Below(done, p) || root <= p {
      BelowMore(done, root, p);
    }
    assert Part(t, done) + Under(t, root) == Part(t, done + {root});
  }

  lemma {:induction false} BelowMore(done: set<Path>, root: Path, p: Path)
    ensures Below(done + {root}, p) <==> Below(done, p) || root <= p
  {
    if Below(done, p) {
      var r :| r in done && r <= p;
      assert r in done + {root};
    }
    if root <= p {
      assert root in done + {root};
    }
  }

  // ---------- Main results ----------

  lemma {:induction false} UpdatedFiles(install: Tree, bundle: Tree, m: Manifest)
    requires Installable(bundle, m)
    ensures var after := Updated(install, bundle, m);
            && (forall p :: p in BinaryPaths(m) + {MANIFEST_FILE} ==> p in after && after[p] == bundle[p])
            && (HasAdmin(m) ==> Under(after, ADMIN_DIR) == Under(bundle, ADMIN_DIR))
  {
  }

  // An applied bundle verifies where it was installed exactly when the bundle does where it
  // was unpacked, whichever checks are asked for, and carries the same manifest file.
  lemma {:induction false} AppliedStillVerifies(install: Tree, bundle: Tree, m: Manifest, o: Options, self: Program)
    requires Installable(bundle, m)
    ensures Verified(Updated(install, bundle, m), m, o, self) <==> Verified(bundle, m, o, self)
    ensures MANIFEST_FILE in Updated(install, bundle, m) && Updated(install, bundle, m)[MANIFEST_FILE] == bundle[MANIFEST_FILE]
  {
    var after := Updated(install, bundle, m);
    UpdatedFiles(install, bundle, m);
    assert forall n :: n in m.binaries ==> m.binaries[n].path in BinaryPaths(m);
    assert BinariesMatch(after, m) <==> BinariesMatch(bundle, m);
    if HasAdmin(m) {
      assert forall p :: p in after && ADMIN_DIR <= p <==> p in Under(after, ADMIN_DIR);
      assert forall p :: p in bundle && ADMIN_DIR <= p <==> p in Under(bundle, ADMIN_DIR);
      assert AdminMatches(after, m) <==> AdminMatches(bundle, m);
    }
  }

  // Of two bundles that verify with one manifest file, either leaves the same install tree.
  lemma {:induction false} ManifestDeterminesUpdate(install: Tree, bundle: Tree, other: Tree, m: Manifest, o: Options, self: Program)
    requires Installable(bundle, m) && Installable(other, m) && bundle[MANIFEST_FILE] == other[MANIFEST_FILE]
    requires Verified(bundle, m, o, self) && Verified(other, m, o, self)
    ensures Updated(install, bundle, m) == Updated(install, other, m)
  {
    forall p | p in BinaryPaths(m) ensures p in bundle && p in other && bundle[p] == other[p] {
      var n :| n in m.binaries && m.binaries[n].path == p;
      ManifestPinsPayload(bundle, other, m, o, self, p);
    }
    if HasAdmin(m) {
      forall p | ADMIN_DIR <= p ensures (p in bundle <==> p in other) && (p in bundle ==> bundle[p] == other[p]) {
        ManifestPinsPayload(bundle, other, m, o, self, p);
      }
      assert Under(bundle, ADMIN_DIR) == Under(other, ADMIN_DIR);
    }
    assert Copied(bundle, m) == Copied(other, m);
  }

  // The files an update brings that were not there before.
  function NewFiles(install: Tree, bundle: Tree, m: Manifest): Tree {
    Copied(bundle, m) - install.Keys
  }

  lemma {:induction false} CopiedInPayload(bundle: Tree, m: Manifest, p: Path)
    requires p in Copied(bundle, m)
    ensures InPayload(m, p)
  {
    if p in {MANIFEST_FILE} + BinaryPaths(m) {
      assert p in Roots(m);
    } else {
      AdminInPayload(m);
    }
  }

  lemma {:induction false} RollbackAt(install: Tree, bundle: Tree, m: Manifest, p: Path)
    ensures var l, r := Updated(install, bundle, m) + Part(install, Roots(m)), install + NewFiles(install, bundle, m);
            (p in l <==> p in r) && (p in l ==> l[p] == r[p])
  {
    if HasAdmin(m) {
      AdminInPayload(m);
    }
    if p in Copied(bundle, m) {
      CopiedInPayload(bundle, m, p);
    }
    assert p in Part(install, Roots(m)) <==> p in install && InPayload(m, p);
  }

  // Rolling back an applied update brings back all that was there, and leaves the new names.
  lemma {:induction false} RollbackLeavesNewFiles(install: Tree, bundle: Tree, m: Manifest)
    ensures Updated(install, bundle, m) + Part(install, Roots(m)) == install + NewFiles(install, bundle, m)
  {
    forall p {
      RollbackAt(install, bundle, m, p);
    }
  }

  // So it is the identity exactly when the bundle brought no new file name.
  lemma {:induction false} RollbackIsIdentityIff(install: Tree, bundle: Tree, m: Manifest)
    ensures Updated(install, bundle, m) + Part(install, Roots(m)) == install <==> Copied(bundle, m).Keys <= install.Keys
  {
    RollbackLeavesNewFiles(install, bundle, m);
    var more := NewFiles(install, bundle, m);
    if Copied(bundle, m).Keys <= install.Keys {
      assert more == map[];
    } else {
      var p :| p in Copied(bundle, m).Keys && p !in install.Keys;
      assert p in more && p in install + more;
    }
  }

  // The backup a rollback picks is that of the last update, if the clock has not gone back
  // and there was anything to back up.
  lemma {:induction false} RollbackUndoesLastUpdateIff(install: Tree, backups: map<Stamp, Tree>, bundle: Tree, m: Manifest, stamp: Stamp, picked: Stamp)
    requires forall k :: k in backups ==> k.seconds < stamp.seconds
    requires Part(install, Roots(m)) != map[]
    requires IsLatest(Backed(backups, stamp, Part(install, Roots(m))), picked)
    ensures var after := Updated(install, bundle, m) + Backed(backups, stamp, Part(install, Roots(m)))[picked];
            after == install <==> Copied(bundle, m).Keys <= install.Keys
  {
    assert picked == stamp;
    RollbackIsIdentityIff(install, bundle, m);
  }

  predicate SameAt(before: Tree, after: Tree, p: Path) {
    (p in before <==> p in after) && (p in before ==> after[p] == before[p])
  }

  // What a failed and restored update leaves outside its payload where another was applied in
  // the same second: the files that the other had overwritten or removed are back.
  lemma {:induction false} SecondUpdateUndoesFirst(install: Tree, backups: map<Stamp, Tree>, bundle: Tree, m: Manifest, stamp: Stamp,
                                                   second: Manifest, after: Tree, p: Path)
    requires stamp !in backups && !InPayload(second, p)
    requires PutBack(second, Updated(install, bundle, m), Stale(Backed(backups, stamp, Part(install, Roots(m))), stamp), after)
    ensures p in install && InPayload(m, p) ==> p in after && after[p] == install[p]
    ensures !(p in install && InPayload(m, p)) ==> SameAt(Updated(install, bundle, m), after, p)
  {
    BackedFiles(backups, stamp, Part(install, Roots(m)), Backed(backups, stamp, Part(install, Roots(m))));
    var stale := Stale(Backed(backups, stamp, Part(install, Roots(m))), stamp);
    assert stale == map[] + Part(install, Roots(m)) == Part(install, Roots(m));
    assert p in Part(install, Roots(m)) <==> p in install && InPayload(m, p);
  }

  // Two updates in one second share a backup directory. When the first was applied and the
  // second failed and was restored, the second changed nothing outside its payload exactly
  // when the first had changed no file outside it.
  lemma {:induction false} SharedBackupHarmlessIff(install: Tree, backups: map<Stamp, Tree>, bundle: Tree, m: Manifest, stamp: Stamp,
                                                   second: Manifest, after: Tree)
    requires stamp !in backups
    requires PutBack(second, Updated(install, bundle, m), Stale(Backed(backups, stamp, Part(install, Roots(m))), stamp), after)
    ensures (forall p :: !InPayload(second, p) ==> SameAt(Updated(install, bundle, m), after, p))
       <==> (forall p :: p in install && InPayload(m, p) && !InPayload(second, p) ==> SameAt(install, Updated(install, bundle, m), p))
  {
    forall p | !InPayload(second, p)
      ensures p in install && InPayload(m, p) ==> p in after && after[p] == install[p]
      ensures !(p in install && InPayload(m, p)) ==> SameAt(Updated(install, bundle, m), after, p)
    {
      SecondUpdateUndoesFirst(install, backups, bundle, m, stamp, second, after, p);
    }
  }
}
