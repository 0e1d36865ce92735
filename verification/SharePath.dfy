/**
 From a virtual SFTP path to a file inside a share (internal/agent/sftphandler.go and
 internal/agent/sharesacl.go): splitting off the alias, the access check, the lexical
 resolution, and the containment check after symbolic links are resolved. What
 EvalSymlinks answers is a parameter, so the theorems hold for every file system.
 */
module SharePath {
  import opened Options
  import opened PosixPath
  import opened ShareAcl

  datatype Result<+T> = Ok(value: T) | Refused | NotFound

  function TrimPrefix(s: string): string {
    if Rooted(s) then s[1..] else s
  }

  /** The path as both callers clean it: rooted, whatever the client sent. */
  function CleanVirtual(virtual: string): string {
    Clean([SLASH] + TrimPrefix(virtual))
  }

  /** The alias and what follows it; nothing for the synthetic root. */
  function SplitVirtual(virtual: string): Option<(string, string)> {
    var cleaned := CleanVirtual(virtual);
    if cleaned == "/" then None
    else
      var trimmed := TrimPrefix(cleaned);
      var i := IndexSlash(trimmed);
      if i < |trimmed| then Some((trimmed[..i], trimmed[i + 1..])) else Some((trimmed, ""))
  }

  /** The errors of a mismatched alias and of an escape are both refusals. */
  function ResolveSharePath(shareRoot: string, virtual: string, expectedAlias: string): Result<string> {
    var trimmed := TrimPrefix(CleanVirtual(virtual));
    var i := IndexSlash(trimmed);
    var aliased := trimmed[..i];
    var rest := if i < |trimmed| then trimmed[i + 1..] else "";
    if aliased != expectedAlias then Refused
    else
      var root := Clean(shareRoot);
      var joined := Clean(Join(root, rest));
      if Escapes(Rel(root, joined)) then Refused else Ok(joined)
  }

  /** What the client's path means: its names, with "." and ".." worked out and nothing above the top. */
  function VirtualNames(virtual: string): seq<string> {
    Parse([SLASH] + TrimPrefix(virtual)).comps
  }

  /** The share's root, and the names below the alias. */
  function Below(root: Lex, names: seq<string>): Lex {
    Lex(root.rooted, root.comps + names)
  }

  lemma VirtualNamesArePlain(virtual: string)
    ensures AllPlain(VirtualNames(virtual))
    ensures CleanVirtual(virtual) == [SLASH] + Joined(VirtualNames(virtual))
  {
    ParseNormal([SLASH] + TrimPrefix(virtual));
  }

  /** A leading slash of the client makes no difference: the names are those of the path below "/". */
  lemma VirtualNamesFromTheTop(virtual: string)
    ensures VirtualNames(virtual) == Parse([SLASH] + virtual).comps
  {
    if Rooted(virtual) {
      var rest := virtual[1..];
      assert virtual == [SLASH] + rest;
      SplitLeading(rest);
      SplitLeading(virtual);
      WalkCons(true, [], "", [""] + Split(rest));
    }
  }

  lemma FirstName(names: seq<string>)
    requires names != [] && AllPlain(names)
    ensures IndexSlash(Joined(names)) == |names[0]| && Joined(names)[..|names[0]|] == names[0]
    ensures Joined(names) != ""
    ensures if |names| == 1 then Joined(names) == names[0]
            else Joined(names) == names[0] + [SLASH] + Joined(names[1..])
  {
    IndexSlashFirst(names[0], if |names| == 1 then "" else Joined(names[1..]));
  }

  /** Splitting the cleaned string at its first slash is taking the first name. */
  lemma SplitTakesFirstName(virtual: string)
    ensures var names := VirtualNames(virtual);
            SplitVirtual(virtual) == if names == [] then None else Some((names[0], Joined(names[1..])))
  {
    var names := VirtualNames(virtual);
    VirtualNamesArePlain(virtual);
    if names != [] {
      FirstName(names);
      var s := Joined(names);
      assert CleanVirtual(virtual)[1..] == s;
      if |names| > 1 {
        assert s[|names[0]| + 1..] == Joined(names[1..]);
      }
    }
  }

  lemma SplitJoinedNames(names: seq<string>)
    requires AllPlain(names)
    ensures Split(Joined(names)) == if names == [] then [""] else names
  {
    if names == [] {
      SplitName("");
    } else {
      SplitJoined(names);
    }
  }

  /** Joining a cleaned remainder to any root goes down from that root. */
  lemma JoinGoesBelow(root: string, names: seq<string>)
    requires AllPlain(names) && root == Clean(root) && root != ""
    ensures Parse(Join(root, Joined(names))) == Below(Parse(root), names)
    ensures Clean(Join(root, Joined(names))) == Render(Below(Parse(root), names))
  {
    JoinWalks(root, Joined(names));
    SplitJoinedNames(names);
    var acc := Parse(root).comps;
    if names == [] {
      assert Walk(Rooted(root), acc, [""]) == acc == acc + names;
    } else {
      WalkPlain(Rooted(root), acc, names);
    }
  }

  lemma BelowIsContained(root: Lex, names: seq<string>)
    requires AllPlain(names)
    ensures Contained(root, Below(root, names))
  {
    var t := Below(root, names);
    assert t.comps[..|root.comps|] == root.comps;
  }

  lemma CleanNotEmpty(s: string)
    ensures Clean(s) != ""
  {
    ParseNormal(s);
    NotEmpty(Parse(s));
  }

  /**
   Whatever the client sends and whatever the share's root is, the alias is the path's
   first name, and the result is the root followed by the remaining names: the escape
   error never occurs, because nothing that escapes survives the cleaning.
   */
  lemma ResolvesBelowTheRoot(shareRoot: string, virtual: string, expectedAlias: string)
    ensures var names := VirtualNames(virtual);
            ResolveSharePath(shareRoot, virtual, expectedAlias) ==
              if expectedAlias != (if names == [] then "" else names[0]) then Refused
              else Ok(Render(Below(Parse(shareRoot), if names == [] then [] else names[1..])))
  {
    var names := VirtualNames(virtual);
    var tail := if names == [] then [] else names[1..];
    VirtualNamesArePlain(virtual);
    SplitTakesFirstName(virtual);
    var trimmed := TrimPrefix(CleanVirtual(virtual));
    assert trimmed == Joined(names);
    if names != [] {
      FirstName(names);
    }
    var i := IndexSlash(trimmed);
    assert trimmed[..i] == if names == [] then "" else names[0];
    var rest := if i < |trimmed| then trimmed[i + 1..] else "";
    assert rest == Joined(tail);
    var root := Clean(shareRoot);
    CleanIsCanonical(shareRoot, root);
    CleanNotEmpty(shareRoot);
    JoinGoesBelow(root, tail);
    BelowIsContained(Parse(root), tail);
    var joined := Clean(Join(root, rest));
    CleanIsCanonical(Join(root, rest), joined);
    RelTestIsContainment(root, joined);
  }

  /** The two computations of the alias agree, on every path. */
  lemma AliasesAgree(shareRoot: string, virtual: string, expectedAlias: string)
    ensures ResolveSharePath(shareRoot, virtual, expectedAlias).Ok? <==>
              match SplitVirtual(virtual)
              case None => expectedAlias == ""
              case Some((aliased, _)) => expectedAlias == aliased
  {
    ResolvesBelowTheRoot(shareRoot, virtual, expectedAlias);
    SplitTakesFirstName(virtual);
  }

  // ---- On the file system ----

  /** Where a path leads once its links are followed, or one of the two kinds of error told apart later. */
  type FileSystem = string -> Result<string>

  /** filepath.EvalSymlinks, which cleans what it returns. */
  function EvalSymlinks(fs: FileSystem, path: string): Result<string> {
    match fs(path)
    case Ok(p) => Ok(Clean(p))
    case err => err
  }

  function ContainedReal(fs: FileSystem, shareRoot: string, realPath: string): Result<string> {
    match EvalSymlinks(fs, shareRoot)
    case Refused => Refused
    case NotFound => NotFound
    case Ok(rootCanon) =>
      match EvalSymlinks(fs, realPath)
      case Refused => Refused
      case NotFound => NotFound
      case Ok(pCanon) => if Escapes(Rel(rootCanon, pCanon)) then Refused else Ok(pCanon)
  }

  function ContainedWritePath(fs: FileSystem, shareRoot: string, realPath: string): Result<string> {
    match ContainedReal(fs, shareRoot, Dir(realPath))
    case Ok(parentReal) => Ok(Join(parentReal, Base(realPath)))
    case err => err
  }

  /** A connected peer: its device id, and its nickname or "" if that is not known. */
  datatype Peer = Peer(id: Token, nickname: Token)

  /** The position of the first share with this alias, or the number of shares. */
  function ShareIndex(shares: seq<ShareACL>, aliased: string): (i: nat)
    ensures i <= |shares| && (i < |shares| ==> shares[i].alias == aliased)
    ensures forall j | 0 <= j < i :: shares[j].alias != aliased
  {
    if shares == [] || shares[0].alias == aliased then 0 else 1 + ShareIndex(shares[1..], aliased)
  }

  function FindShare(shares: seq<ShareACL>, peer: Peer, aliased: string): Option<(ShareACL, AccessDecision)> {
    var i := ShareIndex(shares, aliased);
    if i == |shares| then None else Some((shares[i], Decision(shares[i], peer.id, peer.nickname)))
  }

  function ResolveReadReal(shares: seq<ShareACL>, peer: Peer, fs: FileSystem, virtual: string): Result<string> {
    match SplitVirtual(virtual)
    case None => Refused
    case Some((aliased, _)) =>
      match FindShare(shares, peer, aliased)
      case None => Refused
      case Some((acl, dec)) =>
        if !dec.allow then Refused
        else
          match ResolveSharePath(acl.path, virtual, aliased)
          case Ok(lexical) => ContainedReal(fs, acl.path, lexical)
          case _ => Refused
  }

  function ResolveWriteReal(shares: seq<ShareACL>, peer: Peer, fs: FileSystem, virtual: string): Result<string> {
    match SplitVirtual(virtual)
    case None => Refused
    case Some((aliased, _)) =>
      match FindShare(shares, peer, aliased)
      case None => Refused
      case Some((acl, dec)) =>
        if !dec.allow || dec.readOnly then Refused
        else
          match ResolveSharePath(acl.path, virtual, aliased)
          case Ok(lexical) => ContainedWritePath(fs, acl.path, lexical)
          case _ => Refused
  }

  /** The share this path names, if the peer may use it at all. */
  function Granted(shares: seq<ShareACL>, peer: Peer, virtual: string, write: bool): Option<ShareACL> {
    var names := VirtualNames(virtual);
    if names == [] then None
    else
      var i := ShareIndex(shares, names[0]);
      if i == |shares| then None
      else
        var dec := Decision(shares[i], peer.id, peer.nickname);
        if dec.allow && (write ==> !dec.readOnly) then Some(shares[i]) else None
  }

  /** A grant: the first share of that alias, if it names the peer or everyone, and for a write is not read-only. */
  lemma GrantedExactlyWhen(shares: seq<ShareACL>, peer: Peer, virtual: string, write: bool, acl: ShareACL)
    ensures Granted(shares, peer, virtual, write) == Some(acl) <==>
              && VirtualNames(virtual) != []
              && (acl.allowAll || peer.id in acl.devices || (peer.nickname != "" && peer.nickname in acl.devices))
              && (write ==> !acl.readOnly)
              && exists i :: && 0 <= i < |shares| && shares[i] == acl && acl.alias == VirtualNames(virtual)[0]
                             && forall j | 0 <= j < i :: shares[j].alias != acl.alias
  {
    if VirtualNames(virtual) != [] {
      var i := ShareIndex(shares, VirtualNames(virtual)[0]);
      forall j | 0 <= j < |shares| && shares[j].alias == VirtualNames(virtual)[0] ensures i <= j {
      }
    }
  }

  /** The path below the share's root, before symbolic links. */
  function Target(acl: ShareACL, virtual: string): Lex {
    var names := VirtualNames(virtual);
    Below(Parse(acl.path), if names == [] then [] else names[1..])
  }

  lemma TargetIsNormal(acl: ShareACL, virtual: string)
    ensures Normal(Target(acl, virtual))
  {
    ParseNormal(acl.path);
    VirtualNamesArePlain(virtual);
    var root, t := Parse(acl.path), Target(acl, virtual);
    forall i | 0 <= i < |t.comps|
      ensures Plain(t.comps[i]) || (!t.rooted && t.comps[i] == ".." && (i == 0 || t.comps[i - 1] == ".."))
    {
      if i < |root.comps| {
        assert t.comps[i] == root.comps[i];
      }
    }
  }

  lemma ReadGoesThroughGrant(shares: seq<ShareACL>, peer: Peer, fs: FileSystem, virtual: string)
    ensures ResolveReadReal(shares, peer, fs, virtual) ==
              match Granted(shares, peer, virtual, false)
              case None => Refused
              case Some(acl) => ContainedReal(fs, acl.path, Render(Target(acl, virtual)))
  {
    SplitTakesFirstName(virtual);
    var names := VirtualNames(virtual);
    if names != [] {
      var i := ShareIndex(shares, names[0]);
      if i < |shares| {
        ResolvesBelowTheRoot(shares[i].path, virtual, names[0]);
      }
    }
  }

  lemma WriteGoesThroughGrant(shares: seq<ShareACL>, peer: Peer, fs: FileSystem, virtual: string)
    ensures ResolveWriteReal(shares, peer, fs, virtual) ==
              match Granted(shares, peer, virtual, true)
              case None => Refused
              case Some(acl) => ContainedWritePath(fs, acl.path, Render(Target(acl, virtual)))
  {
    SplitTakesFirstName(virtual);
    var names := VirtualNames(virtual);
    if names != [] {
      var i := ShareIndex(shares, names[0]);
      if i < |shares| {
        ResolvesBelowTheRoot(shares[i].path, virtual, names[0]);
      }
    }
  }

  /** Both paths resolve, and the second one to somewhere inside the first. */
  predicate ResolvesInside(fs: FileSystem, shareRoot: string, path: string, canon: string) {
    && EvalSymlinks(fs, path) == Ok(canon) && EvalSymlinks(fs, shareRoot).Ok?
    && Contained(Parse(EvalSymlinks(fs, shareRoot).value), Parse(canon))
  }

  lemma ContainedRealIsInside(fs: FileSystem, shareRoot: string, path: string, canon: string)
    ensures ContainedReal(fs, shareRoot, path) == Ok(canon) <==> ResolvesInside(fs, shareRoot, path, canon)
  {
    if EvalSymlinks(fs, shareRoot).Ok? {
      RelTestIsContainment(EvalSymlinks(fs, shareRoot).value, canon);
    }
  }

  /**
   A peer gets a path to read if and only if the first share of that alias admits it, and
   the target below the share's root exists and, links resolved, lies inside the resolved
   root; and then it gets exactly that resolved path.
   */
  lemma ReadExactlyInside(shares: seq<ShareACL>, peer: Peer, fs: FileSystem, virtual: string, p: string)
    ensures ResolveReadReal(shares, peer, fs, virtual) == Ok(p) <==>
              match Granted(shares, peer, virtual, false)
              case None => false
              case Some(acl) => ResolvesInside(fs, acl.path, Render(Target(acl, virtual)), p)
  {
    ReadGoesThroughGrant(shares, peer, fs, virtual);
    var g := Granted(shares, peer, virtual, false);
    if g.Some? {
      ContainedRealIsInside(fs, g.value.path, Render(Target(g.value, virtual)), p);
    }
  }

  /** The target's directory, as filepath.Dir gives it. */
  function TargetDir(acl: ShareACL, virtual: string): string {
    Dir(Render(Target(acl, virtual)))
  }

  lemma TargetDirIsParent(acl: ShareACL, virtual: string)
    ensures Base(Render(Target(acl, virtual))) == Name(Target(acl, virtual))
    ensures Parse(TargetDir(acl, virtual)) == Parent(Target(acl, virtual))
  {
    TargetIsNormal(acl, virtual);
    DirAndBase(Target(acl, virtual));
  }

  /**
   A peer gets a path to write if and only if the first share of that alias admits it for
   writing and the target's directory resolves to somewhere inside the resolved root; the
   path is that resolved directory with the target's own name, its links not followed.
   */
  lemma WriteExactlyBesideParent(shares: seq<ShareACL>, peer: Peer, fs: FileSystem, virtual: string, p: string)
    ensures ResolveWriteReal(shares, peer, fs, virtual) == Ok(p) <==>
              match Granted(shares, peer, virtual, true)
              case None => false
              case Some(acl) =>
                exists q :: ResolvesInside(fs, acl.path, TargetDir(acl, virtual), q)
                            && p == Join(q, Name(Target(acl, virtual)))
  {
    WriteGoesThroughGrant(shares, peer, fs, virtual);
    var g := Granted(shares, peer, virtual, true);
    if g.Some? {
      var dir := TargetDir(g.value, virtual);
      TargetDirIsParent(g.value, virtual);
      forall q ensures ContainedReal(fs, g.value.path, dir) == Ok(q) <==> ResolvesInside(fs, g.value.path, dir, q) {
        ContainedRealIsInside(fs, g.value.path, dir, q);
      }
    }
  }

  /** Going down by a name: only ".." can lead out again. */
  lemma StepStaysInside(root: Lex, q: Lex, name: string)
    requires Normal(q) && Contained(root, q) && NoSlash(name)
    ensures Contained(root, Lex(q.rooted, Descend(q.rooted, q.comps, name))) <==>
              name != ".." || |q.comps| > |root.comps| || (q.rooted && q.comps == [])
  {
    if name == ".." && q.comps != [] && q.comps[|q.comps| - 1] == ".." {
      DotsReachBack(q, |root.comps|);
    }
  }

  /** In a normal path that ends with "..", every component is "..". */
  lemma {:induction false} DotsReachBack(q: Lex, i: nat)
    requires Normal(q) && q.comps != [] && q.comps[|q.comps| - 1] == ".."
    ensures i < |q.comps| ==> q.comps[i] == ".."
    decreases |q.comps| - i
  {
    if i + 1 < |q.comps| {
      DotsReachBack(q, i + 1);
    }
  }

  lemma JoinName(q: string, name: string)
    requires q != "" && NoSlash(name)
    ensures Parse(Join(q, name)) == Lex(Rooted(q), Descend(Rooted(q), Parse(q).comps, name))
  {
    JoinWalks(q, name);
    SplitName(name);
  }

  /** The name "/" that the root directory has leads nowhere. */
  lemma JoinRoot(q: string)
    requires q != ""
    ensures Parse(Join(q, "/")) == Parse(q)
  {
    JoinWalks(q, "/");
    SplitCons("", "");
    SplitName("");
    assert "" + [SLASH] + "" == "/";
    assert ["", ""][1..] == [""];
    var acc := Parse(q).comps;
    assert Walk(Rooted(q), acc, ["", ""]) == Walk(Rooted(q), acc, [""]) == Walk(Rooted(q), acc, []);
  }

  /** Where a path with this last name lands, beside the resolved directory `q` inside `root`. */
  predicate StaysBelow(root: Lex, q: Lex, name: string) {
    name != ".." || |q.comps| > |root.comps| || (q.rooted && q.comps == [])
  }

  lemma JoinStaysInside(root: Lex, q: string, name: string)
    requires q != "" && Contained(root, Parse(q)) && (name == "/" || NoSlash(name))
    ensures Contained(root, Parse(Join(q, name))) <==> StaysBelow(root, Parse(q), name)
  {
    ParseNormal(q);
    if name == "/" {
      JoinRoot(q);
    } else {
      JoinName(q, name);
      StepStaysInside(root, Parse(q), name);
    }
  }

  lemma ResolvedNotEmpty(fs: FileSystem, path: string, q: string)
    requires EvalSymlinks(fs, path) == Ok(q)
    ensures q != ""
  {
    CleanNotEmpty(fs(path).value);
  }

  lemma TargetNameIsAName(acl: ShareACL, virtual: string)
    ensures var name := Name(Target(acl, virtual)); name == "/" || NoSlash(name)
  {
    TargetIsNormal(acl, virtual);
  }

  /**
   The path handed out for writing lies inside the share's resolved root, whatever links
   the file system holds, with one exception that can be read off the configuration: the
   share's own root, when its configured path ends in "..". There it does so exactly when
   the resolved parent lies properly below the resolved root, or is "/".
   */
  lemma WritesStayInside(shares: seq<ShareACL>, peer: Peer, fs: FileSystem, virtual: string)
    ensures match ResolveWriteReal(shares, peer, fs, virtual)
            case Ok(p) =>
              && Granted(shares, peer, virtual, true).Some?
              && var acl := Granted(shares, peer, virtual, true).value;
                 var root, q := EvalSymlinks(fs, acl.path), EvalSymlinks(fs, TargetDir(acl, virtual));
                 && root.Ok? && q.Ok?
                 && (Contained(Parse(root.value), Parse(p)) <==>
                     StaysBelow(Parse(root.value), Parse(q.value), Name(Target(acl, virtual))))
            case _ => true
  {
    var written := ResolveWriteReal(shares, peer, fs, virtual);
    if written.Ok? {
      WriteExactlyBesideParent(shares, peer, fs, virtual, written.value);
      var acl := Granted(shares, peer, virtual, true).value;
      var dir, name := TargetDir(acl, virtual), Name(Target(acl, virtual));
      var q :| ResolvesInside(fs, acl.path, dir, q) && written.value == Join(q, name);
      ResolvedNotEmpty(fs, dir, q);
      TargetNameIsAName(acl, virtual);
      JoinStaysInside(Parse(EvalSymlinks(fs, acl.path).value), q, name);
    }
  }

  /** Below the share's root the exception cannot arise: the last name is one the client gave. */
  lemma NamesBelowAreTheClients(acl: ShareACL, virtual: string)
    requires |VirtualNames(virtual)| > 1
    ensures Name(Target(acl, virtual)) == VirtualNames(virtual)[|VirtualNames(virtual)| - 1]
    ensures Name(Target(acl, virtual)) != ".."
    ensures Parent(Target(acl, virtual)) ==
              Below(Parse(acl.path), VirtualNames(virtual)[1..|VirtualNames(virtual)| - 1])
  {
    VirtualNamesArePlain(virtual);
    var names := VirtualNames(virtual);
    assert Parent(Target(acl, virtual)).comps == Parse(acl.path).comps + names[1..|names| - 1];
  }

  /** What is handed out for writing, if anything, lies inside the share's resolved root. */
  predicate WriteContained(shares: seq<ShareACL>, peer: Peer, fs: FileSystem, virtual: string) {
    match ResolveWriteReal(shares, peer, fs, virtual)
    case Ok(p) =>
      var granted := Granted(shares, peer, virtual, true);
      granted.Some? && EvalSymlinks(fs, granted.value.path).Ok?
      && Contained(Parse(EvalSymlinks(fs, granted.value.path).value), Parse(p))
    case _ => true
  }

  /** The path goes below the share's root, or that root's configured path does not end in "..". */
  predicate SafeToWrite(acl: ShareACL, virtual: string) {
    |VirtualNames(virtual)| > 1 || Name(Parse(acl.path)) != ".."
  }

  lemma RootTarget(acl: ShareACL, virtual: string)
    requires |VirtualNames(virtual)| <= 1
    ensures Target(acl, virtual) == Parse(acl.path)
  {
    assert Parse(acl.path).comps + [] == Parse(acl.path).comps;
  }

  lemma SafeTargetName(acl: ShareACL, virtual: string)
    ensures SafeToWrite(acl, virtual) <==> Name(Target(acl, virtual)) != ".."
  {
    if |VirtualNames(virtual)| > 1 {
      NamesBelowAreTheClients(acl, virtual);
    } else {
      RootTarget(acl, virtual);
    }
  }

  /** An absolute share path is safe for every client path. */
  lemma AbsoluteRootsAreSafe(acl: ShareACL, virtual: string)
    requires Rooted(acl.path)
    ensures SafeToWrite(acl, virtual)
  {
    ParseNormal(acl.path);
  }

  lemma SafeWritesStayInside(shares: seq<ShareACL>, peer: Peer, fs: FileSystem, virtual: string)
    ensures var g := Granted(shares, peer, virtual, true);
            (g.Some? ==> SafeToWrite(g.value, virtual)) ==> WriteContained(shares, peer, fs, virtual)
  {
    WritesStayInside(shares, peer, fs, virtual);
    WriteGoesThroughGrant(shares, peer, fs, virtual);
    var g := Granted(shares, peer, virtual, true);
    if g.Some? {
      SafeTargetName(g.value, virtual);
    }
  }

  // ---- Share roots that end in ".." ----

  /** A path without ordinary names: only slashes, "." and "..". */
  predicate Nameless(path: string) {
    forall i | 0 <= i < |Split(path)| :: Split(path)[i] == "" || Split(path)[i] == "." || Split(path)[i] == ".."
  }

  /** EvalSymlinks looks up ordinary names only: whatever the disk holds, it answers a path without any by its Clean. */
  ghost predicate Lexical(fs: FileSystem) {
    forall path | Nameless(path) :: EvalSymlinks(fs, path) == Ok(Clean(path))
  }

  lemma DirIsClean(s: string)
    ensures Dir(s) == Render(Parse(Dir(s)))
  {
    var cs := Split(s);
    if |cs| == 1 {
      SplitName(".");
      WalkCons(false, [], ".", []);
      assert ["."] + [] == ["."];
    } else {
      CleanIsCanonical(Joined(cs[..|cs| - 1]) + [SLASH], s);
    }
  }

  /** Where an unsafe write goes: the share's root is k times "..", and its parent k - 1 times. */
  lemma UnsafeRoot(acl: ShareACL, virtual: string)
    requires !SafeToWrite(acl, virtual)
    ensures var root := Parse(acl.path);
            && root.comps != [] && root == Lex(false, Ups(|root.comps|)) && Target(acl, virtual) == root
            && TargetDir(acl, virtual) == Render(Lex(false, Ups(|root.comps| - 1)))
  {
    var root := Parse(acl.path);
    ParseNormal(acl.path);
    RootTarget(acl, virtual);
    forall i | 0 <= i < |root.comps| ensures root.comps[i] == ".." {
      DotsReachBack(root, i);
    }
    assert root.comps == Ups(|root.comps|);
    TargetDirIsParent(acl, virtual);
    DirIsClean(Render(root));
    assert Ups(|root.comps|)[..|root.comps| - 1] == Ups(|root.comps| - 1);
  }

  lemma UpsAreNameless(k: nat)
    ensures Normal(Lex(false, Ups(k))) && Parse(Render(Lex(false, Ups(k)))) == Lex(false, Ups(k))
    ensures Nameless(Render(Lex(false, Ups(k)))) && Clean(Render(Lex(false, Ups(k)))) == Render(Lex(false, Ups(k)))
  {
    SplitRender(Lex(false, Ups(k)));
    ParseRender(Lex(false, Ups(k)));
  }

  lemma UpsDescend(k: nat)
    ensures Descend(false, Ups(k), "..") == Ups(k + 1)
    ensures !Contained(Lex(false, Ups(k)), Lex(false, Ups(k + 1)))
  {
    assert Ups(k) + [".."] == Ups(k + 1);
  }

  lemma UpsJoin(k: nat)
    ensures Parse(Join(Render(Lex(false, Ups(k))), "..")) == Lex(false, Ups(k + 1))
  {
    var l := Lex(false, Ups(k));
    UpsAreNameless(k);
    CleanNotEmpty(Render(l));
    SplitRender(l);
    UpsDescend(k);
    assert NoSlash("..");
    JoinName(Render(l), "..");
  }

  /** Climbing from k times ".." by one more leaves it. */
  lemma ClimbsOut(k: nat)
    ensures Join(Render(Lex(false, Ups(k))), "..") == Render(Lex(false, Ups(k + 1)))
    ensures !Contained(Lex(false, Ups(k)), Lex(false, Ups(k + 1)))
  {
    UpsJoin(k);
    UpsDescend(k);
    UpsAreNameless(k);
    CleanNotEmpty(Render(Lex(false, Ups(k))));
    JoinWalks(Render(Lex(false, Ups(k))), "..");
  }

  /** If the configured path has no ordinary name, its root is k times "..", its parent k - 1, and Rel refuses that. */
  lemma NamelessRootIsRefused(shares: seq<ShareACL>, peer: Peer, fs: FileSystem, virtual: string)
    requires Lexical(fs)
    ensures match Granted(shares, peer, virtual, true)
            case None => true
            case Some(acl) =>
              !SafeToWrite(acl, virtual) && Nameless(acl.path) ==> !ResolveWriteReal(shares, peer, fs, virtual).Ok?
  {
    var g := Granted(shares, peer, virtual, true);
    if g.Some? && !SafeToWrite(g.value, virtual) && Nameless(g.value.path) {
      var acl := g.value;
      var k := |Parse(acl.path).comps|;
      UnsafeRoot(acl, virtual);
      UpsAreNameless(k - 1);
      CleanIsCanonical(acl.path, acl.path);
      ParseNormal(acl.path);
      ParseRender(Parse(acl.path));
      var q := Render(Lex(false, Ups(k - 1)));
      assert EvalSymlinks(fs, q) == Ok(q) && EvalSymlinks(fs, acl.path) == Ok(Clean(acl.path));
      RelTestIsContainment(Clean(acl.path), q);
      WriteGoesThroughGrant(shares, peer, fs, virtual);
    }
  }

  /** With one ".." fewer for the root, root and parent resolve to the same directory. */
  lemma LinkedRootResolves(fs: FileSystem, acl: ShareACL, virtual: string)
    requires !SafeToWrite(acl, virtual) && Lexical(fs) && fs(acl.path) == Ok(Render(Parent(Parse(acl.path))))
    ensures var k := |Parse(acl.path).comps|;
            && k > 0 && Parse(acl.path) == Lex(false, Ups(k)) && Name(Target(acl, virtual)) == ".."
            && EvalSymlinks(fs, acl.path) == Ok(Render(Lex(false, Ups(k - 1))))
            && ResolvesInside(fs, acl.path, TargetDir(acl, virtual), Render(Lex(false, Ups(k - 1))))
  {
    var k := |Parse(acl.path).comps|;
    UnsafeRoot(acl, virtual);
    UpsAreNameless(k - 1);
    assert Ups(k)[..k - 1] == Ups(k - 1) && Ups(k)[k - 1] == "..";
    assert Contained(Lex(false, Ups(k - 1)), Lex(false, Ups(k - 1)));
  }

  /** If a link makes the root resolve to one ".." fewer, the alias itself is handed out as a path above it. */
  lemma UnsafeRootEscapes(shares: seq<ShareACL>, peer: Peer, fs: FileSystem, virtual: string, acl: ShareACL)
    requires Granted(shares, peer, virtual, true) == Some(acl) && !SafeToWrite(acl, virtual)
    requires Lexical(fs) && fs(acl.path) == Ok(Render(Parent(Parse(acl.path))))
    ensures ResolveWriteReal(shares, peer, fs, virtual) == Ok(Clean(acl.path))
    ensures !WriteContained(shares, peer, fs, virtual)
  {
    var k := |Parse(acl.path).comps|;
    LinkedRootResolves(fs, acl, virtual);
    ClimbsOut(k - 1);
    WriteExactlyBesideParent(shares, peer, fs, virtual, Clean(acl.path));
    UpsAreNameless(k - 1);
    UpsAreNameless(k);
  }

  /** All paths without names as they are, and the share's own path through a link. */
  function LinkedRoot(acl: ShareACL): FileSystem {
    (path: string) =>
      if path == acl.path then Ok(Render(Parent(Parse(acl.path))))
      else if Nameless(path) then Ok(Clean(path))
      else NotFound
  }

  lemma LinkedRootIsLexical(acl: ShareACL)
    requires !Nameless(acl.path)
    ensures Lexical(LinkedRoot(acl))
  {
    forall path | Nameless(path) ensures EvalSymlinks(LinkedRoot(acl), path) == Ok(Clean(path)) {
      CleanIsCanonical(path, path);
    }
  }

  lemma WalkCons(rooted: bool, acc: seq<string>, c: string, cs: seq<string>)
    ensures Walk(rooted, acc, [c] + cs) == Walk(rooted, Descend(rooted, acc, c), cs)
  {
    assert ([c] + cs)[1..] == cs;
  }

  /**
   Exactly when writing is safe whatever links the file system holds: when the client's
   path goes below the alias, or the configured path, cleaned, does not end in "..", or it
   has no ordinary name that could be a link.
   */
  lemma WritesStayInsideExactlyWhen(shares: seq<ShareACL>, peer: Peer, virtual: string)
    ensures (forall fs: FileSystem | Lexical(fs) :: WriteContained(shares, peer, fs, virtual)) <==>
              match Granted(shares, peer, virtual, true)
              case None => true
              case Some(acl) => SafeToWrite(acl, virtual) || Nameless(acl.path)
  {
    var g := Granted(shares, peer, virtual, true);
    if g.None? || SafeToWrite(g.value, virtual) || Nameless(g.value.path) {
      forall fs: FileSystem | Lexical(fs) ensures WriteContained(shares, peer, fs, virtual) {
        SafeWritesStayInside(shares, peer, fs, virtual);
        NamelessRootIsRefused(shares, peer, fs, virtual);
      }
    } else {
      LinkedRootIsLexical(g.value);
      UnsafeRootEscapes(shares, peer, LinkedRoot(g.value), virtual, g.value);
    }
  }

  const CLIMBING: string := "l/../../.."
  const CLIMBER: ShareACL := ShareACL("x", CLIMBING, false, true, [])

  lemma ClimbingStart()
    ensures Parse("l/..") == Lex(false, [])
  {
    PlainAlone("l");
    ParseName("l", "..");
    assert "l" + [SLASH] + ".." == "l/.." && ["l"][..0] == [];
  }

  lemma PlainAlone(name: string)
    requires Plain(name)
    ensures Parse(name) == Lex(false, [name])
  {
    SplitName(name);
    WalkCons(false, [], name, []);
    assert [name] + [] == [name] && [] + [name] == [name];
  }

  lemma ClimbingHalf()
    ensures Parse("l/../..") == Lex(false, [".."])
  {
    ClimbingStart();
    UpFirst("l/..");
    HalfSpelled();
  }

  lemma HalfSpelled()
    ensures "l/.." + [SLASH] + ".." == "l/../.."
  {
  }

  lemma UpFirst(a: string)
    requires a != "" && Parse(a) == Lex(false, [])
    ensures Parse(a + [SLASH] + "..") == Lex(false, [".."])
  {
    ParseName(a, "..");
    assert [] + [".."] == [".."];
  }

  lemma ClimbingRoot()
    ensures Parse(CLIMBING) == Lex(false, ["..", ".."])
  {
    ClimbingHalf();
    UpOnceMore("l/../..");
    ClimbingSpelled();
  }

  lemma UpOnceMore(a: string)
    requires a != "" && Parse(a) == Lex(false, [".."])
    ensures Parse(a + [SLASH] + "..") == Lex(false, ["..", ".."])
  {
    ParseName(a, "..");
    assert [".."] + [".."] == ["..", ".."];
  }

  lemma ClimbingSpelled()
    ensures "l/../.." + [SLASH] + ".." == CLIMBING
  {
  }

  lemma PlainVirtual(name: string)
    requires Plain(name)
    ensures VirtualNames([SLASH] + name) == [name]
  {
    assert ([SLASH] + name)[1..] == name;
    SplitLeading(name);
    SplitName(name);
    WalkCons(true, [], "", [name]);
    WalkCons(true, [], name, []);
    assert [name] + [] == [name] && [] + [name] == [name] && [""] + [name] == ["", name];
  }

  lemma ClimbingGrant(peer: Peer)
    ensures VirtualNames("/x") == ["x"] && Granted([CLIMBER], peer, "/x", true) == Some(CLIMBER)
  {
    PlainVirtual("x");
    assert [SLASH] + "x" == "/x";
    assert ShareIndex([CLIMBER], "x") == 0;
  }

  lemma HasName(head: string, tail: string)
    requires Plain(head)
    ensures !Nameless(head + [SLASH] + tail)
  {
    SplitCons(head, tail);
    assert Split(head + [SLASH] + tail)[0] == head;
  }

  lemma ClimbingHasName()
    ensures !Nameless(CLIMBING)
  {
    HasName("l", "../../..");
    LinkSpelled();
  }

  lemma LinkSpelled()
    ensures "l" + [SLASH] + "../../.." == CLIMBING
  {
  }

  lemma ClimbingRenders()
    ensures Clean(CLIMBING) == "../.." && Render(Parent(Parse(CLIMBING))) == ".."
  {
    ClimbingRoot();
    UpsSpelled();
    assert ["..", ".."][..1] == [".."];
  }

  /** The configuration is one of the unsafe ones. */
  lemma ClimbingUnsafe()
    ensures !SafeToWrite(CLIMBER, "/x") && !Nameless(CLIMBING)
  {
    ClimbingGrant(Peer("", ""));
    ClimbingRoot();
    ClimbingHasName();
  }

  lemma UpsSpelled()
    ensures Render(Lex(false, [".."])) == ".." && Render(Lex(false, ["..", ".."])) == "../.."
  {
    assert ["..", ".."][1..] == [".."] && Joined([".."]) == "..";
    assert ".." + [SLASH] + ".." == "../..";
  }

  /**
   In a directory with a link l -> a/b the share's path resolves to "..", not to the
   "../.." that cleaning it gives; writing to the alias is handed a path above the share.
   */
  lemma WriteCanEscape(peer: Peer)
    ensures Lexical(LinkedRoot(CLIMBER)) && EvalSymlinks(LinkedRoot(CLIMBER), CLIMBING) == Ok("..")
    ensures ResolveWriteReal([CLIMBER], peer, LinkedRoot(CLIMBER), "/x") == Ok("../..")
    ensures !WriteContained([CLIMBER], peer, LinkedRoot(CLIMBER), "/x")
  {
    ClimbingGrant(peer);
    ClimbingUnsafe();
    ClimbingRenders();
    LinkedRootIsLexical(CLIMBER);
    UnsafeRootEscapes([CLIMBER], peer, LinkedRoot(CLIMBER), "/x", CLIMBER);
    UpsAreNameless(1);
    assert Ups(1) == [".."];
    UpsSpelled();
  }

  lemma NotFoundComesFromTheFiles(fs: FileSystem, shareRoot: string, path: string)
    ensures ContainedReal(fs, shareRoot, path) == NotFound <==>
              fs(shareRoot) == NotFound || (fs(shareRoot).Ok? && fs(path) == NotFound)
  {
  }

  /**
   A peer without access learns nothing: it is refused whatever the file system holds and
   whether or not the alias exists. Only a peer with access can hear "not found".
   */
  lemma OutsidersLearnNothing(shares: seq<ShareACL>, peer: Peer, fs: FileSystem, virtual: string)
    ensures Granted(shares, peer, virtual, false).None? ==> ResolveReadReal(shares, peer, fs, virtual) == Refused
    ensures Granted(shares, peer, virtual, true).None? ==> ResolveWriteReal(shares, peer, fs, virtual) == Refused
    ensures ResolveReadReal(shares, peer, fs, virtual) == NotFound <==>
              match Granted(shares, peer, virtual, false)
              case None => false
              case Some(acl) =>
                fs(acl.path) == NotFound || (fs(acl.path).Ok? && fs(Render(Target(acl, virtual))) == NotFound)
  {
    ReadGoesThroughGrant(shares, peer, fs, virtual);
    WriteGoesThroughGrant(shares, peer, fs, virtual);
    var g := Granted(shares, peer, virtual, false);
    if g.Some? {
      NotFoundComesFromTheFiles(fs, g.value.path, Render(Target(g.value, virtual)));
    }
  }
}
