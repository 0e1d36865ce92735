/**
 Go's lexical path operations on POSIX paths, as documented for path.Clean,
 filepath.Join, filepath.Rel, filepath.Dir and filepath.Base: strings are split at
 slashes, and a cleaned path is a rooted flag and a list of components.
 */
module PosixPath {
  import opened Options

  const SLASH: char := '/'

  predicate NoSlash(s: string) {
    forall i | 0 <= i < |s| :: s[i] != SLASH
  }

  /** The position of the first slash, or the length if there is none. */
  function IndexSlash(s: string): (i: nat)
    ensures i <= |s| && NoSlash(s[..i]) && (i < |s| ==> s[i] == SLASH)
  {
    if s == "" || s[0] == SLASH then 0
    else
      var i := IndexSlash(s[1..]);
      assert s[..i + 1] == [s[0]] + s[1..][..i];
      i + 1
  }

  function Split(s: string): (cs: seq<string>)
    ensures |cs| >= 1
    ensures forall i | 0 <= i < |cs| :: NoSlash(cs[i])
    decreases |s|
  {
    var i := IndexSlash(s);
    if i == |s| then [s[..i]] else [s[..i]] + Split(s[i + 1..])
  }

  function Joined(cs: seq<string>): string {
    if cs == [] then "" else if |cs| == 1 then cs[0] else cs[0] + [SLASH] + Joined(cs[1..])
  }

  /** A path reduced to what it names: rooted or not, and its components. */
  datatype Lex = Lex(rooted: bool, comps: seq<string>)

  /** One component applied to what precedes it. */
  function Descend(rooted: bool, acc: seq<string>, c: string): seq<string> {
    if c == "" || c == "." then acc
    else if c != ".." then acc + [c]
    else if acc != [] && acc[|acc| - 1] != ".." then acc[..|acc| - 1]
    else if rooted then acc
    else acc + [c]
  }

  function Walk(rooted: bool, acc: seq<string>, cs: seq<string>): seq<string>
    decreases |cs|
  {
    if cs == [] then acc else Walk(rooted, Descend(rooted, acc, cs[0]), cs[1..])
  }

  predicate Rooted(s: string) {
    s != "" && s[0] == SLASH
  }

  function Parse(s: string): Lex {
    Lex(Rooted(s), Walk(Rooted(s), [], Split(s)))
  }

  function Render(l: Lex): string {
    if l.rooted then [SLASH] + Joined(l.comps)
    else if l.comps == [] then "."
    else Joined(l.comps)
  }

  function Clean(s: string): string {
    Render(Parse(s))
  }

  /** An ordinary file name. */
  predicate Plain(c: string) {
    c != "" && c != "." && c != ".." && NoSlash(c)
  }

  predicate AllPlain(cs: seq<string>) {
    forall i | 0 <= i < |cs| :: Plain(cs[i])
  }

  /** The shape of a cleaned path: plain names, after any leading ".." of an unrooted one. */
  predicate Normal(l: Lex) {
    forall i | 0 <= i < |l.comps| ::
      Plain(l.comps[i]) || (!l.rooted && l.comps[i] == ".." && (i == 0 || l.comps[i - 1] == ".."))
  }

  // ---- Splitting and joining undo each other ----

  lemma IndexSlashFirst(a: string, b: string)
    requires NoSlash(a)
    ensures IndexSlash(a) == |a|
    ensures IndexSlash(a + [SLASH] + b) == |a|
  {
    if a != "" {
      IndexSlashFirst(a[1..], b);
      assert (a + [SLASH] + b)[1..] == a[1..] + [SLASH] + b;
    }
  }

  lemma SplitName(a: string)
    requires NoSlash(a)
    ensures Split(a) == [a]
  {
    IndexSlashFirst(a, "");
    assert a[..|a|] == a;
  }

  lemma SplitCons(a: string, b: string)
    requires NoSlash(a)
    ensures Split(a + [SLASH] + b) == [a] + Split(b)
  {
    IndexSlashFirst(a, b);
    var s := a + [SLASH] + b;
    assert s[..|a|] == a && s[|a| + 1..] == b;
  }

  lemma SplitConcatHead(head: string, tail: string, x: string, b: string)
    requires NoSlash(head) && Split(x) == Split(tail) + Split(b)
    ensures Split(head + [SLASH] + x) == Split(head + [SLASH] + tail) + Split(b)
  {
    SplitCons(head, tail);
    SplitCons(head, x);
    Consed(head, Split(tail), Split(b));
  }

  lemma Consed(c: string, a: seq<string>, b: seq<string>)
    ensures [c] + (a + b) == [c] + a + b
  {
  }

  lemma Reassociate(a: string, b: string, c: string, d: string)
    ensures a + b + (c + d) == a + b + c + d
  {
  }

  /** Splitting distributes over joining with a slash. */
  lemma {:induction false} SplitConcat(a: string, b: string)
    ensures Split(a + [SLASH] + b) == Split(a) + Split(b)
    decreases |a|
  {
    var i := IndexSlash(a);
    if i == |a| {
      assert a[..i] == a;
      SplitName(a);
      SplitCons(a, b);
    } else {
      var head, tail := a[..i], a[i + 1..];
      assert a == head + [SLASH] + tail;
      SplitConcat(tail, b);
      SplitConcatHead(head, tail, tail + [SLASH] + b, b);
      Reassociate(head, [SLASH], tail + [SLASH], b);
      Reassociate(head, [SLASH], tail, [SLASH]);
    }
  }

  lemma {:induction false} SplitJoined(cs: seq<string>)
    requires |cs| >= 1 && forall i | 0 <= i < |cs| :: NoSlash(cs[i])
    ensures Split(Joined(cs)) == cs
  {
    if |cs| == 1 {
      SplitName(cs[0]);
    } else {
      SplitJoined(cs[1..]);
      SplitCons(cs[0], Joined(cs[1..]));
    }
  }

  lemma {:induction false} JoinedSplit(s: string)
    ensures Joined(Split(s)) == s
    decreases |s|
  {
    var i := IndexSlash(s);
    if i == |s| {
      assert s[..i] == s;
    } else {
      JoinedSplit(s[i + 1..]);
      assert s == s[..i] + [SLASH] + s[i + 1..];
      assert ([s[..i]] + Split(s[i + 1..]))[1..] == Split(s[i + 1..]);
    }
  }

  // ---- Walking ----

  lemma {:induction false} WalkConcat(rooted: bool, acc: seq<string>, a: seq<string>, b: seq<string>)
    ensures Walk(rooted, acc, a + b) == Walk(rooted, Walk(rooted, acc, a), b)
    decreases |a|
  {
    if a == [] {
      assert a + b == b;
    } else {
      assert (a + b)[1..] == a[1..] + b;
      WalkConcat(rooted, Descend(rooted, acc, a[0]), a[1..], b);
    }
  }

  /** Plain names are simply appended. */
  lemma {:induction false} WalkPlain(rooted: bool, acc: seq<string>, cs: seq<string>)
    requires AllPlain(cs)
    ensures Walk(rooted, acc, cs) == acc + cs
    decreases |cs|
  {
    if cs == [] {
    } else {
      WalkPlain(rooted, acc + [cs[0]], cs[1..]);
      assert acc + [cs[0]] + cs[1..] == acc + cs;
    }
  }

  lemma {:induction false} WalkNormal(rooted: bool, acc: seq<string>, cs: seq<string>)
    requires Normal(Lex(rooted, acc)) && forall i | 0 <= i < |cs| :: NoSlash(cs[i])
    ensures Normal(Lex(rooted, Walk(rooted, acc, cs)))
    decreases |cs|
  {
    if cs != [] {
      var next := Descend(rooted, acc, cs[0]);
      assert Normal(Lex(rooted, next)) by {
        forall i | 0 <= i < |next|
          ensures Plain(next[i]) || (!rooted && next[i] == ".." && (i == 0 || next[i - 1] == ".."))
        {
          assert i < |acc| ==> next[i] == acc[i];
        }
      }
      WalkNormal(rooted, next, cs[1..]);
    }
  }

  /** Walking a normal path from nowhere gives that path back. */
  lemma {:induction false} WalkOver(l: Lex, n: nat)
    requires Normal(l) && n <= |l.comps|
    ensures Walk(l.rooted, [], l.comps[..n]) == l.comps[..n]
  {
    if n > 0 {
      WalkOver(l, n - 1);
      WalkConcat(l.rooted, [], l.comps[..n - 1], [l.comps[n - 1]]);
      assert l.comps[..n - 1] + [l.comps[n - 1]] == l.comps[..n];
    }
  }

  // ---- Clean ----

  lemma ParseNormal(s: string)
    ensures Normal(Parse(s))
  {
    WalkNormal(Rooted(s), [], Split(s));
  }

  lemma JoinedUnrooted(cs: seq<string>)
    requires cs != [] && cs[0] != "" && NoSlash(cs[0])
    ensures Joined(cs) != "" && !Rooted(Joined(cs))
  {
  }

  lemma SplitDots()
    ensures Split("/") == ["", ""] && Split(".") == ["."]
  {
    SplitCons("", "");
    SplitName("");
    SplitName(".");
    assert "" + [SLASH] + "" == "/";
  }

  /** A leading slash is an empty first component. */
  lemma SplitLeading(x: string)
    ensures Split([SLASH] + x) == [""] + Split(x)
  {
    var s := [SLASH] + x;
    assert s[..0] == "" && s[1..] == x;
  }

  lemma SplitRooted(cs: seq<string>)
    requires cs != [] && forall i | 0 <= i < |cs| :: NoSlash(cs[i])
    ensures Split([SLASH] + Joined(cs)) == [""] + cs
  {
    SplitJoined(cs);
    SplitLeading(Joined(cs));
  }

  lemma SplitRender(l: Lex)
    requires Normal(l)
    ensures Split(Render(l)) ==
              if l.comps == [] then (if l.rooted then ["", ""] else ["."])
              else if l.rooted then [""] + l.comps else l.comps
    ensures Rooted(Render(l)) == l.rooted
  {
    if l.comps == [] {
      SplitDots();
      assert [SLASH] + Joined([]) == "/";
    } else if l.rooted {
      SplitRooted(l.comps);
    } else {
      SplitJoined(l.comps);
      JoinedUnrooted(l.comps);
    }
  }

  /** Empty components lead nowhere. */
  lemma WalkEmptyFirst(rooted: bool, cs: seq<string>)
    ensures Walk(rooted, [], [""] + cs) == Walk(rooted, [], cs)
  {
    assert ([""] + cs)[1..] == cs;
  }

  /** Rendering and parsing a cleaned path changes nothing. */
  lemma ParseRender(l: Lex)
    requires Normal(l)
    ensures Parse(Render(l)) == l
  {
    SplitRender(l);
    assert l.comps[..|l.comps|] == l.comps;
    WalkOver(l, |l.comps|);
    WalkEmptyFirst(l.rooted, l.comps);
    WalkEmptyFirst(l.rooted, [""]);
  }

  /** Clean is idempotent, and equal results mean equal paths. */
  lemma CleanIsCanonical(s: string, t: string)
    ensures Clean(Clean(s)) == Clean(s)
    ensures Clean(s) == Clean(t) <==> Parse(s) == Parse(t)
  {
    ParseNormal(s);
    ParseNormal(t);
    ParseRender(Parse(s));
    ParseRender(Parse(t));
  }

  /**
   The rules by which path.Clean is documented: several slashes count as one, "." adds
   nothing, a name and the ".." after it cancel, and ".." does not lead above "/".
   */
  lemma CleanFollowsItsRules(a: string, b: string, name: string)
    requires a != "" && Plain(name)
    ensures Clean(a + [SLASH] + [SLASH] + b) == Clean(a + [SLASH] + b)
    ensures Clean(a + [SLASH] + "." + [SLASH] + b) == Clean(a + [SLASH] + b)
    ensures Clean(a + [SLASH] + name + [SLASH] + ".." + [SLASH] + b) == Clean(a + [SLASH] + b)
    ensures Clean("/.." + [SLASH] + b) == Clean("/" + b)
    ensures Clean("") == "."
  {
    Skips(a, "", b);
    assert a + [SLASH] + "" == a + [SLASH];
    Skips(a, ".", b);
    SkipsBack(a, name, b);
    SkipsAtRoot(b);
    SplitName("");
  }

  lemma ParseBelow(a: string, b: string)
    requires a != ""
    ensures Parse(a + [SLASH] + b) == Lex(Rooted(a), Walk(Rooted(a), Parse(a).comps, Split(b)))
  {
    SplitConcat(a, b);
    WalkConcat(Rooted(a), [], Split(a), Split(b));
  }

  /** One more name on the way down. */
  lemma ParseName(a: string, c: string)
    requires a != "" && NoSlash(c)
    ensures Parse(a + [SLASH] + c) == Lex(Rooted(a), Descend(Rooted(a), Parse(a).comps, c))
  {
    ParseBelow(a, c);
    SplitName(c);
    assert [c][1..] == [];
  }

  lemma Skips(a: string, c: string, b: string)
    requires a != "" && (c == "" || c == ".")
    ensures Parse(a + [SLASH] + c + [SLASH] + b) == Parse(a + [SLASH] + b)
  {
    ParseName(a, c);
    ParseBelow(a + [SLASH] + c, b);
    ParseBelow(a, b);
  }

  lemma SkipsBack(a: string, name: string, b: string)
    requires a != "" && Plain(name)
    ensures Parse(a + [SLASH] + name + [SLASH] + ".." + [SLASH] + b) == Parse(a + [SLASH] + b)
  {
    var acc := Parse(a).comps;
    ParseName(a, name);
    ParseName(a + [SLASH] + name, "..");
    assert (acc + [name])[..|acc|] == acc;
    ParseBelow(a + [SLASH] + name + [SLASH] + "..", b);
    ParseBelow(a, b);
  }

  lemma SkipsAtRoot(b: string)
    ensures Parse("/.." + [SLASH] + b) == Parse("/" + b)
  {
    SplitLeading("..");
    SplitName("..");
    assert [SLASH] + ".." == "/.." && ["", ".."][1..] == [".."];
    assert Walk(true, [], ["", ".."]) == Walk(true, [], [".."]) == [];
    ParseBelow("/..", b);
    SplitLeading(b);
    WalkEmptyFirst(true, Split(b));
  }

  // ---- Join, Dir, Base ----

  /** filepath.Join of two elements: empty ones are ignored. */
  function Join(a: string, b: string): string {
    if a == "" && b == "" then ""
    else if b == "" then Clean(a)
    else if a == "" then Clean(b)
    else Clean(a + [SLASH] + b)
  }

  /** Joining means walking on from where the first path leads. */
  lemma JoinWalks(a: string, b: string)
    requires a != ""
    ensures Parse(Join(a, b)) == Lex(Rooted(a), Walk(Rooted(a), Parse(a).comps, Split(b)))
    ensures Join(a, b) == Render(Parse(Join(a, b)))
  {
    var s := if b == "" then a else a + [SLASH] + b;
    if b == "" {
      SplitName("");
    } else {
      SplitConcat(a, b);
      WalkConcat(Rooted(a), [], Split(a), Split(b));
    }
    ParseNormal(s);
    ParseRender(Parse(s));
  }

  /** filepath.Dir: everything before the last component, cleaned; a lone name is in ".". */
  function Dir(s: string): string {
    var cs := Split(s);
    if |cs| == 1 then "." else Clean(Joined(cs[..|cs| - 1]) + [SLASH])
  }

  /** The last of the components that is not empty, as when trailing slashes are stripped. */
  function LastName(cs: seq<string>): string {
    if cs == [] then "/"
    else if cs[|cs| - 1] != "" then cs[|cs| - 1]
    else LastName(cs[..|cs| - 1])
  }

  /** filepath.Base. */
  function Base(s: string): string {
    if s == "" then "." else LastName(Split(s))
  }

  function Parent(l: Lex): Lex {
    if l.comps == [] then l else Lex(l.rooted, l.comps[..|l.comps| - 1])
  }

  function Name(l: Lex): string {
    if l.comps != [] then l.comps[|l.comps| - 1] else if l.rooted then "/" else "."
  }

  /** A trailing slash adds nothing. */
  lemma ParseSlash(a: string)
    requires a != ""
    ensures Parse(a + [SLASH]) == Parse(a)
  {
    SplitConcat(a, "");
    SplitName("");
    assert a + [SLASH] + "" == a + [SLASH];
    WalkConcat(Rooted(a), [], Split(a), [""]);
  }

  lemma DirOfNameless(l: Lex)
    requires l.comps == []
    ensures Base(Render(l)) == Name(l)
    ensures Parse(Dir(Render(l))) == Parent(l)
  {
    SplitRender(l);
    ParseRender(l);
    CleanIsCanonical(Render(l), Render(l));
    if l.rooted {
      assert Render(l) == "/" && ["", ""][..1] == [""];
      assert LastName([""]) == "/";
      assert Joined([""]) + [SLASH] == "/";
    } else {
      assert Render(l) == ".";
    }
  }

  lemma BaseOfNamed(l: Lex)
    requires Normal(l) && l.comps != []
    ensures Base(Render(l)) == Name(l)
  {
    SplitRender(l);
    assert Split(Render(l))[|Split(Render(l))| - 1] == Name(l);
    JoinedUnrooted(l.comps);
  }

  /** What is left in front of the last name, if it has names itself. */
  lemma FrontIsParent(l: Lex)
    requires Normal(l) && |l.comps| > 1
    ensures var cs := Split(Render(l)); |cs| > 1 && Joined(cs[..|cs| - 1]) == Render(Parent(l))
  {
    SplitRender(l);
    var up := Parent(l);
    assert Normal(up);
    SplitRender(up);
    if l.rooted {
      DropsLast("", l.comps);
    }
    JoinedSplit(Render(up));
  }

  lemma DropsLast(c: string, cs: seq<string>)
    requires cs != []
    ensures ([c] + cs)[..|cs|] == [c] + cs[..|cs| - 1]
  {
  }

  lemma DirOfMany(l: Lex)
    requires Normal(l) && |l.comps| > 1
    ensures Parse(Dir(Render(l))) == Parent(l)
  {
    var up := Parent(l);
    assert Normal(up);
    FrontIsParent(l);
    ParseRender(up);
    NotEmpty(up);
    ParseSlash(Render(up));
    CleanIsCanonical(Render(up) + [SLASH], Render(up));
  }

  lemma NotEmpty(l: Lex)
    requires Normal(l)
    ensures Render(l) != ""
  {
    if !l.rooted && l.comps != [] {
      JoinedUnrooted(l.comps);
    }
  }

  lemma DirOfNamed(l: Lex)
    requires Normal(l) && l.comps != []
    ensures Parse(Dir(Render(l))) == Parent(l)
  {
    if |l.comps| > 1 {
      DirOfMany(l);
    } else {
      DirOfSingle(l);
    }
  }

  lemma DirOfSingle(l: Lex)
    requires Normal(l) && |l.comps| == 1
    ensures Parse(Dir(Render(l))) == Lex(l.rooted, [])
  {
    SplitRender(l);
    var up := Lex(l.rooted, []);
    ParseRender(up);
    var cs := Split(Render(l));
    if l.rooted {
      assert cs[..1] == [""] && Joined([""]) + [SLASH] == "/" == Render(up);
    } else {
      assert |cs| == 1 && Render(up) == ".";
    }
  }

  /** On a cleaned path, Base is the last component and Dir is all the others. */
  lemma DirAndBase(l: Lex)
    requires Normal(l)
    ensures Base(Render(l)) == Name(l)
    ensures Parse(Dir(Render(l))) == Parent(l)
  {
    if l.comps == [] {
      DirOfNameless(l);
    } else {
      BaseOfNamed(l);
      DirOfNamed(l);
    }
  }

  // ---- Rel ----

  /** How many leading components two paths share. */
  function Common(a: seq<string>, b: seq<string>): nat {
    if a != [] && b != [] && a[0] == b[0] then 1 + Common(a[1..], b[1..]) else 0
  }

  lemma {:induction false} CommonIsPrefix(a: seq<string>, b: seq<string>)
    ensures var n := Common(a, b); n <= |a| && n <= |b| && a[..n] == b[..n]
    ensures Common(a, b) == |a| <==> a <= b
  {
    if a != [] && b != [] && a[0] == b[0] {
      CommonIsPrefix(a[1..], b[1..]);
      PrefixCons(a, b, Common(a[1..], b[1..]));
    }
  }

  /** Prefixes of the tails, under a common first element. */
  lemma PrefixCons(a: seq<string>, b: seq<string>, n: nat)
    requires a != [] && b != [] && a[0] == b[0] && n < |a| && n < |b| && a[1..][..n] == b[1..][..n]
    ensures a[..n + 1] == b[..n + 1]
    ensures a <= b <==> a[1..] <= b[1..]
  {
    assert a == [a[0]] + a[1..] && b == [b[0]] + b[1..];
    assert a[..n + 1] == [a[0]] + a[1..][..n] && b[..n + 1] == [b[0]] + b[1..][..n];
    if a <= b {
      assert a[1..] == b[..|a|][1..] == b[1..][..|a| - 1];
    }
    if a[1..] <= b[1..] {
      assert b[..|a|] == [b[0]] + b[1..][..|a| - 1];
    }
  }

  function Ups(n: nat): seq<string> {
    seq(n, i => "..")
  }

  /** filepath.Rel, lexically: up from what is left of `base`, then down what is left of `targ`. */
  function Rel(base: string, targ: string): Option<string> {
    var b, t := Parse(base), Parse(targ);
    if b == t then Some(".")
    else if b.rooted != t.rooted then None
    else
      var n := Common(b.comps, t.comps);
      CommonIsPrefix(b.comps, t.comps);
      if n < |b.comps| && b.comps[n] == ".." then None
      else Some(Joined(Ups(|b.comps| - n) + t.comps[n..]))
  }

  /** The containment test of sharesacl.go, on the string that Rel returns. */
  predicate Escapes(rel: Option<string>) {
    rel.None? || rel.value == ".." || "../" <= rel.value
  }

  /** `t` is `b` or lies below it. */
  predicate Contained(b: Lex, t: Lex) {
    && b.rooted == t.rooted && b.comps <= t.comps
    && (|b.comps| < |t.comps| ==> t.comps[|b.comps|] != "..")
  }

  /** The string test looks at the whole first component and nothing less. */
  lemma EscapesByFirstName(cs: seq<string>)
    requires cs != [] && NoSlash(cs[0])
    ensures Escapes(Some(Joined(cs))) <==> cs[0] == ".."
  {
    var s, k := Joined(cs), |cs[0]|;
    assert forall i | 0 <= i < k :: s[i] == cs[0][i] != SLASH;
    assert |cs| > 1 ==> s[k] == SLASH;
    assert "../"[2] == SLASH && "../"[..2] == "..";
    if cs[0] == ".." {
      assert |cs| > 1 ==> s[..3] == "../";
    }
    if Escapes(Some(s)) {
      assert s[..2] == ".." && k <= 2;
      assert s[..k] == cs[0];
    }
  }

  /**
   The Rel test accepts a path exactly when its components extend the root's, whatever
   the two paths are; a name that merely begins with ".." is accepted.
   */
  lemma RelTestIsContainment(base: string, targ: string)
    ensures !Escapes(Rel(base, targ)) <==> Contained(Parse(base), Parse(targ))
  {
    var b, t := Parse(base), Parse(targ);
    ParseNormal(base);
    ParseNormal(targ);
    CommonIsPrefix(b.comps, t.comps);
    if b != t && b.rooted == t.rooted {
      var n := Common(b.comps, t.comps);
      if !(n < |b.comps| && b.comps[n] == "..") {
        var cs := Ups(|b.comps| - n) + t.comps[n..];
        assert n == |b.comps| ==> cs == t.comps[n..];
        assert cs != [];
        EscapesByFirstName(cs);
      }
    }
  }

  /** For absolute paths that is a prefix test on components. */
  lemma RelTestOnAbsolutePaths(base: string, targ: string)
    requires Rooted(base) && Rooted(targ)
    ensures !Escapes(Rel(base, targ)) <==> Parse(base).comps <= Parse(targ).comps
  {
    RelTestIsContainment(base, targ);
    ParseNormal(targ);
  }
}
