/**
 Who may use a share: the edits of a share's device list (internal/agent/config/shares.go)
 as functions on the list, its flattening into an access list and the decision made on
 that (internal/agent/sharesacl.go), and what an edit means for the decision.
 */
module ShareAcl {

  type Token = string

  const ALL: Token := "all"

  datatype ShareView = ShareView(alias: string, path: string, permissions: string, devices: seq<Token>)

  datatype ShareACL = ShareACL(alias: string, path: string, readOnly: bool, allowAll: bool, devices: seq<Token>)

  datatype AccessDecision = AccessDecision(allow: bool, readOnly: bool)

  const REFUSED: AccessDecision := AccessDecision(false, false)

  // ---- The list, before and after an edit ----

  function Tokens(list: seq<Token>): set<Token> {
    set d | d in list
  }

  /** What Allow appends: the first occurrence of every token not yet present. */
  function Added(present: set<Token>, devices: seq<Token>): seq<Token>
    decreases |devices|
  {
    if devices == [] then []
    else if devices[0] in present then Added(present, devices[1..])
    else [devices[0]] + Added(present + {devices[0]}, devices[1..])
  }

  function Kept(list: seq<Token>, want: set<Token>): seq<Token> {
    if list == [] then []
    else (if list[0] in want then [] else [list[0]]) + Kept(list[1..], want)
  }

  function Dropped(list: seq<Token>, want: set<Token>): seq<Token> {
    if list == [] then []
    else (if list[0] in want then [list[0]] else []) + Dropped(list[1..], want)
  }

  /** `list` is `a` and `b` shuffled together, each in its own order. */
  ghost predicate Interleaves(list: seq<Token>, a: seq<Token>, b: seq<Token>) {
    if list == [] then a == [] && b == []
    else
      || (a != [] && a[0] == list[0] && Interleaves(list[1..], a[1..], b))
      || (b != [] && b[0] == list[0] && Interleaves(list[1..], a, b[1..]))
  }

  lemma {:induction false} KeptAppend(list: seq<Token>, d: Token, want: set<Token>)
    ensures Kept(list + [d], want) == Kept(list, want) + (if d in want then [] else [d])
    ensures Dropped(list + [d], want) == Dropped(list, want) + (if d in want then [d] else [])
  {
    if list != [] {
      KeptAppend(list[1..], d, want);
      assert (list + [d])[1..] == list[1..] + [d];
    }
  }

  lemma {:induction false} AddedAppend(present: set<Token>, devices: seq<Token>, d: Token)
    ensures Added(present, devices + [d]) ==
              Added(present, devices) + (if d in present || d in devices then [] else [d])
    decreases |devices|
  {
    if devices == [] {
    } else {
      assert (devices + [d])[1..] == devices[1..] + [d];
      var present' := if devices[0] in present then present else present + {devices[0]};
      AddedAppend(present', devices[1..], d);
    }
  }

  lemma {:induction false} KeptMembers(list: seq<Token>, want: set<Token>, d: Token)
    ensures d in Kept(list, want) <==> d in list && d !in want
    ensures d in Dropped(list, want) <==> d in list && d in want
  {
    if list != [] {
      KeptMembers(list[1..], want, d);
    }
  }

  /** Denying splits the list in two, in order: no requested token stays and no other one goes. */
  lemma {:induction false} DenyPartitions(list: seq<Token>, want: set<Token>)
    ensures Interleaves(list, Kept(list, want), Dropped(list, want))
    ensures forall d | d in Kept(list, want) :: d !in want
    ensures forall d | d in Dropped(list, want) :: d in want
  {
    if list != [] {
      var k, d := Kept(list[1..], want), Dropped(list[1..], want);
      DenyPartitions(list[1..], want);
      assert ([list[0]] + k)[1..] == k && ([list[0]] + d)[1..] == d;
      assert [] + k == k && [] + d == d;
    }
  }

  /** Counted with multiplicity, nothing is lost or made up. */
  lemma {:induction false} DenyConserves(list: seq<Token>, want: set<Token>)
    ensures multiset(Kept(list, want)) + multiset(Dropped(list, want)) == multiset(list)
  {
    if list != [] {
      DenyConserves(list[1..], want);
      assert list == [list[0]] + list[1..];
    }
  }

  /** Allowing adds what is missing and nothing else, each token once. */
  lemma {:induction false} AllowAddsTheMissing(present: set<Token>, devices: seq<Token>)
    ensures forall d :: d in Added(present, devices) <==> d in devices && d !in present
    ensures forall i, j | 0 <= i < j < |Added(present, devices)| ::
              Added(present, devices)[i] != Added(present, devices)[j]
    decreases |devices|
  {
    if devices != [] {
      var present' := if devices[0] in present then present else present + {devices[0]};
      AllowAddsTheMissing(present', devices[1..]);
    }
  }

  lemma {:induction false} KeptConcat(a: seq<Token>, b: seq<Token>, want: set<Token>)
    ensures Kept(a + b, want) == Kept(a, want) + Kept(b, want)
  {
    if b == [] {
      assert a + b == a;
    } else {
      var front, d := b[..|b| - 1], b[|b| - 1];
      assert b == front + [d] && a + b == (a + front) + [d];
      KeptConcat(a, front, want);
      KeptAppend(a + front, d, want);
      KeptAppend(front, d, want);
    }
  }

  lemma {:induction false} KeptAllOrNone(list: seq<Token>, want: set<Token>)
    ensures (forall d | d in list :: d !in want) ==> Kept(list, want) == list
    ensures (forall d | d in list :: d in want) ==> Kept(list, want) == []
  {
    if list != [] {
      KeptAllOrNone(list[1..], want);
    }
  }

  /** Denying exactly the tokens an Allow added restores the list, element for element. */
  lemma AllowThenDenyRestores(list: seq<Token>, devices: seq<Token>)
    ensures var added := Added(Tokens(list), devices);
            Kept(list + added, Tokens(added)) == list
  {
    var added := Added(Tokens(list), devices);
    AllowAddsTheMissing(Tokens(list), devices);
    KeptConcat(list, added, Tokens(added));
    KeptAllOrNone(list, Tokens(added));
    KeptAllOrNone(added, Tokens(added));
  }

  /** The tokens Deny reports missing are the ones that Allow would then have to add. */
  lemma MissingIsWhatAllowAdds(list: seq<Token>, devices: seq<Token>)
    ensures Added(Tokens(list), devices) == Added(Tokens(Dropped(list, Tokens(devices))), devices)
  {
    forall d | d in devices ensures d in Tokens(list) <==> d in Tokens(Dropped(list, Tokens(devices))) {
      KeptMembers(list, Tokens(devices), d);
    }
    AddedLooksOnlyAtRequested(Tokens(list), Tokens(Dropped(list, Tokens(devices))), devices);
  }

  lemma {:induction false} AddedLooksOnlyAtRequested(p: set<Token>, q: set<Token>, devices: seq<Token>)
    requires forall d | d in devices :: d in p <==> d in q
    ensures Added(p, devices) == Added(q, devices)
    decreases |devices|
  {
    if devices != [] {
      if devices[0] in p {
        AddedLooksOnlyAtRequested(p, q, devices[1..]);
      } else {
        AddedLooksOnlyAtRequested(p + {devices[0]}, q + {devices[0]}, devices[1..]);
      }
    }
  }

  // ---- The flattened list and the decision ----

  function Flattened(s: ShareView): ShareACL {
    ShareACL(s.alias, s.path, s.permissions != "rw", ALL in s.devices, Kept(s.devices, {ALL}))
  }

  method ShareACLsFromConfig(shares: seq<ShareView>) returns (out: seq<ShareACL>)
    ensures |out| == |shares| && forall i | 0 <= i < |shares| :: out[i] == Flattened(shares[i])
    ensures forall i | 0 <= i < |shares| ::
              && out[i].alias == shares[i].alias && out[i].path == shares[i].path
              && (out[i].readOnly <==> shares[i].permissions != "rw")
              && (out[i].allowAll <==> "all" in shares[i].devices)
              && (forall d :: d in out[i].devices <==> d in shares[i].devices && d != "all")
  {
    forall i, d | 0 <= i < |shares|
      ensures d in Kept(shares[i].devices, {ALL}) <==> d in shares[i].devices && d != ALL
    {
      KeptMembers(shares[i].devices, {ALL}, d);
    }
    out := [];
    for k := 0 to |shares|
      invariant |out| == k && forall i | 0 <= i < k :: out[i] == Flattened(shares[i])
    {
      var s := shares[k];
      var acl := ShareACL(s.alias, s.path, s.permissions != "rw", false, []);
      for n := 0 to |s.devices|
        invariant acl == ShareACL(s.alias, s.path, s.permissions != "rw",
                                  ALL in s.devices[..n], Kept(s.devices[..n], {ALL}))
      {
        var tok := s.devices[n];
        assert s.devices[..n + 1] == s.devices[..n] + [tok];
        KeptAppend(s.devices[..n], tok, {ALL});
        if tok == ALL {
          acl := acl.(allowAll := true);
        } else {
          acl := acl.(devices := acl.devices + [tok]);
        }
      }
      assert s.devices[..|s.devices|] == s.devices;
      out := out + [acl];
    }
  }

  /** The peer is named by its device id or, where known, by its nickname; "" stands for unknown. */
  predicate Names(list: seq<Token>, id: Token, nickname: Token) {
    id in list || (nickname != "" && nickname in list)
  }

  function Decision(acl: ShareACL, id: Token, nickname: Token): AccessDecision {
    if acl.allowAll || Names(acl.devices, id, nickname) then AccessDecision(true, acl.readOnly) else REFUSED
  }

  method Decide(acl: ShareACL, id: Token, nickname: Token) returns (d: AccessDecision)
    ensures d == Decision(acl, id, nickname)
    ensures d.allow <==> acl.allowAll || id in acl.devices || (nickname != "" && nickname in acl.devices)
    ensures d.readOnly == (d.allow && acl.readOnly)
  {
    if acl.allowAll {
      return AccessDecision(true, acl.readOnly);
    }
    if |acl.devices| == 0 {
      return REFUSED;
    }
    for n := 0 to |acl.devices|
      invariant !Names(acl.devices[..n], id, nickname)
    {
      var tok := acl.devices[n];
      assert acl.devices[..n + 1] == acl.devices[..n] + [tok];
      if tok == id || (nickname != "" && tok == nickname) {
        return AccessDecision(true, acl.readOnly);
      }
    }
    assert acl.devices[..|acl.devices|] == acl.devices;
    return REFUSED;
  }

  // ---- What an edit means ----

  /** The decision, straight from the configured list. A peer calling itself "all" gains nothing by it. */
  lemma DecisionFromConfig(s: ShareView, id: Token, nickname: Token)
    ensures Flattened(s).alias == s.alias && Flattened(s).path == s.path
    ensures !Decision(Flattened(s), id, nickname).allow ==> !Decision(Flattened(s), id, nickname).readOnly
    ensures Decision(Flattened(s), id, nickname).allow <==> ALL in s.devices || Names(s.devices, id, nickname)
    ensures Decision(Flattened(s), id, nickname).allow ==>
              (Decision(Flattened(s), id, nickname).readOnly <==> s.permissions != "rw")
  {
    KeptMembers(s.devices, {ALL}, id);
    KeptMembers(s.devices, {ALL}, nickname);
  }

  /**
   Once a peer's id and nickname have been denied, it is refused if and only if the list
   does not open the share to everyone.
   */
  lemma DeniedPeerIsRefused(s: ShareView, want: set<Token>, id: Token, nickname: Token)
    requires id in want && (nickname != "" ==> nickname in want)
    ensures var s' := s.(devices := Kept(s.devices, want));
            Decision(Flattened(s'), id, nickname).allow <==> ALL in s.devices && ALL !in want
  {
    var s' := s.(devices := Kept(s.devices, want));
    DecisionFromConfig(s', id, nickname);
    KeptMembers(s.devices, want, id);
    KeptMembers(s.devices, want, nickname);
    KeptMembers(s.devices, want, ALL);
  }

  /** After an Allow a peer is let in exactly if it was before, or a requested token names it or everyone. */
  lemma AllowedPeerIsAdmitted(s: ShareView, devices: seq<Token>, id: Token, nickname: Token)
    ensures var s' := s.(devices := s.devices + Added(Tokens(s.devices), devices));
            Decision(Flattened(s'), id, nickname).allow <==>
              || Decision(Flattened(s), id, nickname).allow
              || ALL in devices || Names(devices, id, nickname)
  {
    DecisionFromConfig(s, id, nickname);
    DecisionFromConfig(s.(devices := s.devices + Added(Tokens(s.devices), devices)), id, nickname);
    AllowAddsTheMissing(Tokens(s.devices), devices);
  }

  /** Denying tokens that do not name a peer leaves the decision on that peer as it was. */
  lemma DenySparesOthers(s: ShareView, want: set<Token>, id: Token, nickname: Token)
    requires ALL !in want && id !in want && (nickname != "" ==> nickname !in want)
    ensures Decision(Flattened(s.(devices := Kept(s.devices, want))), id, nickname) ==
              Decision(Flattened(s), id, nickname)
  {
    var s' := s.(devices := Kept(s.devices, want));
    DecisionFromConfig(s, id, nickname);
    DecisionFromConfig(s', id, nickname);
    KeptMembers(s.devices, want, id);
    KeptMembers(s.devices, want, nickname);
    KeptMembers(s.devices, want, ALL);
  }
}
