/**
 The agent's share configuration as it is edited in place (internal/agent/config/shares.go).
 A Go slice is an array and a length: appending reallocates when the array is full, and
 denying compacts the surviving tokens towards the front of the same array.
 */
module ShareConfigObject {
  import opened ShareAcl

  class ShareConfig {
    const alias: string
    const path: string
    const permissions: string
    var devices: array<Token>
    var count: nat

    ghost predicate Valid()
      reads this
    {
      count <= devices.Length
    }

    ghost function Contents(): seq<Token>
      reads this, devices
      requires Valid()
    {
      devices[..count]
    }

    ghost function View(): ShareView
      reads this, devices
      requires Valid()
    {
      ShareView(alias, path, permissions, Contents())
    }

    constructor (alias: string, path: string, permissions: string)
      ensures Valid() && fresh(devices) && View() == ShareView(alias, path, permissions, [])
    {
      this.alias, this.path, this.permissions := alias, path, permissions;
      devices := new Token[0];
      count := 0;
    }

    method Append(d: Token)
      requires Valid()
      modifies this, devices
      ensures Valid() && (devices == old(devices) || fresh(devices))
      ensures Contents() == old(Contents()) + [d]
    {
      if count == devices.Length {
        var bigger := new Token[2 * count + 1](_ => "");
        for i := 0 to count
          invariant bigger[..i] == old(Contents())[..i]
          invariant Valid() && devices == old(devices) && Contents() == old(Contents())
        {
          bigger[i] := devices[i];
        }
        devices := bigger;
      }
      devices[count] := d;
      count := count + 1;
    }

    method AllowDevices(requested: seq<Token>) returns (added: seq<Token>)
      requires Valid()
      modifies this, devices
      ensures Valid() && (devices == old(devices) || fresh(devices))
      ensures added == Added(Tokens(old(Contents())), requested)
      ensures Contents() == old(Contents()) + added
    {
      var present: set<Token> := {};
      for i := 0 to count
        invariant present == Tokens(Contents()[..i])
      {
        assert Contents()[..i + 1] == Contents()[..i] + [devices[i]];
        present := present + {devices[i]};
      }
      assert Contents()[..count] == Contents();
      ghost var had := present;
      added := [];
      for n := 0 to |requested|
        invariant Valid() && (devices == old(devices) || fresh(devices))
        invariant present == had + Tokens(requested[..n])
        invariant added == Added(had, requested[..n])
        invariant Contents() == old(Contents()) + added
      {
        var d := requested[n];
        assert requested[..n + 1] == requested[..n] + [d];
        AddedAppend(had, requested[..n], d);
        if d !in present {
          present := present + {d};
          Append(d);
          added := added + [d];
        }
      }
      assert requested[..|requested|] == requested;
    }

    /** Append to a slice that shares the array with what is still to be read. */
    method Put(k: nat, d: Token)
      requires Valid() && k < count
      modifies devices
      ensures devices[..k + 1] == old(devices[..k]) + [d]
      ensures forall j | k < j < devices.Length :: devices[j] == old(devices[j])
    {
      devices[k] := d;
    }

    /** The scan that compacts the array: `kept` elements are in place, the rest is still to be read. */
    method Compact(want: set<Token>) returns (removed: seq<Token>, found: set<Token>)
      requires Valid()
      modifies this`count, devices
      ensures Valid() && Contents() == Kept(old(Contents()), want)
      ensures removed == Dropped(old(Contents()), want) && found == Tokens(removed)
    {
      ghost var list := Contents();
      removed, found := [], {};
      var kept := 0;
      for i := 0 to count
        invariant kept <= i && count == old(count) && count <= devices.Length
        invariant devices[..kept] == Kept(list[..i], want)
        invariant forall j | i <= j < count :: devices[j] == list[j]
        invariant removed == Dropped(list[..i], want)
        invariant forall t :: t in found <==> t in removed
      {
        var d := devices[i];
        assert list[..i + 1] == list[..i] + [d];
        KeptAppend(list[..i], d, want);
        if d in want {
          removed, found := removed + [d], found + {d};
        } else {
          Put(kept, d);
          kept := kept + 1;
        }
      }
      assert list[..count] == list;
      count := kept;
    }

    /** The requested tokens not among the found ones, each once, in the order requested. */
    static method Missing(found: set<Token>, requested: seq<Token>) returns (notFound: seq<Token>)
      ensures notFound == Added(found, requested)
    {
      notFound := [];
      var seen: set<Token> := {};
      for n := 0 to |requested|
        invariant forall t :: t in found + seen <==> t in found || t in requested[..n]
        invariant notFound == Added(found, requested[..n])
      {
        var d := requested[n];
        assert requested[..n + 1] == requested[..n] + [d];
        AddedAppend(found, requested[..n], d);
        if d in found || d in seen {
          continue;
        }
        seen := seen + {d};
        notFound := notFound + [d];
      }
      assert requested[..|requested|] == requested;
    }

    method DenyDevices(requested: seq<Token>) returns (removed: seq<Token>, notFound: seq<Token>)
      requires Valid()
      modifies this`count, devices
      ensures Valid() && Contents() == Kept(old(Contents()), Tokens(requested))
      ensures removed == Dropped(old(Contents()), Tokens(requested))
      ensures notFound == Added(Tokens(old(Contents())), requested)
    {
      ghost var list := Contents();
      var want: set<Token> := set d | d in requested;
      assert want == Tokens(requested);
      var found;
      removed, found := Compact(want);
      notFound := Missing(found, requested);
      MissingIsWhatAllowAdds(list, requested);
    }
  }

  class Config {
    var shares: seq<ShareConfig>

    /** No two shares are one object or edit one array. */
    ghost predicate Valid()
      reads this, shares
    {
      && (forall i | 0 <= i < |shares| :: shares[i].Valid())
      && (forall i, j | 0 <= i < j < |shares| :: shares[i] != shares[j] && shares[i].devices != shares[j].devices)
    }

    ghost function Views(): seq<ShareView>
      requires Valid()
      reads this, shares, set i | 0 <= i < |shares| :: shares[i].devices
    {
      seq(|shares|, i requires 0 <= i < |shares| && Valid()
                      reads this, shares, set i | 0 <= i < |shares| :: shares[i].devices => shares[i].View())
    }

    /** The first share of that alias, or none. */
    ghost function IndexOf(alias: string): (i: nat)
      reads this
      ensures i <= |shares| && (i < |shares| ==> shares[i].alias == alias)
      ensures forall j | 0 <= j < i :: shares[j].alias != alias
    {
      FirstFrom(alias, 0)
    }

    ghost function FirstFrom(alias: string, k: nat): (i: nat)
      requires k <= |shares|
      reads this
      ensures k <= i <= |shares| && (i < |shares| ==> shares[i].alias == alias)
      ensures forall j | k <= j < i :: shares[j].alias != alias
      decreases |shares| - k
    {
      if k == |shares| || shares[k].alias == alias then k else FirstFrom(alias, k + 1)
    }

    method FindShare(alias: string) returns (i: nat)
      ensures i == IndexOf(alias)
    {
      i := 0;
      while i < |shares| && shares[i].alias != alias
        invariant i <= |shares| && forall j | 0 <= j < i :: shares[j].alias != alias
      {
        i := i + 1;
      }
    }

    /** Exactly the named share's list grows; an unknown alias changes nothing. */
    method AllowDevices(alias: string, requested: seq<Token>) returns (known: bool, added: seq<Token>)
      requires Valid()
      modifies shares, set i | 0 <= i < |shares| :: shares[i].devices
      ensures Valid() && (known <==> IndexOf(alias) < |shares|)
      ensures var i := IndexOf(alias);
              if known then
                && added == Added(Tokens(old(Views())[i].devices), requested)
                && Views() == old(Views())[i := old(Views())[i].(devices := old(Views())[i].devices + added)]
              else Views() == old(Views()) && added == []
    {
      var i := FindShare(alias);
      if i == |shares| {
        return false, [];
      }
      assert old(Views())[i] == old(shares[i].View());
      added := shares[i].AllowDevices(requested);
      known := true;
      assert forall j | 0 <= j < |shares| && j != i :: shares[j].View() == old(shares[j].View());
    }

    method DenyDevices(alias: string, requested: seq<Token>)
      returns (known: bool, removed: seq<Token>, notFound: seq<Token>)
      requires Valid()
      modifies shares, set i | 0 <= i < |shares| :: shares[i].devices
      ensures Valid() && (known <==> IndexOf(alias) < |shares|)
      ensures var i := IndexOf(alias);
              if known then
                var list := old(Views())[i].devices;
                && removed == Dropped(list, Tokens(requested)) && notFound == Added(Tokens(list), requested)
                && Views() == old(Views())[i := old(Views())[i].(devices := Kept(list, Tokens(requested)))]
              else Views() == old(Views()) && removed == [] && notFound == []
    {
      var i := FindShare(alias);
      if i == |shares| {
        return false, [], [];
      }
      assert old(Views())[i] == old(shares[i].View());
      removed, notFound := shares[i].DenyDevices(requested);
      known := true;
      assert forall j | 0 <= j < |shares| && j != i :: shares[j].View() == old(shares[j].View());
    }

    method AllowsAll(alias: string) returns (yes: bool)
      requires Valid()
      ensures yes <==> IndexOf(alias) < |shares| && ALL in shares[IndexOf(alias)].Contents()
    {
      var i := FindShare(alias);
      if i == |shares| {
        return false;
      }
      for n := 0 to shares[i].count
        invariant ALL !in shares[i].devices[..n]
      {
        if shares[i].devices[n] == ALL {
          return true;
        }
      }
      return false;
    }
  }
}
