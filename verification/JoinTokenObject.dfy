/**
 The join-token table and its two users as they are written (internal/hub/store/sqlite.go,
 internal/hub/join_token.go): one mutable table, its statements proved to be the steps
 that JoinTokens interleaves, and the error that an uninterrupted claim reports.
 */
module JoinTokenObject {
  import opened Options
  import opened JoinTokens

  class TokenStore {
    /** expires_at by token. */
    var rows: map<Code, int>
    ghost var ids: map<Code, nat>
    ghost var tickets: seq<Ticket>

    ghost function View(): Tokens
      reads this
    {
      Tokens(ids, tickets)
    }

    ghost predicate Valid()
      reads this
    {
      && TicketsOk(View()) && rows.Keys == ids.Keys
      && forall code | code in rows :: rows[code] == tickets[ids[code]].expires
    }

    constructor ()
      ensures Valid() && View() == Tokens(map[], [])
    {
      rows, ids, tickets := map[], map[], [];
    }

    /** Fails without effect if the code is taken. */
    method CreateJoinToken(code: Code, expires: int) returns (created: bool)
      requires Valid()
      modifies this
      ensures Valid() && View() == Issued(old(View()), code, expires)
      ensures created <==> code !in old(rows)
      ensures rows == if created then old(rows)[code := expires] else old(rows)
    {
      created := code !in rows;
      if created {
        rows := rows[code := expires];
        ids := ids[code := |tickets|];
        tickets := tickets + [Ticket(code, expires)];
      }
    }

    method GetJoinToken(code: Code) returns (expires: Option<int>)
      requires Valid()
      ensures expires == if code in View().pending then Some(Expiry(View(), code)) else None
      ensures expires == if code in rows then Some(rows[code]) else None
    {
      expires := if code in rows then Some(rows[code]) else None;
    }

    /** One DELETE; reports whether it removed a row. */
    method ClaimJoinToken(code: Code, now: int) returns (claimed: bool)
      requires Valid()
      modifies this`rows, this`ids
      ensures Valid() && View() == Claimed(old(View()), code, now)
      ensures claimed <==> code in old(rows) && old(rows)[code] > now
      ensures rows == if claimed then old(rows) - {code} else old(rows)
      ensures claimed <==> |View().pending| < |old(View()).pending|
    {
      claimed := code in rows && rows[code] > now;
      if claimed {
        assert ids == (ids - {code})[code := ids[code]];
        rows := rows - {code};
        ids := ids - {code};
      }
    }

    method DeleteExpiredJoinTokens(now: int)
      requires Valid()
      modifies this`rows, this`ids
      ensures Valid() && View() == Swept(old(View()), now)
      ensures forall code :: code in rows <==> code in old(rows) && old(rows)[code] >= now
      ensures forall code | code in rows :: rows[code] == old(rows)[code]
    {
      ghost var gone := ExpiredCodes(View(), now);
      rows := map code | code in rows && rows[code] >= now :: rows[code];
      ids := ids - gone;
    }
  }

  class Registry {
    const store: TokenStore
    const ttl: int

    constructor (store: TokenStore, configured: int)
      ensures this.store == store && ttl == Ttl(configured)
      ensures configured == 0 ==> ttl == 600000
      ensures configured != 0 ==> ttl == configured
    {
      this.store := store;
      ttl := Ttl(configured);
    }

    method IssueJoinToken(code: Code, now: int) returns (expires: Option<int>)
      requires store.Valid()
      modifies store
      ensures store.Valid() && store.View() == Issued(old(store.View()), code, now + ttl)
      ensures expires == if code in old(store.rows) then None else Some(now + ttl)
      ensures store.rows == if expires.Some? then old(store.rows)[code := now + ttl] else old(store.rows)
    {
      var created := store.CreateJoinToken(code, now + ttl);
      expires := if created then Some(now + ttl) else None;
    }

    /**
     With nothing in between: a token is claimed exactly if it is there and unexpired at the
     first reading of the clock; "expired" is reported for one that is there and past its
     time at the second reading, "invalid" for everything else, and then nothing changes.
     */
    method ConsumeJoinToken(code: Code, now: int, later: int) returns (err: Option<Result>)
      requires store.Valid()
      modifies store`rows, store`ids
      ensures store.Valid()
      ensures err.None? <==> code != "" && code in old(store.rows) && old(store.rows)[code] > now
      ensures store.rows == if err.None? then old(store.rows) - {code} else old(store.rows)
      ensures store.View() == if err.None? then Claimed(old(store.View()), code, now) else old(store.View())
      ensures err == Some(TokenExpired) <==>
                code != "" && code in old(store.rows) && old(store.rows)[code] <= now && old(store.rows)[code] < later
      ensures err.Some? ==> err.value == TokenExpired || err.value == InvalidToken
    {
      if code == "" {
        return Some(InvalidToken);
      }
      var claimed := store.ClaimJoinToken(code, now);
      if claimed {
        return None;
      }
      var expires := store.GetJoinToken(code);
      if expires.None? {
        return Some(InvalidToken);
      }
      if later > expires.value {
        return Some(TokenExpired);
      }
      return Some(InvalidToken);
    }
  }
}
