/** One connection per account: two index maps that are each other's inverse. */
module Connections {
  import opened Prelude

  type AccountId = int
  type Sid = nat

  datatype Sockets = Sockets(sidOf: map<AccountId, Sid>, accountOf: map<Sid, AccountId>)

  /** The two maps are inverse to each other. */
  ghost predicate Inverse(s: Sockets) {
    && (forall a :: a in s.sidOf ==> s.sidOf[a] in s.accountOf && s.accountOf[s.sidOf[a]] == a)
    && (forall sid :: sid in s.accountOf ==> s.accountOf[sid] in s.sidOf && s.sidOf[s.accountOf[sid]] == sid)
  }

  function Lookup<K, V>(m: map<K, V>, k: K): Option<V> {
    if k in m then Some(m[k]) else None
  }

  class ConnectionRegistry {
    var accountToSid: map<AccountId, Sid>
    var sidToAccount: map<Sid, AccountId>

    function State(): Sockets
      reads this
    {
      Sockets(accountToSid, sidToAccount)
    }

    constructor ()
      ensures State() == Sockets(map[], map[]) && Inverse(State())
    {
      accountToSid := map[];
      sidToAccount := map[];
    }

    /** Registers a connection; afterwards exactly the new pairing and every pairing that touches neither side remain. */
    method Replace(account: AccountId, sid: Sid) returns (previous: Option<Sid>)
      requires Inverse(State())
      modifies this
      ensures Inverse(State())
      ensures State() == Replaced(old(State()), account, sid)
      ensures accountToSid.Keys == old(accountToSid).Keys + {account}
                                   - (if sid in old(sidToAccount) then {old(sidToAccount)[sid]} - {account} else {})
      ensures account in accountToSid && accountToSid[account] == sid
      ensures forall a :: a in accountToSid && a != account ==>
                a in old(accountToSid) && accountToSid[a] == old(accountToSid)[a]
      ensures previous ==
              if Lookup(old(accountToSid), account) == Some(sid) then None else Lookup(old(accountToSid), account)
    {
      previous := Lookup(accountToSid, account);
      if previous == Some(sid) {
        return None;
      }
      if previous.Some? {
        sidToAccount := sidToAccount - {previous.value};
      }
      var holder := Lookup(sidToAccount, sid);
      if holder.Some? && holder.value != account {
        accountToSid := accountToSid - {holder.value};
      }
      accountToSid := accountToSid[account := sid];
      sidToAccount := sidToAccount[sid := account];
    }

    /** Drops a connection, and nothing if the connection was already superseded. */
    method Release(sid: Sid) returns (account: Option<AccountId>)
      requires Inverse(State())
      modifies this
      ensures Inverse(State())
      ensures State() == Released(old(State()), sid)
      ensures account == Lookup(old(sidToAccount), sid)
      ensures account.None? ==> State() == old(State())
      ensures account.Some? ==> account.value !in accountToSid
      ensures forall a :: a in accountToSid <==> a in old(accountToSid) && old(accountToSid)[a] != sid
    {
      account := Lookup(sidToAccount, sid);
      sidToAccount := sidToAccount - {sid};
      if account.None? {
        assert sidToAccount == old(sidToAccount);
        return;
      }
      if Lookup(accountToSid, account.value) == Some(sid) {
        accountToSid := accountToSid - {account.value};
      }
    }
  }

  function Replaced(s: Sockets, account: AccountId, sid: Sid): Sockets {
    var previous := Lookup(s.sidOf, account);
    if previous == Some(sid) then s
    else
      var accountOf := if previous.Some? then s.accountOf - {previous.value} else s.accountOf;
      var holder := Lookup(accountOf, sid);
      var sidOf := if holder.Some? && holder.value != account then s.sidOf - {holder.value} else s.sidOf;
      Sockets(sidOf[account := sid], accountOf[sid := account])
  }

  function Released(s: Sockets, sid: Sid): Sockets {
    var account := Lookup(s.accountOf, sid);
    var accountOf := s.accountOf - {sid};
    if account.None? then s.(accountOf := accountOf)
    else if Lookup(s.sidOf, account.value) == Some(sid) then Sockets(s.sidOf - {account.value}, accountOf)
    else s.(accountOf := accountOf)
  }

  datatype SocketOp = Replace(account: AccountId, sid: Sid) | Release(sid: Sid)

  function AfterOps(ops: seq<SocketOp>): Sockets {
    if ops == [] then Sockets(map[], map[])
    else
      var prior := AfterOps(ops[..|ops| - 1]);
      match ops[|ops| - 1]
      case Replace(account, sid) => Replaced(prior, account, sid)
      case Release(sid) => Released(prior, sid)
  }

  lemma ReplacedInverse(s: Sockets, account: AccountId, sid: Sid)
    requires Inverse(s)
    ensures Inverse(Replaced(s, account, sid))
  {
  }

  /** Whatever the sequence of replacements and releases, the maps stay inverse: one connection per account. */
  lemma {:induction false} AlwaysInverse(ops: seq<SocketOp>)
    ensures Inverse(AfterOps(ops))
  {
    if ops != [] {
      AlwaysInverse(ops[..|ops| - 1]);
      var prior := AfterOps(ops[..|ops| - 1]);
      match ops[|ops| - 1]
      case Replace(account, sid) => ReplacedInverse(prior, account, sid);
      case Release(sid) =>
    }
  }

  predicate Registers(op: SocketOp, sid: Sid) {
    op.Replace? && op.sid == sid
  }

  /**
   * Once a connection has been superseded it never comes back by itself: after any further operations
   * that do not register it again, releasing it changes nothing and names no account.
   */
  lemma {:induction false} SupersededStaysGone(ops: seq<SocketOp>, account: AccountId, newer: Sid, sid: Sid,
                                               later: seq<SocketOp>)
    requires Lookup(AfterOps(ops).sidOf, account) == Some(sid) && newer != sid
    requires forall i :: 0 <= i < |later| ==> !Registers(later[i], sid)
    ensures var s := AfterOps(ops + [Replace(account, newer)] + later);
            sid !in s.accountOf && Released(s, sid) == s
  {
    var all := ops + [Replace(account, newer)] + later;
    if later == [] {
      AlwaysInverse(ops);
      assert all[..|all| - 1] == ops && all[|all| - 1] == Replace(account, newer);
    } else {
      var n := |later| - 1;
      SupersededStaysGone(ops, account, newer, sid, later[..n]);
      assert all[..|all| - 1] == ops + [Replace(account, newer)] + later[..n];
      assert all[|all| - 1] == later[n] && !Registers(later[n], sid);
    }
    var s := AfterOps(all);
    assert sid !in s.accountOf;
    assert s.accountOf - {sid} == s.accountOf;
  }
}
