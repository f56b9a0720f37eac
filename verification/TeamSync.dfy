/** Team membership: `TeamModule.sync_team_members/2` over the membership table, which may hold
    the same pair more than once. */
module TeamSync {
  import opened Wrappers

  type UserId = nat
  type TeamId = nat

  datatype Membership = Membership(user: UserId, team: TeamId)

  /** How often the user is a member of the team. */
  function Count(rows: seq<Membership>, u: UserId, t: TeamId): nat {
    multiset(rows)[Membership(u, t)]
  }

  function Times(ids: seq<UserId>, u: UserId): nat {
    multiset(ids)[u]
  }

  /** The ids from `get_team_users/1`, in table order. */
  function TeamUsers(rows: seq<Membership>, t: TeamId): seq<UserId> {
    if rows == [] then []
    else (if rows[0].team == t then [rows[0].user] else []) + TeamUsers(rows[1..], t)
  }

  /** The ids of the requested users that exist. */
  function FutureIds(users: map<string, UserId>, uuids: seq<string>): seq<UserId> {
    if uuids == [] then []
    else (if uuids[0] in users then [users[uuids[0]]] else []) + FutureIds(users, uuids[1..])
  }

  function RemoveFirst(ids: seq<UserId>, x: UserId): seq<UserId> {
    if ids == [] then [] else if ids[0] == x then ids[1..] else [ids[0]] + RemoveFirst(ids[1..], x)
  }

  /** Elixir's `left -- right`: each element on the right removes its first occurrence on the left. */
  function Subtract(left: seq<UserId>, right: seq<UserId>): seq<UserId>
    decreases |right|
  {
    if right == [] then left else Subtract(RemoveFirst(left, right[0]), right[1..])
  }

  /** `remove_user_from_team/2` deletes every row of the pair. */
  function Without(rows: seq<Membership>, m: Membership): seq<Membership> {
    if rows == [] then [] else (if rows[0] == m then [] else [rows[0]]) + Without(rows[1..], m)
  }

  function RemoveAll(rows: seq<Membership>, ids: seq<UserId>, t: TeamId): seq<Membership>
    decreases |ids|
  {
    if ids == [] then rows else RemoveAll(Without(rows, Membership(ids[0], t)), ids[1..], t)
  }

  function AddAll(rows: seq<Membership>, ids: seq<UserId>, t: TeamId): seq<Membership>
    decreases |ids|
  {
    if ids == [] then rows else AddAll(rows + [Membership(ids[0], t)], ids[1..], t)
  }

  function ToRemove(rows: seq<Membership>, t: TeamId, future: seq<UserId>): seq<UserId> {
    Subtract(TeamUsers(rows, t), future)
  }

  function ToAdd(rows: seq<Membership>, t: TeamId, future: seq<UserId>): seq<UserId> {
    Subtract(future, TeamUsers(rows, t))
  }

  /** The table after all removals and all additions, which is what the code sets out to do. */
  function Intended(rows: seq<Membership>, t: TeamId, future: seq<UserId>): seq<Membership> {
    AddAll(RemoveAll(rows, ToRemove(rows, t, future), t), ToAdd(rows, t, future), t)
  }

  /** The table as the code leaves it; an existing team is meant. */
  function Synced(rows: seq<Membership>, t: TeamId, future: seq<UserId>): seq<Membership> {
    var remove := ToRemove(rows, t, future);
    if remove != [] then Without(rows, Membership(remove[0], t)) else Intended(rows, t, future)
  }

  // ----- what the lists are -----

  /** The positions at which the request names a user. */
  function Naming(users: map<string, UserId>, uuids: seq<string>, u: UserId): set<nat> {
    set k | 0 <= k < |uuids| && uuids[k] in users && users[uuids[k]] == u
  }

  lemma {:induction false} FutureIdsConcat(users: map<string, UserId>, a: seq<string>, b: seq<string>)
    ensures FutureIds(users, a + b) == FutureIds(users, a) + FutureIds(users, b)
  {
    if a == [] {
      assert a + b == b;
    } else {
      FutureIdsConcat(users, a[1..], b);
      assert (a + b)[1..] == a[1..] + b && (a + b)[0] == a[0];
    }
  }

  /** A user is requested as often as the request names them; unknown uuids count for nothing. */
  lemma {:induction false} FutureIdsCount(users: map<string, UserId>, uuids: seq<string>, u: UserId)
    ensures Times(FutureIds(users, uuids), u) == |Naming(users, uuids, u)|
  {
    if uuids == [] {
      assert Naming(users, uuids, u) == {};
    } else {
      var n := |uuids| - 1;
      var front, last := uuids[..n], uuids[n];
      FutureIdsCount(users, front, u);
      assert uuids == front + [last];
      FutureIdsConcat(users, front, [last]);
      assert FutureIds(users, [last]) == if last in users then [users[last]] else [];
      NamingLast(users, front, last, u);
    }
  }

  lemma NamingLast(users: map<string, UserId>, front: seq<string>, last: string, u: UserId)
    ensures |Naming(users, front + [last], u)|
            == |Naming(users, front, u)| + (if last in users && users[last] == u then 1 else 0)
  {
    var more: set<nat> := if last in users && users[last] == u then {|front|} else {};
    assert Naming(users, front + [last], u) == Naming(users, front, u) + more;
  }

  /** The team's rows before position `i`. */
  function RowsBefore(rows: seq<Membership>, t: TeamId, i: nat): nat
    requires i <= |rows|
  {
    if i == 0 then 0 else RowsBefore(rows, t, i - 1) + (if rows[i - 1].team == t then 1 else 0)
  }

  lemma {:induction false} TeamUsersLength(rows: seq<Membership>, t: TeamId)
    ensures |TeamUsers(rows, t)| == RowsBefore(rows, t, |rows|)
  {
    if rows == [] {
    } else {
      RowsBeforeTail(rows, t, |rows|);
      TeamUsersLength(rows[1..], t);
    }
  }

  /** The team's users are listed in table order. */
  lemma {:induction false} TeamUsersInOrder(rows: seq<Membership>, t: TeamId, i: nat)
    requires i < |rows|
    ensures |TeamUsers(rows, t)| == RowsBefore(rows, t, |rows|)
    ensures rows[i].team == t ==>
              && RowsBefore(rows, t, i) < |TeamUsers(rows, t)|
              && TeamUsers(rows, t)[RowsBefore(rows, t, i)] == rows[i].user
    decreases |rows|
  {
    TeamUsersLength(rows, t);
    RowsBeforeTail(rows, t, i);
    if i == 0 {
    } else {
      var tail := rows[1..];
      TeamUsersInOrder(tail, t, i - 1);
      assert rows[i] == tail[i - 1];
      BehindHead(if rows[0].team == t then [rows[0].user] else [], TeamUsers(tail, t), RowsBefore(tail, t, i - 1));
    }
  }

  lemma BehindHead(head: seq<UserId>, rest: seq<UserId>, k: nat)
    ensures k < |rest| ==> |head| + k < |head + rest| && (head + rest)[|head| + k] == rest[k]
  {
  }

  lemma {:induction false} RowsBeforeTail(rows: seq<Membership>, t: TeamId, i: nat)
    requires rows != [] && i <= |rows|
    ensures RowsBefore(rows, t, i)
            == if i == 0 then 0 else (if rows[0].team == t then 1 else 0) + RowsBefore(rows[1..], t, i - 1)
  {
    if i <= 1 {
    } else {
      RowsBeforeTail(rows, t, i - 1);
      assert rows[1..][i - 2] == rows[i - 1];
    }
  }

  /** One pass over the list that drops as many of each user as `drop` says, the first ones. */
  function Excess(ids: seq<UserId>, drop: multiset<UserId>): seq<UserId> {
    if ids == [] then []
    else if ids[0] in drop then Excess(ids[1..], drop - multiset{ids[0]})
    else [ids[0]] + Excess(ids[1..], drop)
  }

  lemma {:induction false} ExcessOfRemoved(ids: seq<UserId>, x: UserId, drop: multiset<UserId>)
    ensures Excess(ids, drop + multiset{x}) == Excess(RemoveFirst(ids, x), drop)
  {
    if ids == [] {
    } else if ids[0] == x {
      assert drop + multiset{x} - multiset{x} == drop;
    } else if ids[0] in drop {
      assert drop + multiset{x} - multiset{ids[0]} == (drop - multiset{ids[0]}) + multiset{x};
      ExcessOfRemoved(ids[1..], x, drop - multiset{ids[0]});
      assert RemoveFirst(ids, x)[1..] == RemoveFirst(ids[1..], x);
    } else {
      ExcessOfRemoved(ids[1..], x, drop);
      assert RemoveFirst(ids, x)[1..] == RemoveFirst(ids[1..], x);
    }
  }

  /** The list difference keeps the order: it is what one pass leaves. */
  lemma {:induction false} SubtractIsOnePass(left: seq<UserId>, right: seq<UserId>)
    ensures Subtract(left, right) == Excess(left, multiset(right))
    decreases |right|
  {
    if right == [] {
      NothingDropped(left);
    } else {
      assert right == [right[0]] + right[1..];
      assert multiset(right) == multiset(right[1..]) + multiset{right[0]};
      ExcessOfRemoved(left, right[0], multiset(right[1..]));
      SubtractIsOnePass(RemoveFirst(left, right[0]), right[1..]);
    }
  }

  lemma {:induction false} NothingDropped(ids: seq<UserId>)
    ensures Excess(ids, multiset{}) == ids
  {
    if ids == [] {
    } else {
      NothingDropped(ids[1..]);
      assert ids == [ids[0]] + ids[1..];
    }
  }

  // ----- counting -----

  lemma {:induction false} TeamUsersCount(rows: seq<Membership>, t: TeamId, u: UserId)
    ensures Times(TeamUsers(rows, t), u) == Count(rows, u, t)
  {
    if rows == [] {
    } else {
      TeamUsersCount(rows[1..], t, u);
      assert multiset(rows) == multiset{rows[0]} + multiset(rows[1..]) by {
        assert rows == [rows[0]] + rows[1..];
      }
      var head: seq<UserId> := if rows[0].team == t then [rows[0].user] else [];
      assert multiset(TeamUsers(rows, t)) == multiset(head) + multiset(TeamUsers(rows[1..], t));
    }
  }

  lemma {:induction false} RemoveFirstCount(ids: seq<UserId>, x: UserId)
    ensures multiset(RemoveFirst(ids, x)) == multiset(ids) - multiset{x}
  {
    if ids == [] {
    } else {
      var head, tail := ids[0], ids[1..];
      RemoveFirstCount(tail, x);
      assert ids == [head] + tail;
      TakeFromBoth(head, multiset(tail), x);
    }
  }

  lemma TakeFromBoth(head: UserId, tail: multiset<UserId>, x: UserId)
    ensures head == x ==> multiset{head} + tail - multiset{x} == tail
    ensures head != x ==> multiset{head} + tail - multiset{x} == multiset{head} + (tail - multiset{x})
  {
  }

  lemma {:induction false} SubtractCount(left: seq<UserId>, right: seq<UserId>)
    ensures multiset(Subtract(left, right)) == multiset(left) - multiset(right)
    decreases |right|
  {
    if right == [] {
    } else {
      RemoveFirstCount(left, right[0]);
      SubtractCount(RemoveFirst(left, right[0]), right[1..]);
      assert multiset(right) == multiset{right[0]} + multiset(right[1..]) by {
        assert right == [right[0]] + right[1..];
      }
      TakeBoth(multiset(left), multiset{right[0]}, multiset(right[1..]));
    }
  }

  lemma TakeBoth(a: multiset<UserId>, b: multiset<UserId>, c: multiset<UserId>)
    ensures a - b - c == a - (b + c)
  {
  }

  lemma {:induction false} WithoutCount(rows: seq<Membership>, m: Membership)
    ensures multiset(Without(rows, m)) == multiset(rows)[m := 0]
  {
    if rows == [] {
    } else {
      WithoutCount(rows[1..], m);
      assert rows == [rows[0]] + rows[1..];
    }
  }

  lemma {:induction false} WithoutLength(rows: seq<Membership>, m: Membership)
    ensures |Without(rows, m)| + multiset(rows)[m] == |rows|
  {
    if rows == [] {
    } else {
      WithoutLength(rows[1..], m);
      assert rows == [rows[0]] + rows[1..];
    }
  }

  lemma {:induction false} RemoveAllCount(rows: seq<Membership>, ids: seq<UserId>, t: TeamId, m: Membership)
    ensures multiset(RemoveAll(rows, ids, t))[m]
            == if m.team == t && m.user in ids then 0 else multiset(rows)[m]
    decreases |ids|
  {
    if ids == [] {
    } else {
      WithoutCount(rows, Membership(ids[0], t));
      RemoveAllCount(Without(rows, Membership(ids[0], t)), ids[1..], t, m);
      assert ids == [ids[0]] + ids[1..];
    }
  }

  lemma {:induction false} AddAllCount(rows: seq<Membership>, ids: seq<UserId>, t: TeamId, m: Membership)
    ensures multiset(AddAll(rows, ids, t))[m] == multiset(rows)[m] + (if m.team == t then Times(ids, m.user) else 0)
    decreases |ids|
  {
    if ids == [] {
    } else {
      AddAllCount(rows + [Membership(ids[0], t)], ids[1..], t, m);
      assert ids == [ids[0]] + ids[1..];
    }
  }

  /** The users to remove are those the table holds more often than requested, and the users to
      add those it holds less often. */
  lemma Differences(rows: seq<Membership>, t: TeamId, future: seq<UserId>, u: UserId)
    ensures Times(ToRemove(rows, t, future), u)
            == if Count(rows, u, t) > Times(future, u) then Count(rows, u, t) - Times(future, u) else 0
    ensures Times(ToAdd(rows, t, future), u)
            == if Times(future, u) > Count(rows, u, t) then Times(future, u) - Count(rows, u, t) else 0
    ensures u in ToRemove(rows, t, future) <==> Count(rows, u, t) > Times(future, u)
  {
    TeamUsersCount(rows, t, u);
    SubtractCount(TeamUsers(rows, t), future);
    SubtractCount(future, TeamUsers(rows, t));
    assert u in ToRemove(rows, t, future) <==> u in multiset(ToRemove(rows, t, future));
  }

  /** What the intended table holds: the requested number of rows, except for a user held more
      often than requested but requested, who loses every row. Other teams keep theirs. */
  lemma IntendedCounts(rows: seq<Membership>, t: TeamId, future: seq<UserId>)
    ensures forall u: UserId :: Count(Intended(rows, t, future), u, t)
              == if Count(rows, u, t) <= Times(future, u) then Times(future, u) else 0
    ensures forall u: UserId, o: TeamId :: o != t ==> Count(Intended(rows, t, future), u, o) == Count(rows, u, o)
  {
    var remove, add := ToRemove(rows, t, future), ToAdd(rows, t, future);
    forall u: UserId, o: TeamId
      ensures Count(Intended(rows, t, future), u, o)
              == if o != t then Count(rows, u, o)
                 else if Count(rows, u, t) <= Times(future, u) then Times(future, u) else 0
    {
      Differences(rows, t, future, u);
      RemoveAllCount(rows, remove, t, Membership(u, o));
      AddAllCount(RemoveAll(rows, remove, t), add, t, Membership(u, o));
    }
  }

  lemma NothingTimes(ids: seq<UserId>)
    ensures ids == [] <==> forall u: UserId :: Times(ids, u) == 0
  {
    if ids != [] {
      assert ids[0] in multiset(ids);
      assert Times(ids, ids[0]) > 0;
    }
  }

  /** A second sync removes nothing; it adds nothing exactly when no requested user was held more
      often than requested, as for tables and requests without duplicates. */
  lemma SecondSync(rows: seq<Membership>, t: TeamId, future: seq<UserId>)
    ensures ToRemove(Intended(rows, t, future), t, future) == []
    ensures ToAdd(Intended(rows, t, future), t, future) == []
            <==> forall u: UserId :: Count(rows, u, t) <= Times(future, u) || Times(future, u) == 0
  {
    var once := Intended(rows, t, future);
    IntendedCounts(rows, t, future);
    forall u: UserId
      ensures Times(ToRemove(once, t, future), u) == 0
      ensures Times(ToAdd(once, t, future), u) == 0 <==> Count(rows, u, t) <= Times(future, u) || Times(future, u) == 0
    {
      Differences(once, t, future, u);
    }
    NothingTimes(ToRemove(once, t, future));
    NothingTimes(ToAdd(once, t, future));
  }

  // ----- the code -----

  /** What the caller gets: the result map, or an exception. */
  datatype Outcome = Returned(added: seq<UserId>, removed: seq<UserId>) | Raised

  class MembershipTable {
    var rows: seq<Membership>
    const users: map<string, UserId>
    const teams: set<TeamId>

    constructor (rows: seq<Membership>, users: map<string, UserId>, teams: set<TeamId>)
      ensures this.rows == rows && this.users == users && this.teams == teams
    {
      this.rows := rows;
      this.users := users;
      this.teams := teams;
    }

    /** Afterwards the user is in the team no more, however often before; everybody else is where they
        were. `Repo.delete_all/1` gives the number of rows that went and nil, not an ok tuple. */
    method RemoveUserFromTeam(u: UserId, t: TeamId) returns (deleted: nat)
      modifies this`rows
      ensures rows == Without(old(rows), Membership(u, t))
      ensures forall v: UserId, o: TeamId ::
                Count(rows, v, o) == if v == u && o == t then 0 else Count(old(rows), v, o)
      ensures deleted == Count(old(rows), u, t) == |old(rows)| - |rows|
    {
      deleted := Count(rows, u, t);
      WithoutCount(rows, Membership(u, t));
      WithoutLength(rows, Membership(u, t));
      rows := Without(rows, Membership(u, t));
    }

    /** Afterwards the user is in the team once more than before, unless the foreign key to a missing
        team raises; nobody else moves. */
    method AddUserToTeam(u: UserId, t: TeamId) returns (raised: bool)
      modifies this`rows
      ensures raised <==> t !in teams
      ensures rows == if raised then old(rows) else old(rows) + [Membership(u, t)]
      ensures forall v: UserId, o: TeamId ::
                Count(rows, v, o) == Count(old(rows), v, o) + (if !raised && v == u && o == t then 1 else 0)
    {
      raised := t !in teams;
      if !raised {
        rows := rows + [Membership(u, t)];
      }
    }

    /** The intended table has what is asked for when nobody is to be removed. */
    lemma ReturnsRequested(t: TeamId, uuids: seq<string>)
      ensures var future := FutureIds(users, uuids);
              && (ToRemove(rows, t, future) == []
                  <==> forall u: UserId :: Count(rows, u, t) <= |Naming(users, uuids, u)|)
              && (ToRemove(rows, t, future) == [] ==>
                    && (forall u: UserId :: Count(Intended(rows, t, future), u, t) == |Naming(users, uuids, u)|)
                    && forall u: UserId, o: TeamId ::
                         o != t ==> Count(Intended(rows, t, future), u, o) == Count(rows, u, o))
    {
      var future := FutureIds(users, uuids);
      IntendedCounts(rows, t, future);
      NothingTimes(ToRemove(rows, t, future));
      forall u: UserId
        ensures Times(future, u) == |Naming(users, uuids, u)|
        ensures Times(ToRemove(rows, t, future), u) == 0 <==> Count(rows, u, t) <= Times(future, u)
      {
        FutureIdsCount(users, uuids, u);
        Differences(rows, t, future, u);
      }
    }

    /** As written. No clause of the `case` matches what a removal gives, so the first removal
        deletes its rows and raises; without removals every missing row is added. */
    method SyncTeamMembers(t: TeamId, uuids: seq<string>) returns (outcome: Outcome)
      modifies this`rows
      ensures var future := FutureIds(users, uuids);
              var remove, add := ToRemove(old(rows), t, future), ToAdd(old(rows), t, future);
              if remove != [] then
                outcome == Raised && rows == Without(old(rows), Membership(remove[0], t))
              else if add != [] && t !in teams then
                outcome == Raised && rows == old(rows)
              else
                && outcome.Returned? && outcome.removed == [] && outcome.added == Reversed(add)
                && rows == Intended(old(rows), t, future)
      ensures t in teams ==> rows == Synced(old(rows), t, FutureIds(users, uuids))
      ensures outcome.Returned? ==>
                && (forall u: UserId :: Count(rows, u, t) == |Naming(users, uuids, u)|)
                && (forall u: UserId, o: TeamId :: o != t ==> Count(rows, u, o) == Count(old(rows), u, o))
      ensures t in teams ==>
                (outcome.Returned? <==> forall u: UserId :: Count(old(rows), u, t) <= |Naming(users, uuids, u)|)
    {
      ReturnsRequested(t, uuids);
      var current := TeamUsers(rows, t);
      var future := FutureIds(users, uuids);
      var membersToRemove := Subtract(current, future);
      var membersToAdd := Subtract(future, current);
      if membersToRemove != [] {
        var _ := RemoveUserFromTeam(membersToRemove[0], t);
        return Raised;
      }
      ghost var before := rows;
      var added: seq<UserId> := [];
      var k := 0;
      while k < |membersToAdd|
        invariant 0 <= k <= |membersToAdd|
        invariant AddAll(rows, membersToAdd[k..], t) == AddAll(before, membersToAdd, t)
        invariant added == Reversed(membersToAdd[..k])
        invariant k > 0 ==> t in teams
        invariant k == 0 ==> rows == before
      {
        var raised := AddUserToTeam(membersToAdd[k], t);
        if raised {
          return Raised;
        }
        assert membersToAdd[k..][1..] == membersToAdd[k + 1..];
        assert membersToAdd[..k + 1] == membersToAdd[..k] + [membersToAdd[k]];
        ReversedSnoc(membersToAdd[..k], membersToAdd[k]);
        added := [membersToAdd[k]] + added;
        k := k + 1;
      }
      assert membersToAdd[..k] == membersToAdd;
      outcome := Returned(added, []);
    }
  }

  function Reversed(ids: seq<UserId>): seq<UserId> {
    if ids == [] then [] else Reversed(ids[1..]) + [ids[0]]
  }

  lemma {:induction false} ReversedSnoc(ids: seq<UserId>, x: UserId)
    ensures Reversed(ids + [x]) == [x] + Reversed(ids)
  {
    if ids == [] {
      assert ids + [x] == [x];
    } else {
      ReversedSnoc(ids[1..], x);
      assert (ids + [x])[1..] == ids[1..] + [x];
    }
  }

  /** The request differs from the table in one user only, who is to be dropped. */
  predicate OnlyDrops(rows: seq<Membership>, t: TeamId, future: seq<UserId>, dropped: UserId) {
    && Times(future, dropped) == 0
    && (forall m :: m in rows && m.team == t && m.user != dropped ==> Count(rows, m.user, t) == Times(future, m.user))
    && (forall u :: u in future ==> Count(rows, u, t) == Times(future, u))
  }

  lemma SyncedCounts(rows: seq<Membership>, t: TeamId, future: seq<UserId>)
    requires ToRemove(rows, t, future) != []
    ensures forall u: UserId, o: TeamId :: Count(Synced(rows, t, future), u, o)
              == if u == ToRemove(rows, t, future)[0] && o == t then 0 else Count(rows, u, o)
  {
    WithoutCount(rows, Membership(ToRemove(rows, t, future)[0], t));
  }

  /** Nothing is to change but the one user exactly when the request asks for all the others as they
      are. */
  lemma OnlyDropsExactly(rows: seq<Membership>, t: TeamId, future: seq<UserId>, first: UserId)
    ensures OnlyDrops(rows, t, future, first)
            <==> forall u: UserId :: Times(future, u) == if u == first then 0 else Count(rows, u, t)
  {
    forall u: UserId
      ensures Times(future, u) > 0 <==> u in future
      ensures Count(rows, u, t) > 0 <==> Membership(u, t) in rows
    {
      assert u in multiset(future) <==> u in future;
      assert Membership(u, t) in multiset(rows) <==> Membership(u, t) in rows;
    }
    if OnlyDrops(rows, t, future, first) {
      forall u: UserId ensures Times(future, u) == if u == first then 0 else Count(rows, u, t) {
        if u != first && Membership(u, t) in rows {
          assert Membership(u, t).team == t;
        }
      }
    }
  }

  /** The code gives each user the requested number of rows exactly when no user is held more
      often than requested, or a single user has to be dropped and nothing else is to change. */
  lemma SyncMeetsRequestExactly(rows: seq<Membership>, t: TeamId, future: seq<UserId>)
    ensures (forall u: UserId :: Count(Synced(rows, t, future), u, t) == Times(future, u))
            <==> var remove := ToRemove(rows, t, future); remove == [] || OnlyDrops(rows, t, future, remove[0])
    ensures forall u: UserId, o: TeamId :: o != t ==> Count(Synced(rows, t, future), u, o) == Count(rows, u, o)
  {
    var remove := ToRemove(rows, t, future);
    if remove != [] {
      SyncedCounts(rows, t, future);
      OnlyDropsExactly(rows, t, future, remove[0]);
    } else {
      IntendedCounts(rows, t, future);
      forall u: UserId ensures Count(rows, u, t) <= Times(future, u) {
        Differences(rows, t, future, u);
      }
    }
  }
}
