/** Counting log rows: with at most one row for each host, row counts are host counts. */
module Counting {
  import opened Targets
  import opened Rows

  /** No two log rows are about the same task and host. */
  predicate OneLogEach(logs: map<LogId, Log>) {
    forall a, b :: a in logs && b in logs && a != b ==> logs[a].task != logs[b].task || logs[a].host != logs[b].host
  }

  function TaskLogIds(logs: map<LogId, Log>, t: TaskId): set<LogId> {
    set id | id in logs && logs[id].task == t
  }

  function HostsOf(logs: map<LogId, Log>, ids: set<LogId>): set<HostId> {
    set id | id in ids && id in logs :: logs[id].host
  }

  function Members(rows: seq<HostId>): set<HostId> {
    set h | h in rows
  }

  lemma {:induction false} HostsOfSize(logs: map<LogId, Log>, t: TaskId, ids: set<LogId>)
    requires OneLogEach(logs) && ids <= TaskLogIds(logs, t)
    ensures |HostsOf(logs, ids)| == |ids|
    decreases |ids|
  {
    if ids == {} {
    } else {
      var id :| id in ids;
      var rest := ids - {id};
      HostsOfSize(logs, t, rest);
      assert HostsOf(logs, ids) == HostsOf(logs, rest) + {logs[id].host};
      assert logs[id].host !in HostsOf(logs, rest);
    }
  }

  lemma {:induction false} MembersSize(rows: seq<HostId>)
    ensures |Members(rows)| <= |rows|
    ensures Distinct(rows) ==> |Members(rows)| == |rows|
  {
    if rows == [] {
    } else {
      var rest := rows[1..];
      MembersSize(rest);
      assert rows == [rows[0]] + rest;
      assert Members(rows) == Members(rest) + {rows[0]};
      if Distinct(rows) {
        assert forall i :: 0 <= i < |rest| ==> rest[i] == rows[i + 1];
      }
    }
  }

  lemma SubsetSize(a: set<HostId>, b: set<HostId>)
    requires a <= b
    ensures |a| <= |b|
    ensures |a| == |b| ==> a == b
  {
    assert b == a + (b - a);
  }

  /** Updated and failed rows of a task together never outnumber the hosts they are about, and
      when they are as many, every one of those hosts has its row. */
  lemma CountsAreHosts(db: Db, t: TaskId, hosts: seq<HostId>)
    requires OneLogEach(db.logs)
    requires forall id :: id in TaskLogIds(db.logs, t) ==> db.logs[id].host in hosts
    ensures CountHosts(db, t, HostUpdated) + CountHosts(db, t, HostFailed) <= |hosts|
    ensures CountHosts(db, t, HostUpdated) + CountHosts(db, t, HostFailed) == |hosts|
            ==> forall h :: h in hosts ==> exists id :: id in db.logs && db.logs[id].task == t && db.logs[id].host == h
  {
    var updated, failed := LogIds(db, t, HostUpdated), LogIds(db, t, HostFailed);
    var all := TaskLogIds(db.logs, t);
    assert updated !! failed && all == updated + failed;
    HostsOfSize(db.logs, t, all);
    MembersSize(hosts);
    SubsetSize(HostsOf(db.logs, all), Members(hosts));
    if |all| == |hosts| {
      forall h | h in hosts ensures exists id :: id in db.logs && db.logs[id].task == t && db.logs[id].host == h {
        assert h in HostsOf(db.logs, all);
      }
    }
  }
}
