/** Host liveness: heartbeats set a host online and note the time, a periodic sweep sets silent
    hosts offline. Clocks are real numbers; the `reported_at` column keeps whole seconds. */
module HostLiveness {
  type HostId = nat

  const THRESHOLD: int := 120

  datatype Host = Host(online: bool, reportedAt: int)

  /** A `:utc_datetime` value drops the fraction of the second. */
  function Seconds(at: real): int {
    at.Floor
  }

  /** `mark_host_as_online/1` */
  function Report(at: real): Host {
    Host(true, Seconds(at))
  }

  /** The sweep's query: not offline, and last reported before now minus the threshold. */
  predicate Silent(h: Host, now: real, seconds: int) {
    h.online && h.reportedAt < Seconds(now) - seconds
  }

  /** A row while sweeps pass over it: `marked` says that the sweep in progress has selected it. */
  datatype Watched = Watched(host: Host, marked: bool)

  function SweepRead(w: Watched, now: real): Watched {
    w.(marked := Silent(w.host, now, THRESHOLD))
  }

  function SweepWrite(w: Watched): Watched {
    Watched(if w.marked then w.host.(online := false) else w.host, false)
  }

  // ----- a host that keeps reporting -----

  datatype Event = Reported(at: real) | SweepReads(at: real) | SweepWrites(at: real)

  function Apply(w: Watched, e: Event): Watched {
    match e
    case Reported(at) => w.(host := Report(at))
    case SweepReads(at) => SweepRead(w, at)
    case SweepWrites(_) => SweepWrite(w)
  }

  function After(w: Watched, events: seq<Event>): Watched
    decreases |events|
  {
    if events == [] then w else After(Apply(w, events[0]), events[1..])
  }

  /** Nothing happens more than 120 seconds after the latest report, which was at `last`. */
  predicate Punctual(last: real, events: seq<Event>)
    decreases |events|
  {
    events != [] ==>
      && last <= events[0].at <= last + 120.0
      && Punctual(if events[0].Reported? then events[0].at else last, events[1..])
  }

  /** A host that reports at least every 120 seconds is online after every event, however the
      reports fall between the reads and the writes of the sweeps. */
  lemma {:induction false} PunctualHostStaysOnline(w: Watched, last: real, events: seq<Event>)
    requires w == Watched(Report(last), false) && Punctual(last, events)
    ensures After(w, events).host.online
    decreases |events|
  {
    if events == [] {
    } else {
      var e := events[0];
      if e.SweepReads? {
        assert Seconds(e.at) <= Seconds(last + 120.0) == Seconds(last) + 120;
      }
      PunctualHostStaysOnline(Apply(w, e), if e.Reported? then e.at else last, events[1..]);
    }
  }

  // ----- a host that has fallen silent -----

  datatype Sweep = Sweep(read: real, write: real)

  function AfterSweeps(w: Watched, sweeps: seq<Sweep>): Watched {
    if sweeps == [] then w
    else SweepWrite(SweepRead(AfterSweeps(w, sweeps[..|sweeps| - 1]), sweeps[|sweeps| - 1].read))
  }

  lemma {:induction false} SweepsKeepTheReport(w: Watched, sweeps: seq<Sweep>)
    ensures AfterSweeps(w, sweeps).host.reportedAt == w.host.reportedAt
  {
    if sweeps == [] {
    } else {
      SweepsKeepTheReport(w, sweeps[..|sweeps| - 1]);
    }
  }

  /** Without a further report a host stays online exactly as long as no sweep reads the clock more
      than 120 seconds after the stored time of its last report. */
  lemma {:induction false} OnlineExactly(w: Watched, sweeps: seq<Sweep>)
    ensures AfterSweeps(w, sweeps).host.online
            <==> && w.host.online
                 && forall k :: 0 <= k < |sweeps| ==> Seconds(sweeps[k].read) <= w.host.reportedAt + 120
  {
    if sweeps == [] {
    } else {
      var earlier, last := sweeps[..|sweeps| - 1], sweeps[|sweeps| - 1];
      OnlineExactly(w, earlier);
      SweepsKeepTheReport(w, earlier);
      assert forall k :: 0 <= k < |earlier| ==> earlier[k] == sweeps[k];
    }
  }

  /** The sweep starts at most `period` after the one before, when that is over, and takes at most
      `delay`. */
  predicate Follows(readBefore: real, writeBefore: real, next: Sweep, period: real, delay: real) {
    next.read <= readBefore + period && writeBefore <= next.read <= next.write <= next.read + delay
  }

  /** The sweeps follow a report at `r` and one another. */
  predicate Scheduled(sweeps: seq<Sweep>, r: real, period: real, delay: real) {
    sweeps != [] ==>
      && Follows(r, r, sweeps[0], period, delay)
      && forall k :: 0 < k < |sweeps| ==> Follows(sweeps[k - 1].read, sweeps[k - 1].write, sweeps[k], period, delay)
  }

  /** By time `t` no further sweep needs to have been completed. */
  predicate CompletedBy(sweeps: seq<Sweep>, r: real, period: real, delay: real, t: real) {
    (if sweeps == [] then r else sweeps[|sweeps| - 1].read) + period + delay > t
  }

  /** After its last report at `r` a host is offline at every time from the second of `r` plus 121
      seconds, one period and one delay on. */
  lemma SilentHostGoesOffline(w: Watched, r: real, sweeps: seq<Sweep>, period: real, delay: real, t: real)
    requires w.host.reportedAt == Seconds(r) && CompletedBy(sweeps, r, period, delay, t)
    requires t >= Seconds(r) as real + 121.0 + period + delay
    ensures !AfterSweeps(w, sweeps).host.online
  {
    assert r < Seconds(r) as real + 1.0;
    OnlineExactly(w, sweeps);
    assert Seconds(sweeps[|sweeps| - 1].read) >= Seconds(r) + 121;
  }

  /** When reports and sweeps fall on whole seconds one second less is enough. */
  lemma SilentHostOnWholeSeconds(w: Watched, r: int, sweeps: seq<Sweep>, period: real, delay: real, t: real)
    requires w.host.reportedAt == r && CompletedBy(sweeps, r as real, period, delay, t)
    requires forall k :: 0 <= k < |sweeps| ==> sweeps[k].read == Seconds(sweeps[k].read) as real
    requires t >= r as real + 120.0 + period + delay
    ensures !AfterSweeps(w, sweeps).host.online
  {
    OnlineExactly(w, sweeps);
    var last := sweeps[|sweeps| - 1];
    assert last.read > r as real + 120.0;
    assert Seconds(last.read) > r + 120;
  }

  // ----- the bound cannot be lowered -----

  /** A schedule whose last sweep starts at any given time. */
  lemma {:induction false} ScheduleTo(r: real, last: real, period: real, delay: real, n: nat)
    returns (sweeps: seq<Sweep>)
    requires r <= last <= r + n as real * period && 0.0 < period && 0.0 <= delay && n > 0
    ensures Scheduled(sweeps, r, period, delay) && sweeps != [] && sweeps[|sweeps| - 1] == Sweep(last, last)
    ensures forall k :: 0 <= k < |sweeps| ==> sweeps[k].read <= last
    decreases n
  {
    if last <= r + period {
      sweeps := [Sweep(last, last)];
    } else {
      assert (n - 1) as real * period == n as real * period - period;
      assert n > 1;
      var earlier := ScheduleTo(r, last - period, period, delay, n - 1);
      sweeps := earlier + [Sweep(last, last)];
      ScheduledOneMore(earlier, Sweep(last, last), r, period, delay);
    }
  }

  lemma ScheduledOneMore(sweeps: seq<Sweep>, next: Sweep, r: real, period: real, delay: real)
    requires Scheduled(sweeps, r, period, delay) && sweeps != []
    requires Follows(sweeps[|sweeps| - 1].read, sweeps[|sweeps| - 1].write, next, period, delay)
    ensures Scheduled(sweeps + [next], r, period, delay)
  {
    var all := sweeps + [next];
    forall k | 0 < k < |all| ensures Follows(all[k - 1].read, all[k - 1].write, all[k], period, delay) {
      assert all[k - 1] == sweeps[k - 1];
      assert k < |sweeps| ==> all[k] == sweeps[k];
    }
  }

  /** Some number of periods covers any time. */
  lemma EnoughPeriods(span: real, period: real) returns (n: nat)
    requires 0.0 <= span && 0.0 < period
    ensures n > 0 && span <= n as real * period
  {
    var ratio := span / period;
    assert ratio * period == span;
    assert ratio >= 0.0;
    n := ratio.Floor + 1;
    AtLeastTimes(ratio, n as real, period);
  }

  lemma AtLeastTimes(a: real, b: real, c: real)
    requires a <= b && 0.0 <= c
    ensures a * c <= b * c
  {
  }

  /** For every period, every delay and every report there is a schedule that leaves the host online
      as close to that bound as one likes: no smaller number than 121 will do. */
  lemma BoundIsOptimal(r: real, period: real, delay: real, margin: real) returns (sweeps: seq<Sweep>, t: real)
    requires 0.0 < period && 0.0 <= delay && 0.0 < margin <= 1.0
    ensures Scheduled(sweeps, r, period, delay) && CompletedBy(sweeps, r, period, delay, t)
    ensures t >= Seconds(r) as real + 121.0 - margin + period + delay
    ensures AfterSweeps(Watched(Report(r), false), sweeps).host.online
  {
    var last := Seconds(r) as real + 121.0 - margin / 2.0;
    var n := EnoughPeriods(last - r, period);
    sweeps := ScheduleTo(r, last, period, delay, n);
    t := Seconds(r) as real + 121.0 - margin + period + delay;
    assert Seconds(last) == Seconds(r) + 120;
    OnlineExactly(Watched(Report(r), false), sweeps);
  }

  // ----- reports while a sweep is under way -----

  predicate AllReports(events: seq<Event>) {
    forall e :: e in events ==> e.Reported?
  }

  lemma {:induction false} ReportsKeepTheMark(w: Watched, reports: seq<Event>)
    requires AllReports(reports)
    ensures After(w, reports).marked == w.marked
    ensures After(w, reports).host == if reports == [] then w.host else Report(reports[|reports| - 1].at)
    decreases |reports|
  {
    if reports == [] {
    } else {
      assert reports[0] in reports && forall e :: e in reports[1..] ==> e in reports;
      ReportsKeepTheMark(Apply(w, reports[0]), reports[1..]);
    }
  }

  lemma {:induction false} AfterConcat(w: Watched, a: seq<Event>, b: seq<Event>)
    ensures After(w, a + b) == After(After(w, a), b)
    decreases |a|
  {
    if a == [] {
      assert a + b == b;
    } else {
      assert (a + b)[1..] == a[1..] + b;
      AfterConcat(Apply(w, a[0]), a[1..], b);
    }
  }

  /** A host that reports between the read and the write of a sweep is online afterwards exactly when
      the sweep had not selected it: a report that comes too late for the read is overruled. */
  lemma ReportDuringSweepExactly(w: Watched, read: real, reports: seq<Event>, write: real)
    requires AllReports(reports) && reports != []
    ensures After(w, [SweepReads(read)] + (reports + [SweepWrites(write)])).host.online
            <==> !(w.host.online && w.host.reportedAt < Seconds(read) - 120)
  {
    var rest := reports + [SweepWrites(write)];
    assert ([SweepReads(read)] + rest)[1..] == rest;
    var selected := SweepRead(w, read);
    AfterConcat(selected, reports, [SweepWrites(write)]);
    ReportsKeepTheMark(selected, reports);
    var reported := After(selected, reports);
    assert [SweepWrites(write)][1..] == [];
    assert After(reported, [SweepWrites(write)]) == SweepWrite(reported);
  }

  // ----- the table -----

  class HostTable {
    var hosts: map<HostId, Host>

    constructor (hosts: map<HostId, Host>)
      ensures this.hosts == hosts
    {
      this.hosts := hosts;
    }

    /** `HostModule.mark_host_as_online/1`; false when there is no such host. No sweep within the next
        120 seconds selects the host. */
    method MarkHostAsOnline(id: HostId, now: real) returns (found: bool)
      modifies this
      ensures found <==> id in old(hosts)
      ensures hosts == if found then old(hosts)[id := Report(now)] else old(hosts)
      ensures found ==> forall later :: now <= later <= now + 120.0 ==> hosts[id].reportedAt >= Seconds(later) - 120
    {
      found := id in hosts;
      if found {
        hosts := hosts[id := hosts[id].(online := true, reportedAt := Seconds(now))];
        assert Seconds(now + 120.0) == Seconds(now) + 120;
      }
    }

    /** The row comes from a report at `since` or later. */
    predicate ReportedSince(h: Host, since: real) {
      h.online && h.reportedAt >= Seconds(since)
    }

    /** Hosts report, or are deleted. Callers learn the contract only. */
    method Interfere(ghost since: real)
      modifies this
      ensures hosts.Keys <= old(hosts).Keys
      ensures forall id :: id in hosts ==> hosts[id] == old(hosts)[id] || ReportedSince(hosts[id], since)
    {
    }

    /** `HostContext.mark_hosts_as_offline/1`: the query, then one write for each row, hosts reporting
        meanwhile. Every silent host is offline afterwards unless it has reported since the query; no
        other host is touched. The number of silent hosts is returned; the sweep raises only on a
        silent host that has been deleted meanwhile. */
    method MarkHostsAsOffline(now: real, seconds: int) returns (count: nat, raised: bool)
      modifies this
      ensures hosts.Keys <= old(hosts).Keys
      ensures forall id ::
                id in hosts && !(old(hosts)[id].online && old(hosts)[id].reportedAt < Seconds(now) - seconds)
                ==> hosts[id] == old(hosts)[id] || (hosts[id].online && hosts[id].reportedAt >= Seconds(now))
      ensures forall id ::
                id in hosts && old(hosts)[id].online && old(hosts)[id].reportedAt < Seconds(now) - seconds && !raised
                ==> hosts[id] == old(hosts)[id].(online := false) || hosts[id].reportedAt >= Seconds(now)
      ensures count == |set id | && id in old(hosts) && old(hosts)[id].online
                                 && old(hosts)[id].reportedAt < Seconds(now) - seconds|
      ensures raised ==>
                exists id ::
                  id in old(hosts) && old(hosts)[id].online && old(hosts)[id].reportedAt < Seconds(now) - seconds
                  && id !in hosts
    {
      ghost var before := hosts;
      var selected := set id | id in hosts && Silent(hosts[id], now, seconds);
      assert selected == set id | id in hosts && hosts[id].online && hosts[id].reportedAt < Seconds(now) - seconds;
      count, raised := |selected|, false;
      var todo := selected;
      while todo != {} && !raised
        invariant todo <= selected && hosts.Keys <= before.Keys
        invariant forall id :: id in hosts && (id !in selected || id in todo) ==>
                    hosts[id] == before[id] || ReportedSince(hosts[id], now)
        invariant forall id :: id in hosts && id in selected && id !in todo && !raised ==>
                    hosts[id] == before[id].(online := false) || hosts[id].reportedAt >= Seconds(now)
        invariant raised ==> exists id :: id in selected && id !in hosts
        decreases todo, !raised
      {
        var id :| id in todo;
        Interfere(now);
        raised := id !in hosts;
        if !raised {
          hosts := hosts[id := hosts[id].(online := false)];
        }
        todo := todo - {id};
      }
    }
  }
}
