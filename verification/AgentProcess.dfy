/** The agent's two routines around its channel: the HTTP handler that fills it and the worker
    that empties it. */
module AgentProcess {
  import opened Wrappers
  import opened Rows
  import opened SignedForm
  import Machine

  /** What the worker posts back for one message. */
  datatype Report = Report(outcome: Outcome, taskUuid: string)

  /** A request to the handler: the body and the token in its header. */
  datatype Request = Request(data: string, token: seq<Byte>)

  const NO_COMMAND := Command("", "", "", "", "", "", "", "")

  function Bodies(requests: seq<Request>): (bodies: seq<string>)
    ensures |bodies| == |requests|
    ensures forall k :: 0 <= k < |requests| ==> bodies[k] == requests[k].data
  {
    seq(|requests|, k requires 0 <= k < |requests| => requests[k].data)
  }

  function Flatten(arrivals: seq<seq<Request>>): seq<Request> {
    if arrivals == [] then [] else arrivals[0] + Flatten(arrivals[1..])
  }

  function First(coming: seq<seq<Request>>): seq<Request> {
    if coming == [] then [] else coming[0]
  }

  function Later(coming: seq<seq<Request>>): seq<seq<Request>> {
    if coming == [] then [] else coming[1..]
  }

  class AgentProcess {
    const secret: string
    const mac: Mac
    // Decoding JSON is foreign code; None is a syntax error.
    const decode: string -> Option<Command>
    var channel: seq<string>
    // Messages of handlers that wait for room in the channel, in the order in which they came.
    var waiting: seq<string>
    var reports: seq<Report>
    // Every request that was accepted, oldest first.
    ghost var accepted: seq<Request>

    constructor (secret: string, mac: Mac, decode: string -> Option<Command>)
      ensures Valid() && channel == waiting == [] && reports == [] && accepted == []
      ensures this.secret == secret && this.mac == mac && this.decode == decode
    {
      this.secret := secret;
      this.mac := mac;
      this.decode := decode;
      channel, waiting, reports, accepted := [], [], [], [];
    }

    /** The body decodes to a command signed with this agent's secret in this very token. */
    predicate Accepts(r: Request) {
      decode(r.data).Some? && Validates(mac, secret, decode(r.data).value, r.token)
    }

    /** The keyed hash of the text rebuilt from a command. */
    function Expected(cmd: Command): seq<Byte> {
      mac(secret, Utf8Bytes(AgentText(cmd)))
    }

    /** The command of a message; decoding errors are ignored. */
    function Loaded(message: string): Command {
      match decode(message)
      case None => NO_COMMAND
      case Some(cmd) => cmd
    }

    /** The report answers the request. */
    predicate Answers(report: Report, r: Request) {
      Accepts(r) && report.taskUuid == decode(r.data).value.taskUuid
    }

    /** The reports made so far answer the oldest accepted requests one by one, and the bodies of the
        others are in the channel and behind it, in order. */
    ghost predicate Valid()
      reads this
    {
      && |channel| <= Machine.CAPACITY && (waiting != [] ==> |channel| == Machine.CAPACITY)
      && |reports| <= |accepted|
      && (forall k :: 0 <= k < |accepted| ==> Accepts(accepted[k]))
      && (forall k :: 0 <= k < |reports| ==> Answers(reports[k], accepted[k]))
      && channel + waiting == Bodies(accepted[|reports|..])
    }

    /** `ListenAction`: 400 for a request that is not accepted; 202 once the message is in the channel.
        None says that the handler still waits for room. */
    method Listen(r: Request) returns (status: Option<nat>)
      requires Valid()
      modifies this`channel, this`waiting, this`accepted
      ensures Valid()
      ensures status == Some(400) <==> decode(r.data).None? || r.token != Expected(decode(r.data).value)
      ensures status != Some(400) <==> Accepts(r)
      ensures status != Some(400) ==> status == if old(|channel|) < 500 then Some(202) else None
      ensures accepted == if status != Some(400) then old(accepted) + [r] else old(accepted)
      ensures channel == if status == Some(202) then old(channel) + [r.data] else old(channel)
      ensures waiting == if status == None then old(waiting) + [r.data] else old(waiting)
      ensures channel + waiting == old(channel + waiting) + (if status != Some(400) then [r.data] else [])
    {
      var cmd := decode(r.data);
      if cmd.None? {
        return Some(400);
      }
      if !Validates(mac, secret, cmd.value, r.token) {
        return Some(400);
      }
      assert Bodies((accepted + [r])[|reports|..]) == Bodies(accepted[|reports|..]) + [r.data];
      accepted := accepted + [r];
      if |channel| < Machine.CAPACITY {
        channel := channel + [r.data];
        status := Some(202);
      } else {
        waiting := waiting + [r.data];
        status := None;
      }
    }

    function Admitted(requests: seq<Request>): seq<Request> {
      if requests == [] then [] else (if Accepts(requests[0]) then [requests[0]] else []) + Admitted(requests[1..])
    }

    lemma {:induction false} AdmittedConcat(a: seq<Request>, b: seq<Request>)
      ensures Admitted(a + b) == Admitted(a) + Admitted(b)
    {
      if a == [] {
        assert a + b == b;
      } else {
        assert (a + b)[1..] == a[1..] + b;
        AdmittedConcat(a[1..], b);
      }
    }

    lemma AdmittedOneMore(requests: seq<Request>, k: nat)
      requires k < |requests|
      ensures Admitted(requests[..k + 1])
              == Admitted(requests[..k]) + (if Accepts(requests[k]) then [requests[k]] else [])
    {
      assert requests[..k + 1] == requests[..k] + [requests[k]];
      AdmittedConcat(requests[..k], [requests[k]]);
    }

    method ListenAll(requests: seq<Request>)
      requires Valid()
      modifies this`channel, this`waiting, this`accepted
      ensures Valid() && accepted == old(accepted) + Admitted(requests)
    {
      var k := 0;
      while k < |requests|
        invariant 0 <= k <= |requests| && Valid()
        invariant accepted == old(accepted) + Admitted(requests[..k])
      {
        var _ := Listen(requests[k]);
        AdmittedOneMore(requests, k);
        k := k + 1;
      }
      assert requests[..k] == requests;
    }

    /** The oldest message in the channel is the body of the oldest request without a report. */
    lemma OldestIsNext()
      requires Valid() && channel != []
      ensures |reports| < |accepted| && channel[0] == accepted[|reports|].data
      ensures channel[1..] + waiting == Bodies(accepted[|reports| + 1..])
    {
      var rest := accepted[|reports|..];
      assert (channel + waiting)[0] == Bodies(rest)[0];
      assert rest[1..] == accepted[|reports| + 1..];
      assert (channel + waiting)[1..] == Bodies(rest)[1..] == Bodies(rest[1..]);
    }

    /** Taking a message lets the first waiting handler send its own. */
    method Receive() returns (message: string)
      requires channel != [] && |channel| <= Machine.CAPACITY && (waiting != [] ==> |channel| == Machine.CAPACITY)
      modifies this`channel, this`waiting
      ensures message == old(channel[0]) && channel + waiting == old(channel[1..] + waiting)
      ensures |channel| <= Machine.CAPACITY && (waiting != [] ==> |channel| == Machine.CAPACITY)
    {
      message := channel[0];
      if waiting == [] {
        channel := channel[1..];
      } else {
        assert waiting == [waiting[0]] + waiting[1..];
        channel, waiting := channel[1..] + [waiting[0]], waiting[1..];
      }
    }

    /** One turn of the worker's loop: take a message, run the upgrade and report. */
    method HandleMessage(succeeded: bool)
      requires Valid() && channel != []
      modifies this`channel, this`waiting, this`reports
      ensures Valid() && |channel| + |waiting| == old(|channel| + |waiting|) - 1
      ensures |reports| == old(|reports|) + 1 && old(reports) <= reports
      ensures reports[old(|reports|)].outcome == if succeeded then HostUpdated else HostFailed
    {
      OldestIsNext();
      ghost var left := channel[1..] + waiting;
      var message := Receive();
      assert |channel + waiting| == |left|;
      var outcome := if succeeded then HostUpdated else HostFailed;
      reports := reports + [Report(outcome, Loaded(message).taskUuid)];
    }

    /** From `before` on, the reports say how the upgrades ended. */
    predicate Tells(before: seq<Report>, after: seq<Report>, succeeds: nat -> bool) {
      && before <= after
      && forall k :: |before| <= k < |after| ==> (after[k].outcome == HostUpdated <==> succeeds(k - |before|))
    }

    /** One turn of the worker's loop, the requests coming while the upgrade is run. */
    method Turn(succeeds: nat -> bool, ghost before: seq<Report>, run: nat, requests: seq<Request>) returns (ran: nat)
      requires Valid() && Tells(before, reports, succeeds) && |reports| == |before| + run
      modifies this`channel, this`waiting, this`reports, this`accepted
      ensures Valid() && Tells(before, reports, succeeds) && |reports| == |before| + ran
      ensures accepted == old(accepted) + Admitted(requests)
      ensures old(channel) != [] && requests == [] ==> |channel| + |waiting| == old(|channel| + |waiting|) - 1
    {
      ran := run;
      if channel != [] {
        ghost var earlier := reports;
        HandleMessage(succeeds(run));
        TellsOneMore(before, earlier, reports, succeeds);
        ran := run + 1;
      }
      if requests != [] {
        ListenAll(requests);
      }
    }

    lemma TellsOneMore(before: seq<Report>, earlier: seq<Report>, after: seq<Report>, succeeds: nat -> bool)
      requires Tells(before, earlier, succeeds) && earlier <= after && |after| == |earlier| + 1
      requires after[|earlier|].outcome == HostUpdated <==> succeeds(|earlier| - |before|)
      ensures Tells(before, after, succeeds)
    {
    }

    /** `UpdateWorker`, until nothing is left. `succeeds` says how the k-th upgrade ends, and
        `arrivals` which requests come during the k-th turn. The k-th report of all answers the k-th
        request accepted of all. */
    method UpdateWorker(succeeds: nat -> bool, arrivals: seq<seq<Request>>)
      requires Valid()
      modifies this
      ensures Valid() && channel == waiting == []
      ensures accepted == old(accepted) + Admitted(Flatten(arrivals)) && |reports| == |accepted|
      ensures forall k :: 0 <= k < |reports| ==> Answers(reports[k], accepted[k])
      ensures Tells(old(reports), reports, succeeds)
    {
      var coming, run := arrivals, 0;
      while channel != [] || coming != []
        invariant Valid() && Tells(old(reports), reports, succeeds) && |reports| == old(|reports|) + run
        invariant accepted + Admitted(Flatten(coming)) == old(accepted) + Admitted(Flatten(arrivals))
        decreases |coming|, |channel| + |waiting|
      {
        ghost var admitted := accepted;
        run := Turn(succeeds, old(reports), run, First(coming));
        AdmitNext(admitted, coming);
        coming := Later(coming);
      }
      assert Bodies(accepted[|reports|..]) == [];
    }

    lemma AdmitNext(before: seq<Request>, coming: seq<seq<Request>>)
      ensures before + Admitted(First(coming)) + Admitted(Flatten(Later(coming))) == before + Admitted(Flatten(coming))
    {
      if coming != [] {
        AdmittedConcat(coming[0], Flatten(coming[1..]));
      }
    }
  }

  /** End to end: a body with ASCII fields, signed with the agent's secret and decoded to what was
      encoded, is accepted and comes behind the messages already there. */
  method SendAndListen(agent: AgentProcess, b: Body, data: string) returns (status: Option<nat>, ghost token: seq<Byte>)
    requires agent.Valid() && agent.decode(data) == Some(Decoded(b)) && AsciiFields(b)
    modifies agent`channel, agent`waiting, agent`accepted
    ensures agent.Valid() && status != Some(400)
    ensures agent.channel + agent.waiting == old(agent.channel + agent.waiting) + [data]
    ensures Token(agent.mac, agent.secret, b) == Some(token)
    ensures agent.accepted == old(agent.accepted) + [Request(data, token)]
  {
    var r := Sign(agent, b, data);
    token := r.token;
    status := agent.Listen(r);
  }

  method Sign(agent: AgentProcess, b: Body, data: string) returns (r: Request)
    requires agent.decode(data) == Some(Decoded(b)) && AsciiFields(b)
    ensures r.data == data && agent.Accepts(r) && Token(agent.mac, agent.secret, b) == Some(r.token)
  {
    AsciiIsAccepted(agent.mac, agent.secret, b);
    r := Request(data, Token(agent.mac, agent.secret, b).value);
  }
}
