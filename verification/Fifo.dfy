/** An agent's commands along a run: accepted, run and reported in one order, none lost or doubled
    while the agent does not crash. */
module Fifo {
  import opened Wrappers
  import opened Targets
  import opened Rows
  import opened Machine
  import opened AgentSteps

  function AcceptedNow(l: Step, h: HostId): seq<TaskId> {
    if l.CommandQueued? && l.host == h then [l.task] else []
  }

  function ReportedNow(a: Agent, l: Step, h: HostId): seq<TaskId> {
    if l.CommandReported? && l.host == h && a.working.Some? then [a.working.value] else []
  }

  /** Commands put into the agent's channel, oldest first. */
  function Accepted(steps: seq<Step>, h: HostId): seq<TaskId> {
    if steps == [] then []
    else AcceptedNow(steps[0], h) + Accepted(steps[1..], h)
  }

  /** Commands the agent has run and reported about, oldest first. */
  function Reported(s: State, steps: seq<Step>, h: HostId): seq<TaskId>
    decreases |steps|
  {
    if steps == [] || !Enabled(s, steps[0]) then []
    else ReportedNow(AgentOf(s, h), steps[0], h) + Reported(Apply(s, steps[0]), steps[1..], h)
  }

  /** Commands taken from the network and not yet reported: the one running, then the channel. */
  function Held(a: Agent): seq<TaskId> {
    (if a.working.Some? then [a.working.value] else []) + a.queue
  }

  predicate CrashFree(steps: seq<Step>, h: HostId) {
    forall l :: l in steps ==> l != AgentCrashes(h)
  }

  /** One step of the agent itself. */
  lemma AgentKeepsOrder(a: Agent, l: Step)
    requires AgentReady(a, l) && !l.AgentCrashes?
    ensures var z := StepAgent(a, l);
            var accepted := if l.CommandQueued? then [l.task] else [];
            var reported := if l.CommandReported? then [a.working.value] else [];
            Held(a) + accepted == reported + Held(z) && (|a.queue| <= 500 ==> |z.queue| <= 500)
  {
    if l.CommandTaken? {
      assert a.queue == [a.queue[0]] + a.queue[1..];
    }
  }

  /** A step of the agent of host `h`. */
  predicate OfAgent(l: Step, h: HostId) {
    match l
    case CommandQueued(g, _) => g == h
    case CommandDropped(g, _) => g == h
    case CommandTaken(g) => g == h
    case CommandReported(g, _) => g == h
    case AgentCrashes(g) => g == h
    case ReportLost(g, _, _) => g == h
    case ReportTaken(g, _, _) => g == h
    case _ => false
  }

  lemma PostsOnlyFillHandlers(s: State, l: Step, h: HostId)
    requires Enabled(s, l) && l.PatchPosts?
    ensures var a, z := AgentOf(s, h), AgentOf(Apply(s, l), h); z == a.(handlers := z.handlers)
  {
  }

  lemma AgentStepsKeepOthers(s: State, l: Step, h: HostId)
    requires Enabled(s, l) && (IsAgentStep(l) || l.ReportTaken?) && l.host != h
    ensures AgentOf(Apply(s, l), h) == AgentOf(s, h)
  {
  }

  lemma OthersKeepAgents(s: State, l: Step)
    requires Enabled(s, l) && !l.PatchPosts? && !IsAgentStep(l) && !l.ReportTaken?
    ensures Apply(s, l).agents == s.agents
  {
  }

  lemma OtherStepsKeepAgent(s: State, l: Step, h: HostId)
    requires Enabled(s, l) && !OfAgent(l, h)
    ensures var a, z := AgentOf(s, h), AgentOf(Apply(s, l), h); z == a.(handlers := z.handlers)
  {
    if l.PatchPosts? {
      PostsOnlyFillHandlers(s, l, h);
    } else if IsAgentStep(l) || l.ReportTaken? {
      AgentStepsKeepOthers(s, l, h);
    } else {
      OthersKeepAgents(s, l);
    }
  }

  lemma OwnStepMovesAgent(s: State, l: Step, h: HostId)
    requires Enabled(s, l) && OfAgent(l, h)
    ensures AgentReady(AgentOf(s, h), l) && AgentOf(Apply(s, l), h) == StepAgent(AgentOf(s, h), l)
  {
  }

  lemma StepKeepsOrder(s: State, l: Step, h: HostId)
    requires Enabled(s, l) && l != AgentCrashes(h)
    ensures Held(AgentOf(s, h)) + AcceptedNow(l, h) == ReportedNow(AgentOf(s, h), l, h) + Held(AgentOf(Apply(s, l), h))
    ensures |AgentOf(s, h).queue| <= 500 ==> |AgentOf(Apply(s, l), h).queue| <= 500
  {
    if OfAgent(l, h) {
      OwnStepMovesAgent(s, l, h);
      AgentKeepsOrder(AgentOf(s, h), l);
    } else {
      OtherStepsKeepAgent(s, l, h);
    }
  }

  /** Held at first ++ accepted = reported ++ held at last, and the channel keeps its bound. */
  lemma {:induction false} FirstInFirstOut(s: State, steps: seq<Step>, z: State, h: HostId)
    requires Run(s, steps, z) && CrashFree(steps, h) && |AgentOf(s, h).queue| <= 500
    ensures Held(AgentOf(s, h)) + Accepted(steps, h) == Reported(s, steps, h) + Held(AgentOf(z, h))
    ensures |AgentOf(z, h).queue| <= 500
    decreases |steps|
  {
    if steps == [] {
    } else {
      var l, m := steps[0], Apply(s, steps[0]);
      assert l in steps && forall k :: k in steps[1..] ==> k in steps;
      StepKeepsOrder(s, l, h);
      FirstInFirstOut(m, steps[1..], z, h);
      Rearrange(Held(AgentOf(s, h)), AcceptedNow(l, h), Accepted(steps[1..], h), ReportedNow(AgentOf(s, h), l, h),
                Held(AgentOf(m, h)), Reported(m, steps[1..], h), Held(AgentOf(z, h)));
    }
  }

  lemma Rearrange(held: seq<TaskId>, acc1: seq<TaskId>, acc2: seq<TaskId>, rep1: seq<TaskId>,
                  mid: seq<TaskId>, rep2: seq<TaskId>, last: seq<TaskId>)
    requires held + acc1 == rep1 + mid && mid + acc2 == rep2 + last
    ensures held + (acc1 + acc2) == (rep1 + rep2) + last
  {
    assert held + (acc1 + acc2) == (held + acc1) + acc2;
    assert (rep1 + mid) + acc2 == rep1 + (mid + acc2);
    assert rep1 + (rep2 + last) == (rep1 + rep2) + last;
  }

  /** From the start of the system: what was accepted is what was reported, then what is held. */
  lemma AcceptedIsReportedThenHeld(s: State, steps: seq<Step>, z: State, h: HostId)
    requires Init(s) && Run(s, steps, z) && CrashFree(steps, h)
    ensures Accepted(steps, h) == Reported(s, steps, h) + Held(AgentOf(z, h))
    ensures |AgentOf(z, h).queue| <= 500
  {
    FirstInFirstOut(s, steps, z, h);
    assert [] + Accepted(steps, h) == Accepted(steps, h);
  }
}
