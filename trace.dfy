/**
 * Whole runs of the probe: the handlers folded over a sequence of events.
 *
 * The runtime stops delivering events once the process has exited; `Run`
 * accepts any sequence, so what is proved here for all sequences holds in
 * particular for the prefixes a real run delivers.
 */
module Trace {
  import opened Wrappers
  import opened Probe

  /** The state after the events, and every action they triggered, in order. */
  function Run(cfg: Config, s: State, events: seq<Event>): Outcome
    decreases |events|
  {
    if events == [] then Outcome(s, [])
    else
      var first := Step(cfg, s, events[0]);
      var rest := Run(cfg, first.state, events[1..]);
      Outcome(rest.state, first.actions + rest.actions)
  }

  /** A run of one event whose step is known. */
  lemma RunLastStep(cfg: Config, s: State, events: seq<Event>, s': State, a: seq<Action>)
    requires |events| == 1 && Step(cfg, s, events[0]) == Outcome(s', a)
    ensures Run(cfg, s, events) == Outcome(s', a)
  {
    assert events[1..] == [];
  }

  /** A run whose first step and remaining run are known: their actions, in order. */
  lemma RunFirstStep(cfg: Config, s: State, events: seq<Event>, s': State, a: seq<Action>,
                     s'': State, rest: seq<Action>)
    requires events != [] && Step(cfg, s, events[0]) == Outcome(s', a)
    requires Run(cfg, s', events[1..]) == Outcome(s'', rest)
    ensures Run(cfg, s, events) == Outcome(s'', a + rest)
  {
  }

  /** The parsed messages among the events, in arrival order. */
  function ReceivedMessages(events: seq<Event>): seq<Parsed> {
    if events == [] then []
    else (if events[0].Received? then [events[0].m] else []) + ReceivedMessages(events[1..])
  }

  /** The fresh ids supplied with the `connection_ack` messages, in arrival order. */
  function AckIds(events: seq<Event>): seq<string> {
    if events == [] then []
    else
      (if events[0].Received? && HasType(events[0].m, "connection_ack") then [events[0].freshId] else [])
      + AckIds(events[1..])
  }

  /** The ids of the `start` envelopes among the actions, in order. */
  function StartIds(actions: seq<Action>): seq<string> {
    if actions == [] then []
    else
      (if actions[0].Send? && actions[0].envelope.Start? then [actions[0].envelope.id] else [])
      + StartIds(actions[1..])
  }

  /** Immediate exits always report failure; the delayed exit always reports success. */
  predicate ExitCodesFixed(actions: seq<Action>) {
    forall a | a in actions :: (a.Exit? ==> a.code == 1) && (a.ScheduleCloseAndExit? ==> a.code == 0)
  }

  /** Every scheduled close-and-exit comes straight after a `stop` envelope. */
  predicate SuccessAfterStop(actions: seq<Action>) {
    forall i | 0 <= i < |actions| && actions[i].ScheduleCloseAndExit? ::
      0 < i && actions[i - 1].Send? && actions[i - 1].envelope.Stop?
  }

  /** The queue is the initial queue followed by every parsed message, each once, in order. */
  lemma {:induction false} RunQueue(cfg: Config, s: State, events: seq<Event>)
    ensures Run(cfg, s, events).state.messageQueue == s.messageQueue + ReceivedMessages(events)
    decreases |events|
  {
    if events != [] {
      var first := Step(cfg, s, events[0]);
      RunQueue(cfg, first.state, events[1..]);
    }
  }

  /**
   * The handle at the end of a run is the fresh id of the last
   * `connection_ack`, or the initial handle when none arrived.
   */
  lemma {:induction false} RunHandle(cfg: Config, s: State, events: seq<Event>)
    ensures var ids := AckIds(events);
            Run(cfg, s, events).state.subscriptionId
            == if ids == [] then s.subscriptionId else Some(ids[|ids| - 1])
    decreases |events|
  {
    if events != [] {
      var first := Step(cfg, s, events[0]);
      RunHandle(cfg, first.state, events[1..]);
    }
  }

  /** From the initial state, no handle exists before a `connection_ack` has arrived. */
  lemma NoHandleBeforeAck(cfg: Config, events: seq<Event>)
    requires AckIds(events) == []
    ensures Run(cfg, Initial, events).state.subscriptionId == None
  {
    RunHandle(cfg, Initial, events);
  }

  lemma {:induction false} StartIdsAppend(a: seq<Action>, b: seq<Action>)
    ensures StartIds(a + b) == StartIds(a) + StartIds(b)
    decreases |a|
  {
    if a != [] {
      var head := if a[0].Send? && a[0].envelope.Start? then [a[0].envelope.id] else [];
      assert (a + b)[0] == a[0] && (a + b)[1..] == a[1..] + b;
      StartIdsAppend(a[1..], b);
      assert StartIds(a + b) == head + StartIds(a[1..] + b);
    } else {
      assert a + b == b;
    }
  }

  /**
   * One `start` envelope is sent per `connection_ack`, and none otherwise,
   * each carrying the fresh id of its `connection_ack`.
   */
  lemma {:induction false} RunStarts(cfg: Config, s: State, events: seq<Event>)
    ensures StartIds(Run(cfg, s, events).actions) == AckIds(events)
    decreases |events|
  {
    if events != [] {
      var first := Step(cfg, s, events[0]);
      var rest := Run(cfg, first.state, events[1..]);
      RunStarts(cfg, first.state, events[1..]);
      StartIdsAppend(first.actions, rest.actions);
      var a := first.actions;
      assert StartIds(a) == if events[0].Received? && HasType(events[0].m, "connection_ack")
                            then [events[0].freshId] else [] by {
        if |a| == 2 {
          assert StartIds(a) == StartIds(a[..1]) + StartIds(a[1..]) by {
            assert a == a[..1] + a[1..];
            StartIdsAppend(a[..1], a[1..]);
          }
        }
      }
    }
  }

  /** Exit 1 on every failure path, exit 0 only through the delayed success exit. */
  lemma {:induction false} RunExitCodes(cfg: Config, s: State, events: seq<Event>)
    ensures ExitCodesFixed(Run(cfg, s, events).actions)
    decreases |events|
  {
    if events != [] {
      var first := Step(cfg, s, events[0]);
      RunExitCodes(cfg, first.state, events[1..]);
    }
  }

  lemma SuccessAfterStopAppend(a: seq<Action>, b: seq<Action>)
    requires SuccessAfterStop(a) && SuccessAfterStop(b)
    ensures SuccessAfterStop(a + b)
  {
  }

  /** The success exit is never scheduled without a `stop` sent just before it. */
  lemma {:induction false} RunSuccessAfterStop(cfg: Config, s: State, events: seq<Event>)
    ensures SuccessAfterStop(Run(cfg, s, events).actions)
    decreases |events|
  {
    if events != [] {
      var first := Step(cfg, s, events[0]);
      var rest := Run(cfg, first.state, events[1..]);
      RunSuccessAfterStop(cfg, first.state, events[1..]);
      SuccessAfterStopAppend(first.actions, rest.actions);
    }
  }
}
