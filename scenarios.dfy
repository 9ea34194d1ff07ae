/**
 * Concrete runs of the probe: the documented handshake, the early
 * disconnect, a server error, and the edge cases of strict id comparison.
 */
module Scenarios {
  import opened Wrappers
  import opened Probe
  import opened Trace
  import HostName

  const Cfg := Config("wss://x.example.com/graphql", "https://x.example.com/graphql", "da2-abc")

  function Msg(t: string, id: JsValue): Parsed {
    ObjectValue(JsString(t), id)
  }

  lemma ExampleEndpointHost()
    ensures HostName.ExtractHost("https://x.example.com/graphql") == "x.example.com"
  {
    assert "https://x.example.com/graphql" == "https://" + "x.example.com" + "/" + "graphql";
    HostName.HttpsEndpointHost("x.example.com", "graphql");
  }

  /** A port stays part of the host. */
  lemma PortKeptInHost()
    ensures HostName.ExtractHost("https://localhost:8080/graphql") == "localhost:8080"
  {
    assert "https://localhost:8080/graphql" == "https://" + "localhost:8080" + "/" + "graphql";
    HostName.HttpsEndpointHost("localhost:8080", "graphql");
  }

  /** The documented handshake: open, connection_ack, start_ack and data for handle `h`. */
  function Handshake(h: string, u1: string, u2: string): seq<Event> {
    [Opened, Received(Msg("connection_ack", Undefined), h),
     Received(Msg("start_ack", JsString(h)), u1),
     Received(Msg("data", JsString(h)), u2)]
  }

  /** `connection_ack` in any state: the handle becomes the fresh id and one start goes out. */
  lemma AckStep(cfg: Config, s: State, h: string)
    ensures var m := Msg("connection_ack", Undefined);
            Step(cfg, s, Received(m, h))
            == Outcome(State(Some(h), s.messageQueue + [m]), [Send(StartFor(cfg, h))])
  {
  }

  /** A `start_ack` for the current handle fires the mutation and keeps the handle. */
  lemma StartAckStep(cfg: Config, s: State, h: string, u: string)
    requires s.subscriptionId == Some(h)
    ensures var m := Msg("start_ack", JsString(h));
            Step(cfg, s, Received(m, u))
            == Outcome(State(Some(h), s.messageQueue + [m]), [FireMutation(cfg.graphqlEndpoint, cfg.apiKey)])
  {
  }

  /** A `data` for the current handle sends stop and schedules the success exit. */
  lemma DataStep(cfg: Config, s: State, h: string, u: string)
    requires s.subscriptionId == Some(h)
    ensures var m := Msg("data", JsString(h));
            Step(cfg, s, Received(m, u))
            == Outcome(State(Some(h), s.messageQueue + [m]), [Send(Stop(Some(h))), ScheduleCloseAndExit(0)])
  {
  }

  /** Five singletons joined right to left are the five-element sequence. */
  lemma JoinFive<T>(x0: T, x1: T, x2: T, x3: T, x4: T)
    ensures [x0] + ([x1] + ([x2] + [x3, x4])) == [x0, x1, x2, x3, x4]
  {
  }

  /**
   * connection_ack, start_ack and data for the same handle: one start, the
   * mutation, one stop, then the success exit.
   */
  lemma HandshakeSucceeds(cfg: Config, h: string, u1: string, u2: string)
    ensures Run(cfg, Initial, Handshake(h, u1, u2)).actions
            == [Send(ConnectionInit),
                Send(StartFor(cfg, h)),
                FireMutation(cfg.graphqlEndpoint, cfg.apiKey),
                Send(Stop(Some(h))),
                ScheduleCloseAndExit(0)]
  {
    var events := Handshake(h, u1, u2);
    var s2 := State(Some(h), [events[1].m]);
    var s3 := State(Some(h), [events[1].m, events[2].m]);
    var s4 := State(Some(h), [events[1].m, events[2].m, events[3].m]);
    var a1, a2, a3 := [Send(StartFor(cfg, h))], [FireMutation(cfg.graphqlEndpoint, cfg.apiKey)],
                      [Send(Stop(Some(h))), ScheduleCloseAndExit(0)];
    assert Run(cfg, s3, events[3..]) == Outcome(s4, a3) by {
      DataStep(cfg, s3, h, u2);
      RunLastStep(cfg, s3, events[3..], s4, a3);
    }
    assert Run(cfg, s2, events[2..]) == Outcome(s4, a2 + a3) by {
      StartAckStep(cfg, s2, h, u1);
      RunFirstStep(cfg, s2, events[2..], s3, a2, s4, a3);
    }
    assert Run(cfg, Initial, events[1..]) == Outcome(s4, a1 + (a2 + a3)) by {
      AckStep(cfg, Initial, h);
      RunFirstStep(cfg, Initial, events[1..], s2, a1, s4, a2 + a3);
    }
    assert Run(cfg, Initial, events) == Outcome(s4, [Send(ConnectionInit)] + (a1 + (a2 + a3))) by {
      RunFirstStep(cfg, Initial, events, Initial, [Send(ConnectionInit)], s4, a1 + (a2 + a3));
    }
    JoinFive(Send(ConnectionInit), a1[0], a2[0], a3[0], a3[1]);
  }

  /** With the example endpoints, the start envelope names the example host and key. */
  lemma ExampleHandshake(h: string)
    ensures StartFor(Cfg, h) == Start(h, SubscriptionQuery, "x.example.com", "da2-abc")
  {
    ExampleEndpointHost();
  }

  /** The socket closes before any connection_ack: failure exit. */
  lemma EarlyCloseFails(cfg: Config)
    ensures Run(cfg, Initial, [Opened, Closed]).actions == [Send(ConnectionInit), Exit(1)]
  {
  }

  /** An error envelope ends the run with close and exit 1, here before any handle exists. */
  lemma ServerErrorFails(cfg: Config)
    ensures Run(cfg, Initial, [Opened, Received(Msg("error", Undefined), "u")]).actions
            == [Send(ConnectionInit), CloseSocket, Exit(1)]
  {
  }

  /** Before connection_ack the handle is null: an explicit null id matches it. */
  lemma NullIdMatchesInitialHandle(cfg: Config, f: string)
    ensures Dispatch(cfg, None, Msg("data", Null), f).actions
            == [Send(Stop(None)), ScheduleCloseAndExit(0)]
    ensures Dispatch(cfg, None, Msg("start_ack", Null), f).actions
            == [FireMutation(cfg.graphqlEndpoint, cfg.apiKey)]
  {
  }

  /** A missing id is `undefined`, which is never `===` to the handle. */
  lemma MissingIdNeverMatches(cfg: Config, sub: Option<string>, f: string)
    ensures Dispatch(cfg, sub, Msg("data", Undefined), f).actions == []
    ensures Dispatch(cfg, sub, Msg("start_ack", Undefined), f).actions == []
  {
  }

  /**
   * The handle is not remembered per subscription: a second connection_ack
   * replaces it, and an event for the first handle is then ignored.
   */
  lemma SecondAckReplacesHandle(cfg: Config)
    ensures var r := Run(cfg, Initial, [Received(Msg("connection_ack", Undefined), "A"),
                                        Received(Msg("connection_ack", Undefined), "B"),
                                        Received(Msg("data", JsString("A")), "u")]);
            r.state.subscriptionId == Some("B")
            && r.actions == [Send(StartFor(cfg, "A")), Send(StartFor(cfg, "B"))]
  {
  }

  /** The handler does not require start_ack before data: a matching data is accepted at once. */
  lemma DataAcceptedWithoutStartAck(cfg: Config)
    ensures Run(cfg, Initial, [Received(Msg("connection_ack", Undefined), "H"),
                               Received(Msg("data", JsString("H")), "u")]).actions
            == [Send(StartFor(cfg, "H")), Send(Stop(Some("H"))), ScheduleCloseAndExit(0)]
  {
  }
}
