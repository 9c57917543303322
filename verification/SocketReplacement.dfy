/**
 The sockets that indexer-ws.ts opens one after another. The client refers to one of them at most, but an earlier one
 may not be closed yet, and its close handler clears the reference whatever it refers to by then.
 */
module SocketReplacement {
  import opened JsBasics
  import IndexerSocket

  datatype Ready = Connecting | Open | Closing

  /** `server` is what the other end of this connection is subscribed to. */
  datatype Socket = Socket(ready: Ready, server: set<string>)

  /** `sockets` holds those not closed yet, by the order in which they were opened. */
  datatype State = State(subscribed: set<string>, pending: set<string>, current: Option<nat>, sockets: map<nat, Socket>,
                         timer: bool, shouldRun: bool, nextId: nat)

  datatype Event =
    | Subscribe(channels: set<string>)
    | Unsubscribe(channels: set<string>)
    | Disconnect
    | Opened(id: nat)
    | Failing(id: nat)
    | Closed(id: nat)
    | TimerFires

  // ---- steps ---------------------------------------------------------------

  function OpenSocket(s: State): State {
    s.(sockets := s.sockets[s.nextId := Socket(Connecting, {})], current := Some(s.nextId), nextId := s.nextId + 1)
  }

  /** The client refers to a socket that is open or connecting. */
  predicate HasLive(s: State) {
    s.current.Some? && s.current.value in s.sockets && !s.sockets[s.current.value].ready.Closing?
  }

  function Connect(s: State): State {
    var t := s.(shouldRun := true);
    if HasLive(s) then t else OpenSocket(t)
  }

  predicate CanSend(s: State) {
    s.current.Some? && s.current.value in s.sockets && s.sockets[s.current.value].ready.Open?
  }

  /** What the other end of the current socket is subscribed to. */
  function Served(s: State): set<string>
    requires CanSend(s)
  { s.sockets[s.current.value].server }

  function Serve(s: State, channels: set<string>): State
    requires CanSend(s)
  { s.(sockets := s.sockets[s.current.value := Socket(Open, channels)]) }

  function Flush(s: State): State {
    if CanSend(s) then Serve(s, Served(s) + s.pending).(pending := {}) else s
  }

  function Step(s: State, e: Event): State {
    match e
    case Subscribe(cs) => Flush(Connect(s.(pending := s.pending + cs, subscribed := s.subscribed + cs)))
    case Unsubscribe(cs) =>
      var t := s.(pending := s.pending - cs, subscribed := s.subscribed - cs);
      if CanSend(t) then Serve(t, Served(t) - cs) else t
    case Disconnect =>
      var t := s.(shouldRun := false, timer := false, current := None);
      if s.current.Some? && s.current.value in s.sockets
      then t.(sockets := s.sockets[s.current.value := s.sockets[s.current.value].(ready := Closing)])
      else t
    case Opened(id) =>
      if id in s.sockets && s.sockets[id].ready.Connecting?
      then Flush(s.(sockets := s.sockets[id := s.sockets[id].(ready := Open)])) else s
    case Failing(id) =>
      if id in s.sockets then s.(sockets := s.sockets[id := s.sockets[id].(ready := Closing)]) else s
    case Closed(id) =>
      if id in s.sockets
      then s.(sockets := s.sockets - {id}, current := None, timer := s.timer || s.shouldRun) else s
    case TimerFires => if s.timer then OpenSocket(s.(timer := false)) else s
  }

  const START := State({}, {}, None, map[], false, false, 0)

  function Run(events: seq<Event>): State {
    if events == [] then START else Step(Run(events[..|events| - 1]), events[|events| - 1])
  }

  // ---- one socket at a time ------------------------------------------------

  /** Every socket that is not closed yet is the current one, or closes with nothing in its place. */
  ghost predicate Tidy(s: State) {
    forall id :: id in s.sockets ==> s.current == Some(id) || (s.current == None && s.sockets[id].ready.Closing?)
  }

  /** The event opens a socket. */
  predicate Opens(s: State, e: Event) {
    (e.Subscribe? && !HasLive(s)) || (e.TimerFires? && s.timer)
  }

  ghost predicate Numbered(s: State) { forall id :: id in s.sockets ==> id < s.nextId }

  lemma StepKeepsNumbered(s: State, e: Event)
    requires Numbered(s)
    ensures Numbered(Step(s, e))
  {}

  /** A step makes a tidy state untidy exactly when it opens a socket before an earlier one is closed. */
  lemma StepStaysTidyExactly(s: State, e: Event)
    requires Numbered(s) && Tidy(s)
    ensures Tidy(Step(s, e)) <==> !(Opens(s, e) && s.sockets != map[])
  {
    if Opens(s, e) && s.sockets != map[] {
      var id :| id in s.sockets;
      assert id in Step(s, e).sockets && Step(s, e).current == Some(s.nextId);
    }
  }

  lemma {:induction false} RunIsNumbered(events: seq<Event>)
    ensures Numbered(Run(events))
  {
    if events != [] {
      RunIsNumbered(events[..|events| - 1]);
      StepKeepsNumbered(Run(events[..|events| - 1]), events[|events| - 1]);
    }
  }

  ghost predicate AlwaysTidy(events: seq<Event>) {
    forall k :: 0 <= k <= |events| ==> Tidy(Run(events[..k]))
  }

  /** Event `k` opens a socket before an earlier one is closed. */
  predicate OpensEarly(events: seq<Event>, k: nat)
    requires k < |events|
  {
    Opens(Run(events[..k]), events[k]) && Run(events[..k]).sockets != map[]
  }

  lemma TidyAtEnd(events: seq<Event>)
    requires AlwaysTidy(events)
    ensures Tidy(Run(events)) && (events != [] ==> AlwaysTidy(events[..|events| - 1]))
  {
    assert events[..|events|] == events;
    if events != [] {
      var before := events[..|events| - 1];
      forall k | 0 <= k <= |before| ensures Tidy(Run(before[..k])) { assert before[..k] == events[..k]; }
    }
  }

  ghost predicate NeverEarly(events: seq<Event>) {
    forall k: nat :: k < |events| ==> !OpensEarly(events, k)
  }

  lemma NeverEarlyOneMore(events: seq<Event>)
    requires events != []
    ensures var n := |events| - 1;
            NeverEarly(events) <==> NeverEarly(events[..n])
                                    && !(Opens(Run(events[..n]), events[n]) && Run(events[..n]).sockets != map[])
  {
    var n := |events| - 1;
    hide Run, Opens;
    forall k: nat | k < n ensures OpensEarly(events[..n], k) <==> OpensEarly(events, k) {
      assert events[..n][..k] == events[..k];
    }
    assert OpensEarly(events, n) <==> Opens(Run(events[..n]), events[n]) && Run(events[..n]).sockets != map[];
  }

  /** The client keeps one socket at a time exactly when it never opens one before the earlier one is closed. */
  lemma {:induction false} TidyExactly(events: seq<Event>)
    ensures AlwaysTidy(events) <==> NeverEarly(events)
  {
    if events == [] {
      assert events[..0] == [];
    } else {
      var n := |events| - 1;
      var before := events[..n];
      TidyExactly(before);
      NeverEarlyOneMore(events);
      RunIsNumbered(before);
      assert Run(events) == Step(Run(before), events[n]);
      hide Run, Step, Opens, Tidy, Numbered, AlwaysTidy, NeverEarly;
      if AlwaysTidy(events) { TidyAtEnd(events); }
      if AlwaysTidy(before) {
        TidyAtEnd(before);
        StepStaysTidyExactly(Run(before), events[n]);
        TidyOneMore(events);
      }
    }
  }

  lemma TidyOneMore(events: seq<Event>)
    requires events != [] && AlwaysTidy(events[..|events| - 1])
    ensures AlwaysTidy(events) <==> Tidy(Run(events))
  {
    var before := events[..|events| - 1];
    assert events[..|events|] == events;
    forall k | 0 <= k < |events| ensures Tidy(Run(events[..k])) { assert before[..k] == events[..k]; }
  }

  // ---- tidy runs are runs of the one reconnecting socket -------------------

  /** The state as the single-socket model sees it. */
  function Single(s: State): IndexerSocket.State {
    IndexerSocket.State(s.subscribed, s.pending, CanSend(s), if CanSend(s) then Served(s) else {})
  }

  /** The single-socket events that an event amounts to. */
  function Trace(s: State, e: Event): seq<IndexerSocket.Event> {
    match e
    case Subscribe(cs) => [IndexerSocket.Subscribe(cs)]
    case Unsubscribe(cs) => [IndexerSocket.Unsubscribe(cs)]
    case Opened(id) => if id in s.sockets && s.sockets[id].ready.Connecting? then [IndexerSocket.Opened] else []
    case Failing(id) => if id in s.sockets then [IndexerSocket.Closed] else []
    case Closed(id) => if id in s.sockets then [IndexerSocket.Closed] else []
    case Disconnect => [IndexerSocket.Closed]
    case TimerFires => []
  }

  function Traces(events: seq<Event>): seq<IndexerSocket.Event> {
    if events == [] then []
    else Traces(events[..|events| - 1]) + Trace(Run(events[..|events| - 1]), events[|events| - 1])
  }

  /** A new socket has no subscriptions yet; a connecting one is current. */
  ghost predicate NewIsEmpty(s: State) {
    forall id :: id in s.sockets && s.sockets[id].ready.Connecting? ==> s.sockets[id].server == {}
  }

  lemma StepKeepsNewEmpty(s: State, e: Event)
    requires NewIsEmpty(s)
    ensures NewIsEmpty(Step(s, e))
  {}

  lemma StepIsSingle(s: State, e: Event)
    requires Numbered(s) && NewIsEmpty(s) && Tidy(s) && !(Opens(s, e) && s.sockets != map[])
    ensures var trace := Trace(s, e);
            Single(Step(s, e)) == if trace == [] then Single(s) else IndexerSocket.Step(Single(s), trace[0])
  {}

  /**
   While the client keeps one socket at a time, it is the single reconnecting socket of IndexerSocket, and all that is
   proved there holds for it.
   */
  lemma {:induction false} TidyRunIsSingle(events: seq<Event>)
    requires AlwaysTidy(events)
    ensures Single(Run(events)) == IndexerSocket.Run(Traces(events)) && NewIsEmpty(Run(events))
  {
    if events != [] {
      var n := |events| - 1;
      var before := events[..n];
      TidyAtEnd(events);
      TidyAtEnd(before);
      TidyRunIsSingle(before);
      RunIsNumbered(before);
      StepStaysTidyExactly(Run(before), events[n]);
      StepIsSingle(Run(before), events[n]);
      StepKeepsNewEmpty(Run(before), events[n]);
      var trace := Trace(Run(before), events[n]);
      if trace == [] {
        assert Traces(events) == Traces(before);
      } else {
        assert trace == [trace[0]];
        IndexerSocket.RunOneMore(Traces(before), trace[0]);
      }
    }
  }

  /** So a tidy client's server never streams a channel that the client has given up. */
  lemma TidyStreamsSubscribed(events: seq<Event>)
    requires AlwaysTidy(events) && CanSend(Run(events))
    ensures Served(Run(events)) <= Run(events).subscribed
  {
    TidyRunIsSingle(events);
    IndexerSocket.SocketState(Traces(events));
  }

  // ---- runs that lose a socket ---------------------------------------------

  /** A socket is open, the client does not refer to it, and its server streams a channel that the client gave up. */
  ghost predicate Stray(s: State, id: nat, channel: string) {
    && id in s.sockets && s.sockets[id].ready.Open? && s.current != Some(id)
    && channel in s.sockets[id].server && channel !in s.subscribed
  }

  lemma Then(events: seq<Event>, e: Event) returns (longer: seq<Event>)
    ensures longer == events + [e] && Run(longer) == Step(Run(events), e)
  {
    longer := events + [e];
    assert longer[..|events|] == events;
  }

  /** Subscribing while the socket closes opens a second one, to which the late close handler drops the reference. */
  lemma SubscribeWhileClosing(a: string, b: string) returns (events: seq<Event>)
    requires a != b
    ensures events == [Subscribe({a}), Opened(0), Failing(0), Subscribe({b}), Opened(1), Closed(0), Unsubscribe({b})]
    ensures Stray(Run(events), 1, b)
  {
    var closing, opening := Socket(Closing, {a}), Socket(Connecting, {});
    var s0 := State({a}, {}, Some(0), map[0 := Socket(Open, {a})], false, true, 1);
    var s1 := s0.(sockets := map[0 := closing]);
    var s2 := State({a, b}, {b}, Some(1), map[0 := closing, 1 := opening], false, true, 2);
    var s3 := s2.(pending := {}, sockets := map[0 := closing, 1 := Socket(Open, {b})]);
    var s4 := s3.(current := None, sockets := map[1 := Socket(Open, {b})], timer := true);
    events := FirstSocket(a);
    assert Step(s0, Failing(0)) == s1;
    assert Step(s1, Subscribe({b})) == s2;
    assert Step(s2, Opened(1)) == s3;
    assert Step(s3, Closed(0)) == s4;
    hide Run;
    assert Stray(Step(s4, Unsubscribe({b})), 1, b);
    hide Step, Stray;
    events := Then(events, Failing(0));
    events := Then(events, Subscribe({b}));
    events := Then(events, Opened(1));
    events := Then(events, Closed(0));
    events := Then(events, Unsubscribe({b}));
  }

  lemma FirstSocket(a: string) returns (events: seq<Event>)
    ensures events == [Subscribe({a}), Opened(0)]
    ensures Run(events) == State({a}, {}, Some(0), map[0 := Socket(Open, {a})], false, true, 1)
  {
    assert Run([]) == START;
    hide Run;
    events := Then([], Subscribe({a}));
    events := Then(events, Opened(0));
  }

  /** Subscribing while the reconnect timer runs opens a socket, and the timer then opens another in its place. */
  lemma SubscribeBeforeTimer(a: string, b: string) returns (events: seq<Event>)
    requires a != b
    ensures events == [Subscribe({a}), Opened(0), Closed(0), Subscribe({b}), Opened(1), TimerFires, Unsubscribe({b})]
    ensures Stray(Run(events), 1, b)
  {
    var s0 := State({a}, {}, Some(0), map[0 := Socket(Open, {a})], false, true, 1);
    var s1 := State({a}, {}, None, map[], true, true, 1);
    var s2 := State({a, b}, {b}, Some(1), map[1 := Socket(Connecting, {})], true, true, 2);
    var s3 := s2.(pending := {}, sockets := map[1 := Socket(Open, {b})]);
    var s4 := State({a, b}, {}, Some(2), map[1 := Socket(Open, {b}), 2 := Socket(Connecting, {})], false, true, 3);
    events := FirstSocket(a);
    assert Step(s0, Closed(0)) == s1;
    assert Step(s1, Subscribe({b})) == s2;
    assert Step(s2, Opened(1)) == s3;
    assert Step(s3, TimerFires) == s4;
    hide Run;
    assert Stray(Step(s4, Unsubscribe({b})), 1, b);
    hide Step, Stray;
    events := Then(events, Closed(0));
    events := Then(events, Subscribe({b}));
    events := Then(events, Opened(1));
    events := Then(events, TimerFires);
    events := Then(events, Unsubscribe({b}));
  }

  // ---- when the client reconnects ------------------------------------------

  /** A client that runs has a socket or its timer is running; one that was disconnected has neither. */
  ghost predicate Persists(s: State) {
    if s.shouldRun then s.timer || s.current.Some? else !s.timer && s.current == None
  }

  lemma StepPersists(s: State, e: Event)
    requires Persists(s)
    ensures Persists(Step(s, e))
    ensures Step(s, e).shouldRun <==> e.Subscribe? || (s.shouldRun && !e.Disconnect?)
  {}

  /**
   Over every run: between a subscription and the next disconnection the client always has a socket or a timer that
   will open one; from a disconnection to the next subscription it has neither.
   */
  lemma {:induction false} AlwaysPersists(events: seq<Event>)
    ensures Persists(Run(events))
    ensures Run(events).shouldRun <==>
              exists k :: 0 <= k < |events| && events[k].Subscribe?
                          && forall m :: k < m < |events| ==> !events[m].Disconnect?
  {
    if events != [] {
      var n := |events| - 1;
      AlwaysPersists(events[..n]);
      StepPersists(Run(events[..n]), events[n]);
      hide Step;
      if Run(events[..n]).shouldRun && !events[n].Disconnect? {
        var k :| 0 <= k < n && events[..n][k].Subscribe? && forall m :: k < m < n ==> !events[..n][m].Disconnect?;
        forall m | k < m < |events| ensures !events[m].Disconnect? {
          if m < n { assert events[m] == events[..n][m]; }
        }
        assert events[k].Subscribe?;
      }
      if k :| 0 <= k < |events| && events[k].Subscribe? && forall m :: k < m < |events| ==> !events[m].Disconnect? {
        if k < n {
          assert events[..n][k].Subscribe?;
          assert forall m :: k < m < n ==> events[..n][m] == events[m];
        }
      }
    }
  }

  /** The timer opens a new socket, to which the client turns. */
  lemma TimerOpensSocket(s: State)
    requires s.timer
    ensures var t := Step(s, TimerFires);
            !t.timer && t.current == Some(s.nextId) && t.sockets == s.sockets[s.nextId := Socket(Connecting, {})]
  {}
}
