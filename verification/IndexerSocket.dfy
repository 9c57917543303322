/**
 The reconnecting socket of indexer-ws.ts, below the channel registry: what the server of the current connection has
 been asked for, against what the client believes it is subscribed to.
 */
module IndexerSocket {
  /** `server` is what the open connection is subscribed to; it is empty on a new connection. */
  datatype State = State(subscribed: set<string>, pending: set<string>, open: bool, server: set<string>)

  datatype Event =
    | Subscribe(channels: set<string>)
    | Unsubscribe(channels: set<string>)
    | Opened
    | Closed

  predicate Reconnects(e: Event) { e.Opened? || e.Closed? }

  /** flushSubscribe: send what is pending, if the connection is open. */
  function Flush(s: State): State {
    if s.open then s.(pending := {}, server := s.server + s.pending) else s
  }

  function Step(s: State, e: Event): State {
    match e
    case Subscribe(cs) => Flush(s.(pending := s.pending + cs, subscribed := s.subscribed + cs))
    case Unsubscribe(cs) =>
      s.(pending := s.pending - cs, subscribed := s.subscribed - cs, server := s.server - cs)
    case Opened => Flush(s.(open := true, server := {}))
    case Closed => s.(open := false, server := {})
  }

  function Run(events: seq<Event>): State {
    if events == [] then State({}, {}, false, {}) else Step(Run(events[..|events| - 1]), events[|events| - 1])
  }

  /** Channels sent on a connection that has closed since, and neither asked for again nor given up. */
  function Lost(events: seq<Event>): set<string> {
    if events == [] then {}
    else
      var before := events[..|events| - 1];
      var last := events[|events| - 1];
      if Reconnects(last) then Lost(before) + Run(before).server else Lost(before) - last.channels
  }

  lemma {:induction false} SocketState(events: seq<Event>)
    ensures var s := Run(events);
            && s.subscribed == s.pending + s.server + Lost(events)
            && s.pending !! s.server && Lost(events) !! s.pending + s.server
            && (s.open ==> s.pending == {}) && (!s.open ==> s.server == {})
  {
    if events != [] {
      SocketState(events[..|events| - 1]);
    }
  }

  // ---- which channels are lost ---------------------------------------------

  predicate Mentions(e: Event, c: string) { (e.Subscribe? || e.Unsubscribe?) && c in e.channels }

  predicate OpenAfter(events: seq<Event>) {
    events != [] && var last := events[|events| - 1];
    last.Opened? || (!last.Closed? && OpenAfter(events[..|events| - 1]))
  }

  /** Event `i` subscribes `c`, and nothing has mentioned `c` since. */
  ghost predicate LastAsked(events: seq<Event>, c: string, i: nat) {
    && i < |events| && events[i].Subscribe? && c in events[i].channels
    && forall m :: i < m < |events| ==> !Mentions(events[m], c)
  }

  /** After `c` was last asked for, a connection that had been open ended, at event `k`. */
  ghost predicate LostAt(events: seq<Event>, c: string, i: nat, k: nat) {
    LastAsked(events, c, i) && i < k < |events| && Reconnects(events[k]) && OpenAfter(events[..k])
  }

  lemma {:induction false} OpenIsOpen(events: seq<Event>)
    ensures Run(events).open <==> OpenAfter(events)
  {
    if events != [] { OpenIsOpen(events[..|events| - 1]); }
  }

  lemma LastAskedOneMore(events: seq<Event>, c: string, i: nat)
    requires events != []
    ensures var n := |events| - 1;
            LastAsked(events, c, i) <==>
              if i == n then events[n].Subscribe? && c in events[n].channels
              else LastAsked(events[..n], c, i) && !Mentions(events[n], c)
  {}

  lemma {:induction false} SubscribedIsAsked(events: seq<Event>, c: string)
    ensures c in Run(events).subscribed <==> exists i: nat :: LastAsked(events, c, i)
  {
    if events != [] {
      var n := |events| - 1;
      SubscribedIsAsked(events[..n], c);
      forall i: nat ensures LastAsked(events, c, i) <==>
              if i == n then events[n].Subscribe? && c in events[n].channels
              else LastAsked(events[..n], c, i) && !Mentions(events[n], c) { LastAskedOneMore(events, c, i); }
      hide LastAsked;
      if c in Run(events).subscribed && !(events[n].Subscribe? && c in events[n].channels) {
        var i: nat :| LastAsked(events[..n], c, i);
        assert i != n by { AskedWithin(events[..n], c, i); }
        assert LastAsked(events, c, i);
      } else if events[n].Subscribe? && c in events[n].channels {
        assert LastAsked(events, c, n);
      }
    }
  }

  lemma AskedWithin(events: seq<Event>, c: string, i: nat)
    requires LastAsked(events, c, i)
    ensures i < |events|
  {}

  lemma LostAtOneMore(events: seq<Event>, c: string, i: nat, k: nat)
    requires events != [] && k != |events| - 1
    ensures var n := |events| - 1;
            LostAt(events, c, i, k) <==> LostAt(events[..n], c, i, k) && !Mentions(events[n], c)
  {
    var n := |events| - 1;
    if k < n {
      assert events[..n][..k] == events[..k];
      if i < k { LastAskedOneMore(events, c, i); }
    }
  }

  lemma LostAtLast(events: seq<Event>, c: string, i: nat)
    requires events != []
    ensures var n := |events| - 1;
            LostAt(events, c, i, n) <==> LastAsked(events[..n], c, i) && Reconnects(events[n]) && OpenAfter(events[..n])
  {
    LastAskedOneMore(events, c, i);
  }

  ghost predicate EverLost(events: seq<Event>, c: string) {
    exists i: nat, k: nat :: LostAt(events, c, i, k)
  }

  lemma EverLostOneMore(events: seq<Event>, c: string)
    requires events != []
    ensures var n := |events| - 1;
            EverLost(events, c) <==>
              || (EverLost(events[..n], c) && !Mentions(events[n], c))
              || (Reconnects(events[n]) && OpenAfter(events[..n]) && c in Run(events[..n]).subscribed)
  {
    var n := |events| - 1;
    SubscribedIsAsked(events[..n], c);
    forall i: nat, k: nat ensures LostAt(events, c, i, k) <==>
        if k == n then LastAsked(events[..n], c, i) && Reconnects(events[n]) && OpenAfter(events[..n])
        else LostAt(events[..n], c, i, k) && !Mentions(events[n], c)
    {
      if k == n { LostAtLast(events, c, i); } else { LostAtOneMore(events, c, i, k); }
    }
    forall i: nat, k: nat | LostAt(events[..n], c, i, k) ensures k != n {}
    hide LostAt, LastAsked, OpenAfter;
    if i: nat :| Reconnects(events[n]) && OpenAfter(events[..n]) && LastAsked(events[..n], c, i) {
      assert LostAt(events, c, i, n);
    }
    if i: nat, k: nat :| LostAt(events[..n], c, i, k) && !Mentions(events[n], c) {
      assert LostAt(events, c, i, k);
    }
  }

  /** A channel is lost exactly when a connection that had been open ended after the channel was last asked for. */
  lemma {:induction false} LostExactly(events: seq<Event>, c: string)
    ensures c in Lost(events) <==> EverLost(events, c)
  {
    if events != [] {
      var before := events[..|events| - 1];
      LostExactly(before, c);
      EverLostOneMore(events, c);
      SocketState(before);
      OpenIsOpen(before);
      hide EverLost, OpenAfter;
    }
  }

  /**
   While the connection is open, the server streams a subscribed channel exactly when no connection that had been open
   has ended since the channel was last asked for: nothing is sent again after a reconnect.
   */
  lemma StreamsExactlyWhenNotLost(events: seq<Event>, c: string)
    requires OpenAfter(events)
    ensures c in Run(events).server <==> c in Run(events).subscribed && !EverLost(events, c)
  {
    SocketState(events);
    OpenIsOpen(events);
    LostExactly(events, c);
    hide EverLost;
  }

  /** So it streams all subscribed channels exactly when none was lost. */
  lemma StreamsAllExactlyWhenNoneLost(events: seq<Event>)
    requires OpenAfter(events)
    ensures Run(events).server == Run(events).subscribed <==> forall c :: !EverLost(events, c)
  {
    SocketState(events);
    OpenIsOpen(events);
    forall c ensures c in Lost(events) <==> EverLost(events, c) { LostExactly(events, c); }
    hide EverLost;
  }

  /** Any reconnect of an open connection leaves the client subscribed to all its channels and the server to none. */
  lemma ReconnectLosesChannels(events: seq<Event>)
    requires OpenAfter(events)
    ensures var t := Run(events + [Closed, Opened]);
            t.open && t.subscribed == Run(events).subscribed && t.server == {}
  {
    SocketState(events);
    OpenIsOpen(events);
    RunOneMore(events, Closed);
    RunOneMore(events + [Closed], Opened);
    assert events + [Closed, Opened] == events + [Closed] + [Opened];
  }

  lemma RunOneMore(events: seq<Event>, e: Event)
    ensures Run(events + [e]) == Step(Run(events), e)
    ensures Lost(events + [e]) == if Reconnects(e) then Lost(events) + Run(events).server else Lost(events) - e.channels
  {
    assert (events + [e])[..|events|] == events;
  }
}
