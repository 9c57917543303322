/**
 The channel registry on top of its reconnecting socket: which of the channels that subscribers hold the server
 streams, after any mix of subscriber updates, opened and closed connections.
 */
module ChannelStream {
  import opened ChannelRegistry
  import IndexerSocket

  datatype Event = Update(id: string, channels: seq<string>) | Opened | Closed

  function UpdatesOf(events: seq<Event>): seq<Update> {
    if events == [] then []
    else
      var before := UpdatesOf(events[..|events| - 1]);
      match events[|events| - 1]
      case Update(id, channels) => before + [(id, channels)]
      case _ => before
  }

  function SubscriptionsAt(events: seq<Event>): Subscriptions { SubscriptionsAfter(UpdatesOf(events)) }

  function OnSocket(call: Call): IndexerSocket.Event {
    match call
    case Subscribe(channels) => IndexerSocket.Subscribe(Elements(channels))
    case Unsubscribe(channels) => IndexerSocket.Unsubscribe(Elements(channels))
  }

  /** What the socket goes through: the calls that each update sends it, and its own events. */
  function SocketEvents(events: seq<Event>): seq<IndexerSocket.Event> {
    if events == [] then []
    else
      var before := events[..|events| - 1];
      match events[|events| - 1]
      case Update(id, channels) =>
        var calls := CallsFor(SubscriptionsAt(before), id, channels);
        SocketEvents(before) + seq(|calls|, i requires 0 <= i < |calls| => OnSocket(calls[i]))
      case Opened => SocketEvents(before) + [IndexerSocket.Opened]
      case Closed => SocketEvents(before) + [IndexerSocket.Closed]
  }

  function SocketAt(events: seq<Event>): IndexerSocket.State { IndexerSocket.Run(SocketEvents(events)) }

  predicate OpenAt(events: seq<Event>) {
    events != [] && var last := events[|events| - 1];
    last.Opened? || (!last.Closed? && OpenAt(events[..|events| - 1]))
  }

  /** The open connection ended at event `k`, and somebody has held `c` from then until now. */
  ghost predicate LostAt(events: seq<Event>, c: string, k: nat) {
    && k < |events| && !events[k].Update? && OpenAt(events[..k])
    && forall m :: k <= m <= |events| ==> c in Held(SubscriptionsAt(events[..m]))
  }

  ghost predicate EverLost(events: seq<Event>, c: string) { exists k: nat :: LostAt(events, c, k) }

  // ---- one update ----------------------------------------------------------

  /** The calls of one update, as the socket sees them. */
  lemma UpdateOnSocket(sent: seq<IndexerSocket.Event>, gained: seq<string>, lost: seq<string>)
    returns (after: seq<IndexerSocket.Event>)
    ensures var calls := (if gained != [] then [Subscribe(gained)] else [])
                         + (if lost != [] then [Unsubscribe(lost)] else []);
            after == sent + seq(|calls|, i requires 0 <= i < |calls| => OnSocket(calls[i]))
    ensures var s, t := IndexerSocket.Run(sent), IndexerSocket.Run(after);
            && t.open == s.open && t.subscribed == s.subscribed + Elements(gained) - Elements(lost)
            && IndexerSocket.Lost(after) == IndexerSocket.Lost(sent) - Elements(gained) - Elements(lost)
  {
    after := sent;
    assert gained == [] ==> Elements(gained) == {};
    assert lost == [] ==> Elements(lost) == {};
    if gained != [] {
      IndexerSocket.RunOneMore(after, IndexerSocket.Subscribe(Elements(gained)));
      after := after + [IndexerSocket.Subscribe(Elements(gained))];
    }
    if lost != [] {
      IndexerSocket.RunOneMore(after, IndexerSocket.Unsubscribe(Elements(lost)));
      after := after + [IndexerSocket.Unsubscribe(Elements(lost))];
    }
  }

  lemma HeldMoves(subs: Subscriptions, id: string, channels: seq<string>)
    ensures var gained := Elements(Unheld(Wanted(channels), subs));
            var lost := Elements(Unheld(Previous(subs, id), Updated(subs, id, channels)));
            && Held(Updated(subs, id, channels)) == Held(subs) + gained - lost && gained !! Held(subs)
  {
    hide Updated, Wanted, Unheld, Held, Previous;
    forall c ensures var gained := Unheld(Wanted(channels), subs);
                     var lost := Unheld(Previous(subs, id), Updated(subs, id, channels));
                     && (c in Held(Updated(subs, id, channels)) <==> (c in Held(subs) && c !in lost) || c in gained)
                     && (c in gained ==> c !in Held(subs)) && (c in lost ==> c in Held(subs) && c !in gained)
    {
      HeldChange(subs, id, channels, c);
    }
  }

  lemma UpdateMovesSocket(events: seq<Event>)
    requires events != [] && events[|events| - 1].Update?
    requires var before := events[..|events| - 1];
             && SocketAt(before).subscribed == Held(SubscriptionsAt(before))
             && IndexerSocket.Lost(SocketEvents(before)) <= Held(SubscriptionsAt(before))
    ensures var before := events[..|events| - 1];
            && SocketAt(events).open == SocketAt(before).open
            && SocketAt(events).subscribed == Held(SubscriptionsAt(events))
            && IndexerSocket.Lost(SocketEvents(events))
               == IndexerSocket.Lost(SocketEvents(before)) * Held(SubscriptionsAt(events))
  {
    var n := |events| - 1;
    var before, id, channels := events[..n], events[n].id, events[n].channels;
    var subs := SubscriptionsAt(before);
    UpdateAtEnd(events);
    HeldMoves(subs, id, channels);
    var gained := Unheld(Wanted(channels), subs);
    var lost := Unheld(Previous(subs, id), Updated(subs, id, channels));
    var after := UpdateOnSocket(SocketEvents(before), gained, lost);
    assert after == SocketEvents(events);
    hide SocketEvents, SubscriptionsAt, Updated, Wanted, Unheld, Held, Previous, Elements, IndexerSocket.Run,
         IndexerSocket.Lost;
  }

  lemma UpdateAtEnd(events: seq<Event>)
    requires events != [] && events[|events| - 1].Update?
    ensures var last := events[|events| - 1];
            SubscriptionsAt(events) == Updated(SubscriptionsAt(events[..|events| - 1]), last.id, last.channels)
  {
    var before := events[..|events| - 1];
    assert UpdatesOf(events)[..|UpdatesOf(before)|] == UpdatesOf(before);
    hide Updated;
  }

  // ---- whole runs ----------------------------------------------------------

  /** The socket believes itself subscribed to the held channels, and is open when it was opened last. */
  lemma {:induction false} SocketFollows(events: seq<Event>)
    ensures SocketAt(events).subscribed == Held(SubscriptionsAt(events))
    ensures SocketAt(events).open <==> OpenAt(events)
    ensures IndexerSocket.Lost(SocketEvents(events)) <= Held(SubscriptionsAt(events))
  {
    if events != [] {
      var n := |events| - 1;
      SocketFollows(events[..n]);
      if events[n].Update? {
        UpdateMovesSocket(events);
      } else {
        IndexerSocket.RunOneMore(SocketEvents(events[..n]),
                                 if events[n].Opened? then IndexerSocket.Opened else IndexerSocket.Closed);
        IndexerSocket.SocketState(SocketEvents(events));
      }
    }
  }

  lemma LostAtOneMore(events: seq<Event>, c: string, k: nat)
    requires events != [] && k < |events| - 1
    ensures LostAt(events, c, k) <==> LostAt(events[..|events| - 1], c, k) && c in Held(SubscriptionsAt(events))
  {
    hide OpenAt, Held, SubscriptionsAt;
    var n := |events| - 1;
    assert events[..n][..k] == events[..k] && events[..|events|] == events;
    if LostAt(events, c, k) {
      forall m | k <= m <= n ensures c in Held(SubscriptionsAt(events[..n][..m])) {
        assert events[..n][..m] == events[..m];
      }
    }
    if LostAt(events[..n], c, k) && c in Held(SubscriptionsAt(events)) {
      forall m | k <= m <= |events| ensures c in Held(SubscriptionsAt(events[..m])) {
        if m <= n { assert events[..n][..m] == events[..m]; }
      }
    }
  }

  lemma LostAtLast(events: seq<Event>, c: string)
    requires events != []
    ensures var n := |events| - 1;
            LostAt(events, c, n) <==>
              !events[n].Update? && OpenAt(events[..n]) && c in Held(SubscriptionsAt(events[..n]))
  {
    var n := |events| - 1;
    assert events[..|events|] == events;
    assert !events[n].Update? ==> UpdatesOf(events) == UpdatesOf(events[..n]);
    hide OpenAt, Held;
  }

  lemma LostWithin(events: seq<Event>, c: string, k: nat)
    requires LostAt(events, c, k)
    ensures k < |events|
  {}

  lemma EverLostOneMore(events: seq<Event>, c: string)
    requires events != []
    ensures var n := |events| - 1;
            EverLost(events, c) <==>
              || (EverLost(events[..n], c) && c in Held(SubscriptionsAt(events)))
              || (!events[n].Update? && OpenAt(events[..n]) && c in Held(SubscriptionsAt(events[..n])))
  {
    hide LostAt, OpenAt, Held, SubscriptionsAt;
    var n := |events| - 1;
    LostAtLast(events, c);
    if k: nat :| LostAt(events, c, k) {
      LostWithin(events, c, k);
      if k < n { LostAtOneMore(events, c, k); }
    }
    if k: nat :| LostAt(events[..n], c, k) {
      LostWithin(events[..n], c, k);
      LostAtOneMore(events, c, k);
    }
  }

  lemma {:induction false} LostExactly(events: seq<Event>, c: string)
    ensures c in IndexerSocket.Lost(SocketEvents(events)) <==> EverLost(events, c)
  {
    if events == [] {
      assert SocketEvents(events) == [];
    } else {
      var n := |events| - 1;
      var before := events[..n];
      LostExactly(before, c);
      EverLostOneMore(events, c);
      SocketFollows(before);
      hide EverLost, OpenAt;
      if events[n].Update? {
        UpdateMovesSocket(events);
      } else {
        IndexerSocket.RunOneMore(SocketEvents(before),
                                 if events[n].Opened? then IndexerSocket.Opened else IndexerSocket.Closed);
        IndexerSocket.SocketState(SocketEvents(before));
        SocketFollows(events);
        assert UpdatesOf(events) == UpdatesOf(before);
      }
    }
  }

  /**
   After any mix of updates, opened and closed connections: while the connection is open, a held channel is streamed
   exactly when no open connection has ended during the time that somebody has held the channel without a break.
   */
  lemma HeldIsStreamedExactly(events: seq<Event>, c: string)
    requires OpenAt(events) && c in Held(SubscriptionsAt(events))
    ensures c in SocketAt(events).server <==> !EverLost(events, c)
  {
    SocketFollows(events);
    LostExactly(events, c);
    IndexerSocket.SocketState(SocketEvents(events));
    hide EverLost;
  }

  /** Nothing else is streamed, so the server streams exactly the held channels exactly when none was lost. */
  lemma StreamsExactlyHeldWhenNoneLost(events: seq<Event>)
    requires OpenAt(events)
    ensures SocketAt(events).server <= Held(SubscriptionsAt(events))
    ensures SocketAt(events).server == Held(SubscriptionsAt(events)) <==>
              forall c :: c in Held(SubscriptionsAt(events)) ==> !EverLost(events, c)
  {
    SocketFollows(events);
    IndexerSocket.SocketState(SocketEvents(events));
    hide EverLost, Held, OpenAt;
    forall c | c in Held(SubscriptionsAt(events)) ensures c in SocketAt(events).server <==> !EverLost(events, c) {
      HeldIsStreamedExactly(events, c);
    }
  }
}
