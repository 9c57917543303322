/**
 Reference-counted channel multiplexer of AppStreamContext.tsx: any number of subscribers share one
 upstream socket, which hears of a channel only when its first holder comes and its last holder goes.
 */
module ChannelRegistry {
  import opened JsBasics

  type Subscriptions = map<string, seq<string>>

  datatype Call = Subscribe(channels: seq<string>) | Unsubscribe(channels: seq<string>)

  // ---- specification: what the registry stands for -------------------------

  function Elements(s: seq<string>): set<string> { set c | c in s }

  /** The subscribers that hold `c`. */
  function Holders(subs: Subscriptions, c: string): set<string> {
    set s | s in subs && c in subs[s]
  }

  /** Every channel that some subscriber holds. */
  function Held(subs: Subscriptions): set<string> {
    set s, c | s in subs && c in subs[s] :: c
  }

  /** `new Set(channels.filter(Boolean))`, in insertion order. */
  function Wanted(channels: seq<string>): (r: seq<string>)
    ensures NoDuplicates(r)
    ensures forall c :: c in r <==> c in channels && c != ""
  {
    if channels == [] then []
    else
      var before := Wanted(channels[..|channels| - 1]);
      var last := channels[|channels| - 1];
      if last == "" || last in before then before else before + [last]
  }

  function Previous(subs: Subscriptions, id: string): seq<string> {
    if id in subs then subs[id] else []
  }

  function Updated(subs: Subscriptions, id: string, channels: seq<string>): Subscriptions {
    if Wanted(channels) == [] then subs - {id} else subs[id := Wanted(channels)]
  }

  /** The members of `s` that nobody in `subs` holds, in order. */
  function Unheld(s: seq<string>, subs: Subscriptions): (r: seq<string>)
    ensures forall c :: c in r <==> c in s && Holders(subs, c) == {}
    ensures NoDuplicates(s) ==> NoDuplicates(r)
  {
    if s == [] then []
    else
      var before := Unheld(s[..|s| - 1], subs);
      var last := s[|s| - 1];
      if Holders(subs, last) == {} then before + [last] else before
  }

  /** The calls an update must send: channels that gain a first holder, then channels that lose their last. */
  function CallsFor(subs: Subscriptions, id: string, channels: seq<string>): seq<Call> {
    var gained := Unheld(Wanted(channels), subs);
    var lost := Unheld(Previous(subs, id), Updated(subs, id, channels));
    (if gained != [] then [Subscribe(gained)] else []) + (if lost != [] then [Unsubscribe(lost)] else [])
  }

  /** What the socket is subscribed to after `calls`. */
  function Upstream(calls: seq<Call>): set<string> {
    if calls == [] then {}
    else
      var before := Upstream(calls[..|calls| - 1]);
      match calls[|calls| - 1]
      case Subscribe(cs) => before + Elements(cs)
      case Unsubscribe(cs) => before - Elements(cs)
  }

  /** No call is empty, repeats a channel, subscribes a subscribed one or unsubscribes an unsubscribed one. */
  ghost predicate NoRedundantCall(calls: seq<Call>) {
    forall i :: 0 <= i < |calls| ==>
      && calls[i].channels != [] && NoDuplicates(calls[i].channels)
      && (calls[i].Subscribe? ==> Elements(calls[i].channels) !! Upstream(calls[..i]))
      && (calls[i].Unsubscribe? ==> Elements(calls[i].channels) <= Upstream(calls[..i]))
  }

  ghost predicate WellFormed(subs: Subscriptions) {
    forall s :: s in subs ==> subs[s] != [] && NoDuplicates(subs[s]) && "" !in subs[s]
  }

  /** The count a channel must have; zero counts are not stored. */
  ghost predicate Counts(refs: map<string, int>, subs: Subscriptions) {
    && refs.Keys == Held(subs)
    && forall c :: c in refs ==> refs[c] == |Holders(subs, c)|
  }

  // ---- the registry --------------------------------------------------------

  class IndexerWebSocket {
    var calls: seq<Call>

    constructor ()
      ensures calls == []
    { calls := []; }

    method Subscribe(channels: seq<string>)
      modifies this
      ensures calls == old(calls) + [Call.Subscribe(channels)]
    { calls := calls + [Call.Subscribe(channels)]; }

    method Unsubscribe(channels: seq<string>)
      modifies this
      ensures calls == old(calls) + [Call.Unsubscribe(channels)]
    { calls := calls + [Call.Unsubscribe(channels)]; }
  }

  class Registry {
    var channelRefs: map<string, int>
    var subscriberChannels: Subscriptions

    ghost predicate Valid()
      reads this
    {
      WellFormed(subscriberChannels) && Counts(channelRefs, subscriberChannels)
    }

    constructor ()
      ensures Valid() && subscriberChannels == map[]
    {
      channelRefs, subscriberChannels := map[], map[];
    }

    method SyncSubscriberChannels(ws: IndexerWebSocket, subscriberId: string, channels: seq<string>)
      requires Valid()
      modifies this, ws
      ensures Valid()
      ensures subscriberChannels == Updated(old(subscriberChannels), subscriberId, channels)
      ensures ws.calls == old(ws.calls) + CallsFor(old(subscriberChannels), subscriberId, channels)
    {
      hide CountsLess, CountsMore, Counts, WellFormed, Unheld, Wanted, Held, Holders;
      ghost var subs := subscriberChannels;
      var prev := Previous(subscriberChannels, subscriberId);
      var next := Wanted(channels);

      CountsBefore(channelRefs, subs, next);
      var toUnsubscribe := Release(subscriberId, channels, prev, next);
      CountsBetween(channelRefs, subs, prev, next);
      var toSubscribe := Retain(subscriberId, prev, next);

      if |next| == 0 {
        subscriberChannels := subscriberChannels - {subscriberId};
      } else {
        subscriberChannels := subscriberChannels[subscriberId := next];
      }
      CountsAfter(channelRefs, subs, subscriberId, channels);

      if |toSubscribe| > 0 {
        ws.Subscribe(toSubscribe);
      }
      if |toUnsubscribe| > 0 {
        ws.Unsubscribe(toUnsubscribe);
      }
    }

    /** The first loop: one reference less for each channel that the subscriber no longer wants. */
    method Release(ghost id: string, ghost channels: seq<string>, prev: seq<string>, next: seq<string>)
      returns (toUnsubscribe: seq<string>)
      requires WellFormed(subscriberChannels)
      requires prev == Previous(subscriberChannels, id) && next == Wanted(channels)
      requires CountsLess(channelRefs, subscriberChannels, [], next)
      modifies this`channelRefs
      ensures CountsLess(channelRefs, subscriberChannels, prev, next)
      ensures toUnsubscribe == Unheld(prev, Updated(subscriberChannels, id, channels))
    {
      hide CountsLess, Updated, Wanted;
      toUnsubscribe := [];
      ghost var after := Updated(subscriberChannels, id, channels);
      for i := 0 to |prev|
        invariant CountsLess(channelRefs, subscriberChannels, prev[..i], next)
        invariant toUnsubscribe == Unheld(prev[..i], after)
      {
        var channel := prev[i];
        assert prev[..i + 1] == prev[..i] + [channel];
        HoldersAfter(subscriberChannels, id, channels, channel);
        HolderCountAfter(subscriberChannels, id, channels, channel);
        UnheldOneMore(prev[..i], channel, after);
        ReleaseOne(channelRefs, subscriberChannels, prev[..i], next, channel);
        if channel in next {
          continue;
        }
        var refs := (if channel in channelRefs then channelRefs[channel] else 1) - 1;
        if refs <= 0 {
          channelRefs := channelRefs - {channel};
          toUnsubscribe := toUnsubscribe + [channel];
        } else {
          channelRefs := channelRefs[channel := refs];
        }
      }
      assert prev[..|prev|] == prev;
    }

    /** The second loop: one reference more for each channel that the subscriber newly wants. */
    method Retain(ghost id: string, prev: seq<string>, next: seq<string>) returns (toSubscribe: seq<string>)
      requires prev == Previous(subscriberChannels, id) && NoDuplicates(next)
      requires CountsMore(channelRefs, subscriberChannels, prev, next, [])
      modifies this`channelRefs
      ensures CountsMore(channelRefs, subscriberChannels, prev, next, next)
      ensures toSubscribe == Unheld(next, subscriberChannels)
    {
      hide CountsMore;
      toSubscribe := [];
      for i := 0 to |next|
        invariant CountsMore(channelRefs, subscriberChannels, prev, next, next[..i])
        invariant toSubscribe == Unheld(next[..i], subscriberChannels)
      {
        var channel := next[i];
        assert next[..i + 1] == next[..i] + [channel];
        RetainOne(channelRefs, subscriberChannels, prev, next, next[..i], channel);
        UnheldOneMore(next[..i], channel, subscriberChannels);
        if channel in prev {
          assert id in Holders(subscriberChannels, channel);
          continue;
        }
        var refs := (if channel in channelRefs then channelRefs[channel] else 0) + 1;
        channelRefs := channelRefs[channel := refs];
        if refs == 1 {
          toSubscribe := toSubscribe + [channel];
        }
      }
      assert next[..|next|] == next;
    }
  }

  // ---- counting through the two loops --------------------------------------

  /** Holders left once the channels of `dropped` outside `next` have lost one. */
  function CountLess(subs: Subscriptions, dropped: seq<string>, next: seq<string>, c: string): int {
    |Holders(subs, c)| - if c in dropped && c !in next then 1 else 0
  }

  function CountMore(subs: Subscriptions, prev: seq<string>, next: seq<string>, added: seq<string>, c: string): int {
    CountLess(subs, prev, next, c) + if c in added && c !in prev then 1 else 0
  }

  ghost predicate CountsLess(refs: map<string, int>, subs: Subscriptions, dropped: seq<string>, next: seq<string>) {
    forall c {:trigger c in refs} ::
      && (c in refs <==> CountLess(subs, dropped, next, c) > 0)
      && (c in refs ==> refs[c] == CountLess(subs, dropped, next, c))
  }

  ghost predicate CountsMore(refs: map<string, int>, subs: Subscriptions, prev: seq<string>, next: seq<string>,
                             added: seq<string>)
  {
    forall c {:trigger c in refs} ::
      && (c in refs <==> CountMore(subs, prev, next, added, c) > 0)
      && (c in refs ==> refs[c] == CountMore(subs, prev, next, added, c))
  }

  /** One turn of the first loop keeps the counts right. */
  lemma ReleaseOne(refs: map<string, int>, subs: Subscriptions, dropped: seq<string>, next: seq<string>, c: string)
    requires CountsLess(refs, subs, dropped, next)
    requires c !in dropped && |Holders(subs, c)| > 0
    ensures c in next ==> CountsLess(refs, subs, dropped + [c], next)
    ensures c !in next ==>
              && c in refs && refs[c] == |Holders(subs, c)|
              && CountsLess(if refs[c] == 1 then refs - {c} else refs[c := refs[c] - 1], subs, dropped + [c], next)
  {
    forall d ensures CountLess(subs, dropped + [c], next, d)
                  == CountLess(subs, dropped, next, d) - if d == c && c !in next then 1 else 0 {}
    assert c in refs <==> CountLess(subs, dropped, next, c) > 0;
  }

  /** One turn of the second loop keeps the counts right. */
  lemma RetainOne(refs: map<string, int>, subs: Subscriptions, prev: seq<string>, next: seq<string>,
                  added: seq<string>, c: string)
    requires CountsMore(refs, subs, prev, next, added)
    requires c in next && c !in added
    ensures c in prev ==> CountsMore(refs, subs, prev, next, added + [c])
    ensures c !in prev ==>
              && (c in refs <==> |Holders(subs, c)| > 0)
              && (c in refs ==> refs[c] == |Holders(subs, c)|)
              && CountsMore(refs[c := |Holders(subs, c)| + 1], subs, prev, next, added + [c])
  {
    forall d ensures CountMore(subs, prev, next, added + [c], d)
                  == CountMore(subs, prev, next, added, d) + if d == c && c !in prev then 1 else 0 {}
    assert c in refs <==> CountMore(subs, prev, next, added, c) > 0;
  }

  lemma HoldersAfter(subs: Subscriptions, id: string, channels: seq<string>, c: string)
    ensures var after := Updated(subs, id, channels);
            Holders(after, c) == if c in Wanted(channels) then Holders(subs, c) + {id} else Holders(subs, c) - {id}
    ensures id in Holders(subs, c) <==> c in Previous(subs, id)
  {
    hide Wanted;
  }

  lemma HolderCountAfter(subs: Subscriptions, id: string, channels: seq<string>, c: string)
    ensures |Holders(Updated(subs, id, channels), c)|
         == |Holders(subs, c)| + (if c in Wanted(channels) && c !in Previous(subs, id) then 1 else 0)
                               - (if c in Previous(subs, id) && c !in Wanted(channels) then 1 else 0)
    ensures c in Wanted(channels) ==> Holders(Updated(subs, id, channels), c) != {}
  {
    HoldersAfter(subs, id, channels, c);
    hide Wanted, Updated, Holders, Previous;
    var before := Holders(subs, c);
    if id in before {
      assert before + {id} == before;
    } else {
      assert before - {id} == before;
    }
    assert c in Wanted(channels) ==> id in Holders(Updated(subs, id, channels), c);
  }

  lemma UnheldOneMore(s: seq<string>, c: string, subs: Subscriptions)
    ensures Unheld(s + [c], subs) == Unheld(s, subs) + if Holders(subs, c) == {} then [c] else []
  {
    assert (s + [c])[..|s|] == s;
  }

  lemma HeldByHolders(subs: Subscriptions, c: string)
    ensures c in Held(subs) <==> |Holders(subs, c)| > 0
  {
    if s :| s in subs && c in subs[s] {
      assert s in Holders(subs, c);
      assert c in Held(subs);
    } else {
      assert Holders(subs, c) == {};
    }
  }

  lemma CountsBefore(refs: map<string, int>, subs: Subscriptions, next: seq<string>)
    requires Counts(refs, subs)
    ensures CountsLess(refs, subs, [], next)
  {
    forall c ensures c in refs <==> |Holders(subs, c)| > 0 {
      HeldByHolders(subs, c);
    }
  }

  lemma CountsBetween(refs: map<string, int>, subs: Subscriptions, prev: seq<string>, next: seq<string>)
    requires CountsLess(refs, subs, prev, next)
    ensures CountsMore(refs, subs, prev, next, [])
  {
    forall c ensures CountMore(subs, prev, next, [], c) == CountLess(subs, prev, next, c) {}
  }

  lemma CountsAfter(refs: map<string, int>, subs: Subscriptions, id: string, channels: seq<string>)
    requires WellFormed(subs)
    requires CountsMore(refs, subs, Previous(subs, id), Wanted(channels), Wanted(channels))
    ensures WellFormed(Updated(subs, id, channels))
    ensures Counts(refs, Updated(subs, id, channels))
  {
    var after := Updated(subs, id, channels);
    assert WellFormed(after);
    hide Wanted, Updated, Holders, Previous, Held, WellFormed;
    forall c ensures c in refs <==> c in Held(after)
             ensures c in refs ==> refs[c] == |Holders(after, c)|
    {
      HeldByHolders(after, c);
      CountAfter(subs, id, channels, c);
    }
  }

  lemma CountAfter(subs: Subscriptions, id: string, channels: seq<string>, c: string)
    ensures CountMore(subs, Previous(subs, id), Wanted(channels), Wanted(channels), c)
         == |Holders(Updated(subs, id, channels), c)|
  {
    HolderCountAfter(subs, id, channels, c);
    hide Wanted, Updated, Holders, Previous;
  }

  // ---- whole runs of updates -----------------------------------------------

  /** One update: the subscriber's id and the channels it now asks for. */
  type Update = (string, seq<string>)

  function SubscriptionsAfter(updates: seq<Update>): Subscriptions {
    if updates == [] then map[]
    else
      var last := updates[|updates| - 1];
      Updated(SubscriptionsAfter(updates[..|updates| - 1]), last.0, last.1)
  }

  function CallsAfter(updates: seq<Update>): seq<Call> {
    if updates == [] then []
    else
      var before := updates[..|updates| - 1];
      var last := updates[|updates| - 1];
      CallsAfter(before) + CallsFor(SubscriptionsAfter(before), last.0, last.1)
  }

  /** `updates[i]` is the latest word of subscriber `id`. */
  ghost predicate Latest(updates: seq<Update>, i: nat, id: string) {
    i < |updates| && updates[i].0 == id && forall j :: i < j < |updates| ==> updates[j].0 != id
  }

  /** Runs the real registry over `updates`; the state and the calls are those of the run functions. */
  method RunUpdates(registry: Registry, ws: IndexerWebSocket, updates: seq<Update>)
    requires registry.Valid() && registry.subscriberChannels == map[] && ws.calls == []
    modifies registry, ws
    ensures registry.Valid() && registry.subscriberChannels == SubscriptionsAfter(updates)
    ensures ws.calls == CallsAfter(updates)
  {
    for i := 0 to |updates|
      invariant registry.Valid() && registry.subscriberChannels == SubscriptionsAfter(updates[..i])
      invariant ws.calls == CallsAfter(updates[..i])
    {
      assert updates[..i + 1][..i] == updates[..i];
      registry.SyncSubscriberChannels(ws, updates[i].0, updates[i].1);
    }
    assert updates[..|updates|] == updates;
  }

  lemma {:induction false} WellFormedAfter(updates: seq<Update>)
    ensures WellFormed(SubscriptionsAfter(updates))
  {
    if updates != [] { WellFormedAfter(updates[..|updates| - 1]); }
  }

  /** The held channels after a run: a channel is held exactly when some subscriber's latest update asks for it. */
  lemma {:induction false} HeldAfter(updates: seq<Update>, id: string, c: string)
    ensures id in Holders(SubscriptionsAfter(updates), c) <==>
              c != "" && exists i: nat :: Latest(updates, i, id) && c in updates[i].1
  {
    if updates != [] {
      var n := |updates| - 1;
      var before := updates[..n];
      HeldAfter(before, id, c);
      HoldersAfter(SubscriptionsAfter(before), updates[n].0, updates[n].1, c);
      if updates[n].0 == id {
        assert Latest(updates, n, id);
      } else {
        assert forall i: nat :: Latest(before, i, id) ==> Latest(updates, i, id) && before[i] == updates[i];
        assert forall i: nat :: Latest(updates, i, id) ==> i != n && Latest(before, i, id) && before[i] == updates[i];
      }
    }
  }

  lemma UpstreamOneMore(calls: seq<Call>, call: Call)
    ensures Upstream(calls + [call]) ==
              if call.Subscribe? then Upstream(calls) + Elements(call.channels)
              else Upstream(calls) - Elements(call.channels)
  {
    assert (calls + [call])[..|calls|] == calls;
  }

  lemma NoRedundantOneMore(calls: seq<Call>, call: Call)
    requires NoRedundantCall(calls)
    requires call.channels != [] && NoDuplicates(call.channels)
    requires call.Subscribe? ==> Elements(call.channels) !! Upstream(calls)
    requires call.Unsubscribe? ==> Elements(call.channels) <= Upstream(calls)
    ensures NoRedundantCall(calls + [call])
  {
    var more := calls + [call];
    forall i | 0 <= i < |more| ensures more[..i] == calls[..i] {}
    assert calls[..|calls|] == calls;
  }

  lemma HeldChange(subs: Subscriptions, id: string, channels: seq<string>, c: string)
    ensures c in Held(Updated(subs, id, channels)) <==>
              || (c in Held(subs) && c !in Unheld(Previous(subs, id), Updated(subs, id, channels)))
              || c in Unheld(Wanted(channels), subs)
    ensures c in Unheld(Wanted(channels), subs) ==> c !in Held(subs)
    ensures c in Unheld(Previous(subs, id), Updated(subs, id, channels)) ==>
              c in Held(subs) && c !in Unheld(Wanted(channels), subs)
  {
    HeldByHolders(subs, c);
    HeldByHolders(Updated(subs, id, channels), c);
    HoldersAfter(subs, id, channels, c);
    HolderCountAfter(subs, id, channels, c);
    hide Wanted, Updated, Holders, Held;
  }

  /** One call that adds exactly `gained`, or takes exactly `lost`, is not redundant and moves the upstream set so. */
  lemma OneCall(calls: seq<Call>, call: Call)
    requires NoRedundantCall(calls) && call.channels != [] && NoDuplicates(call.channels)
    requires forall c :: c in call.channels ==> (c in Upstream(calls) <==> call.Unsubscribe?)
    ensures NoRedundantCall(calls + [call])
    ensures forall c :: c in Upstream(calls + [call]) <==>
              if c in call.channels then call.Subscribe? else c in Upstream(calls)
  {
    NoRedundantOneMore(calls, call);
    UpstreamOneMore(calls, call);
  }

  lemma TwoCalls(calls: seq<Call>, gained: seq<string>, lost: seq<string>) returns (sent: seq<Call>)
    requires NoRedundantCall(calls) && NoDuplicates(gained) && NoDuplicates(lost)
    requires forall c :: c in gained ==> c !in Upstream(calls)
    requires forall c :: c in lost ==> c in Upstream(calls) && c !in gained
    ensures sent == (if gained != [] then [Subscribe(gained)] else [])
                    + (if lost != [] then [Unsubscribe(lost)] else [])
    ensures NoRedundantCall(calls + sent)
    ensures forall c :: c in Upstream(calls + sent) <==> (c in Upstream(calls) && c !in lost) || c in gained
  {
    hide NoRedundantCall, Upstream, NoDuplicates;
    var first := calls + if gained != [] then [Subscribe(gained)] else [];
    if gained != [] { OneCall(calls, Subscribe(gained)); } else { assert first == calls; }
    sent := (if gained != [] then [Subscribe(gained)] else []) + (if lost != [] then [Unsubscribe(lost)] else []);
    if lost != [] {
      OneCall(first, Unsubscribe(lost));
      assert calls + sent == first + [Unsubscribe(lost)];
    } else {
      assert calls + sent == first;
    }
  }

  /** The calls of one update bring the upstream set from the old union to the new one, none of them redundant. */
  lemma CallsForUpdate(calls: seq<Call>, subs: Subscriptions, id: string, channels: seq<string>)
    requires WellFormed(subs) && NoRedundantCall(calls) && Upstream(calls) == Held(subs)
    ensures NoRedundantCall(calls + CallsFor(subs, id, channels))
    ensures Upstream(calls + CallsFor(subs, id, channels)) == Held(Updated(subs, id, channels))
  {
    var gained := Unheld(Wanted(channels), subs);
    var lost := Unheld(Previous(subs, id), Updated(subs, id, channels));
    assert NoDuplicates(lost);
    hide NoRedundantCall, Upstream, NoDuplicates, Held, Holders, Wanted, Updated, Previous, WellFormed, Unheld;
    forall c ensures c in Held(Updated(subs, id, channels)) <==> (c in Held(subs) && c !in lost) || c in gained
             ensures c in gained ==> c !in Held(subs)
             ensures c in lost ==> c in Held(subs) && c !in gained
    {
      HeldChange(subs, id, channels, c);
    }
    var sent := TwoCalls(calls, gained, lost);
  }

  /** After every run, the socket is subscribed to exactly the held channels, and no call was redundant. */
  lemma {:induction false} UpstreamIsUnion(updates: seq<Update>)
    ensures NoRedundantCall(CallsAfter(updates))
    ensures Upstream(CallsAfter(updates)) == Held(SubscriptionsAfter(updates))
  {
    if updates != [] {
      var n := |updates| - 1;
      var before := updates[..n];
      UpstreamIsUnion(before);
      WellFormedAfter(before);
      CallsForUpdate(CallsAfter(before), SubscriptionsAfter(before), updates[n].0, updates[n].1);
    }
  }

  // ---- order of the calls --------------------------------------------------

  function FirstIndex(s: seq<string>, c: string): (i: nat)
    requires c in s
    ensures i < |s| && s[i] == c && forall j :: 0 <= j < i ==> s[j] != c
  {
    if s[0] == c then 0 else 1 + FirstIndex(s[1..], c)
  }

  ghost predicate InOrderOf(r: seq<string>, s: seq<string>) {
    (forall c :: c in r ==> c in s) && forall i, j :: 0 <= i < j < |r| ==> FirstIndex(s, r[i]) < FirstIndex(s, r[j])
  }

  lemma FirstIndexOfPart(s: seq<string>, n: nat, c: string)
    requires n <= |s| && c in s[..n]
    ensures c in s && FirstIndex(s, c) == FirstIndex(s[..n], c)
  {
    var i := FirstIndex(s[..n], c);
    assert s[i] == c && forall j :: 0 <= j < i ==> s[..n][j] == s[j];
  }

  lemma FirstIndexNotIn(s: seq<string>, n: nat, c: string)
    requires n <= |s| && c in s && c !in s[..n]
    ensures FirstIndex(s, c) >= n
  {
    assert forall j :: 0 <= j < n ==> s[j] == s[..n][j] && s[..n][j] in s[..n];
  }

  lemma InOrderOfLonger(r: seq<string>, s: seq<string>, n: nat)
    requires n <= |s| && InOrderOf(r, s[..n])
    ensures InOrderOf(r, s)
  {
    forall c | c in r ensures c in s { FirstIndexOfPart(s, n, c); }
    forall i, j | 0 <= i < j < |r| ensures FirstIndex(s, r[i]) < FirstIndex(s, r[j]) {
      FirstIndexOfPart(s, n, r[i]);
      FirstIndexOfPart(s, n, r[j]);
    }
  }

  /** The wanted channels come in the order in which they were first asked for. */
  lemma {:induction false} WantedInOrder(channels: seq<string>)
    ensures InOrderOf(Wanted(channels), channels)
  {
    if channels != [] {
      var n := |channels| - 1;
      var before := Wanted(channels[..n]);
      WantedInOrder(channels[..n]);
      InOrderOfLonger(before, channels, n);
      var last := channels[n];
      if last != "" && last !in before {
        forall i | 0 <= i < |before| ensures FirstIndex(channels, before[i]) < FirstIndex(channels, last) {
          assert before[i] in before;
          FirstIndexOfPart(channels, n, before[i]);
          FirstIndexNotIn(channels, n, last);
        }
      }
    }
  }

  lemma {:induction false} UnheldInOrder(s: seq<string>, subs: Subscriptions)
    requires NoDuplicates(s)
    ensures InOrderOf(Unheld(s, subs), s)
  {
    if s != [] {
      var n := |s| - 1;
      var before := Unheld(s[..n], subs);
      UnheldInOrder(s[..n], subs);
      InOrderOfLonger(before, s, n);
      forall i | 0 <= i < |before| ensures FirstIndex(s, before[i]) < FirstIndex(s, s[n]) {
        assert before[i] in before;
        FirstIndexOfPart(s, n, before[i]);
      }
    }
  }

  /**
   An update sends two calls at most: first the subscription to what nobody held, in the order asked for, then the
   unsubscription of what nobody holds any more, in the order it was held.
   */
  lemma SubscribesFirst(subs: Subscriptions, id: string, channels: seq<string>)
    requires WellFormed(subs)
    ensures var calls := CallsFor(subs, id, channels);
            && |calls| <= 2
            && (|calls| == 2 ==> calls[0].Subscribe? && calls[1].Unsubscribe?)
            && forall i :: 0 <= i < |calls| ==>
                 InOrderOf(calls[i].channels, if calls[i].Subscribe? then Wanted(channels) else Previous(subs, id))
  {
    UnheldInOrder(Wanted(channels), subs);
    UnheldInOrder(Previous(subs, id), Updated(subs, id, channels));
    hide Wanted, Unheld, Updated, InOrderOf;
  }
}
