/** The order of live events under concurrent publishers (internal/control/eventhub.go): the hub numbers its events
    under the mutex and delivers them after releasing it, so the deliveries of two publications can overtake each
    other. */
module EventOrder {
  import opened Wrappers
  import opened Ordering
  import opened Commands
  import opened EventHub

  // ---------------------------------------------------------------- continuations

  /** Steps one after the other; further publications only if `publishing`. */
  ghost predicate Follows(run: Run, publishing: bool) {
    |run.states| == |run.steps| + 1
    && forall i :: 0 <= i < |run.steps| ==> Follow(run.states[i], run.steps[i], run.states[i + 1], publishing)
  }

  ghost predicate Follow(s: State, step: Step, n: State, publishing: bool) {
    Enabled(s, step) && n == Next(s, step) && (step.Publish? ==> publishing)
  }

  ghost predicate Leads(s: State, n: State, publishing: bool) {
    exists run :: Follows(run, publishing) && run.states[0] == s && run.states[|run.steps|] == n
  }

  lemma LeadsToItself(s: State, publishing: bool)
    ensures Leads(s, s, publishing)
  {
    var run := Run([s], []);
    assert Follows(run, publishing) && run.states[0] == s && run.states[|run.steps|] == s;
  }

  lemma LeadsOn(s: State, n: State, step: Step, publishing: bool)
    requires Leads(s, n, publishing) && Enabled(n, step) && (step.Publish? ==> publishing)
    ensures Leads(s, Next(n, step), publishing)
  {
    hide Next, Enabled;
    var run :| Follows(run, publishing) && run.states[0] == s && run.states[|run.steps|] == n;
    var longer := Run(run.states + [Next(n, step)], run.steps + [step]);
    forall i | 0 <= i < |longer.steps|
      ensures Follow(longer.states[i], longer.steps[i], longer.states[i + 1], publishing)
    {
      if i < |run.steps| { assert Follow(run.states[i], run.steps[i], run.states[i + 1], publishing); }
    }
    assert Follows(longer, publishing) && longer.states[0] == s && longer.states[|longer.steps|] == Next(n, step);
  }

  /** A step of a subscriber changes nothing else. */
  lemma Forward(s: State, n: State, step: Step, publishing: bool) returns (m: State)
    requires Leads(s, n, publishing) && Forwards(step) && step.id in n.subscribers
    requires CanForward(n.subscribers[step.id], n.buffer, step)
    ensures Leads(s, m, publishing)
    ensures m == n.(subscribers := n.subscribers[step.id := Forwarded(n.subscribers[step.id], n.buffer, step)])
  {
    hide Leads, CanForward, Forwarded;
    LeadsOn(s, n, step, publishing);
    m := Next(n, step);
  }

  // ---------------------------------------------------------------- without concurrent deliveries

  lemma {:induction false} StaysInOrder(run: Run, i: nat)
    requires Follows(run, false) && i < |run.states| && Good(run.states[0]) && SoundSubscribers(run.states[0])
    ensures Good(run.states[i]) && SoundSubscribers(run.states[i])
  {
    hide Good, SoundSubscribers, Next, Enabled;
    if i > 0 {
      StaysInOrder(run, i - 1);
      assert Follow(run.states[i - 1], run.steps[i - 1], run.states[i], false);
      StepStaysInOrder(run.states[i - 1], run.steps[i - 1]);
    }
  }

  lemma StepStaysInOrder(s: State, step: Step)
    requires Good(s) && SoundSubscribers(s) && Enabled(s, step) && Serialised(s, step)
    ensures Good(Next(s, step)) && SoundSubscribers(Next(s, step))
  {
    NextIsGood(s, step);
    hide Good, Next, Enabled, SoundSubscriber;
    forall id | id in Next(s, step).subscribers && Next(s, step).subscribers[id].live
      ensures SoundSubscriber(Next(s, step).log, Next(s, step).subscribers[id])
    {
      SubscriberStaysSound(s, step, id);
    }
  }

  lemma SoundReceives(log: seq<Event>, t: Subscriber)
    requires SoundSubscriber(log, t)
    ensures Increasing(t.received, Earlier)
  {
    assert forall k :: 0 <= k < |t.received| ==> t.received[k] == Passed(t)[k];
  }

  // ---------------------------------------------------------------- overtaking

  /** Nothing waits between a live subscriber's queue and its reader. */
  predicate Drained(t: Subscriber) {
    t.live && t.replay == [] && t.hand == [] && t.queue == [] && t.out == []
  }

  function Waiting(t: Subscriber): nat {
    2 * |t.replay| + 3 * |t.queue| + 2 * |t.hand| + |t.out|
  }

  lemma {:induction false} Drain(s: State, n: State, id: nat, publishing: bool) returns (m: State)
    requires Leads(s, n, publishing) && n.buffer > 0 && id in n.subscribers && n.subscribers[id].live
    requires n.subscribers[id].hand == [] || n.subscribers[id].replay == []
    ensures Leads(s, m, publishing) && id in m.subscribers
    ensures m == n.(subscribers := n.subscribers[id := m.subscribers[id]])
    ensures Drained(m.subscribers[id]) && m.subscribers[id].inflight == n.subscribers[id].inflight
    decreases Waiting(n.subscribers[id])
  {
    hide Leads;
    var t := n.subscribers[id];
    if Drained(t) {
      m := n;
    } else {
      var step := if t.out != [] then Receive(id) else if t.replay != [] then TakeReplay(id)
                  else if t.hand != [] then PutOut(id) else TakeQueue(id);
      var next := Forward(s, n, step, publishing);
      m := Drain(s, next, id, publishing);
    }
  }

  /** The only event in the queue of a drained subscriber is received next. */
  lemma Read(s: State, n: State, id: nat, e: Event, publishing: bool) returns (m: State)
    requires Leads(s, n, publishing) && n.buffer > 0 && id in n.subscribers && n.subscribers[id].queue == [e]
    requires Drained(n.subscribers[id].(queue := []))
    ensures Leads(s, m, publishing)
    ensures var t := n.subscribers[id];
      m == n.(subscribers := n.subscribers[id := t.(queue := [], received := t.received + [e])])
  {
    hide Leads;
    var taken := Forward(s, n, TakeQueue(id), publishing);
    var put := Forward(s, taken, PutOut(id), publishing);
    m := Forward(s, put, Receive(id), publishing);
    assert m.subscribers[id] == n.subscribers[id].(queue := [], received := n.subscribers[id].received + [e]);
    assert m.subscribers == n.subscribers[id := m.subscribers[id]];
  }

  /** A delivery to a drained subscriber comes to its end. */
  lemma Arrive(s: State, n: State, id: nat, pending: Pending, publishing: bool) returns (m: State)
    requires Leads(s, n, publishing) && n.buffer > 0 && id in n.subscribers && Drained(n.subscribers[id])
    requires pending in n.subscribers[id].inflight
    ensures Leads(s, m, publishing)
    ensures var t := n.subscribers[id];
      m == n.(subscribers := n.subscribers[id := t.(inflight := t.inflight - multiset{pending},
                                                    received := t.received + [pending.event])])
  {
    hide Leads;
    var ready, attempt := n, pending;
    if pending.full {
      ready := Forward(s, n, Deliver(id, pending), publishing);
      attempt := Pending(pending.event, false);
    }
    var t, others := n.subscribers[id], n.subscribers[id].inflight - multiset{pending};
    assert ready.subscribers[id] == t.(inflight := others + multiset{attempt});
    assert others + multiset{attempt} - multiset{attempt} == others;
    var sent := Forward(s, ready, Deliver(id, attempt), publishing);
    assert sent.subscribers[id] == t.(inflight := others, queue := [pending.event]);
    m := Read(s, sent, id, pending.event, publishing);
    assert m.subscribers == n.subscribers[id := t.(inflight := others, received := t.received + [pending.event])];
  }

  /** The latest delivery goes first, and then the one before. */
  lemma Overtake(s: State, n: State, id: nat, first: Pending, second: Pending, publishing: bool) returns (m: State)
    requires Leads(s, n, publishing) && n.buffer > 0 && id in n.subscribers && n.subscribers[id].live
    requires n.subscribers[id].hand == [] || n.subscribers[id].replay == []
    requires n.subscribers[id].inflight == multiset{first, second} && first.event.sequence < second.event.sequence
    ensures Leads(s, m, publishing) && id in m.subscribers && OutOfOrder(m.subscribers[id])
    ensures m == n.(subscribers := m.subscribers)
  {
    hide Leads;
    var drained := Drain(s, n, id, publishing);
    assert multiset{first, second} - multiset{second} == multiset{first};
    var one := Arrive(s, drained, id, second, publishing);
    m := Arrive(s, one, id, first, publishing);
    var received := m.subscribers[id].received;
    assert received[|received| - 1] == first.event && received[|received| - 2] == second.event;
    assert !Earlier(received[|received| - 2], received[|received| - 1]);
  }

  /** A live subscriber has received an event after a later one. */
  ghost predicate OutOfOrder(t: Subscriber) {
    t.live && !Increasing(t.received, Earlier)
  }

  /** The publication makes it possible that, without another one, a live subscriber receives an event after a later
      one. */
  ghost predicate Disorders(s: State, key: RunKey, body: string) {
    exists n, id :: Leads(Next(s, Publish(key, body)), n, false) && id in n.subscribers && OutOfOrder(n.subscribers[id])
  }

  /** A subscriber of the run, or of all runs, to which an event is still being delivered. */
  predicate BeingServed(s: State, key: RunKey, id: nat) {
    id in s.subscribers && s.subscribers[id].live && id in Audience(s, key) && s.subscribers[id].inflight != multiset{}
  }

  /** Publishing while everything is in order lets a subscriber receive events out of order iff a live subscriber of the
      run still awaits the end of an earlier delivery. */
  lemma ConcurrentPublicationsReorder(s: State, key: RunKey, body: string)
    requires Good(s) && SoundSubscribers(s) && s.buffer > 0
    ensures Disorders(s, key, body) <==> exists id :: BeingServed(s, key, id)
  {
    hide Good, SoundSubscribers, Leads, Next, Audience;
    if exists id :: BeingServed(s, key, id) {
      var id :| BeingServed(s, key, id);
      LeadsToItself(Next(s, Publish(key, body)), false);
      var n := Overtaken(Next(s, Publish(key, body)), s, key, body, id, false);
    } else {
      forall n, id | Leads(Next(s, Publish(key, body)), n, false) && id in n.subscribers
        ensures !OutOfOrder(n.subscribers[id])
      {
        KeepsOrder(s, key, body, n, id);
      }
    }
  }

  lemma KeepsOrder(s: State, key: RunKey, body: string, n: State, id: nat)
    requires Good(s) && SoundSubscribers(s) && !exists i :: BeingServed(s, key, i)
    requires Leads(Next(s, Publish(key, body)), n, false) && id in n.subscribers
    ensures !OutOfOrder(n.subscribers[id])
  {
    PublicationIsSerialised(s, key, body);
    hide Good, BeingServed, Next, Serialised, SoundSubscriber;
    StepStaysInOrder(s, Publish(key, body));
    var run :| Follows(run, false) && run.states[0] == Next(s, Publish(key, body)) && run.states[|run.steps|] == n;
    StaysInOrder(run, |run.steps|);
    if n.subscribers[id].live { SoundReceives(n.log, n.subscribers[id]); }
  }

  lemma PublicationIsSerialised(s: State, key: RunKey, body: string)
    requires Good(s) && !exists i :: BeingServed(s, key, i)
    ensures Serialised(s, Publish(key, body))
  {
    forall id | id in Audience(s, key) && id in s.subscribers ensures s.subscribers[id].inflight == multiset{} {
      assert !BeingServed(s, key, id);
    }
  }

  lemma Overtaken(start: State, s: State, key: RunKey, body: string, id: nat, publishing: bool) returns (n: State)
    requires Good(s) && SoundSubscribers(s) && s.buffer > 0 && BeingServed(s, key, id)
    requires Leads(start, Next(s, Publish(key, body)), publishing)
    ensures Leads(start, n, publishing) && id in n.subscribers && OutOfOrder(n.subscribers[id])
    ensures n == Next(s, Publish(key, body)).(subscribers := n.subscribers)
  {
    hide Leads, Windows, Linked;
    var t, second := s.subscribers[id], Pending(Event(|s.log| + 1, key, body), false);
    assert SoundSubscriber(s.log, t);
    var live := Select(s.log, t.key, t.since);
    SelectElements(s.log, t.key, t.since);
    var first := if t.inflight == multiset{Pending(Last(live), true)} then Pending(Last(live), true)
      else Pending(Last(live), false);
    assert Last(live) in live;
    n := Overtake(start, Next(s, Publish(key, body)), id, first, second, publishing);
  }

  /** A first subscriber, and a first publication on its way to it. */
  lemma FirstIsPublished(start: State, key: RunKey, body: string) returns (s: State)
    requires start == State(start.limit, start.buffer, [], map[], {}, map[])
    ensures Leads(start, s, true) && Good(s) && SoundSubscribers(s) && BeingServed(s, key, 0)
    ensures s.limit == start.limit && s.buffer == start.buffer && s.log == [Event(1, key, body)]
  {
    InitiallyGood(start.limit, start.buffer);
    LeadsToItself(start, true);
    hide Good, Leads, SoundSubscriber;
    LeadsOn(start, start, Subscribe(Some(key), 0, 0), true);
    var s1 := Next(start, Subscribe(Some(key), 0, 0));
    StepStaysInOrder(start, Subscribe(Some(key), 0, 0));
    LeadsOn(start, s1, Publish(key, body), true);
    s := Next(s1, Publish(key, body));
    assert s1.subscribers[0].inflight == multiset{};
    StepStaysInOrder(s1, Publish(key, body));
    hide Kept, Replay;
    assert Pending(Event(1, key, body), false) in s.subscribers[0].inflight;
  }

  /** That occurs, from a new hub on, with two publications one right after the other. */
  lemma OvertakingRun(limit: nat, buffer: nat, key: RunKey, first: string, second: string)
    requires buffer > 0
    ensures exists run :: Valid(run) && ReceivesOutOfOrder(run.states[|run.steps|], limit, buffer, key, first, second)
  {
    hide Leads, Good, SoundSubscribers, BeingServed;
    var start := State(limit, buffer, [], map[], {}, map[]);
    var s := FirstIsPublished(start, key, first);
    LeadsOn(start, s, Publish(key, second), true);
    var n := Overtaken(start, s, key, second, 0, true);
    assert n.log == [Event(1, key, first), Event(2, key, second)];
    hide OutOfOrder;
    assert ReceivesOutOfOrder(n, limit, buffer, key, first, second);
    LeadsFromNew(start, n);
  }

  ghost predicate ReceivesOutOfOrder(n: State, limit: nat, buffer: nat, key: RunKey, first: string, second: string) {
    n.limit == limit && n.buffer == buffer && n.log == [Event(1, key, first), Event(2, key, second)]
    && 0 in n.subscribers && OutOfOrder(n.subscribers[0])
  }

  lemma LeadsFromNew(start: State, n: State)
    requires Leads(start, n, true) && start == State(start.limit, start.buffer, [], map[], {}, map[])
    requires start.buffer > 0
    ensures exists run :: Valid(run) && run.states[|run.steps|] == n
  {
    var run :| Follows(run, true) && run.states[0] == start && run.states[|run.steps|] == n;
    forall i | 0 <= i < |run.steps|
      ensures Enabled(run.states[i], run.steps[i]) && run.states[i + 1] == Next(run.states[i], run.steps[i])
    {
      assert Follow(run.states[i], run.steps[i], run.states[i + 1], true);
    }
    hide Next, Enabled;
    assert Valid(run);
  }
}
