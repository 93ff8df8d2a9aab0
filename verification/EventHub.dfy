/** The in-memory event hub (internal/control/eventhub.go): bounded replay for each run, and live subscribers whose full
    queues drop their oldest event. Sections under the mutex are atomic; every channel operation is a step of its
    own. */
module EventHub {
  import opened Wrappers
  import opened Ordering
  import opened Commands

  /** A published event; `body` stands for its kind and payload. */
  datatype Event = Event(sequence: nat, key: RunKey, body: string)

  datatype RunEvents = RunEvents(replay: seq<Event>, subscribers: set<nat>)

  /** A delivery under way; `full` tells that its last attempt found the queue full. */
  datatype Pending = Pending(event: Event, full: bool)

  /** A subscriber of one run, or of all runs. `since` is the number of events published before it subscribed. */
  datatype Subscriber = Subscriber(key: Option<RunKey>, after: nat, since: nat, live: bool, replay: seq<Event>,
                                   inflight: multiset<Pending>, queue: seq<Event>, hand: seq<Event>, out: seq<Event>,
                                   received: seq<Event>)

  /** `log` is everything ever published. */
  datatype State = State(limit: nat, buffer: nat, log: seq<Event>, runs: map<RunKey, RunEvents>, all: set<nat>,
                         subscribers: map<nat, Subscriber>)

  // ---------------------------------------------------------------- windows and filters

  predicate Matches(key: Option<RunKey>, e: Event) {
    key.None? || key.value == e.key
  }

  /** The events of a run (or of all runs) with a sequence number above `after`. */
  function Select(events: seq<Event>, key: Option<RunKey>, after: nat): seq<Event> {
    if events == [] then []
    else
      var last := events[|events| - 1];
      Select(events[..|events| - 1], key, after) + if Matches(key, last) && last.sequence > after then [last] else []
  }

  lemma {:induction false} SelectElements(events: seq<Event>, key: Option<RunKey>, after: nat)
    ensures |Select(events, key, after)| <= |events|
    ensures forall e :: e in Select(events, key, after) <==> e in events && Matches(key, e) && e.sequence > after
  {
    if events != [] {
      var n := |events| - 1;
      SelectElements(events[..n], key, after);
      assert events == events[..n] + [events[n]];
    }
  }

  /** The last `limit` events. */
  function Window(events: seq<Event>, limit: nat): seq<Event> {
    if |events| <= limit then events else events[|events| - limit..]
  }

  predicate Earlier(a: Event, b: Event) { a.sequence < b.sequence }

  lemma EarlierIsStrictOrder()
    ensures Transitive(Earlier) && Asymmetric(Earlier)
  {
  }

  lemma SelectAppend(events: seq<Event>, e: Event, key: Option<RunKey>, after: nat)
    ensures Select(events + [e], key, after)
      == Select(events, key, after) + if Matches(key, e) && e.sequence > after then [e] else []
  {
    assert (events + [e])[..|events|] == events;
  }

  lemma {:induction false} SelectIncreasing(events: seq<Event>, key: Option<RunKey>, after: nat)
    requires Increasing(events, Earlier)
    ensures Increasing(Select(events, key, after), Earlier)
  {
    if events != [] {
      var n := |events| - 1;
      SelectIncreasing(events[..n], key, after);
      var first := Select(events[..n], key, after);
      SelectElements(events[..n], key, after);
      forall i | 0 <= i < |first| ensures Earlier(first[i], events[n]) {
        assert first[i] in events[..n];
      }
    }
  }

  /** If the events above `after` are those from `start` on, they are what is selected. */
  lemma {:induction false} SelectSuffix(events: seq<Event>, key: Option<RunKey>, after: nat, start: nat)
    requires start <= |events| && forall i :: 0 <= i < |events| ==> Matches(key, events[i])
    requires forall i :: 0 <= i < start ==> events[i].sequence <= after
    requires forall i :: start <= i < |events| ==> events[i].sequence > after
    ensures Select(events, key, after) == events[start..]
  {
    if start == |events| {
      SelectNone(events, key, after);
    } else {
      hide Matches;
      var n := |events| - 1;
      SelectSuffix(events[..n], key, after, start);
      assert events[start..] == events[..n][start..] + [events[n]];
    }
  }

  lemma {:induction false} SelectNone(events: seq<Event>, key: Option<RunKey>, after: nat)
    requires forall i :: 0 <= i < |events| ==> events[i].sequence <= after
    ensures Select(events, key, after) == []
  {
    if events != [] {
      SelectNone(events[..|events| - 1], key, after);
    }
  }

  // ---------------------------------------------------------------- steps

  datatype Step =
    | Publish(key: RunKey, body: string)
    | Subscribe(scope: Option<RunKey>, after: nat, id: nat)
    | Unsubscribe(id: nat)
    | Deliver(id: nat, pending: Pending)
    | TakeReplay(id: nat)
    | TakeQueue(id: nat)
    | PutOut(id: nat)
    | Receive(id: nat)

  /** The steps of one subscriber. */
  predicate Forwards(step: Step) {
    step.Deliver? || step.TakeReplay? || step.TakeQueue? || step.PutOut? || step.Receive?
  }

  predicate CanForward(t: Subscriber, buffer: nat, step: Step)
    requires Forwards(step)
  {
    match step
    case Deliver(_, pending) => pending in t.inflight
    case TakeReplay(_) => t.live && t.replay != [] && |t.out| < buffer
    case TakeQueue(_) => t.live && t.replay == [] && t.hand == [] && t.queue != []
    case PutOut(_) => t.live && t.hand != [] && |t.out| < buffer
    case Receive(_) => t.out != []
  }

  /** One attempt of `deliverLatest`: send if there is room; otherwise note that there was none, and then drop the
      oldest. */
  function Attempt(t: Subscriber, buffer: nat, pending: Pending): Subscriber
    requires pending in t.inflight
  {
    var others := t.inflight - multiset{pending};
    if pending.full then
      t.(inflight := others + multiset{Pending(pending.event, false)},
         queue := if t.queue == [] then [] else t.queue[1..])
    else if |t.queue| < buffer then t.(inflight := others, queue := t.queue + [pending.event])
    else t.(inflight := others + multiset{Pending(pending.event, true)})
  }

  function Forwarded(t: Subscriber, buffer: nat, step: Step): Subscriber
    requires Forwards(step) && CanForward(t, buffer, step)
  {
    match step
    case Deliver(_, pending) => Attempt(t, buffer, pending)
    case TakeReplay(_) => t.(replay := t.replay[1..], out := t.out + [t.replay[0]])
    case TakeQueue(_) => t.(queue := t.queue[1..], hand := [t.queue[0]])
    case PutOut(_) => t.(hand := t.hand[1..], out := t.out + [t.hand[0]])
    case Receive(_) => t.(out := t.out[1..], received := t.received + [t.out[0]])
  }

  predicate Enabled(s: State, step: Step) {
    match step
    case Publish(key, body) => true
    case Subscribe(key, after, id) => id !in s.subscribers
    case Unsubscribe(id) => id in s.subscribers && s.subscribers[id].live
    case _ => step.id in s.subscribers && CanForward(s.subscribers[step.id], s.buffer, step)
  }

  /** `runLocked`. */
  function RunOf(s: State, key: RunKey): RunEvents {
    if key in s.runs then s.runs[key] else RunEvents([], {})
  }

  /** The replay of a run after another event. */
  function Kept(replay: seq<Event>, e: Event, limit: nat): seq<Event> {
    if limit > 0 then Window(replay + [e], limit) else replay
  }

  /** The events that some run still retains. */
  function Retained(s: State): set<Event> {
    set key, e | key in s.runs && e in s.runs[key].replay :: e
  }

  /** The events of `kept` above `after`, in the order of the log. */
  function Restrict(events: seq<Event>, kept: set<Event>, after: nat): seq<Event> {
    if events == [] then []
    else
      var last := events[|events| - 1];
      Restrict(events[..|events| - 1], kept, after) + if last in kept && last.sequence > after then [last] else []
  }

  lemma {:induction false} RestrictElements(events: seq<Event>, kept: set<Event>, after: nat)
    ensures forall e :: e in Restrict(events, kept, after) <==> e in events && e in kept && e.sequence > after
  {
    if events != [] {
      var n := |events| - 1;
      RestrictElements(events[..n], kept, after);
      assert events == events[..n] + [events[n]];
    }
  }

  lemma {:induction false} RestrictIncreasing(events: seq<Event>, kept: set<Event>, after: nat)
    requires Increasing(events, Earlier)
    ensures Increasing(Restrict(events, kept, after), Earlier)
  {
    if events != [] {
      var n := |events| - 1;
      RestrictIncreasing(events[..n], kept, after);
      RestrictElements(events[..n], kept, after);
      var first := Restrict(events[..n], kept, after);
      forall i | 0 <= i < |first| ensures Earlier(first[i], events[n]) {
        assert first[i] in events[..n];
      }
    }
  }

  /** What a new subscriber is given first: the retained events of its run, or of all runs, above `after`. */
  function Replay(s: State, key: Option<RunKey>, after: nat): seq<Event> {
    if key.Some? then Select(RunOf(s, key.value).replay, key, after) else Restrict(s.log, Retained(s), after)
  }

  /** The subscribers that an event of `key` is delivered to. */
  function Audience(s: State, key: RunKey): set<nat> {
    RunOf(s, key).subscribers + s.all
  }

  function Next(s: State, step: Step): State
    requires Enabled(s, step)
  {
    match step
    case Publish(key, body) =>
      var e := Event(|s.log| + 1, key, body);
      var run := RunOf(s, key);
      s.(log := s.log + [e],
         runs := s.runs[key := run.(replay := Kept(run.replay, e, s.limit))],
         subscribers := map id | id in s.subscribers ::
           if id in Audience(s, key)
           then s.subscribers[id].(inflight := s.subscribers[id].inflight + multiset{Pending(e, false)})
           else s.subscribers[id])
    case Subscribe(key, after, id) =>
      var t := Subscriber(key, after, |s.log|, true, Replay(s, key, after), multiset{}, [], [], [], []);
      if key.Some? then
        var run := RunOf(s, key.value);
        s.(runs := s.runs[key.value := run.(subscribers := run.subscribers + {id})],
           subscribers := s.subscribers[id := t])
      else s.(all := s.all + {id}, subscribers := s.subscribers[id := t])
    case Unsubscribe(id) =>
      var t := s.subscribers[id];
      var gone := s.subscribers[id := t.(live := false)];
      if t.key.None? then s.(all := s.all - {id}, subscribers := gone)
      else if t.key.value !in s.runs then s.(subscribers := gone)
      else
        var run := s.runs[t.key.value].(subscribers := s.runs[t.key.value].subscribers - {id});
        var idle := run.subscribers == {} && run.replay == [];
        s.(runs := if idle then s.runs - {t.key.value} else s.runs[t.key.value := run], subscribers := gone)
    case _ => s.(subscribers := s.subscribers[step.id := Forwarded(s.subscribers[step.id], s.buffer, step)])
  }

  // ---------------------------------------------------------------- replay refines the log

  /** The events are numbered from 1. */
  ghost predicate Numbered(log: seq<Event>) {
    forall i :: 0 <= i < |log| ==> log[i].sequence == i + 1
  }

  /** Every run retains exactly its last `limit` events, whether it has an entry or not. */
  ghost predicate Windows(s: State) {
    forall key :: RunOf(s, key).replay == Window(Select(s.log, Some(key), 0), s.limit)
  }

  ghost predicate Linked(s: State) {
    (forall key, id :: key in s.runs && id in s.runs[key].subscribers ==>
       id in s.subscribers && s.subscribers[id].live && s.subscribers[id].key == Some(key))
    && (forall id :: id in s.all ==> id in s.subscribers && s.subscribers[id].live && s.subscribers[id].key == None)
    && forall id :: id in s.subscribers && s.subscribers[id].live ==>
         match s.subscribers[id].key
         case None => id in s.all
         case Some(key) => key in s.runs && id in s.runs[key].subscribers
  }

  ghost predicate Good(s: State) {
    Numbered(s.log) && Windows(s) && Linked(s)
  }

  lemma NumberedIsIncreasing(log: seq<Event>)
    requires Numbered(log)
    ensures Increasing(log, Earlier)
  {
  }

  lemma InitiallyGood(limit: nat, buffer: nat)
    ensures Good(State(limit, buffer, [], map[], {}, map[]))
  {
  }

  lemma KeptIsWindow(events: seq<Event>, e: Event, limit: nat)
    ensures Kept(Window(events, limit), e, limit) == Window(events + [e], limit)
  {
  }

  lemma PublishKeepsWindows(s: State, key: RunKey, body: string)
    requires Windows(s)
    ensures Windows(Next(s, Publish(key, body)))
  {
    var n := Next(s, Publish(key, body));
    var e := Event(|s.log| + 1, key, body);
    forall k ensures RunOf(n, k).replay == Window(Select(n.log, Some(k), 0), n.limit) {
      SelectAppend(s.log, e, Some(k), 0);
      KeptIsWindow(Select(s.log, Some(k), 0), e, s.limit);
      hide Select, Window, Kept;
      assert RunOf(s, k).replay == Window(Select(s.log, Some(k), 0), s.limit);
      assert n.log == s.log + [e];
      assert RunOf(n, k).replay == if k == key then Kept(RunOf(s, k).replay, e, s.limit) else RunOf(s, k).replay;
    }
  }

  lemma OthersKeepWindows(s: State, step: Step)
    requires Windows(s) && Enabled(s, step) && !step.Publish?
    ensures Windows(Next(s, step))
  {
    hide Select, Window, Forwarded, CanForward, Replay;
    var n := Next(s, step);
    forall k ensures RunOf(n, k).replay == RunOf(s, k).replay {
    }
    assert n.log == s.log && n.limit == s.limit;
  }

  lemma ForwardedStays(t: Subscriber, buffer: nat, step: Step)
    requires Forwards(step) && CanForward(t, buffer, step)
    ensures var u := Forwarded(t, buffer, step);
      u.key == t.key && u.live == t.live && u.since == t.since && u.after == t.after
  {
  }

  lemma NextIsLinked(s: State, step: Step)
    requires Linked(s) && Enabled(s, step)
    ensures Linked(Next(s, step))
  {
    if step.Publish? {
      PublishIsLinked(s, step.key, step.body);
    } else if step.Subscribe? {
      SubscribeIsLinked(s, step.scope, step.after, step.id);
    } else if step.Unsubscribe? {
      UnsubscribeIsLinked(s, step.id);
    } else {
      ForwardIsLinked(s, step);
    }
  }

  lemma ForwardIsLinked(s: State, step: Step)
    requires Linked(s) && Enabled(s, step) && Forwards(step)
    ensures Linked(Next(s, step))
  {
    hide Linked;
    ForwardedStays(s.subscribers[step.id], s.buffer, step);
    var n := Next(s, step);
    assert n == s.(subscribers := s.subscribers[step.id := n.subscribers[step.id]]);
    hide Next, Enabled, Forwarded, CanForward;
    SameLinks(s, n, step.id);
  }

  lemma SameLinks(s: State, n: State, id: nat)
    requires Linked(s) && id in s.subscribers && id in n.subscribers
    requires n == s.(subscribers := s.subscribers[id := n.subscribers[id]])
    requires n.subscribers[id].key == s.subscribers[id].key && n.subscribers[id].live == s.subscribers[id].live
    ensures Linked(n)
  {
  }

  lemma PublishIsLinked(s: State, key: RunKey, body: string)
    requires Linked(s)
    ensures Linked(Next(s, Publish(key, body)))
  {
    hide Kept, Audience;
  }

  lemma SubscribeIsLinked(s: State, scope: Option<RunKey>, after: nat, id: nat)
    requires Linked(s) && Enabled(s, Subscribe(scope, after, id))
    ensures Linked(Next(s, Subscribe(scope, after, id)))
  {
    hide Replay;
  }

  lemma UnsubscribeIsLinked(s: State, id: nat)
    requires Linked(s) && Enabled(s, Unsubscribe(id))
    ensures Linked(Next(s, Unsubscribe(id)))
  {
    var n := Next(s, Unsubscribe(id));
    RunsAfterUnsubscribe(s, id);
    hide Next;
    assert n.all == s.all - {id} || n.all == s.all;
  }

  lemma RunsAfterUnsubscribe(s: State, id: nat)
    requires Linked(s) && Enabled(s, Unsubscribe(id))
    ensures var n := Next(s, Unsubscribe(id));
      (forall k :: k in n.runs ==> k in s.runs && n.runs[k].subscribers == s.runs[k].subscribers - {id})
      && (forall k :: k in s.runs && k !in n.runs ==> s.runs[k].subscribers == {id})
      && n.all == s.all - {id} && n.subscribers == s.subscribers[id := s.subscribers[id].(live := false)]
  {
    var n := Next(s, Unsubscribe(id));
    forall k | k in n.runs ensures k in s.runs && n.runs[k].subscribers == s.runs[k].subscribers - {id} {
    }
    forall k | k in s.runs && k !in n.runs ensures s.runs[k].subscribers == {id} {
      assert s.subscribers[id].key == Some(k);
      assert id in s.runs[k].subscribers;
    }
  }

  lemma NextIsGood(s: State, step: Step)
    requires Good(s) && Enabled(s, step)
    ensures Good(Next(s, step))
  {
    NextIsLinked(s, step);
    hide Linked;
    if step.Publish? {
      PublishKeepsWindows(s, step.key, step.body);
    } else {
      OthersKeepWindows(s, step);
      hide Windows, Forwarded, Replay;
      assert Next(s, step).log == s.log;
    }
  }

  datatype Run = Run(states: seq<State>, steps: seq<Step>)

  ghost predicate Valid(run: Run) {
    |run.states| == |run.steps| + 1
    && run.states[0] == State(run.states[0].limit, run.states[0].buffer, [], map[], {}, map[])
    && run.states[0].buffer > 0
    && forall i :: 0 <= i < |run.steps| ==>
         Enabled(run.states[i], run.steps[i]) && run.states[i + 1] == Next(run.states[i], run.steps[i])
  }

  lemma {:induction false} ReachableIsGood(run: Run, i: nat)
    requires Valid(run) && i < |run.states|
    ensures Good(run.states[i]) && run.states[i].buffer == run.states[0].buffer
    ensures run.states[i].limit == run.states[0].limit
  {
    if i == 0 {
      InitiallyGood(run.states[0].limit, run.states[0].buffer);
    } else {
      ReachableIsGood(run, i - 1);
      NextIsGood(run.states[i - 1], run.steps[i - 1]);
      SameBounds(run.states[i - 1], run.steps[i - 1]);
    }
  }

  lemma SameBounds(s: State, step: Step)
    requires Enabled(s, step)
    ensures Next(s, step).limit == s.limit && Next(s, step).buffer == s.buffer
  {
  }

  /** Replay refines the global log: in every reachable state each run retains exactly the last min(limit, n) of its
      published events, with rising numbers, and what it replays after `after` are those of them above `after`. */
  lemma ReplayIsWindowOfLog(run: Run, i: nat, key: RunKey, after: nat)
    requires Valid(run) && i < |run.states|
    ensures var s := run.states[i];
      RunOf(s, key).replay == Window(Select(s.log, Some(key), 0), s.limit)
      && |RunOf(s, key).replay| ==
         (if |Select(s.log, Some(key), 0)| < s.limit then |Select(s.log, Some(key), 0)| else s.limit)
      && Increasing(RunOf(s, key).replay, Earlier)
      && forall e :: e in Replay(s, Some(key), after) <==> e in RunOf(s, key).replay && e.sequence > after
  {
    ReachableIsGood(run, i);
    var s := run.states[i];
    SelectIncreasing(s.log, Some(key), 0);
    SelectElements(s.log, Some(key), 0);
    SelectElements(RunOf(s, key).replay, Some(key), after);
    assert forall e :: e in RunOf(s, key).replay ==> e in Select(s.log, Some(key), 0);
  }

  /** A subscriber of all runs is first given the whole log restricted to what is retained above `after`, in order. */
  lemma ReplayOfAllIsRestrictedLog(run: Run, i: nat, after: nat)
    requires Valid(run) && i < |run.states|
    ensures var s := run.states[i];
      Increasing(Replay(s, None, after), Earlier)
      && forall e :: e in Replay(s, None, after) <==>
           e.sequence > after && exists key :: e in Window(Select(s.log, Some(key), 0), s.limit)
  {
    ReachableIsGood(run, i);
    var s := run.states[i];
    NumberedIsIncreasing(s.log);
    RestrictIncreasing(s.log, Retained(s), after);
    RestrictElements(s.log, Retained(s), after);
    forall e ensures e in Retained(s) <==> exists key :: e in Window(Select(s.log, Some(key), 0), s.limit) {
      RetainedIff(s, e);
    }
    forall e | e in Retained(s) ensures e in s.log {
      var key :| key in s.runs && e in s.runs[key].replay;
      SelectElements(s.log, Some(key), 0);
      assert RunOf(s, key).replay == Window(Select(s.log, Some(key), 0), s.limit);
    }
  }

  lemma RetainedIff(s: State, e: Event)
    requires Windows(s)
    ensures e in Retained(s) <==> exists key :: e in Window(Select(s.log, Some(key), 0), s.limit)
  {
    hide Select, Window;
    if e in Retained(s) {
      var key :| key in s.runs && e in s.runs[key].replay;
      assert RunOf(s, key).replay == Window(Select(s.log, Some(key), 0), s.limit);
    }
    if exists key :: e in Window(Select(s.log, Some(key), 0), s.limit) {
      var key :| e in Window(Select(s.log, Some(key), 0), s.limit);
      assert RunOf(s, key).replay == Window(Select(s.log, Some(key), 0), s.limit);
    }
  }

  // ---------------------------------------------------------------- subscriber streams

  /** Everything a subscriber has received or still holds, in the order in which it will be received. */
  function Passed(t: Subscriber): seq<Event> {
    t.received + t.out + t.replay + t.hand + t.queue
  }

  ghost predicate Suffix(queue: seq<Event>, events: seq<Event>) {
    |queue| <= |events| && queue == events[|events| - |queue|..]
  }

  function Last(events: seq<Event>): Event
    requires events != []
  {
    events[|events| - 1]
  }

  /** With `live` the events published for the subscriber since it subscribed: its queue holds the newest of them, its
      stream is strictly increasing, and the latest event is there or on its way. */
  ghost predicate InStep(t: Subscriber, live: seq<Event>) {
    (t.hand == [] || t.replay == []) && Increasing(Passed(t), Earlier) &&
    if t.inflight == multiset{} then
      Suffix(t.queue, live) && (live != [] ==> Last(live) in Passed(t))
    else
      live != [] && (t.inflight == multiset{Pending(Last(live), false)}
                     || t.inflight == multiset{Pending(Last(live), true)})
      && Suffix(t.queue, live[..|live| - 1])
      && forall e :: e in Passed(t) ==> e.sequence < Last(live).sequence
  }

  ghost predicate SoundSubscriber(log: seq<Event>, t: Subscriber) {
    t.since <= |log| && InStep(t, Select(log, t.key, t.since))
    && forall e :: e in Passed(t) ==> e in log && Matches(t.key, e)
  }

  lemma DropKeepsStep(t: Subscriber, live: seq<Event>, buffer: nat)
    requires InStep(t, live) && live != [] && t.inflight == multiset{Pending(Last(live), true)}
    ensures InStep(Attempt(t, buffer, Pending(Last(live), true)), live)
    ensures forall e :: e in Passed(Attempt(t, buffer, Pending(Last(live), true))) ==> e in Passed(t)
  {
    var u := Attempt(t, buffer, Pending(Last(live), true));
    assert t.inflight - multiset{Pending(Last(live), true)} == multiset{};
    assert u.inflight == multiset{Pending(Last(live), false)};
    if t.queue != [] {
      var front := t.received + t.out + t.replay + t.hand;
      WithoutOne(front, t.queue);
      var sent := live[..|live| - 1];
      assert u.queue == sent[|sent| - |t.queue|..][1..] == sent[|sent| - |u.queue|..];
      assert Passed(t) == front + t.queue && Passed(u) == front + t.queue[1..];
    }
  }

  lemma WithoutOne(front: seq<Event>, queue: seq<Event>)
    requires queue != [] && Increasing(front + queue, Earlier)
    ensures Increasing(front + queue[1..], Earlier)
    ensures forall e :: e in front + queue[1..] ==> e in front + queue
  {
    var a, b := front + queue, front + queue[1..];
    forall i, j | 0 <= i < j < |b| ensures Earlier(b[i], b[j]) {
      var k, l := if i < |front| then i else i + 1, if j < |front| then j else j + 1;
      assert b[i] == a[k] && b[j] == a[l];
    }
  }

  lemma WithOneMore(events: seq<Event>, e: Event)
    requires Increasing(events, Earlier) && forall x :: x in events ==> x.sequence < e.sequence
    ensures Increasing(events + [e], Earlier)
  {
    forall i, j | 0 <= i < j < |events + [e]| ensures Earlier((events + [e])[i], (events + [e])[j]) {
      assert (events + [e])[i] in events;
    }
  }

  lemma SendKeepsStep(t: Subscriber, live: seq<Event>, buffer: nat)
    requires InStep(t, live) && live != [] && t.inflight == multiset{Pending(Last(live), false)}
    ensures InStep(Attempt(t, buffer, Pending(Last(live), false)), live)
    ensures forall e :: e in Passed(Attempt(t, buffer, Pending(Last(live), false))) ==>
      e in Passed(t) || e == Last(live)
  {
    var e := Last(live);
    var u := Attempt(t, buffer, Pending(e, false));
    assert t.inflight - multiset{Pending(e, false)} == multiset{};
    if |t.queue| < buffer {
      assert Passed(u) == Passed(t) + [e];
      hide Passed;
      WithOneMore(Passed(t), e);
      SuffixGrows(t.queue, live);
    } else {
      assert Passed(u) == Passed(t) && u.inflight == multiset{Pending(e, true)};
    }
  }

  lemma SuffixGrows(queue: seq<Event>, live: seq<Event>)
    requires live != [] && Suffix(queue, live[..|live| - 1])
    ensures Suffix(queue + [Last(live)], live)
  {
    var sent := live[..|live| - 1];
    assert live == sent + [Last(live)];
  }

  /** A delivery attempt keeps the stream in step: it sends the event, or drops the oldest one to make room for it. */
  lemma AttemptKeepsStep(t: Subscriber, live: seq<Event>, buffer: nat, pending: Pending)
    requires InStep(t, live) && pending in t.inflight
    ensures InStep(Attempt(t, buffer, pending), live)
    ensures forall e :: e in Passed(Attempt(t, buffer, pending)) ==> e in Passed(t) || (live != [] && e == Last(live))
  {
    if pending.full {
      assert pending == Pending(Last(live), true);
      DropKeepsStep(t, live, buffer);
    } else {
      assert pending == Pending(Last(live), false);
      SendKeepsStep(t, live, buffer);
    }
  }

  lemma TakingPasses(t: Subscriber, buffer: nat, step: Step)
    requires (step.TakeReplay? || step.TakeQueue?) && CanForward(t, buffer, step) && (t.hand == [] || t.replay == [])
    ensures Passed(Forwarded(t, buffer, step)) == Passed(t)
  {
    if step.TakeReplay? {
      assert t.replay == [t.replay[0]] + t.replay[1..];
    } else {
      assert t.queue == [t.queue[0]] + t.queue[1..];
    }
  }

  lemma PuttingPasses(t: Subscriber, buffer: nat, step: Step)
    requires (step.PutOut? || step.Receive?) && CanForward(t, buffer, step) && (t.hand == [] || t.replay == [])
    ensures Passed(Forwarded(t, buffer, step)) == Passed(t)
  {
    if step.PutOut? {
      assert t.hand == [t.hand[0]] + t.hand[1..] && t.replay == [];
    } else {
      assert t.out == [t.out[0]] + t.out[1..];
    }
  }

  lemma ForwardKeepsStep(t: Subscriber, live: seq<Event>, buffer: nat, step: Step)
    requires InStep(t, live) && Forwards(step) && CanForward(t, buffer, step)
    ensures InStep(Forwarded(t, buffer, step), live)
    ensures forall e :: e in Passed(Forwarded(t, buffer, step)) ==> e in Passed(t) || (live != [] && e == Last(live))
  {
    if step.Deliver? {
      AttemptKeepsStep(t, live, buffer, step.pending);
    } else if step.TakeReplay? || step.TakeQueue? {
      TakingPasses(t, buffer, step);
      hide Passed;
    } else {
      PuttingPasses(t, buffer, step);
      hide Passed;
    }
  }

  lemma ForwardIsSound(log: seq<Event>, t: Subscriber, buffer: nat, step: Step)
    requires SoundSubscriber(log, t) && Forwards(step) && CanForward(t, buffer, step)
    ensures SoundSubscriber(log, Forwarded(t, buffer, step))
  {
    ForwardedStays(t, buffer, step);
    ForwardKeepsStep(t, Select(log, t.key, t.since), buffer, step);
    SelectElements(log, t.key, t.since);
    hide Passed, InStep, Forwarded, Select;
  }

  /** A publication reaches a subscriber whose deliveries are done. */
  lemma PublishIsSound(log: seq<Event>, t: Subscriber, e: Event)
    requires SoundSubscriber(log, t) && Numbered(log) && e.sequence == |log| + 1
    requires Matches(t.key, e) ==> t.inflight == multiset{}
    ensures SoundSubscriber(log + [e],
      if Matches(t.key, e) then t.(inflight := t.inflight + multiset{Pending(e, false)}) else t)
  {
    SelectAppend(log, e, t.key, t.since);
    var live := Select(log, t.key, t.since);
    hide Select;
    forall x | x in Passed(t) ensures x.sequence < e.sequence {
      assert x in log;
    }
    if Matches(t.key, e) {
      assert (live + [e])[..|live|] == live;
      var u := t.(inflight := t.inflight + multiset{Pending(e, false)});
      assert Passed(u) == Passed(t);
      hide Passed, Numbered;
      assert u.inflight == multiset{Pending(e, false)};
      assert InStep(u, live + [e]);
    }
  }

  lemma NewSubscriberIsSound(s: State, key: Option<RunKey>, after: nat)
    requires Good(s)
    ensures SoundSubscriber(s.log,
      Subscriber(key, after, |s.log|, true, Replay(s, key, after), multiset{}, [], [], [], []))
  {
    var t := Subscriber(key, after, |s.log|, true, Replay(s, key, after), multiset{}, [], [], [], []);
    assert Passed(t) == t.replay;
    SelectNone(s.log, key, |s.log|);
    ReplayElements(s, key, after);
  }

  lemma ReplayElements(s: State, key: Option<RunKey>, after: nat)
    requires Good(s)
    ensures Increasing(Replay(s, key, after), Earlier)
    ensures forall e :: e in Replay(s, key, after) ==> e in s.log && Matches(key, e)
  {
    NumberedIsIncreasing(s.log);
    if key.Some? {
      var replay := RunOf(s, key.value).replay;
      assert replay == Window(Select(s.log, key, 0), s.limit);
      SelectIncreasing(s.log, key, 0);
      SelectElements(s.log, key, 0);
      SelectIncreasing(replay, key, after);
      SelectElements(replay, key, after);
    } else {
      RestrictIncreasing(s.log, Retained(s), after);
      RestrictElements(s.log, Retained(s), after);
    }
  }

  /** Publications wait for the deliveries of the previous ones to the same subscribers. */
  ghost predicate Serialised(s: State, step: Step) {
    step.Publish? ==> forall id :: id in Audience(s, step.key) && id in s.subscribers ==>
      s.subscribers[id].inflight == multiset{}
  }

  ghost predicate SoundSubscribers(s: State) {
    forall id :: id in s.subscribers && s.subscribers[id].live ==> SoundSubscriber(s.log, s.subscribers[id])
  }

  lemma AudienceMatches(s: State, key: RunKey, id: nat)
    requires Linked(s) && id in s.subscribers && s.subscribers[id].live
    ensures id in Audience(s, key) <==> (s.subscribers[id].key.None? || s.subscribers[id].key.value == key)
  {
  }

  lemma SubscriberStaysSound(s: State, step: Step, id: nat)
    requires Good(s) && SoundSubscribers(s) && Enabled(s, step) && Serialised(s, step)
    requires id in Next(s, step).subscribers && Next(s, step).subscribers[id].live
    ensures SoundSubscriber(Next(s, step).log, Next(s, step).subscribers[id])
  {
    hide SoundSubscriber, Windows, Numbered;
    match step
    case Publish(key, body) =>
      var e := Event(|s.log| + 1, key, body);
      AudienceMatches(s, key, id);
      PublishIsSound(s.log, s.subscribers[id], e);
    case Subscribe(scope, after, id') =>
      NewSubscriberIsSound(s, scope, after);
    case Unsubscribe(_) =>
    case _ =>
      ForwardedStays(s.subscribers[step.id], s.buffer, step);
      if step.id == id {
        ForwardIsSound(s.log, s.subscribers[id], s.buffer, step);
      }
  }

  lemma {:induction false} SerialisedIsSound(run: Run, i: nat)
    requires Valid(run) && i < |run.states| && forall k :: 0 <= k < i ==> Serialised(run.states[k], run.steps[k])
    ensures SoundSubscribers(run.states[i])
  {
    if i > 0 {
      SerialisedIsSound(run, i - 1);
      ReachableIsGood(run, i - 1);
      forall id | id in run.states[i].subscribers && run.states[i].subscribers[id].live
        ensures SoundSubscriber(run.states[i].log, run.states[i].subscribers[id])
      {
        SubscriberStaysSound(run.states[i - 1], run.steps[i - 1], id);
      }
    }
  }

  /** With serialised publications, a live subscriber receives events of the log in strictly increasing order, none
      twice, whether replayed or live; its queue is the newest part of what was delivered; and the latest event is never
      lost. */
  lemma SubscriberStreamsAreSound(run: Run, i: nat, id: nat)
    requires Valid(run) && i < |run.states| && forall k :: 0 <= k < i ==> Serialised(run.states[k], run.steps[k])
    requires id in run.states[i].subscribers && run.states[i].subscribers[id].live
    ensures var s, t := run.states[i], run.states[i].subscribers[id];
      var live := Select(s.log, t.key, t.since);
      Increasing(t.received, Earlier) && (forall e :: e in t.received ==> e in s.log && Matches(t.key, e))
      && (if t.inflight == multiset{} then Suffix(t.queue, live) else live != [] && Suffix(t.queue, live[..|live| - 1]))
      && (t.inflight == multiset{} && live != [] ==> Last(live) in Passed(t))
  {
    SerialisedIsSound(run, i);
    var t := run.states[i].subscribers[id];
    assert SoundSubscriber(run.states[i].log, t);
    forall k | 0 <= k < |t.received| ensures t.received[k] == Passed(t)[k] {
    }
  }

  // ---------------------------------------------------------------- bounds

  /** No channel holds more than it has room for. */
  ghost predicate Bounded(s: State) {
    forall id :: id in s.subscribers ==>
      |s.subscribers[id].queue| <= s.buffer && |s.subscribers[id].out| <= s.buffer && |s.subscribers[id].hand| <= 1
  }

  lemma NextIsBounded(s: State, step: Step)
    requires Bounded(s) && Enabled(s, step)
    ensures Bounded(Next(s, step))
  {
    hide Replay, Kept, Audience;
  }

  lemma {:induction false} ReachableIsBounded(run: Run, i: nat)
    requires Valid(run) && i < |run.states|
    ensures Bounded(run.states[i])
  {
    if i > 0 {
      hide Bounded, Next, Enabled;
      ReachableIsBounded(run, i - 1);
      NextIsBounded(run.states[i - 1], run.steps[i - 1]);
    }
  }

  // ---------------------------------------------------------------- deliverLatest

  /** How many deliveries have found the queue full in their last attempt. */
  ghost function Fulls(inflight: multiset<Pending>): nat {
    if inflight == multiset{} then 0
    else
      var p :| p in inflight;
      Fulls(inflight - multiset{p}) + if p.full then 1 else 0
  }

  lemma {:induction false} FullsWithout(inflight: multiset<Pending>, p: Pending)
    requires p in inflight
    ensures Fulls(inflight) == Fulls(inflight - multiset{p}) + if p.full then 1 else 0
    decreases |inflight|
  {
    var q :| q in inflight && Fulls(inflight) == Fulls(inflight - multiset{q}) + if q.full then 1 else 0;
    if p != q {
      FullsWithout(inflight - multiset{q}, p);
      FullsWithout(inflight - multiset{p}, q);
      assert inflight - multiset{q} - multiset{p} == inflight - multiset{p} - multiset{q};
    }
  }

  lemma FullsWith(inflight: multiset<Pending>, p: Pending)
    ensures Fulls(inflight + multiset{p}) == Fulls(inflight) + if p.full then 1 else 0
  {
    FullsWithout(inflight + multiset{p}, p);
    assert inflight + multiset{p} - multiset{p} == inflight;
  }

  lemma {:induction false} FullsAreSome(inflight: multiset<Pending>)
    ensures Fulls(inflight) <= |inflight|
    decreases |inflight|
  {
    if inflight != multiset{} {
      var p :| p in inflight && Fulls(inflight) == Fulls(inflight - multiset{p}) + if p.full then 1 else 0;
      FullsAreSome(inflight - multiset{p});
    }
  }

  /** A bound for the attempts that all deliveries to a subscriber together still need: a full queue is noticed by each
      of them once at most before one drops an event, and then there is room until one has ended. */
  ghost function Attempts(t: Subscriber, buffer: nat): int {
    Bound(|t.inflight|, Fulls(t.inflight), |t.queue| < buffer)
  }

  function Bound(deliveries: nat, fulls: nat, room: bool): int {
    deliveries * deliveries + if room then fulls else 2 * deliveries - fulls
  }

  /** An attempt drops an event, ends its delivery, or finds the queue full. */
  predicate Attempted(n: nat, fulls: nat, room: bool, m: nat, rest: nat, left: bool) {
    (m == n && fulls > 0 && rest == fulls - 1 && left)
    || (n > 0 && m == n - 1 && rest == fulls <= m && room)
    || (m == n && rest == fulls + 1 && !room && !left)
  }

  lemma BoundIsLess(n: nat, fulls: nat, room: bool, m: nat, rest: nat, left: bool)
    requires fulls <= n && rest <= m && Attempted(n, fulls, room, m, rest, left)
    ensures 0 <= Bound(m, rest, left) < Bound(n, fulls, room)
  {
    if m == n - 1 { assert m * m == n * n - 2 * n + 1; }
  }

  lemma BoundIsNoMore(n: nat, fulls: nat, room: bool)
    requires fulls <= n
    ensures Bound(n, fulls, true) <= Bound(n, fulls, room)
  {
  }

  /** The deliveries after one attempt. */
  lemma AttemptCounts(t: Subscriber, buffer: nat, pending: Pending)
    requires buffer > 0 && pending in t.inflight && |t.queue| <= buffer
    ensures var u := Attempt(t, buffer, pending);
      Attempted(|t.inflight|, Fulls(t.inflight), |t.queue| < buffer, |u.inflight|, Fulls(u.inflight),
                |u.queue| < buffer)
      && |u.queue| <= buffer
  {
    var others := t.inflight - multiset{pending};
    FullsAreSome(others);
    FullsWithout(t.inflight, pending);
    FullsWith(others, Pending(pending.event, !pending.full));
    assert |others| == |t.inflight| - 1;
    hide Fulls;
  }

  lemma AttemptIsLess(t: Subscriber, buffer: nat, pending: Pending)
    requires buffer > 0 && pending in t.inflight && |t.queue| <= buffer
    ensures var u := Attempt(t, buffer, pending);
      |u.queue| <= buffer && 0 <= Attempts(u, buffer) < Attempts(t, buffer)
  {
    hide Fulls, Attempt, Attempted, Bound;
    var u := Attempt(t, buffer, pending);
    AttemptCounts(t, buffer, pending);
    FullsAreSome(t.inflight);
    FullsAreSome(u.inflight);
    BoundIsLess(|t.inflight|, Fulls(t.inflight), |t.queue| < buffer,
                |u.inflight|, Fulls(u.inflight), |u.queue| < buffer);
  }

  lemma TakingIsNoMore(t: Subscriber, buffer: nat, queue: seq<Event>)
    requires |queue| <= |t.queue|
    ensures Attempts(t.(queue := queue), buffer) <= Attempts(t, buffer)
  {
    FullsAreSome(t.inflight);
    BoundIsNoMore(|t.inflight|, Fulls(t.inflight), |t.queue| < buffer);
    hide Fulls, Bound;
  }

  /** The loops of `deliverLatest` end, also of concurrent publishers: each attempt of any of them leaves fewer to make,
      and nothing that the subscriber takes from its queue in between makes it more. */
  lemma DeliveriesEnd(t: Subscriber, buffer: nat, pending: Pending)
    requires buffer > 0 && pending in t.inflight && |t.queue| <= buffer
    ensures var u := Attempt(t, buffer, pending);
      |u.queue| <= buffer && 0 <= Attempts(u, buffer) < Attempts(t, buffer)
    ensures forall queue :: |queue| <= |t.queue| ==> Attempts(t.(queue := queue), buffer) <= Attempts(t, buffer)
  {
    AttemptIsLess(t, buffer, pending);
    hide Attempts, Attempt;
    forall queue | |queue| <= |t.queue| ensures Attempts(t.(queue := queue), buffer) <= Attempts(t, buffer) {
      TakingIsNoMore(t, buffer, queue);
    }
  }

  /** A bounded channel with one producer, as `deliverLatest` uses it. */
  class Channel {
    const buffer: nat
    var queue: seq<Event>

    constructor (buffer: nat)
      requires buffer > 0
      ensures Valid() && queue == [] && this.buffer == buffer
    {
      this.buffer := buffer;
      queue := [];
    }

    predicate Valid()
      reads this
    {
      0 < buffer && |queue| <= buffer
    }

    /** The channel afterwards holds the newest events, the new one last: only the oldest one is dropped for it. */
    method DeliverLatest(event: Event)
      requires Valid()
      modifies this
      ensures Valid() && queue == Window(old(queue) + [event], buffer)
    {
      while true
        invariant Valid() && (queue == old(queue) || (|old(queue)| == buffer && queue == old(queue)[1..]))
        decreases |queue|
      {
        if |queue| < buffer {
          queue := queue + [event];
          return;
        }
        if queue != [] {
          queue := queue[1..];
        }
      }
    }
  }

  // ---------------------------------------------------------------- the hub

  class Hub {
    const limit: nat
    const buffer: nat
    var nextSequence: nat
    var runs: map<RunKey, RunEvents>
    var allSubscribers: set<nat>
    var subscribers: map<nat, Subscriber>
    ghost var log: seq<Event>

    /** `NewEventHubWithBuffer`. */
    constructor (replayLimit: int, subscriberBuffer: int)
      ensures Valid() && log == [] && runs == map[] && subscribers == map[]
      ensures limit == (if replayLimit < 0 then 0 else replayLimit)
        && buffer == if subscriberBuffer < 1 then 1 else subscriberBuffer
    {
      limit := if replayLimit < 0 then 0 else replayLimit;
      buffer := if subscriberBuffer < 1 then 1 else subscriberBuffer;
      nextSequence, runs, allSubscribers, subscribers, log := 0, map[], {}, map[], [];
    }

    ghost function Model(): State
      reads this
    {
      State(limit, buffer, log, runs, allSubscribers, subscribers)
    }

    ghost predicate Valid()
      reads this
    {
      Good(Model()) && nextSequence == |log|
    }

    method RunLocked(key: RunKey) returns (run: RunEvents)
      modifies this`runs
      ensures run == RunOf(old(Model()), key) && runs == old(runs)[key := run]
    {
      if key !in runs {
        runs := runs[key := RunEvents([], {})];
      }
      run := runs[key];
      assert runs == old(runs)[key := run];
    }

    /** `publish` up to the end of its locked section; the deliveries follow one by one. `complete` tells that the event
        has a known kind and the payload of that kind. */
    method Publish(key: RunKey, complete: bool, body: string) returns (event: Option<Event>)
      requires Valid()
      modifies this
      ensures Valid()
      ensures event.Some? <==> complete && ValidKey(key)
      ensures event.Some? ==> event.value == Event(|old(log)| + 1, key, body)
      ensures Model() == if event.Some? then Next(old(Model()), Step.Publish(key, body)) else old(Model())
    {
      if !complete || !ValidKey(key) {
        return None;
      }
      hide Good, ValidKey, Next;
      NextIsGood(Model(), Step.Publish(key, body));
      var published := PublishLocked(key, body);
      return Some(published);
    }

    method PublishLocked(key: RunKey, body: string) returns (event: Event)
      requires nextSequence == |log|
      modifies this
      ensures event == Event(|old(log)| + 1, key, body) && nextSequence == |log|
      ensures Model() == Next(old(Model()), Step.Publish(key, body))
    {
      nextSequence := nextSequence + 1;
      event := Event(nextSequence, key, body);
      log := log + [event];
      var run := RunLocked(key);
      if limit > 0 {
        var replay := run.replay + [event];
        var overflow := |replay| - limit;
        if overflow > 0 {
          replay := replay[overflow..];
        }
        runs := runs[key := run.(replay := replay)];
      }
      subscribers := map id | id in subscribers ::
        if id in run.subscribers + allSubscribers
        then subscribers[id].(inflight := subscribers[id].inflight + multiset{Pending(event, false)})
        else subscribers[id];
      assert runs == Next(old(Model()), Step.Publish(key, body)).runs;
    }

    /** `cloneEventsAfter`. */
    method CloneEventsAfter(events: seq<Event>, key: RunKey, after: nat) returns (r: seq<Event>)
      requires Increasing(events, Earlier) && forall i :: 0 <= i < |events| ==>
        events[i].sequence > 0 && Matches(Some(key), events[i])
      ensures r == Select(events, Some(key), after)
    {
      if after == 0 {
        SelectSuffix(events, Some(key), 0, 0);
        return events;
      }
      for start := 0 to |events|
        invariant forall i :: 0 <= i < start ==> events[i].sequence <= after
      {
        if events[start].sequence > after {
          assert forall i :: start < i < |events| ==> Earlier(events[start], events[i]);
          SelectSuffix(events, Some(key), after, start);
          return events[start..];
        }
      }
      SelectSuffix(events, Some(key), after, |events|);
      return [];
    }

    lemma ReplayIsSorted(key: RunKey)
      requires Valid()
      ensures var replay := RunOf(Model(), key).replay;
        Increasing(replay, Earlier)
        && (forall i :: 0 <= i < |replay| ==> replay[i].sequence > 0 && Matches(Some(key), replay[i]))
        && forall e :: e in replay ==> e in log
    {
      NumberedIsIncreasing(log);
      SelectIncreasing(log, Some(key), 0);
      SelectElements(log, Some(key), 0);
      assert RunOf(Model(), key).replay == Window(Select(log, Some(key), 0), limit);
    }

    method SnapshotAfter(key: RunKey, after: nat) returns (r: Option<seq<Event>>)
      requires Valid()
      ensures r.Some? <==> ValidKey(key)
      ensures r.Some? ==> r.value == Select(Window(Select(log, Some(key), 0), limit), Some(key), after)
    {
      if !ValidKey(key) {
        return None;
      }
      hide Select, Window, ValidKey;
      ReplayIsSorted(key);
      assert RunOf(Model(), key).replay == Window(Select(log, Some(key), 0), limit);
      if key !in runs || runs[key].replay == [] {
        SelectNone([], Some(key), after);
        return Some([]);
      }
      var events := CloneEventsAfter(runs[key].replay, key, after);
      return Some(events);
    }

    /** `SubscribeAfter`, as the subscriber `id`. */
    method SubscribeAfter(hasContext: bool, key: RunKey, after: nat, id: nat) returns (ok: bool)
      requires Valid() && id !in subscribers
      modifies this
      ensures Valid()
      ensures ok <==> hasContext && ValidKey(key)
      ensures Model() == if ok then Next(old(Model()), Subscribe(Some(key), after, id)) else old(Model())
    {
      if !hasContext || !ValidKey(key) {
        return false;
      }
      hide Good, ValidKey, Select;
      NextIsGood(Model(), Subscribe(Some(key), after, id));
      ReplayIsSorted(key);
      var run := RunLocked(key);
      var replay := CloneEventsAfter(run.replay, key, after);
      runs := runs[key := run.(subscribers := run.subscribers + {id})];
      var subscriber := Subscriber(Some(key), after, nextSequence, true, replay, multiset{}, [], [], [], []);
      subscribers := subscribers[id := subscriber];
      assert Model() == Next(old(Model()), Subscribe(Some(key), after, id));
      return true;
    }

    /** `SubscribeAllAfter`, as the subscriber `id`. The runs are walked in any order. */
    method SubscribeAllAfter(hasContext: bool, after: nat, id: nat) returns (ok: bool)
      requires Valid() && id !in subscribers
      modifies this
      ensures Valid() && ok == hasContext
      ensures Model() == if ok then Next(old(Model()), Subscribe(None, after, id)) else old(Model())
    {
      if !hasContext {
        return false;
      }
      hide Good, Restrict, Select;
      NextIsGood(Model(), Subscribe(None, after, id));
      var replay := ReplayAll(after);
      allSubscribers := allSubscribers + {id};
      subscribers := subscribers[id := Subscriber(None, after, nextSequence, true, replay, multiset{}, [], [], [], [])];
      assert Model() == Next(old(Model()), Subscribe(None, after, id));
      return true;
    }

    /** The retained events above `after` of all runs, collected in any order and then sorted. */
    method ReplayAll(after: nat) returns (replay: seq<Event>)
      requires Valid()
      ensures replay == Restrict(log, Retained(Model()), after)
    {
      hide Select, Restrict, Window;
      replay := [];
      var todo := runs.Keys;
      while todo != {}
        invariant todo <= runs.Keys && NoDuplicates(replay)
        invariant forall e :: e in replay <==>
          e.sequence > after && e.key in runs.Keys - todo && e in runs[e.key].replay
        invariant forall e :: e in replay ==> e in log
        decreases todo
      {
        var key :| key in todo;
        todo := todo - {key};
        ReplayIsSorted(key);
        var events := CloneEventsAfter(runs[key].replay, key, after);
        SelectElements(runs[key].replay, Some(key), after);
        SelectIncreasing(runs[key].replay, Some(key), after);
        AppendRun(replay, events, key);
        replay := replay + events;
      }
      SequencesDiffer(replay);
      SortByIncreasing(replay, Earlier);
      ghost var all := replay;
      replay := SortBy(replay, Earlier);
      NumberedIsIncreasing(log);
      RestrictIncreasing(log, Retained(Model()), after);
      RestrictElements(log, Retained(Model()), after);
      forall e ensures e in replay <==> e in Restrict(log, Retained(Model()), after) {
        RetainedByItsRun(e);
      }
      EarlierIsStrictOrder();
      IncreasingUnique(replay, Restrict(log, Retained(Model()), after), Earlier);
    }

    lemma RetainedByItsRun(e: Event)
      requires Valid()
      ensures e in Retained(Model()) <==> e.key in runs && e in runs[e.key].replay
      ensures e in Retained(Model()) ==> e in log
    {
      if e in Retained(Model()) {
        var key :| key in runs && e in runs[key].replay;
        ReplayIsSorted(key);
      }
    }

    lemma SequencesDiffer(events: seq<Event>)
      requires Valid() && forall e :: e in events ==> e in log
      ensures Transitive(Earlier) && Comparable(events, Earlier)
    {
      forall i, j | 0 <= i < |events| && 0 <= j < |events| && events[i] != events[j]
        ensures Earlier(events[i], events[j]) || Earlier(events[j], events[i])
      {
        assert events[i] in events && events[j] in events;
        var k :| 0 <= k < |log| && log[k] == events[i];
        var l :| 0 <= l < |log| && log[l] == events[j];
      }
    }

    /** `unsubscribe` and `unsubscribeAll`. */
    method Unsubscribe(id: nat)
      requires Valid() && Enabled(Model(), Step.Unsubscribe(id))
      modifies this
      ensures Valid() && Model() == Next(old(Model()), Step.Unsubscribe(id))
    {
      hide Good;
      NextIsGood(Model(), Step.Unsubscribe(id));
      var t := subscribers[id];
      subscribers := subscribers[id := t.(live := false)];
      if t.key.None? {
        allSubscribers := allSubscribers - {id};
        return;
      }
      var key := t.key.value;
      if key !in runs {
        return;
      }
      var run := runs[key].(subscribers := runs[key].subscribers - {id});
      runs := if run.subscribers == {} && run.replay == [] then runs - {key} else runs[key := run];
    }
  }

  lemma AppendRun(replay: seq<Event>, events: seq<Event>, key: RunKey)
    requires NoDuplicates(replay) && Increasing(events, Earlier)
    requires (forall e :: e in replay ==> e.key != key) && forall e :: e in events ==> e.key == key
    ensures NoDuplicates(replay + events)
  {
    var all := replay + events;
    forall i, j | 0 <= i < j < |all| ensures all[i] != all[j] {
      if i < |replay| <= j {
        assert all[i] in replay && all[j] in events;
      } else if |replay| <= i {
        assert Earlier(events[i - |replay|], events[j - |replay|]);
      }
    }
  }
}
