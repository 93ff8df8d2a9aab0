/** The in-memory command service (internal/control/service.go): a log of commands for each run, and streams that replay
    the log and then follow it. Sections under the mutex are atomic steps; every channel send and receive is a step of
    its own, so that producers and streams interleave freely. A producer sends to the streams of its run one after the
    other, and waits at each for room in the channel. */
module CommandService {
  import opened Wrappers
  import opened Text
  import opened Ordering
  import opened Commands

  datatype Log = Log(commands: seq<Command>, seen: set<string>, streams: set<nat>)

  /** A registered stream. `queue` is the channel that producers send to, `replay` what is left of the replayed log,
      `hand` the command its goroutine has taken from the channel, `out` the channel to the receiver, and `received` all
      that the receiver got. */
  datatype Stream = Stream(key: RunKey, live: bool, replay: seq<Command>, queue: seq<Command>, hand: seq<Command>,
                           out: seq<Command>, received: seq<Command>)

  /** A producer after its locked section: `todo` lists the streams it has still to send to, in its order. */
  datatype Delivery = Delivery(key: RunKey, command: Command, todo: seq<nat>)

  datatype State = State(runs: map<RunKey, Log>, streams: map<nat, Stream>, sends: map<nat, Delivery>)

  const BUFFER := 64

  const EMPTY := State(map[], map[], map[])

  datatype Step =
    | Register(key: RunKey, id: nat)
    | Enqueue(key: RunKey, command: Command, producer: nat, order: seq<nat>)
    | Send(producer: nat)
    | TakeReplay(id: nat)
    | TakeQueue(id: nat)
    | PutOut(id: nat)
    | Receive(id: nat)
    | Cancel(id: nat)

  /** `runLocked`. */
  function LogOf(s: State, key: RunKey): Log {
    if key in s.runs then s.runs[key] else Log([], {}, {})
  }

  /** The steps of one stream: its goroutine forwards, its receiver receives. */
  predicate Forwards(step: Step) {
    step.TakeReplay? || step.TakeQueue? || step.PutOut? || step.Receive?
  }

  predicate CanForward(t: Stream, step: Step)
    requires Forwards(step)
  {
    match step
    case TakeReplay(_) => t.live && t.replay != [] && |t.out| < BUFFER
    case TakeQueue(_) => t.live && t.replay == [] && t.hand == [] && t.queue != []
    case PutOut(_) => t.live && t.hand != [] && |t.out| < BUFFER
    case Receive(_) => t.out != []
  }

  function Forwarded(t: Stream, step: Step): Stream
    requires Forwards(step) && CanForward(t, step)
  {
    match step
    case TakeReplay(_) => t.(replay := t.replay[1..], out := t.out + [t.replay[0]])
    case TakeQueue(_) => t.(queue := t.queue[1..], hand := [t.queue[0]])
    case PutOut(_) => t.(hand := t.hand[1..], out := t.out + [t.hand[0]])
    case Receive(_) => t.(out := t.out[1..], received := t.received + [t.out[0]])
  }

  /** The order in which a map iteration may list the streams of a run. */
  ghost predicate Lists(order: seq<nat>, streams: set<nat>) {
    NoDuplicates(order) && Elements(order) == streams
  }

  predicate HasRoom(s: State, id: nat) {
    id in s.streams && |s.streams[id].queue| < BUFFER
  }

  ghost predicate Enabled(s: State, step: Step) {
    match step
    case Register(key, id) => id !in s.streams
    case Enqueue(key, command, producer, order) => producer !in s.sends && Lists(order, LogOf(s, key).streams)
    case Send(producer) => producer in s.sends && s.sends[producer].todo != [] && HasRoom(s, s.sends[producer].todo[0])
    case Cancel(id) => id in s.streams && s.streams[id].live
    case _ => step.id in s.streams && CanForward(s.streams[step.id], step)
  }

  /** The deliveries after a producer has sent to the first of its streams. */
  function SentOne(sends: map<nat, Delivery>, producer: nat): map<nat, Delivery>
    requires producer in sends && sends[producer].todo != []
  {
    var d := sends[producer];
    if |d.todo| == 1 then sends - {producer} else sends[producer := d.(todo := d.todo[1..])]
  }

  function Next(s: State, step: Step): State
    requires Enabled(s, step)
  {
    match step
    case Register(key, id) =>
      var log := LogOf(s, key);
      s.(runs := s.runs[key := log.(streams := log.streams + {id})],
         streams := s.streams[id := Stream(key, true, log.commands, [], [], [], [])])
    case Enqueue(key, command, producer, order) =>
      var log := LogOf(s, key);
      if command.id in log.seen then s.(runs := s.runs[key := log])
      else s.(runs := s.runs[key := Log(log.commands + [command], log.seen + {command.id}, log.streams)],
              sends := if order == [] then s.sends else s.sends[producer := Delivery(key, command, order)])
    case Send(producer) =>
      var d := s.sends[producer];
      var t := s.streams[d.todo[0]];
      s.(streams := s.streams[d.todo[0] := t.(queue := t.queue + [d.command])], sends := SentOne(s.sends, producer))
    case Cancel(id) =>
      var t := s.streams[id];
      var log := LogOf(s, t.key);
      s.(runs := if t.key in s.runs then s.runs[t.key := log.(streams := log.streams - {id})] else s.runs,
         streams := s.streams[id := t.(live := false)])
    case _ => s.(streams := s.streams[step.id := Forwarded(s.streams[step.id], step)])
  }

  // ---------------------------------------------------------------- the invariant

  ghost predicate UniqueIds(commands: seq<Command>) {
    forall i, j :: 0 <= i < j < |commands| ==> commands[i].id != commands[j].id
  }

  /** Everything a stream has received or still holds, in the order in which it will be received. */
  function Passed(t: Stream): seq<Command> {
    t.received + t.out + t.replay + t.hand + t.queue
  }

  /** The commands that producers have still to send to a stream. */
  function InFlight(sends: map<nat, Delivery>, id: nat): set<Command> {
    set p | p in sends && id in sends[p].todo :: sends[p].command
  }

  /** The log is its own record of ids. */
  ghost predicate SoundLog(log: Log) {
    UniqueIds(log.commands) && forall id :: id in log.seen <==>
      exists i :: 0 <= i < |log.commands| && log.commands[i].id == id
  }

  /** A stream is registered with its run iff it is live. */
  ghost predicate Linked(s: State) {
    (forall key, id :: key in s.runs && id in s.runs[key].streams ==>
       id in s.streams && s.streams[id].live && s.streams[id].key == key)
    && forall id :: id in s.streams && s.streams[id].live ==>
       s.streams[id].key in s.runs && id in s.runs[s.streams[id].key].streams
  }

  /** A producer delivers a command of the log to streams of that run, to each once. */
  ghost predicate SoundDelivery(s: State, d: Delivery) {
    d.todo != [] && NoDuplicates(d.todo) && d.key in s.runs && d.command in s.runs[d.key].commands
    && forall id :: id in d.todo ==> id in s.streams && s.streams[id].key == d.key
  }

  /** No two producers deliver the same command. */
  ghost predicate OwnCommands(sends: map<nat, Delivery>) {
    forall p, q :: p in sends && q in sends && p != q && sends[p].key == sends[q].key ==>
      sends[p].command.id != sends[q].command.id
  }

  ghost predicate SoundSends(s: State) {
    OwnCommands(s.sends) && forall p :: p in s.sends ==> SoundDelivery(s, s.sends[p])
  }

  /** What is received, held and in flight is the log: no command is lost, none is doubled. */
  ghost predicate ExactlyOnce(log: Log, t: Stream, flying: set<Command>) {
    multiset(Passed(t)) + multiset(flying) == multiset(log.commands)
  }

  /** A live stream accounts for its log, and takes from its channel only after the replay. */
  ghost predicate SoundStream(s: State, id: nat)
    requires id in s.streams
  {
    var t := s.streams[id];
    t.key in s.runs && ExactlyOnce(s.runs[t.key], t, InFlight(s.sends, id)) && (t.hand == [] || t.replay == [])
  }

  ghost predicate Good(s: State) {
    Linked(s) && SoundSends(s)
    && (forall key :: key in s.runs ==> SoundLog(s.runs[key]))
    && forall id :: id in s.streams && s.streams[id].live ==> SoundStream(s, id)
  }

  lemma InitiallyGood()
    ensures Good(EMPTY)
  {
  }

  lemma ForwardedStays(t: Stream, step: Step)
    requires Forwards(step) && CanForward(t, step)
    ensures Forwarded(t, step).key == t.key && Forwarded(t, step).live == t.live
  {
  }

  lemma NextIsLinked(s: State, step: Step)
    requires Linked(s) && Enabled(s, step)
    ensures Linked(Next(s, step))
  {
    if Forwards(step) {
      ForwardedStays(s.streams[step.id], step);
      hide Forwarded, CanForward;
    }
  }

  lemma EnqueueLogIsSound(log: Log, command: Command)
    requires SoundLog(log) && command.id !in log.seen
    ensures SoundLog(Log(log.commands + [command], log.seen + {command.id}, log.streams))
  {
    var commands := log.commands + [command];
    forall i, j | 0 <= i < j < |commands| ensures commands[i].id != commands[j].id {
      if j == |log.commands| { assert commands[i] == log.commands[i]; }
    }
    forall id ensures id in log.seen + {command.id} <==> exists i :: 0 <= i < |commands| && commands[i].id == id {
      if id in log.seen {
        var i :| 0 <= i < |log.commands| && log.commands[i].id == id;
        assert commands[i].id == id;
      }
      if id == command.id { assert commands[|log.commands|].id == id; }
      if exists i :: 0 <= i < |commands| && commands[i].id == id {
        var i :| 0 <= i < |commands| && commands[i].id == id;
        if i < |log.commands| { assert log.commands[i].id == id; }
      }
    }
  }

  lemma NextLogsAreSound(s: State, step: Step)
    requires Good(s) && Enabled(s, step)
    ensures forall key :: key in Next(s, step).runs ==> SoundLog(Next(s, step).runs[key])
  {
    hide SoundStream, Linked, SoundSends;
    assert SoundLog(Log([], {}, {}));
    if step.Enqueue? {
      var log := LogOf(s, step.key);
      if step.command.id !in log.seen { EnqueueLogIsSound(log, step.command); }
    }
  }

  /** A command that is not in the log yet is not under way either. */
  lemma UnseenIsNotSent(s: State, p: nat, key: RunKey, command: Command)
    requires SoundSends(s) && p in s.sends && s.sends[p].key == key && key in s.runs
    requires SoundLog(s.runs[key]) && command.id !in s.runs[key].seen
    ensures s.sends[p].command.id != command.id
  {
    var commands := s.runs[key].commands;
    assert SoundDelivery(s, s.sends[p]);
    var i :| 0 <= i < |commands| && commands[i] == s.sends[p].command;
    assert commands[i].id in s.runs[key].seen;
  }

  lemma EnqueueKeepsDelivery(s: State, step: Step, d: Delivery)
    requires step.Enqueue? && Enabled(s, step) && SoundDelivery(s, d)
    ensures SoundDelivery(Next(s, step), d)
  {
    hide SoundLog, SoundStream, Lists;
  }

  lemma EnqueueSendsAreSound(s: State, step: Step)
    requires Good(s) && step.Enqueue? && Enabled(s, step)
    ensures SoundSends(Next(s, step))
  {
    hide SoundLog, SoundStream, SoundDelivery;
    var n, log := Next(s, step), LogOf(s, step.key);
    forall p | p in s.sends ensures SoundDelivery(n, s.sends[p]) {
      EnqueueKeepsDelivery(s, step, s.sends[p]);
    }
    if step.command.id !in log.seen && step.order != [] {
      NewDeliveryIsSound(s, step);
      forall p | p in s.sends && s.sends[p].key == step.key ensures s.sends[p].command.id != step.command.id {
        KeyHasRun(s, s.sends[p]);
        UnseenIsNotSent(s, p, step.key, step.command);
      }
    }
  }

  lemma KeyHasRun(s: State, d: Delivery)
    requires SoundDelivery(s, d)
    ensures d.key in s.runs
  {
  }

  lemma NewDeliveryIsSound(s: State, step: Step)
    requires Linked(s) && step.Enqueue? && Enabled(s, step) && step.command.id !in LogOf(s, step.key).seen
    requires step.order != []
    ensures SoundDelivery(Next(s, step), Delivery(step.key, step.command, step.order))
  {
    assert forall id :: id in step.order ==> id in Elements(step.order);
  }

  lemma SendSendsAreSound(s: State, producer: nat)
    requires SoundSends(s) && Enabled(s, Send(producer))
    ensures SoundSends(Next(s, Send(producer)))
  {
    var n, d := Next(s, Send(producer)), s.sends[producer];
    forall p | p in n.sends ensures SoundDelivery(n, n.sends[p]) {
      assert SoundDelivery(s, s.sends[p]);
      if p == producer {
        assert forall k :: 0 <= k < |d.todo[1..]| ==> d.todo[1..][k] == d.todo[k + 1];
      }
    }
  }

  lemma NextSendsAreSound(s: State, step: Step)
    requires Good(s) && Enabled(s, step)
    ensures SoundSends(Next(s, step))
  {
    hide SoundLog, SoundStream, Forwarded, CanForward;
    if step.Enqueue? {
      EnqueueSendsAreSound(s, step);
    } else if step.Send? {
      SendSendsAreSound(s, step.producer);
    } else {
      if Forwards(step) { ForwardedStays(s.streams[step.id], step); }
      var n := Next(s, step);
      forall p | p in n.sends ensures SoundDelivery(n, n.sends[p]) {
        assert SoundDelivery(s, s.sends[p]);
      }
    }
  }

  // ---------------------------------------------------------------- what a step does to one stream

  /** A forwarding step changes nothing in the sequence its stream passes on. */
  lemma ForwardedPasses(t: Stream, step: Step)
    requires Forwards(step) && CanForward(t, step) && (t.hand == [] || t.replay == [])
    ensures var u := Forwarded(t, step);
      Passed(u) == Passed(t) && (u.hand == [] || u.replay == []) && u.key == t.key && u.live == t.live
  {
    if step.TakeReplay? {
      assert t.replay == [t.replay[0]] + t.replay[1..];
    } else if step.TakeQueue? {
      assert t.queue == [t.queue[0]] + t.queue[1..];
    } else {
      PuttingPasses(t, step);
    }
  }

  lemma PuttingPasses(t: Stream, step: Step)
    requires (step.PutOut? || step.Receive?) && CanForward(t, step) && (t.hand == [] || t.replay == [])
    ensures Passed(Forwarded(t, step)) == Passed(t)
  {
    if step.PutOut? {
      assert t.hand == [t.hand[0]] + t.hand[1..] && t.replay == [];
    } else {
      assert t.out == [t.out[0]] + t.out[1..];
    }
  }

  lemma ForwardSteps(s: State, step: Step, id: nat)
    requires Forwards(step) && Enabled(s, step) && id in s.streams
    ensures var n := Next(s, step);
      n.runs == s.runs && n.sends == s.sends && id in n.streams
      && n.streams[id] == if step.id == id then Forwarded(s.streams[id], step) else s.streams[id]
  {
  }

  /** What a send does to the stream it reaches. */
  function Given(t: Stream, command: Command): Stream {
    t.(queue := t.queue + [command])
  }

  lemma SendSteps(s: State, producer: nat, id: nat)
    requires SoundSends(s) && Enabled(s, Send(producer)) && id in s.streams
    ensures var n, d := Next(s, Send(producer)), s.sends[producer];
      n.runs == s.runs && id in n.streams
      && n.streams[id] == (if id == d.todo[0] then Given(s.streams[id], d.command) else s.streams[id])
      && InFlight(n.sends, id) ==
         (if id == d.todo[0] then InFlight(s.sends, id) - {d.command} else InFlight(s.sends, id))
      && (id == d.todo[0] ==> d.command in InFlight(s.sends, id) && d.key == s.streams[id].key)
  {
    var n, d := Next(s, Send(producer)), s.sends[producer];
    assert SoundDelivery(s, d);
    var gone: set<Command> := if id == d.todo[0] then {d.command} else {};
    assert d.todo == [d.todo[0]] + d.todo[1..];
    forall c | c in InFlight(n.sends, id) ensures c in InFlight(s.sends, id) - gone {
      var p :| p in n.sends && id in n.sends[p].todo && n.sends[p].command == c;
      assert SoundDelivery(s, s.sends[p]);
    }
    forall c | c in InFlight(s.sends, id) - gone ensures c in InFlight(n.sends, id) {
      var p :| p in s.sends && id in s.sends[p].todo && s.sends[p].command == c;
      assert p in n.sends && id in n.sends[p].todo;
    }
  }

  lemma GivenPasses(t: Stream, command: Command)
    ensures Passed(Given(t, command)) == Passed(t) + [command]
  {
  }

  /** Whether an enqueue adds its command to the log. */
  predicate Adds(s: State, step: Step)
    requires step.Enqueue?
  {
    step.command.id !in LogOf(s, step.key).seen
  }

  lemma EnqueueSteps(s: State, step: Step, id: nat)
    requires Linked(s) && step.Enqueue? && Enabled(s, step) && id in s.streams && s.streams[id].live
    ensures var n, t := Next(s, step), s.streams[id]; var mine := Adds(s, step) && t.key == step.key;
      n.streams == s.streams && t.key in s.runs && t.key in n.runs
      && InFlight(n.sends, id) == InFlight(s.sends, id) + (if mine then {step.command} else {})
      && n.runs[t.key].commands == s.runs[t.key].commands + (if mine then [step.command] else [])
  {
    var n, t := Next(s, step), s.streams[id];
    var added: set<Command> := if Adds(s, step) && t.key == step.key then {step.command} else {};
    assert id in step.order <==> id in Elements(step.order);
    forall c | c in InFlight(n.sends, id) ensures c in InFlight(s.sends, id) + added {
      var p :| p in n.sends && id in n.sends[p].todo && n.sends[p].command == c;
    }
    forall c | c in InFlight(s.sends, id) + added ensures c in InFlight(n.sends, id) {
      if c in InFlight(s.sends, id) {
        var p :| p in s.sends && id in s.sends[p].todo && s.sends[p].command == c;
        assert p in n.sends && id in n.sends[p].todo && n.sends[p].command == c;
      } else {
        assert step.producer in n.sends && id in n.sends[step.producer].todo;
      }
    }
  }

  /** The other steps change no stream that was there before, and no log. */
  lemma OtherSteps(s: State, step: Step, id: nat)
    requires Linked(s) && Enabled(s, step) && (step.Register? || step.Cancel?)
    requires id in s.streams && s.streams[id].live && id in Next(s, step).streams && Next(s, step).streams[id].live
    ensures var n := Next(s, step); var key := s.streams[id].key;
      n.streams[id] == s.streams[id] && n.sends == s.sends && key in s.runs && key in n.runs
      && n.runs[key].commands == s.runs[key].commands
  {
  }

  lemma RegisterSteps(s: State, key: RunKey, id: nat)
    requires SoundSends(s) && Enabled(s, Register(key, id))
    ensures var n := Next(s, Register(key, id));
      id in n.streams && n.streams[id].key == key && key in n.runs && InFlight(n.sends, id) == {}
      && Passed(n.streams[id]) == n.runs[key].commands && n.streams[id].hand == []
  {
    forall p | p in s.sends ensures id !in s.sends[p].todo {
      assert SoundDelivery(s, s.sends[p]);
    }
    assert Passed(Next(s, Register(key, id)).streams[id]) == LogOf(s, key).commands;
  }

  lemma Balance(passed: seq<Command>, flying: set<Command>, command: Command)
    requires command in flying
    ensures multiset(passed + [command]) + multiset(flying - {command}) == multiset(passed) + multiset(flying)
  {
    assert flying == (flying - {command}) + {command};
  }

  lemma EnqueueKeepsStream(s: State, step: Step, id: nat)
    requires Good(s) && step.Enqueue? && Enabled(s, step) && id in s.streams && s.streams[id].live
    ensures SoundStream(Next(s, step), id)
  {
    EnqueueSteps(s, step, id);
    hide Next, Passed, InFlight, Linked, SoundSends, Lists;
    var t := s.streams[id];
    assert SoundStream(s, id) && SoundLog(s.runs[t.key]);
    if Adds(s, step) && t.key == step.key {
      var flying := InFlight(s.sends, id);
      assert step.command !in multiset(s.runs[t.key].commands);
      assert multiset(flying + {step.command}) == multiset(flying) + multiset{step.command};
    }
  }

  lemma SendKeepsStream(s: State, producer: nat, id: nat)
    requires Good(s) && Enabled(s, Send(producer)) && id in s.streams && s.streams[id].live
    ensures SoundStream(Next(s, Send(producer)), id)
  {
    SendSteps(s, producer, id);
    var d := s.sends[producer];
    GivenPasses(s.streams[id], d.command);
    hide Next, Passed, InFlight, Linked, SoundSends, SoundLog;
    assert SoundStream(s, id);
    if id == d.todo[0] {
      Balance(Passed(s.streams[id]), InFlight(s.sends, id), d.command);
    }
  }

  lemma StreamStaysGood(s: State, step: Step, id: nat)
    requires Good(s) && Enabled(s, step) && id in Next(s, step).streams && Next(s, step).streams[id].live
    ensures SoundStream(Next(s, step), id)
  {
    hide SoundLog, Forwarded, Passed, InFlight, SoundSends, Linked;
    if Forwards(step) {
      ForwardSteps(s, step, id);
      if step.id == id {
        ForwardedStays(s.streams[id], step);
        assert SoundStream(s, id);
        ForwardedPasses(s.streams[id], step);
      }
    } else if step.Enqueue? {
      EnqueueKeepsStream(s, step, id);
    } else if step.Send? {
      SendSteps(s, step.producer, id);
      SendKeepsStream(s, step.producer, id);
    } else if step.Register? && step.id == id {
      RegisterSteps(s, step.key, id);
    } else {
      OtherSteps(s, step, id);
      assert SoundStream(s, id);
    }
  }

  /** Exactly-once delivery is kept by every step, under every interleaving of registrations, enqueues, sends and
      forwards. */
  lemma NextIsGood(s: State, step: Step)
    requires Good(s) && Enabled(s, step)
    ensures Good(Next(s, step))
  {
    hide SoundLog, SoundStream, SoundSends, Linked;
    NextIsLinked(s, step);
    NextLogsAreSound(s, step);
    NextSendsAreSound(s, step);
    var n := Next(s, step);
    forall id | id in n.streams && n.streams[id].live ensures SoundStream(n, id) {
      StreamStaysGood(s, step, id);
    }
  }

  // ---------------------------------------------------------------- runs

  datatype Run = Run(states: seq<State>, steps: seq<Step>)

  ghost predicate Valid(run: Run) {
    |run.states| == |run.steps| + 1 && run.states[0] == EMPTY
    && forall i :: 0 <= i < |run.steps| ==>
         Enabled(run.states[i], run.steps[i]) && run.states[i + 1] == Next(run.states[i], run.steps[i])
  }

  lemma {:induction false} ReachableIsGood(run: Run, i: nat)
    requires Valid(run) && i < |run.states|
    ensures Good(run.states[i])
  {
    if i == 0 {
      InitiallyGood();
    } else {
      ReachableIsGood(run, i - 1);
      NextIsGood(run.states[i - 1], run.steps[i - 1]);
    }
  }

  /** In every reachable state, for every live stream, what was received and what is replay-pending, queued and in
      flight is together exactly the command log of its run, and no id occurs twice in that log. */
  lemma CommandsArriveExactlyOnce(run: Run, i: nat, id: nat)
    requires Valid(run) && i < |run.states| && id in run.states[i].streams && run.states[i].streams[id].live
    ensures var s, t := run.states[i], run.states[i].streams[id];
      t.key in s.runs && UniqueIds(s.runs[t.key].commands)
      && multiset(t.received) + multiset(t.out) + multiset(t.replay) + multiset(t.hand) + multiset(t.queue)
         + multiset(InFlight(s.sends, id)) == multiset(s.runs[t.key].commands)
  {
    ReachableIsGood(run, i);
    assert SoundStream(run.states[i], id);
  }

  ghost predicate Reachable(s: State) {
    exists run :: Valid(run) && run.states[|run.steps|] == s
  }

  lemma StepReaches(s: State, step: Step)
    requires Reachable(s) && Enabled(s, step)
    ensures Reachable(Next(s, step))
  {
    hide Next, Enabled;
    var run :| Valid(run) && run.states[|run.steps|] == s;
    var longer := Run(run.states + [Next(s, step)], run.steps + [step]);
    assert Valid(longer) && longer.states[|longer.steps|] == Next(s, step);
  }

  lemma StartIsReachable()
    ensures Reachable(EMPTY)
  {
    var run := Run([EMPTY], []);
    assert Valid(run) && run.states[|run.steps|] == EMPTY;
  }

  // ---------------------------------------------------------------- serialised producers

  /** A producer enqueues only after the sends of the previous command to the live streams are done. */
  ghost predicate Serialised(s: State, step: Step) {
    step.Enqueue? ==>
      forall id :: id in LogOf(s, step.key).streams ==> InFlight(s.sends, id) == {}
  }

  /** A stream passes on the log in order; at most its last command is still on the way to the stream. */
  ghost predicate InOrder(commands: seq<Command>, passed: seq<Command>, flying: set<Command>) {
    (flying == {} && passed == commands)
    || (commands != [] && flying == {commands[|commands| - 1]} && passed == commands[..|commands| - 1])
  }

  ghost predicate StreamInOrder(s: State, id: nat)
    requires id in s.streams
  {
    s.streams[id].key in s.runs
      && InOrder(s.runs[s.streams[id].key].commands, Passed(s.streams[id]), InFlight(s.sends, id))
  }

  ghost predicate Ordered(s: State) {
    forall id :: id in s.streams && s.streams[id].live ==> StreamInOrder(s, id)
  }

  lemma SentInOrder(commands: seq<Command>, passed: seq<Command>, flying: set<Command>, command: Command)
    requires InOrder(commands, passed, flying) && command in flying
    ensures InOrder(commands, passed + [command], flying - {command})
    ensures passed + [command] <= commands
  {
    var n := |commands| - 1;
    assert flying == {commands[n]} && command == commands[n];
    assert commands == commands[..n] + [commands[n]];
  }

  lemma SendKeepsOrder(s: State, producer: nat, id: nat)
    requires Good(s) && Enabled(s, Send(producer)) && id in s.streams && s.streams[id].live && StreamInOrder(s, id)
    ensures StreamInOrder(Next(s, Send(producer)), id)
  {
    SendSteps(s, producer, id);
    var d, t := s.sends[producer], s.streams[id];
    GivenPasses(t, d.command);
    hide Next, Passed, InFlight, Linked, SoundSends, SoundLog, SoundStream;
    if id == d.todo[0] {
      SentInOrder(s.runs[t.key].commands, Passed(t), InFlight(s.sends, id), d.command);
    }
    hide InOrder;
  }

  lemma AddedInOrder(commands: seq<Command>, passed: seq<Command>, flying: set<Command>, command: Command)
    requires InOrder(commands, passed, flying)
    ensures flying == {} ==> InOrder(commands + [command], passed, flying + {command})
    ensures InOrder(commands + [], passed, flying + {})
  {
    assert (commands + [command])[..|commands|] == commands;
  }

  lemma EnqueueKeepsOrder(s: State, step: Step, id: nat)
    requires Good(s) && step.Enqueue? && Enabled(s, step) && Serialised(s, step)
    requires id in s.streams && s.streams[id].live && StreamInOrder(s, id)
    ensures StreamInOrder(Next(s, step), id)
  {
    EnqueueSteps(s, step, id);
    assert s.streams[id].key == step.key ==> InFlight(s.sends, id) == {};
    hide Next, Passed, InFlight, SoundSends, SoundLog, SoundStream, Linked, Enabled, Good, Serialised;
    AddedInOrder(s.runs[s.streams[id].key].commands, Passed(s.streams[id]), InFlight(s.sends, id), step.command);
    hide InOrder;
    assert s.runs[s.streams[id].key].commands + [] == s.runs[s.streams[id].key].commands;
  }

  lemma StreamStaysOrdered(s: State, step: Step, id: nat)
    requires Good(s) && Ordered(s) && Enabled(s, step) && Serialised(s, step)
    requires id in Next(s, step).streams && Next(s, step).streams[id].live
    ensures StreamInOrder(Next(s, step), id)
  {
    hide SoundLog, SoundSends, Forwarded, Passed, InFlight, Serialised;
    if Forwards(step) {
      ForwardSteps(s, step, id);
      if step.id == id {
        ForwardedStays(s.streams[id], step);
        assert SoundStream(s, id);
        ForwardedPasses(s.streams[id], step);
      }
    } else if step.Enqueue? {
      EnqueueKeepsOrder(s, step, id);
    } else if step.Send? {
      SendSteps(s, step.producer, id);
      SendKeepsOrder(s, step.producer, id);
    } else if step.Register? && step.id == id {
      RegisterSteps(s, step.key, id);
    } else {
      OtherSteps(s, step, id);
    }
  }

  lemma {:induction false} SerialisedIsOrdered(run: Run, i: nat)
    requires Valid(run) && i < |run.states|
    requires forall k :: 0 <= k < i ==> Serialised(run.states[k], run.steps[k])
    ensures Ordered(run.states[i])
  {
    if i > 0 {
      SerialisedIsOrdered(run, i - 1);
      ReachableIsGood(run, i - 1);
      hide Good, StreamInOrder, Serialised, Next, Enabled;
      forall id | id in run.states[i].streams && run.states[i].streams[id].live
        ensures StreamInOrder(run.states[i], id)
      {
        StreamStaysOrdered(run.states[i - 1], run.steps[i - 1], id);
      }
    }
  }

  /** With serialised enqueues a receiver always has a prefix of the log. */
  lemma ReceivedIsPrefix(run: Run, i: nat, id: nat)
    requires Valid(run) && i < |run.states| && id in run.states[i].streams && run.states[i].streams[id].live
    requires forall k :: 0 <= k < i ==> Serialised(run.states[k], run.steps[k])
    ensures run.states[i].streams[id].key in run.states[i].runs
    ensures run.states[i].streams[id].received <= run.states[i].runs[run.states[i].streams[id].key].commands
  {
    SerialisedIsOrdered(run, i);
    var t := run.states[i].streams[id];
    assert StreamInOrder(run.states[i], id);
    assert t.received <= Passed(t);
  }

  // ---------------------------------------------------------------- concurrent producers

  /** A live stream passes on a prefix of its log. */
  ghost predicate PassesPrefix(s: State, id: nat)
    requires id in s.streams
  {
    s.streams[id].live ==>
      s.streams[id].key in s.runs && Passed(s.streams[id]) <= s.runs[s.streams[id].key].commands
  }

  /** After an enqueue from state `s`, some next step breaks the order of a live stream. */
  ghost predicate Reorders(s: State, enqueue: Step, step: Step, id: nat) {
    Enabled(s, enqueue)
    && var n := Next(s, enqueue);
      Enabled(n, step) && id in Next(n, step).streams && !PassesPrefix(Next(n, step), id)
  }

  /** A live stream of the run still waits for a command, and its channel has room. */
  ghost predicate Lagging(s: State, key: RunKey, id: nat) {
    id in LogOf(s, key).streams && InFlight(s.sends, id) != {} && HasRoom(s, id)
  }

  /** Enqueueing a new command when everything is in order lets a next step break the order iff some live stream of the
      run still waits for the command before. */
  lemma ConcurrentEnqueuesReorder(s: State, key: RunKey, command: Command)
    requires Good(s) && Ordered(s) && command.id !in LogOf(s, key).seen
    ensures (exists producer, order, step, id :: Reorders(s, Enqueue(key, command, producer, order), step, id))
       <==> exists id :: Lagging(s, key, id)
  {
    hide Reorders, Lagging, Good, Ordered;
    if exists id :: Lagging(s, key, id) {
      var id :| Lagging(s, key, id);
      var producer, order := LaggingReorders(s, key, command, id);
    }
    if exists producer, order, step, id :: Reorders(s, Enqueue(key, command, producer, order), step, id) {
      var producer, order, step, id :| Reorders(s, Enqueue(key, command, producer, order), step, id);
      var lagging := ReorderedLags(s, Enqueue(key, command, producer, order), step, id);
    }
  }

  lemma ListFrom(first: nat, streams: set<nat>) returns (order: seq<nat>)
    requires first in streams
    ensures Lists(order, streams) && order != [] && order[0] == first
  {
    order := [first] + Listing(streams - {first});
    forall id ensures id in Elements(order) <==> id in streams {
      assert id in order <==> id == first || id in Listing(streams - {first});
    }
  }

  lemma LaggingReorders(s: State, key: RunKey, command: Command, id: nat) returns (producer: nat, order: seq<nat>)
    requires Good(s) && Ordered(s) && command.id !in LogOf(s, key).seen && Lagging(s, key, id)
    ensures Reorders(s, Enqueue(key, command, producer, order), Send(producer), id)
  {
    producer := FreshNumber(s.sends.Keys);
    order := ListFrom(id, LogOf(s, key).streams);
    var enqueue := Enqueue(key, command, producer, order);
    var n := Next(s, enqueue);
    EnqueueSteps(s, enqueue, id);
    NextIsGood(s, enqueue);
    assert n.sends[producer] == Delivery(key, command, order);
    SendSteps(n, producer, id);
    GivenPasses(n.streams[id], command);
    hide Passed, InFlight, SoundLog, SoundSends, SoundStream;
    assert StreamInOrder(s, id);
    var commands := s.runs[key].commands;
    var last := commands[|commands| - 1];
    assert last.id in LogOf(s, key).seen by {
      assert SoundLog(s.runs[key]);
      LogSeen(s.runs[key], |commands| - 1);
    }
    assert (Passed(s.streams[id]) + [command])[|commands| - 1] == command;
  }

  lemma LogSeen(log: Log, i: nat)
    requires SoundLog(log) && i < |log.commands|
    ensures log.commands[i].id in log.seen
  {
  }

  lemma {:induction false} FreshNumber(used: set<nat>) returns (n: nat)
    ensures forall m :: m in used ==> m < n
  {
    n := 0;
    if used != {} {
      var x :| x in used;
      var rest := FreshNumber(used - {x});
      n := if x < rest then rest else x + 1;
      assert forall m :: m in used ==> m == x || m in used - {x};
    }
  }

  /** After the enqueue the streams still pass on prefixes; only the new command's send can break that. */
  lemma EnqueuedPassesPrefix(s: State, enqueue: Step, id: nat)
    requires Good(s) && Ordered(s) && enqueue.Enqueue? && Enabled(s, enqueue) && id in s.streams && s.streams[id].live
    ensures var n := Next(s, enqueue); id in n.streams && PassesPrefix(n, id)
  {
    EnqueueSteps(s, enqueue, id);
    hide Next, Passed, InFlight, SoundLog, SoundSends, SoundStream;
    assert StreamInOrder(s, id);
  }

  lemma ReorderedLags(s: State, enqueue: Step, step: Step, id: nat) returns (lagging: nat)
    requires Good(s) && Ordered(s) && enqueue.Enqueue? && Adds(s, enqueue) && Reorders(s, enqueue, step, id)
    ensures Lagging(s, enqueue.key, lagging)
  {
    lagging := id;
    var n := Next(s, enqueue);
    NextIsGood(s, enqueue);
    assert n.streams == s.streams;
    assert id in s.streams && s.streams[id].live ==> PassesPrefix(n, id) by {
      if id in s.streams && s.streams[id].live { EnqueuedPassesPrefix(s, enqueue, id); }
    }
    hide Passed, InFlight, SoundLog, SoundSends, SoundStream, Linked, Ordered, Forwarded;
    if Forwards(step) {
      ForwardSteps(n, step, id);
      assert id in n.streams;
      if step.id == id {
        ForwardedStays(n.streams[id], step);
        assert SoundStream(n, id);
        ForwardedPasses(n.streams[id], step);
      }
    } else if step.Enqueue? {
      EnqueueSteps(n, step, id);
    } else if step.Send? {
      SendLags(s, enqueue, step.producer, id);
    } else if step.Register? && step.id == id {
      RegisterSteps(n, step.key, id);
    } else {
      OtherSteps(n, step, id);
    }
  }

  lemma SendLags(s: State, enqueue: Step, producer: nat, id: nat)
    requires Good(s) && Ordered(s) && enqueue.Enqueue? && Adds(s, enqueue) && Reorders(s, enqueue, Send(producer), id)
    requires id in s.streams && PassesPrefix(Next(s, enqueue), id)
    ensures Lagging(s, enqueue.key, id)
  {
    var n := Next(s, enqueue);
    NextIsGood(s, enqueue);
    SendReaches(n, producer, id);
    var t := s.streams[id];
    EnqueueSteps(s, enqueue, id);
    assert StreamInOrder(s, id);
    hide Passed, InFlight, SoundLog, SoundSends, SoundStream, Ordered, Good, Next;
    OutOfOrder(s.runs[t.key].commands, Passed(t), InFlight(s.sends, id),
               if t.key == enqueue.key then [enqueue.command] else [], n.sends[producer].command);
  }

  /** A send that breaks the order of a stream was one to that stream. */
  lemma SendReaches(n: State, producer: nat, id: nat)
    requires Good(n) && Enabled(n, Send(producer)) && id in n.streams && (n.streams[id].live ==> PassesPrefix(n, id))
    requires !PassesPrefix(Next(n, Send(producer)), id)
    ensures var t, c := n.streams[id], n.sends[producer].command;
      t.live && HasRoom(n, id) && t.key in n.runs && c in InFlight(n.sends, id)
      && !(Passed(t) + [c] <= n.runs[t.key].commands)
  {
    SendSteps(n, producer, id);
    GivenPasses(n.streams[id], n.sends[producer].command);
    hide Passed, InFlight, SoundLog, SoundSends, SoundStream, Next;
  }

  lemma OutOfOrder(commands: seq<Command>, passed: seq<Command>, flying: set<Command>, added: seq<Command>,
                   sent: Command)
    requires InOrder(commands, passed, flying) && |added| <= 1 && (sent in flying || sent in added)
    ensures passed + [sent] <= commands + added || (sent !in flying && flying != {})
  {
    if sent in flying {
      SentInOrder(commands, passed, flying, sent);
      assert passed + [sent] <= commands + added;
    } else if flying == {} {
      assert added == [sent];
    }
  }

  lemma OtherHead(some: seq<Command>, others: seq<Command>)
    requires some != [] && others != [] && some[0] != others[0]
    ensures !(some <= others)
  {
  }

  /** A stream that passes on the later of two commands, and not the earlier one. */
  ghost predicate ReachedOutOfOrder(s: State, key: RunKey, first: Command, second: Command) {
    Reachable(s) && 0 in s.streams && s.streams[0].live && s.streams[0].key == key && key in s.runs
    && s.runs[key].commands == [first, second] && Passed(s.streams[0]) == [second] && !PassesPrefix(s, 0)
  }

  /** Such a state is reached by two enqueues one after the other; then the later command is sent first, and the stream
      passes it on without the earlier one. */
  lemma ReorderingRun(key: RunKey, first: Command, second: Command)
    requires first.id != second.id
    ensures exists s :: ReachedOutOfOrder(s, key, first, second)
  {
    StartIsReachable();
    var s1 := Next(EMPTY, Register(key, 0));
    StepReaches(EMPTY, Register(key, 0));
    assert Lists([0], {0});
    var s2 := Next(s1, Enqueue(key, first, 0, [0]));
    StepReaches(s1, Enqueue(key, first, 0, [0]));
    var s3 := Next(s2, Enqueue(key, second, 1, [0]));
    StepReaches(s2, Enqueue(key, second, 1, [0]));
    assert s3.sends[1] == Delivery(key, second, [0]);
    var s4 := Next(s3, Send(1));
    StepReaches(s3, Send(1));
    hide Reachable;
    assert s4.runs[key].commands == [first, second] && Passed(s4.streams[0]) == [second];
    assert Reachable(s4);
    OtherHead([second], [first, second]);
    assert s4.streams[0].live && s4.streams[0].key == key && key in s4.runs;
    assert !PassesPrefix(s4, 0);
    assert ReachedOutOfOrder(s4, key, first, second);
  }

  // ---------------------------------------------------------------- progress

  /** The sends that have to be made before a stream has been sent all its commands: each producer that holds one for it
      first serves the streams before it in its order. */
  function Behind(sends: map<nat, Delivery>, id: nat): set<(nat, nat)> {
    set p, k | p in sends && 0 <= k < |sends[p].todo| && id in sends[p].todo[k..] :: (p, sends[p].todo[k])
  }

  /** How many steps the commands of a stream still need. */
  function Remaining(s: State, id: nat): nat
    requires id in s.streams
  {
    var t := s.streams[id];
    4 * |Behind(s.sends, id)| + 3 * |t.queue| + 2 * (|t.hand| + |t.replay|) + |t.out|
  }

  /** A step that brings the stream closer to having received everything. */
  ghost predicate Moves(s: State, step: Step, id: nat)
    requires id in s.streams
  {
    Enabled(s, step) && id in Next(s, step).streams && Remaining(Next(s, step), id) < Remaining(s, id)
  }

  /** Nothing is on the way through the stream itself. */
  predicate Idle(t: Stream) {
    t.out == [] && t.replay == [] && t.hand == [] && t.queue == []
  }

  /** Every producer that holds a command for the stream waits for room in the channel it has to serve first. */
  predicate Blocked(s: State, id: nat) {
    forall p :: p in s.sends && id in s.sends[p].todo ==> !HasRoom(s, s.sends[p].todo[0])
  }

  /** A live stream can be stuck, and exactly when: no step brings it closer iff it is idle and every producer that
      still holds a command for it is blocked. It lacks a command iff some is on the way or held. */
  lemma StuckIffBlocked(s: State, id: nat)
    requires Good(s) && id in s.streams && s.streams[id].live
    ensures multiset(s.streams[id].received) == multiset(s.runs[s.streams[id].key].commands) <==> Remaining(s, id) == 0
    ensures (forall step :: !Moves(s, step, id)) <==> Idle(s.streams[id]) && Blocked(s, id)
  {
    AllReceived(s, id);
    if Idle(s.streams[id]) && Blocked(s, id) {
      hide Good;
      forall step ensures !Moves(s, step, id) {
        NothingMoves(s, step, id);
      }
    } else if !Idle(s.streams[id]) {
      StreamMoves(s, id);
    } else {
      ProducerMoves(s, id);
    }
  }

  lemma StreamMoves(s: State, id: nat)
    requires id in s.streams && s.streams[id].live && !Idle(s.streams[id])
    ensures exists step :: Moves(s, step, id)
  {
    var t := s.streams[id];
    hide Behind;
    if t.out != [] {
      assert Moves(s, Receive(id), id);
    } else if t.replay != [] {
      assert Moves(s, TakeReplay(id), id);
    } else if t.hand != [] {
      assert Moves(s, PutOut(id), id);
    } else {
      assert Moves(s, TakeQueue(id), id);
    }
  }

  /** A send is one of those that the stream waits for, or does not concern it. */
  lemma SendBehind(s: State, producer: nat, id: nat)
    requires SoundSends(s) && Enabled(s, Send(producer))
    ensures var d := s.sends[producer];
      Behind(Next(s, Send(producer)).sends, id)
      == (if id in d.todo then Behind(s.sends, id) - {(producer, d.todo[0])} else Behind(s.sends, id))
    ensures id in s.sends[producer].todo ==> (producer, s.sends[producer].todo[0]) in Behind(s.sends, id)
  {
    var d := s.sends[producer];
    assert SoundDelivery(s, d);
    assert d.todo[0..] == d.todo;
    hide Behind, SoundSends;
    forall x ensures x in Behind(SentOne(s.sends, producer), id) <==>
                     x in Behind(s.sends, id) && (id in d.todo ==> x != (producer, d.todo[0])) {
      if x in Behind(SentOne(s.sends, producer), id) { WasBehind(s.sends, producer, id, x); }
      if x in Behind(s.sends, id) && (id in d.todo ==> x != (producer, d.todo[0])) {
        StaysBehind(s.sends, producer, id, x);
      }
    }
    if id in d.todo { FirstIsBehind(s.sends, producer, id); }
  }

  lemma FirstIsBehind(sends: map<nat, Delivery>, producer: nat, id: nat)
    requires producer in sends && id in sends[producer].todo
    ensures (producer, sends[producer].todo[0]) in Behind(sends, id)
  {
    assert sends[producer].todo[0..] == sends[producer].todo;
  }

  lemma WasBehind(sends: map<nat, Delivery>, producer: nat, id: nat, x: (nat, nat))
    requires producer in sends && sends[producer].todo != [] && NoDuplicates(sends[producer].todo)
    requires x in Behind(SentOne(sends, producer), id)
    ensures x in Behind(sends, id) && x != (producer, sends[producer].todo[0])
  {
    var d, after := sends[producer], SentOne(sends, producer);
    var p, k: nat :| p in after && 0 <= k < |after[p].todo| && id in after[p].todo[k..] && x == (p, after[p].todo[k]);
    if p == producer {
      assert d.todo[1..][k..] == d.todo[k + 1..] && d.todo[1..][k] == d.todo[k + 1];
    }
  }

  lemma StaysBehind(sends: map<nat, Delivery>, producer: nat, id: nat, x: (nat, nat))
    requires producer in sends && sends[producer].todo != []
    requires x in Behind(sends, id) && (id in sends[producer].todo ==> x != (producer, sends[producer].todo[0]))
    ensures x in Behind(SentOne(sends, producer), id)
  {
    var d, after := sends[producer], SentOne(sends, producer);
    var p, k: nat :| p in sends && 0 <= k < |sends[p].todo| && id in sends[p].todo[k..] && x == (p, sends[p].todo[k]);
    if p == producer {
      LaterSend(d.todo, k, id);
      assert after[p].todo[k - 1] == x.1 && id in after[p].todo[k - 1..];
    } else {
      assert p in after && id in after[p].todo[k..] && x == (p, after[p].todo[k]);
    }
  }

  lemma LaterSend(todo: seq<nat>, k: nat, id: nat)
    requires k < |todo| && id in todo[k..]
    ensures id in todo && (k > 0 ==> todo[1..][k - 1] == todo[k] && todo[1..][k - 1..] == todo[k..])
  {
  }

  lemma ProducerMoves(s: State, id: nat)
    requires SoundSends(s) && id in s.streams && Idle(s.streams[id]) && !Blocked(s, id)
    ensures exists step :: Moves(s, step, id)
  {
    var p :| p in s.sends && id in s.sends[p].todo && HasRoom(s, s.sends[p].todo[0]);
    SendBehind(s, p, id);
    hide Behind;
    assert Moves(s, Send(p), id);
  }

  lemma NothingMoves(s: State, step: Step, id: nat)
    requires SoundSends(s) && id in s.streams && Idle(s.streams[id]) && Blocked(s, id)
    ensures !Moves(s, step, id)
  {
    if Enabled(s, step) && id in Next(s, step).streams {
      if step.Send? {
        SendBehind(s, step.producer, id);
        SendElsewhere(s, step.producer, id);
      } else if step.Enqueue? {
        EnqueueBehind(s, step, id);
      }
      hide Behind, SoundSends, Forwarded;
    }
  }

  lemma SendElsewhere(s: State, producer: nat, id: nat)
    requires Enabled(s, Send(producer)) && Blocked(s, id) && id in s.streams
    ensures id !in s.sends[producer].todo && Next(s, Send(producer)).streams[id] == s.streams[id]
  {
  }

  lemma EnqueueBehind(s: State, step: Step, id: nat)
    requires step.Enqueue? && Enabled(s, step)
    ensures |Behind(s.sends, id)| <= |Behind(Next(s, step).sends, id)|
  {
    var before, after := Behind(s.sends, id), Behind(Next(s, step).sends, id);
    assert forall p :: p in s.sends ==> p in Next(s, step).sends && Next(s, step).sends[p] == s.sends[p];
    assert before <= after;
    Subset(before, after);
  }

  lemma {:induction false} Subset<T>(some: set<T>, all: set<T>)
    requires some <= all
    ensures |some| <= |all|
  {
    assert all == some + (all - some);
  }

  lemma AllReceived(s: State, id: nat)
    requires SoundSends(s) && id in s.streams && SoundStream(s, id)
    ensures multiset(s.streams[id].received) == multiset(s.runs[s.streams[id].key].commands) <==> Remaining(s, id) == 0
  {
    var t, flying := s.streams[id], InFlight(s.sends, id);
    assert flying == {} <==> Behind(s.sends, id) == {} by { BehindIffInFlight(s.sends, id); }
    hide InFlight, Behind;
    assert |multiset(Passed(t)) + multiset(flying)| == |Passed(t)| + |flying|;
    if Remaining(s, id) == 0 {
      assert Passed(t) == t.received && flying == {};
    }
    if multiset(t.received) == multiset(s.runs[t.key].commands) {
      assert |multiset(t.received)| == |t.received|;
    }
  }

  lemma BehindIffInFlight(sends: map<nat, Delivery>, id: nat)
    ensures InFlight(sends, id) == {} <==> Behind(sends, id) == {}
  {
    if InFlight(sends, id) != {} {
      var c :| c in InFlight(sends, id);
      var p :| p in sends && id in sends[p].todo && sends[p].command == c;
      assert sends[p].todo[0..] == sends[p].todo;
      assert (p, sends[p].todo[0]) in Behind(sends, id);
    }
    if Behind(sends, id) != {} {
      var x :| x in Behind(sends, id);
      var p, k: nat :| p in sends && 0 <= k < |sends[p].todo| && id in sends[p].todo[k..] && x == (p, sends[p].todo[k]);
      LaterSend(sends[p].todo, k, id);
      assert sends[p].command in InFlight(sends, id);
    }
  }

  // ---------------------------------------------------------------- starving

  /** A producer that waits for a full channel whose stream has ended. */
  ghost predicate Jammed(s: State, producer: nat) {
    producer in s.sends && s.sends[producer].todo != []
    && var first := s.sends[producer].todo[0];
       first in s.streams && !s.streams[first].live && |s.streams[first].queue| >= BUFFER
  }

  lemma JamStays(s: State, step: Step, producer: nat)
    requires Enabled(s, step) && Jammed(s, producer)
    ensures Jammed(Next(s, step), producer) && Next(s, step).sends[producer] == s.sends[producer]
  {
  }

  lemma {:induction false} JammedForever(run: Run, i: nat, j: nat, producer: nat)
    requires Valid(run) && i <= j < |run.states| && Jammed(run.states[i], producer)
    ensures Jammed(run.states[j], producer) && run.states[j].sends[producer] == run.states[i].sends[producer]
    decreases j - i
  {
    if i < j {
      JammedForever(run, i, j - 1, producer);
      JamStays(run.states[j - 1], run.steps[j - 1], producer);
    }
  }

  /** A stream behind a jam never receives the command, for the rest of the run, though it is live and the command is in
      its log. */
  lemma JamStarvesOthers(run: Run, i: nat, j: nat, producer: nat, id: nat)
    requires Valid(run) && i <= j < |run.states| && Jammed(run.states[i], producer)
    requires id in run.states[i].sends[producer].todo
    requires id in run.states[j].streams && run.states[j].streams[id].live
    ensures var s, t := run.states[j], run.states[j].streams[id];
      var command := run.states[i].sends[producer].command;
      t.key in s.runs && command in s.runs[t.key].commands && command !in t.received
  {
    JammedForever(run, i, j, producer);
    ReachableIsGood(run, j);
    var s := run.states[j];
    var d, t := s.sends[producer], s.streams[id];
    assert SoundDelivery(s, d) && SoundStream(s, id) && SoundLog(s.runs[t.key]);
    assert d.command in InFlight(s.sends, id);
    hide InFlight, SoundSends, Good, Jammed, SoundDelivery;
    OnceInLog(s.runs[t.key].commands, Passed(t), InFlight(s.sends, id), d.command);
  }

  lemma OnceInLog(commands: seq<Command>, passed: seq<Command>, flying: set<Command>, command: Command)
    requires UniqueIds(commands) && multiset(passed) + multiset(flying) == multiset(commands) && command in flying
    ensures command !in passed
  {
    OneCopy(commands, command);
    assert multiset(flying)[command] == 1;
    assert command in passed <==> command in multiset(passed);
  }

  lemma {:induction false} OneCopy(commands: seq<Command>, command: Command)
    requires UniqueIds(commands)
    ensures multiset(commands)[command] <= 1
  {
    if commands != [] {
      var n := |commands| - 1;
      OneCopy(commands[..n], command);
      assert commands == commands[..n] + [commands[n]];
      assert command == commands[n] ==> command !in commands[..n];
    }
  }

  function Ids(commands: seq<Command>): set<string> {
    set c | c in commands :: c.id
  }

  /** A receiver that does not read: its stream's channel is filled by one producer after the other. */
  function Filling(key: RunKey, commands: seq<Command>, n: nat): State
    requires n <= |commands|
  {
    State(map[key := Log(commands[..n], Ids(commands[..n]), {0})],
          map[0 := Stream(key, true, [], commands[..n], [], [], [])], map[])
  }

  /** A second stream, whose receiver has read `n` replayed commands while the last command waits for the first
      stream. */
  function Waiting(key: RunKey, commands: seq<Command>, n: nat): State
    requires |commands| == BUFFER + 1 && n <= BUFFER
  {
    State(map[key := Log(commands, Ids(commands), {0, 1})],
          map[0 := Stream(key, true, [], commands[..BUFFER], [], [], []),
              1 := Stream(key, true, commands[n..BUFFER], [], [], [], commands[..n])],
          map[BUFFER := Delivery(key, commands[BUFFER], [0, 1])])
  }

  lemma AddedIds(commands: seq<Command>, n: nat)
    requires UniqueIds(commands) && n < |commands|
    ensures commands[..n + 1] == commands[..n] + [commands[n]] && commands[n].id !in Ids(commands[..n])
    ensures Ids(commands[..n + 1]) == Ids(commands[..n]) + {commands[n].id}
  {
    assert commands[..n + 1] == commands[..n] + [commands[n]];
  }

  lemma {:induction false} FillingIsReachable(key: RunKey, commands: seq<Command>, n: nat)
    requires UniqueIds(commands) && n <= |commands| && n <= BUFFER
    ensures Reachable(Filling(key, commands, n))
  {
    if n == 0 {
      StartIsReachable();
      StepReaches(EMPTY, Register(key, 0));
      assert commands[..0] == [] && Ids([]) == {} && {} + {0} == {0};
      assert Next(EMPTY, Register(key, 0)).runs == Filling(key, commands, 0).runs;
    } else {
      FillingIsReachable(key, commands, n - 1);
      FillOne(key, commands, n - 1);
    }
  }

  lemma FillOne(key: RunKey, commands: seq<Command>, n: nat)
    requires UniqueIds(commands) && n < |commands| && n < BUFFER && Reachable(Filling(key, commands, n))
    ensures Reachable(Filling(key, commands, n + 1))
  {
    var s := Filling(key, commands, n);
    AddedIds(commands, n);
    assert Lists([0], {0});
    hide Ids, Reachable;
    var enqueue := Enqueue(key, commands[n], n, [0]);
    StepReaches(s, enqueue);
    var mid := Next(s, enqueue);
    assert mid.sends[n] == Delivery(key, commands[n], [0]) && HasRoom(mid, 0);
    StepReaches(mid, Send(n));
    assert Next(mid, Send(n)).sends == map[];
    assert Next(mid, Send(n)) == Filling(key, commands, n + 1);
  }

  lemma {:induction false} WaitingIsReachable(key: RunKey, commands: seq<Command>, n: nat)
    requires UniqueIds(commands) && |commands| == BUFFER + 1 && n <= BUFFER
    ensures Reachable(Waiting(key, commands, n))
  {
    if n == 0 {
      FillingIsReachable(key, commands, BUFFER);
      JoinFilled(key, commands);
    } else {
      WaitingIsReachable(key, commands, n - 1);
      ReadOne(key, commands, n - 1);
    }
  }

  lemma JoinFilled(key: RunKey, commands: seq<Command>)
    requires UniqueIds(commands) && |commands| == BUFFER + 1 && Reachable(Filling(key, commands, BUFFER))
    ensures Reachable(Waiting(key, commands, 0))
  {
    var s := Filling(key, commands, BUFFER);
    AddedIds(commands, BUFFER);
    assert commands[..BUFFER + 1] == commands && commands[0..BUFFER] == commands[..BUFFER];
    assert Lists([0, 1], {0, 1});
    hide Ids, Reachable;
    StepReaches(s, Register(key, 1));
    var joined := Next(s, Register(key, 1));
    var enqueue := Enqueue(key, commands[BUFFER], BUFFER, [0, 1]);
    assert joined.runs[key].streams == {0, 1};
    StepReaches(joined, enqueue);
    assert Next(joined, enqueue) == Waiting(key, commands, 0);
  }

  lemma ReadOne(key: RunKey, commands: seq<Command>, n: nat)
    requires |commands| == BUFFER + 1 && n < BUFFER && Reachable(Waiting(key, commands, n))
    ensures Reachable(Waiting(key, commands, n + 1))
  {
    var s := Waiting(key, commands, n);
    hide Ids, Reachable;
    StepReaches(s, TakeReplay(1));
    var taken := Next(s, TakeReplay(1));
    assert commands[n..BUFFER][1..] == commands[n + 1..BUFFER] && commands[n..BUFFER][0] == commands[n];
    StepReaches(taken, Receive(1));
    assert commands[..n] + [commands[n]] == commands[..n + 1];
    assert taken.streams[1].out == [commands[n]] && taken.streams[1].out[1..] == [];
    assert Next(taken, Receive(1)).streams[1] == Waiting(key, commands, n + 1).streams[1];
    assert Next(taken, Receive(1)) == Waiting(key, commands, n + 1);
  }

  /** A live stream that has received everything but the last command, and behind a jam. */
  ghost predicate Starved(s: State, key: RunKey, commands: seq<Command>)
    requires commands != []
  {
    Reachable(s) && key in s.runs && s.runs[key].commands == commands
    && 1 in s.streams && s.streams[1].live && s.streams[1].key == key
    && s.streams[1].received == commands[..|commands| - 1]
    && Jammed(s, BUFFER) && 1 in s.sends[BUFFER].todo && s.sends[BUFFER].command == commands[|commands| - 1]
    && forall step :: !Moves(s, step, 1)
  }

  /** Such a stream exists after one command more than a channel holds: the stream of a receiver that never reads is
      filled, a second stream joins and reads everything, the last command waits for the first stream, and that stream
      ends. */
  lemma StarvingRun(key: RunKey, commands: seq<Command>)
    requires UniqueIds(commands) && |commands| == BUFFER + 1
    ensures exists s :: Starved(s, key, commands)
  {
    WaitingIsReachable(key, commands, BUFFER);
    hide Reachable, Ids, Good, Moves;
    var s := Waiting(key, commands, BUFFER);
    StepReaches(s, Cancel(0));
    EndedJams(key, commands);
    var n := Next(s, Cancel(0));
    hide Next;
    ReachedIsGood(n);
    StuckIffBlocked(n, 1);
    assert Starved(n, key, commands);
  }

  lemma EndedJams(key: RunKey, commands: seq<Command>)
    requires |commands| == BUFFER + 1
    ensures var n := Next(Waiting(key, commands, BUFFER), Cancel(0));
      key in n.runs && n.runs[key].commands == commands && n.sends == Waiting(key, commands, BUFFER).sends
      && n.streams.Keys == {0, 1} && n.streams[1] == Stream(key, true, [], [], [], [], commands[..BUFFER])
      && Jammed(n, BUFFER) && Blocked(n, 1)
  {
    hide Ids;
    assert commands[BUFFER..BUFFER] == [];
  }

  lemma ReachedIsGood(s: State)
    requires Reachable(s)
    ensures Good(s)
  {
    var run :| Valid(run) && run.states[|run.steps|] == s;
    ReachableIsGood(run, |run.steps|);
  }

  // ---------------------------------------------------------------- bounds, and the log

  /** No channel holds more than it has room for. */
  ghost predicate Bounded(s: State) {
    forall id :: id in s.streams ==>
      |s.streams[id].queue| <= 64 && |s.streams[id].out| <= 64 && |s.streams[id].hand| <= 1
  }

  lemma NextIsBounded(s: State, step: Step)
    requires Bounded(s) && Enabled(s, step)
    ensures Bounded(Next(s, step))
  {
  }

  /** Channels hold 64 commands at most, in every reachable state. */
  lemma {:induction false} ReachableIsBounded(run: Run, i: nat)
    requires Valid(run) && i < |run.states|
    ensures Bounded(run.states[i])
  {
    if i > 0 {
      hide Bounded, Next, Enabled;
      ReachableIsBounded(run, i - 1);
      NextIsBounded(run.states[i - 1], run.steps[i - 1]);
    }
  }

  /** What a step does to a log: a new command is added at its end, one with a known id is not, and nothing else changes
      it. */
  lemma LogAfterStep(s: State, step: Step, key: RunKey)
    requires Good(s) && Enabled(s, step)
    ensures LogOf(Next(s, step), key).commands
         == LogOf(s, key).commands
            + if step.Enqueue? && step.key == key
              && (forall c :: c in LogOf(s, key).commands ==> c.id != step.command.id)
              then [step.command] else []
  {
    var log := LogOf(s, key);
    assert SoundLog(log);
    assert step.Enqueue? && step.key == key ==>
      (step.command.id in log.seen <==> exists c :: c in log.commands && c.id == step.command.id);
    hide Good, SoundLog, Forwarded, CanForward;
  }

  /** So a log only grows, and keeps what was enqueued. */
  lemma {:induction false} LogsGrow(run: Run, i: nat, j: nat, key: RunKey)
    requires Valid(run) && i <= j < |run.states|
    ensures LogOf(run.states[i], key).commands <= LogOf(run.states[j], key).commands
    decreases j - i
  {
    if i < j {
      hide Good, LogOf;
      LogsGrow(run, i, j - 1, key);
      ReachableIsGood(run, j - 1);
      LogAfterStep(run.states[j - 1], run.steps[j - 1], key);
    }
  }

  // ---------------------------------------------------------------- the service

  class Service {
    var runs: map<RunKey, Log>
    var streams: map<nat, Stream>
    var sends: map<nat, Delivery>
    var created: nat
    var producers: nat

    constructor ()
      ensures Valid() && Model() == EMPTY
    {
      runs, streams, sends, created, producers := map[], map[], map[], 0, 0;
      new;
      InitiallyGood();
    }

    ghost function Model(): State
      reads this
    {
      State(runs, streams, sends)
    }

    /** Streams and producers are numbered in the order in which they come. */
    ghost predicate Valid()
      reads this
    {
      Good(Model()) && (forall id :: id in streams ==> id < created) && forall p :: p in sends ==> p < producers
    }

    /** `runLocked`: the log of a run, created when it is missing. */
    method RunLocked(key: RunKey) returns (run: Log)
      modifies this`runs
      ensures run == LogOf(old(Model()), key) && runs == old(runs)[key := run]
    {
      if key !in runs {
        runs := runs[key := Log([], {}, {})];
      }
      run := runs[key];
      assert runs == old(runs)[key := run];
    }

    /** `RegisterTarget`; `None` stands for an error. The stream then forwards by the methods below. */
    method RegisterTarget(hasContext: bool, key: RunKey, targetNs: string, targetName: string)
      returns (stream: Option<nat>)
      requires Valid()
      modifies this
      ensures Valid()
      ensures stream.Some? <==> hasContext && ValidKey(key) && IsDnsLabel(targetNs) && IsDnsSubdomain(targetName)
      ensures if stream.None? then Model() == old(Model())
              else Enabled(old(Model()), Register(key, stream.value))
                   && Model() == Next(old(Model()), Register(key, stream.value))
    {
      hide Good, ValidKey, IsDnsLabel, IsDnsSubdomain, Next, Enabled;
      if !hasContext || !ValidKey(key) || !IsDnsLabel(targetNs) || !IsDnsSubdomain(targetName) {
        return None;
      }
      ghost var before := Model();
      var id := RegisterLocked(key);
      NextIsGood(before, Register(key, id));
      return Some(id);
    }

    method RegisterLocked(key: RunKey) returns (id: nat)
      requires forall id :: id in streams ==> id < created
      modifies this`runs, this`streams, this`created
      ensures Enabled(old(Model()), Register(key, id)) && Model() == Next(old(Model()), Register(key, id))
      ensures id == old(created) && created == id + 1 && streams.Keys == old(streams.Keys) + {id}
    {
      id := created;
      var run := RunLocked(key);
      var replay := run.commands;
      runs := runs[key := run.(streams := run.streams + {id})];
      streams := streams[id := Stream(key, true, replay, [], [], [], [])];
      created := created + 1;
      assert runs == Next(old(Model()), Register(key, id)).runs;
    }

    /** `EnqueueTargetCommand` up to the end of its locked section; the sends follow one by one, in the order in which
        the iteration over the streams has listed them. */
    method EnqueueTargetCommand(key: RunKey, command: Command) returns (enqueued: Option<bool>, order: seq<nat>)
      requires Valid()
      modifies this
      ensures Valid()
      ensures enqueued.Some? <==> ValidKey(key) && ValidCommand(command)
      ensures enqueued.Some? ==> (enqueued.value <==> command.id !in LogOf(old(Model()), key).seen)
      ensures enqueued.Some? ==> Enabled(old(Model()), Enqueue(key, command, old(producers), order))
      ensures Model() == if enqueued.Some? then Next(old(Model()), Enqueue(key, command, old(producers), order))
        else old(Model())
    {
      if !ValidKey(key) || !ValidCommand(command) {
        return None, [];
      }
      order := Iterate(if key in runs then runs[key].streams else {});
      hide Good, ValidKey, ValidCommand, Next, Lists;
      NextIsGood(Model(), Enqueue(key, command, producers, order));
      var added := EnqueueLocked(key, command, order);
      return Some(added), order;
    }

    /** The iteration over the registered streams, in any order. */
    method Iterate(all: set<nat>) returns (order: seq<nat>)
      ensures Lists(order, all)
    {
      order := [];
      var rest := all;
      while rest != {}
        invariant NoDuplicates(order) && Elements(order) + rest == all && Elements(order) !! rest
      {
        var id :| id in rest;
        assert id !in Elements(order);
        assert Elements(order + [id]) == Elements(order) + {id};
        order, rest := order + [id], rest - {id};
      }
    }

    method EnqueueLocked(key: RunKey, command: Command, order: seq<nat>) returns (added: bool)
      requires Enabled(Model(), Enqueue(key, command, producers, order)) && forall p :: p in sends ==> p < producers
      modifies this`runs, this`sends, this`producers
      ensures Model() == Next(old(Model()), Enqueue(key, command, old(producers), order))
      ensures producers == old(producers) + 1 && forall p :: p in sends ==> p < producers
      ensures added <==> command.id !in LogOf(old(Model()), key).seen
    {
      var run := RunLocked(key);
      var producer := producers;
      producers := producers + 1;
      if command.id in run.seen {
        return false;
      }
      runs := runs[key := Log(run.commands + [command], run.seen + {command.id}, run.streams)];
      if order != [] {
        sends := sends[producer := Delivery(key, command, order)];
      }
      assert runs == Next(old(Model()), Enqueue(key, command, producer, order)).runs;
      return true;
    }

    /** One round of a producer's loop, once the channel of its next stream has room. */
    method Deliver(producer: nat)
      requires Valid() && Enabled(Model(), Send(producer))
      modifies this`streams, this`sends
      ensures Valid() && Model() == Next(old(Model()), Send(producer))
    {
      hide Good;
      NextIsGood(Model(), Send(producer));
      var delivery := sends[producer];
      var first := delivery.todo[0];
      streams := streams[first := streams[first].(queue := streams[first].queue + [delivery.command])];
      if |delivery.todo| == 1 {
        sends := sends - {producer};
      } else {
        sends := sends[producer := delivery.(todo := delivery.todo[1..])];
      }
      assert Model() == Next(old(Model()), Send(producer));
    }

    /** A channel operation of a stream that can be carried out. */
    method Forward(step: Step)
      requires Valid() && Forwards(step) && Enabled(Model(), step)
      modifies this`streams
      ensures Valid() && Model() == Next(old(Model()), step)
    {
      hide Good, Forwarded;
      NextIsGood(Model(), step);
      streams := streams[step.id := Forwarded(streams[step.id], step)];
      assert Model() == Next(old(Model()), step);
    }

    /** `unregisterTarget`, when the context of a stream is done. */
    method UnregisterTarget(id: nat)
      requires Valid() && Enabled(Model(), Cancel(id))
      modifies this
      ensures Valid() && Model() == Next(old(Model()), Cancel(id))
    {
      hide Good;
      NextIsGood(Model(), Cancel(id));
      var stream := streams[id];
      if stream.key in runs {
        runs := runs[stream.key := runs[stream.key].(streams := runs[stream.key].streams - {id})];
      }
      streams := streams[id := stream.(live := false)];
      assert Model() == Next(old(Model()), Cancel(id));
    }
  }
}
