/** Scheduled backups (internal/controller/reconcilers.go, builders.go): which fire time is due, what is recorded, and
    when to look again. Times are whole seconds from 1 January of year 1; the cron library is an abstract `next`
    function. */
module Schedule {
  import opened Wrappers
  import opened Text
  import opened Calendar
  import opened Labels

  const LOOKBACK := 86400
  const RECHECK := 600
  const BOUND := 10000

  /** A fire time is one that is next after the second before it. */
  predicate Fires(next: int -> int, f: int) {
    next(f - 1) == f
  }

  /** What is assumed of a cron schedule: `next` gives the least later fire time, and fire times are at least a minute
      apart. */
  ghost predicate IsSchedule(next: int -> int) {
    (forall t :: next(t) > t && Fires(next, next(t)))
    && (forall t, f :: t < f < next(t) ==> !Fires(next, f))
    && forall f, g :: Fires(next, f) && Fires(next, g) && f < g ==> g - f >= 60
  }

  lemma NextFires(next: int -> int, t: int)
    requires IsSchedule(next)
    ensures Fires(next, next(t)) && next(t) > t
  {
  }

  lemma NextIsLeast(next: int -> int, t: int, f: int)
    requires IsSchedule(next) && Fires(next, f) && t < f
    ensures next(t) <= f
  {
  }

  // ---------------------------------------------------------------- due times

  /** The first time to look at when nothing was scheduled yet. */
  function Start(created: Option<int>, now: int): int {
    if created.None? || created.value < now - LOOKBACK then now - LOOKBACK else created.value
  }

  /** The due time: the fire after the last one scheduled, or at first the latest fire of the last day, but not before
      the machine was created. */
  ghost predicate IsDue(next: int -> int, last: Option<int>, created: Option<int>, now: int, at: int) {
    Fires(next, at) && at <= now &&
    match last
    case Some(t) => at == next(t)
    case None =>
      now - 86400 <= at && (created.Some? ==> created.value <= at) && forall f :: Fires(next, f) && f <= now ==> f <= at
  }

  /** `nextDueSchedule`. The walk over the fires of at most a day never reaches its bound. */
  method NextDueSchedule(next: int -> int, last: Option<int>, created: Option<int>, now: int) returns (due: Option<int>)
    requires IsSchedule(next)
    ensures due.Some? ==> IsDue(next, last, created, now, due.value)
    ensures due.None? ==> forall at :: !IsDue(next, last, created, now, at)
  {
    if last.Some? {
      var at := next(last.value);
      NextFires(next, last.value);
      return if at > now then None else Some(at);
    }
    var start := Start(created, now);
    var cursor := start - 1;
    var found: Option<int> := None;
    for i := 0 to BOUND
      invariant found.None? ==> i == 0 && cursor == start - 1
      invariant found.Some? ==>
        cursor == found.value && Fires(next, cursor) && start <= cursor <= now && cursor >= start + 60 * (i - 1)
    {
      var at := next(cursor);
      NextFires(next, cursor);
      if at > now {
        forall f | Fires(next, f) && f <= now && cursor < f ensures false {
          NextIsLeast(next, cursor, f);
        }
        return found;
      }
      found := Some(at);
      cursor := at;
    }
    assert false;
  }

  // ---------------------------------------------------------------- runs

  /** `jobs` holds the fire times for which a BackupJob exists, and `history` the values that `lastScheduledAt` had. */
  datatype State = State(now: int, created: Option<int>, last: Option<int>, jobs: set<int>, history: seq<int>)

  /** `Lost` is a reconcile that created its job but failed to write the status. */
  datatype Step = Wait(seconds: nat) | Reconcile(at: int) | Lost(at: int)

  ghost predicate Enabled(next: int -> int, s: State, step: Step) {
    match step
    case Wait(_) => true
    case Reconcile(at) => IsDue(next, s.last, s.created, s.now, at)
    case Lost(at) => IsDue(next, s.last, s.created, s.now, at)
  }

  function Next(s: State, step: Step): State {
    match step
    case Wait(seconds) => s.(now := s.now + seconds)
    case Reconcile(at) => s.(last := Some(at), jobs := s.jobs + {at}, history := s.history + [at])
    case Lost(at) => s.(jobs := s.jobs + {at})
  }

  ghost predicate Consecutive(next: int -> int, history: seq<int>) {
    (forall i :: 0 <= i < |history| ==> Fires(next, history[i]))
    && forall i :: 0 <= i < |history| - 1 ==> history[i + 1] == next(history[i])
  }

  ghost predicate Sound(next: int -> int, s: State) {
    (s.last == if s.history == [] then None else Some(s.history[|s.history| - 1]))
    && Consecutive(next, s.history)
    && (forall f :: f in s.history ==> f in s.jobs)
    && (forall f :: f in s.jobs ==> Fires(next, f) && f <= s.now)
    && (forall f :: f in s.jobs && s.history != [] && f > s.history[0] ==>
          f in s.history || Some(f) == After(next, s.last))
  }

  function After(next: int -> int, last: Option<int>): Option<int> {
    if last.None? then None else Some(next(last.value))
  }

  lemma ConsecutiveGrows(next: int -> int, history: seq<int>, at: int)
    requires Consecutive(next, history) && Fires(next, at) && (history != [] ==> at == next(history[|history| - 1]))
    ensures Consecutive(next, history + [at])
  {
  }

  lemma ReconcileIsSound(next: int -> int, s: State, at: int)
    requires IsSchedule(next) && Sound(next, s) && IsDue(next, s.last, s.created, s.now, at)
    ensures Sound(next, Next(s, Reconcile(at)))
  {
    var t := Next(s, Reconcile(at));
    ConsecutiveGrows(next, s.history, at);
    hide Consecutive, Start, IsSchedule, Fires;
    assert t.history == s.history + [at] && t.history[|t.history| - 1] == at;
    assert forall f :: f in t.history <==> f in s.history || f == at;
    if s.history == [] {
      FirstIsLatest(next, s, at);
    }
    forall f | f in t.jobs && f > t.history[0] ensures f in t.history {
      if s.history != [] && f != at {
        assert f in s.jobs && t.history[0] == s.history[0];
        assert Some(at) == After(next, s.last);
      }
    }
  }

  lemma FirstIsLatest(next: int -> int, s: State, at: int)
    requires Sound(next, s) && s.history == [] && IsDue(next, s.last, s.created, s.now, at)
    ensures forall f :: f in s.jobs ==> f <= at
  {
  }

  lemma NextIsSound(next: int -> int, s: State, step: Step)
    requires IsSchedule(next) && Sound(next, s) && Enabled(next, s, step)
    ensures Sound(next, Next(s, step))
  {
    match step
    case Wait(seconds) => WaitIsSound(next, s, seconds);
    case Reconcile(at) => ReconcileIsSound(next, s, at);
    case Lost(at) => LostIsSound(next, s, at);
  }

  lemma WaitIsSound(next: int -> int, s: State, seconds: nat)
    requires Sound(next, s)
    ensures Sound(next, Next(s, Wait(seconds)))
  {
    hide Consecutive, Fires;
  }

  lemma LostIsSound(next: int -> int, s: State, at: int)
    requires Sound(next, s) && IsDue(next, s.last, s.created, s.now, at)
    ensures Sound(next, Next(s, Lost(at)))
  {
    hide Consecutive, Fires, Start;
    assert s.last.Some? ==> Some(at) == After(next, s.last);
  }

  datatype Run = Run(states: seq<State>, steps: seq<Step>)

  ghost predicate Valid(next: int -> int, run: Run) {
    |run.states| == |run.steps| + 1 && run.states[0].last.None? && run.states[0].jobs == {}
      && run.states[0].history == []
    && forall i :: 0 <= i < |run.steps| ==>
         Enabled(next, run.states[i], run.steps[i]) && run.states[i + 1] == Next(run.states[i], run.steps[i])
  }

  lemma {:induction false} ReachableIsSound(next: int -> int, run: Run, i: nat)
    requires IsSchedule(next) && Valid(next, run) && i < |run.states|
    ensures Sound(next, run.states[i])
  {
    if i > 0 {
      ReachableIsSound(next, run, i - 1);
      NextIsSound(next, run.states[i - 1], run.steps[i - 1]);
    }
  }

  lemma {:induction false} HistoryCovers(next: int -> int, history: seq<int>, f: int)
    requires IsSchedule(next) && history != [] && Consecutive(next, history)
    requires Fires(next, f) && history[0] <= f <= history[|history| - 1]
    ensures f in history
  {
    if f != history[0] {
      NextIsLeast(next, history[0], f);
      assert |history| > 1;
      assert history[1..][0] == history[1] == next(history[0]);
      HistoryCovers(next, history[1..], f);
    }
  }

  lemma {:induction false} HistoryRises(next: int -> int, history: seq<int>, i: nat, j: nat)
    requires IsSchedule(next) && i < j < |history| && Consecutive(next, history)
    ensures history[i] < history[j]
    decreases j
  {
    assert history[j - 1 + 1] == next(history[j - 1]);
    if i < j - 1 {
      HistoryRises(next, history, i, j - 1);
    }
  }

  /** Scheduling neither skips nor repeats: the recorded times are consecutive fire times, none in the future; every
      fire from the first to the last one has a job; and after the first one there are no other jobs, but for one whose
      record was lost and will be repeated. */
  lemma NeitherSkipsNorRepeats(next: int -> int, run: Run, i: nat)
    requires IsSchedule(next) && Valid(next, run) && i < |run.states| && run.states[i].history != []
    ensures var s := run.states[i];
      var first, last := s.history[0], s.history[|s.history| - 1];
      (forall j, k :: 0 <= j < k < |s.history| ==> s.history[j] < s.history[k])
      && (forall j :: 0 <= j < |s.history| ==> s.history[j] <= s.now)
      && (forall f :: first <= f <= last ==> (Fires(next, f) <==> f in s.jobs))
      && (forall f :: f in s.jobs && f > last ==> f == next(last))
  {
    ReachableIsSound(next, run, i);
    hide IsSchedule, Fires;
    HistoryIsSorted(next, run.states[i]);
    HistoryHasJobs(next, run.states[i]);
    NoOtherJobs(next, run.states[i]);
  }

  lemma HistoryIsSorted(next: int -> int, s: State)
    requires IsSchedule(next) && Sound(next, s)
    ensures forall j, k :: 0 <= j < k < |s.history| ==> s.history[j] < s.history[k]
    ensures forall j :: 0 <= j < |s.history| ==> s.history[j] <= s.now
  {
    hide IsSchedule, Fires, Consecutive;
    forall j, k | 0 <= j < k < |s.history| ensures s.history[j] < s.history[k] {
      HistoryRises(next, s.history, j, k);
    }
    forall j | 0 <= j < |s.history| ensures s.history[j] <= s.now {
      assert s.history[j] in s.history;
    }
  }

  lemma HistoryHasJobs(next: int -> int, s: State)
    requires IsSchedule(next) && Sound(next, s) && s.history != []
    ensures forall f :: s.history[0] <= f <= s.history[|s.history| - 1] ==> (Fires(next, f) <==> f in s.jobs)
  {
    hide IsSchedule, Fires, Consecutive;
    forall f | Fires(next, f) && s.history[0] <= f <= s.history[|s.history| - 1] ensures f in s.jobs {
      HistoryCovers(next, s.history, f);
    }
  }

  lemma NoOtherJobs(next: int -> int, s: State)
    requires IsSchedule(next) && Sound(next, s) && s.history != []
    ensures forall f :: f in s.jobs && f > s.history[|s.history| - 1] ==> f == next(s.history[|s.history| - 1])
  {
    hide IsSchedule, Fires, Consecutive;
    HistoryIsSorted(next, s);
    var first, last := s.history[0], s.history[|s.history| - 1];
    forall f | f in s.jobs && f > last ensures f == next(last) {
      LaterIsNew(s.history, f);
    }
  }

  lemma LaterIsNew(history: seq<int>, f: int)
    requires history != [] && f > history[|history| - 1] && forall j, k :: 0 <= j < k < |history| ==>
      history[j] < history[k]
    ensures f !in history && f > history[0]
  {
  }

  // ---------------------------------------------------------------- names

  /** Layout `20060102-1504` of a time. */
  function MinuteText(t: int): string
    requires 0 <= CivilDate(t / 86400).year <= 9999
  {
    var d := CivilDate(t / 86400);
    var minute := t % 86400 / 60;
    (Pad4(d.year) + Pad2(d.month) + Pad2(d.day)) + "-" + (Pad2(minute / 60) + Pad2(minute % 60))
  }

  lemma DayTextEqual(a: Date, b: Date)
    requires ValidDate(a) && ValidDate(b) && 0 <= a.year <= 9999 && 0 <= b.year <= 9999
    ensures Pad4(a.year) + Pad2(a.month) + Pad2(a.day) == Pad4(b.year) + Pad2(b.month) + Pad2(b.day) <==> a == b
  {
    Pad4Order(a.year, b.year);
    Pad2Order(a.month, b.month);
    Pad2Order(a.day, b.day);
    FieldsEqual(Pad4(a.year), Pad4(b.year), Pad2(a.month), Pad2(b.month));
    FieldsEqual(Pad4(a.year) + Pad2(a.month), Pad4(b.year) + Pad2(b.month), Pad2(a.day), Pad2(b.day));
  }

  /** The longest label that leaves room for the rest of a name of 63 characters. */
  const LABEL_MAX := 45

  /** `GeneratedScheduledBackupJobName`. */
  ghost function ScheduledName(hash: string -> string, machine: string, t: int): string
    requires Digests(hash) && 0 <= CivilDate(t / 86400).year <= 9999
  {
    "krm-" + Label(hash, machine, LABEL_MAX) + "-" + MinuteText(t)
  }

  lemma MinuteLength(t: int)
    requires 0 <= CivilDate(t / 86400).year <= 9999
    ensures |MinuteText(t)| == 13 && 63 - |"krm--"| - |MinuteText(t)| == LABEL_MAX
  {
    hide DayNumber, CivilDate;
  }

  /** Scheduled names name a label and a minute: two names are equal iff the labels of the machines are and the times
      lie in the same minute. */
  lemma NamesAreMinutes(hash: string -> string, machine: string, other: string, a: int, b: int)
    requires Digests(hash) && 0 <= CivilDate(a / 86400).year <= 9999 && 0 <= CivilDate(b / 86400).year <= 9999
    ensures ScheduledName(hash, machine, a) == ScheduledName(hash, other, b)
      <==> Label(hash, machine, LABEL_MAX) == Label(hash, other, LABEL_MAX) && a / 60 == b / 60
  {
    MinuteLength(a);
    MinuteLength(b);
    MinutesDiffer(a, b);
    hide CivilDate, MinuteText, Label;
    var p, q := Label(hash, machine, LABEL_MAX), Label(hash, other, LABEL_MAX);
    SuffixesEqual("krm-" + p + "-", MinuteText(a), "krm-" + q + "-", MinuteText(b));
    SuffixesEqual("krm-" + p, "-", "krm-" + q, "-");
    assert ("krm-" + p)[4..] == p && ("krm-" + q)[4..] == q;
  }

  lemma MinuteChars(t: int)
    requires 0 <= CivilDate(t / 86400).year <= 9999
    ensures var s := MinuteText(t);
      (forall c :: c in s ==> '0' <= c <= '9' || c == '-') && |s| == 13 && s[0] != '-' && s[12] != '-'
  {
    hide DayNumber, CivilDate;
  }

  /** Every scheduled name is a DNS label. */
  lemma ScheduledNameIsLabel(hash: string -> string, machine: string, t: int)
    requires Digests(hash) && 0 <= CivilDate(t / 86400).year <= 9999
    ensures IsDnsLabel(ScheduledName(hash, machine, t))
  {
    MinuteChars(t);
    LabelIsNeat(hash, machine, LABEL_MAX);
    hide CivilDate, MinuteText, Label, Digests;
    var name, made := ScheduledName(hash, machine, t), Label(hash, machine, LABEL_MAX);
    forall c | c in name ensures LabelChar(c) {
      assert c in "krm-" || c in made || c == '-' || c in MinuteText(t);
    }
    assert name[0] == 'k' && name[|name| - 1] == MinuteText(t)[12];
  }

  lemma SuffixesEqual(a: string, s: string, b: string, t: string)
    requires |s| == |t|
    ensures a + s == b + t <==> a == b && s == t
  {
    if a + s == b + t {
      assert |a| == |b|;
      assert (a + s)[..|a|] == a && (b + t)[..|b|] == b && (a + s)[|a|..] == s && (b + t)[|b|..] == t;
    }
  }

  lemma MinutesDiffer(a: int, b: int)
    requires 0 <= CivilDate(a / 86400).year <= 9999 && 0 <= CivilDate(b / 86400).year <= 9999
    ensures MinuteText(a) == MinuteText(b) <==> a / 60 == b / 60
  {
    hide DayNumber, CivilDate, Pad4, Pad2;
    var c, d := CivilDate(a / 86400), CivilDate(b / 86400);
    var m, n := a % 86400 / 60, b % 86400 / 60;
    SameMinute(a, b);
    DayTextEqual(c, d);
    ClockTextEqual(m, n);
    TwoFields(Pad4(c.year) + Pad2(c.month) + Pad2(c.day), Pad4(d.year) + Pad2(d.month) + Pad2(d.day), '-',
              Pad2(m / 60) + Pad2(m % 60), Pad2(n / 60) + Pad2(n % 60));
    DayNumberOfCivilDate(a / 86400);
    DayNumberOfCivilDate(b / 86400);
  }

  lemma ClockTextEqual(m: int, n: int)
    requires 0 <= m < 1440 && 0 <= n < 1440
    ensures Pad2(m / 60) + Pad2(m % 60) == Pad2(n / 60) + Pad2(n % 60) <==> m == n
  {
    Pad2Order(m / 60, n / 60);
    Pad2Order(m % 60, n % 60);
    FieldsEqual(Pad2(m / 60), Pad2(n / 60), Pad2(m % 60), Pad2(n % 60));
    assert m == 60 * (m / 60) + m % 60 && n == 60 * (n / 60) + n % 60;
  }

  lemma MinuteOfDay(t: int)
    ensures t / 60 == 1440 * (t / 86400) + t % 86400 / 60 && 0 <= t % 86400 / 60 < 1440
  {
    assert t == 86400 * (t / 86400) + t % 86400;
  }

  lemma SameMinute(a: int, b: int)
    ensures 0 <= a % 86400 / 60 < 1440 && 0 <= b % 86400 / 60 < 1440
    ensures a / 60 == b / 60 <==> a / 86400 == b / 86400 && a % 86400 / 60 == b % 86400 / 60
  {
    MinuteOfDay(a);
    MinuteOfDay(b);
  }

  /** Different fires of a machine's schedule have different names: repeating a lost reconcile finds the job that it had
      created, and no other of this machine. */
  lemma FiresHaveOwnNames(hash: string -> string, machine: string, next: int -> int, f: int, g: int)
    requires Digests(hash) && IsSchedule(next) && Fires(next, f) && Fires(next, g) && f != g
    requires 0 <= CivilDate(f / 86400).year <= 9999 && 0 <= CivilDate(g / 86400).year <= 9999
    ensures ScheduledName(hash, machine, f) != ScheduledName(hash, machine, g)
  {
    hide ScheduledName, CivilDate, Digests;
    NamesAreMinutes(hash, machine, machine, f, g);
  }

  /** Other machines are not kept apart like that: with names that fit, two machines' jobs of one minute share their
      name iff the plain forms of the machines' names are the same. */
  lemma MachinesShareNames(hash: string -> string, machine: string, other: string, t: int)
    requires Digests(hash) && 0 <= CivilDate(t / 86400).year <= 9999
    requires |Plain(machine)| <= LABEL_MAX && |Plain(other)| <= LABEL_MAX
    ensures ScheduledName(hash, machine, t) == ScheduledName(hash, other, t) <==> Plain(machine) == Plain(other)
  {
    LabelsCoincide(hash, machine, other, LABEL_MAX);
    hide ScheduledName, CivilDate, Label, Digests, Plain;
    NamesAreMinutes(hash, machine, other, t, t);
  }

  lemma DottedAndDashed()
    ensures IsDnsSubdomain("a.b") && IsDnsSubdomain("a-b")
  {
    hide Split;
    SplitPlain("a-b", '.');
    SplitPlain("a", '.');
    SplitPlain("b", '.');
    assert "a.b" == "a" + ['.'] + "b";
    SplitField("a", "b", '.');
    PartsOfSubdomain("a-b", ["a-b"]);
    PartsOfSubdomain("a.b", ["a", "b"]);
  }

  lemma PartsOfSubdomain(s: string, parts: seq<string>)
    requires 0 < |s| <= 253 && Split(s, '.') == parts && forall p :: p in parts ==> IsDnsLabel(p)
    ensures IsDnsSubdomain(s)
  {
    hide Split;
  }

  lemma DottedIsPlain()
    ensures Plain("a.b") == Plain("a-b") == "a-b"
  {
    var dotted, dashed := "a.b", "a-b";
    assert dashed[0] == 'a' && dashed[1] == '-' && dashed[2] == 'b';
    assert dotted[0] == 'a' && dotted[1] == '.' && dotted[2] == 'b';
    hide Plain;
    NeatIsPlain(dashed);
    AlikeValues(dotted, dashed);
  }

  /** That occurs: machines may be named `a.b` and `a-b`. */
  lemma DottedNamesAreShared(hash: string -> string, t: int)
    requires Digests(hash) && 0 <= CivilDate(t / 86400).year <= 9999
    ensures IsDnsSubdomain("a.b") && IsDnsSubdomain("a-b")
    ensures ScheduledName(hash, "a.b", t) == ScheduledName(hash, "a-b", t)
  {
    hide CivilDate, Digests, Plain, IsDnsSubdomain, ScheduledName;
    DottedAndDashed();
    DottedIsPlain();
    MachinesShareNames(hash, "a.b", "a-b", t);
  }

  // ---------------------------------------------------------------- requeueing

  /** `requeueAfter`; `None` stands for a schedule that does not fire again. */
  function RequeueAfter(now: int, next: Option<int>): (delay: int)
    ensures 0 < delay <= 600
    ensures next.Some? && now < next.value <= now + 600 ==> now + delay == next.value
    ensures next.None? || next.value > now + 600 ==> delay == 600
    ensures next.Some? && next.value <= now ==> delay == 1
  {
    match next
    case None => RECHECK
    case Some(time) => if time - now <= 0 then 1 else if time - now > RECHECK then RECHECK else time - now
  }
}
