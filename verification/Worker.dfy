/** The worker thread (`Worker`, `Pause` and `Handle::enqueue` of
    `lfm2d/src/adjudicator.rs`): one bounded queue per class, the highest class
    first, interactive jobs served at the pauses of the others, background work
    when nothing waits. What a whole run does is read off its log. */
module Workers {
  import opened Wrappers
  import opened Serving

  const QUEUE_DEPTH := 8

  /** A queued job: how many pauses it comes through before it ends, and the
      background tasks it leaves, each with its own. */
  datatype Work = Work(job: Job, pauses: nat, tasks: seq<nat>)

  function ClassIn(w: Work): Class {
    ClassOf(w.job)
  }

  /** What comes to the worker from outside: a submission, or the signal to stop. */
  datatype Arrival = Ask(work: Work) | Stop

  datatype Event =
    | Accepted(work: Work)
    | Refused(work: Work)
    | Stopping
    | Idle(c: Class)
    | Closed(c: Class)
    | Started(work: Work)
    | Resumed
    | Replied(work: Work)
    | BackgroundBegan(pauses: nat)
    | BackgroundEnded

  type Log = seq<Event>

  /** What the one thread is in the middle of, and how many pauses that came through. */
  datatype Activity = Running(work: Work, resumed: nat) | Tasking(pauses: nat, resumed: nat)

  // ---- Reading a log ---------------------------------------------------------

  /** Everything that came, in order: each submission was accepted or refused. */
  ghost function Arrived(log: Log): seq<Arrival> {
    if log == [] then []
    else Arrived(log[..|log| - 1]) + Comes(log[|log| - 1])
  }

  function Comes(e: Event): seq<Arrival> {
    match e
    case Accepted(w) => [Ask(w)]
    case Refused(w) => [Ask(w)]
    case Stopping => [Stop]
    case _ => []
  }

  /** How many of a class wait in its queue. */
  ghost function Waiting(log: Log, c: Class): int {
    |Entered(log, c)| - |Begun(log, c)|
  }

  /** The jobs of a class that entered its queue, in order. */
  ghost function Entered(log: Log, c: Class): seq<Work> {
    if log == [] then []
    else
      var last := log[|log| - 1];
      Entered(log[..|log| - 1], c) + (if last.Accepted? && ClassIn(last.work) == c then [last.work] else [])
  }

  /** The jobs of a class that started, in order. */
  ghost function Begun(log: Log, c: Class): seq<Work> {
    if log == [] then []
    else
      var last := log[|log| - 1];
      Begun(log[..|log| - 1], c) + (if last.Started? && ClassIn(last.work) == c then [last.work] else [])
  }

  ghost function AllEntered(log: Log): multiset<Work> {
    if log == [] then multiset{}
    else
      var last := log[|log| - 1];
      AllEntered(log[..|log| - 1]) + (if last.Accepted? then multiset{last.work} else multiset{})
  }

  ghost function AllBegun(log: Log): multiset<Work> {
    if log == [] then multiset{}
    else
      var last := log[|log| - 1];
      AllBegun(log[..|log| - 1]) + (if last.Started? then multiset{last.work} else multiset{})
  }

  ghost function AllReplied(log: Log): multiset<Work> {
    if log == [] then multiset{}
    else
      var last := log[|log| - 1];
      AllReplied(log[..|log| - 1]) + (if last.Replied? then multiset{last.work} else multiset{})
  }

  /** What is under way after a log, the paused one first. */
  ghost function Under(log: Log): seq<Activity> {
    if log == [] then [] else UnderAfter(Under(log[..|log| - 1]), log[|log| - 1])
  }

  function UnderAfter(under: seq<Activity>, e: Event): seq<Activity> {
    match e
    case Started(w) => under + [Running(w, 0)]
    case BackgroundBegan(pauses) => under + [Tasking(pauses, 0)]
    case Replied(_) | BackgroundEnded => if under == [] then [] else under[..|under| - 1]
    case Resumed =>
      if under == [] then []
      else under[..|under| - 1] + [under[|under| - 1].(resumed := under[|under| - 1].resumed + 1)]
    case _ => under
  }

  ghost function JobsOf(under: seq<Activity>): multiset<Work> {
    if under == [] then multiset{}
    else
      var last := under[|under| - 1];
      JobsOf(under[..|under| - 1]) + (if last.Running? then multiset{last.work} else multiset{})
  }

  /** A job or a background task began, ended or went on from a pause. */
  predicate Turns(e: Event) {
    e.Started? || e.Resumed? || e.Replied? || e.BackgroundBegan? || e.BackgroundEnded?
  }

  ghost predicate FoundClosed(log: Log, c: Class) {
    Closed(c) in log
  }

  /** A class was found closed, or empty with nothing begun, ended or gone on since:
      the look is this pick's or this pause's own. */
  ghost predicate FoundIdle(log: Log, c: Class) {
    FoundClosed(log, c)
    || exists j :: 0 <= j < |log| && log[j] == Idle(c) && forall k :: j < k < |log| ==> !Turns(log[k])
  }

  /** Only what is below the interactive class serves others at its pauses. */
  predicate Below(a: Activity) {
    a.Tasking? || !ClassIn(a.work).Interactive?
  }

  /** An activity may end: it came through its pauses, or the daemon stops. */
  ghost predicate MayEnd(log: Log, a: Activity) {
    a.resumed == (if a.Running? then a.work.pauses else a.pauses) || Stopping in log
  }

  /** What may come after a log. A submission enters its queue when the daemon was
      not told to stop and there is room, and is refused else. A class is found idle
      or closed when its queue is empty. What starts is the oldest of its queue: with
      nothing under way, a generative job when this pick found no interactive one,
      background work when it found no job at all; inside a job or a task below its
      class, and only one deep, an interactive job. What is below that class goes on
      from a pause only when this pause found no interactive job. A reply is the
      innermost job's. */
  ghost predicate MayFollow(log: Log, e: Event) {
    var under := Under(log);
    match e
    case Accepted(w) =>
      Stopping !in log && Waiting(log, ClassIn(w)) < QUEUE_DEPTH && !FoundClosed(log, ClassIn(w))
    case Refused(w) => Stopping in log || Waiting(log, ClassIn(w)) >= QUEUE_DEPTH
    case Idle(c) => Waiting(log, c) == 0
    case Closed(c) => Waiting(log, c) == 0
    case Started(w) =>
      Begun(log, ClassIn(w)) + [w] <= Entered(log, ClassIn(w))
      && if under == [] then ClassIn(w).Generative? ==> FoundIdle(log, Interactive)
         else |under| == 1 && Below(under[0]) && ClassIn(w).Interactive?
    case Resumed =>
      under != [] && (Below(under[|under| - 1]) ==> |under| == 1 && FoundIdle(log, Interactive))
    case Replied(w) =>
      under != [] && under[|under| - 1].Running? && under[|under| - 1].work == w && MayEnd(log, under[|under| - 1])
    case BackgroundBegan(_) => under == [] && FoundIdle(log, Interactive) && FoundIdle(log, Generative)
    case BackgroundEnded => |under| == 1 && under[0].Tasking? && MayEnd(log, under[0])
    case Stopping => true
  }

  ghost predicate AllInTurn(log: Log) {
    forall i :: 0 <= i < |log| ==> MayFollow(log[..i], log[i])
  }

  /** What was found idle still is after an event that begins or ends nothing. */
  lemma {:induction false} StillIdle(log: Log, e: Event, c: Class)
    requires FoundIdle(log, c) && !Turns(e)
    ensures FoundIdle(log + [e], c)
  {
    var after := log + [e];
    if !FoundClosed(log, c) {
      var j :| 0 <= j < |log| && log[j] == Idle(c) && forall k :: j < k < |log| ==> !Turns(log[k]);
      assert after[j] == log[j];
      assert forall k :: j < k < |log| ==> after[k] == log[k];
    }
  }

  /** Every pick and every pause looks for itself: right after anything began, ended
      or went on no class counts as idle but a closed one. */
  lemma {:induction false} EachPickLooks(log: Log, e: Event, c: Class)
    requires Turns(e)
    ensures FoundIdle(log + [e], c) <==> FoundClosed(log, c)
  {
    var after := log + [e];
    assert after[|log|] == e && forall k :: 0 <= k < |log| ==> after[k] == log[k];
  }

  /** Closed is closed for good. */
  lemma {:induction false} ClosedStays(log: Log, after: Log, c: Class)
    requires FoundClosed(log, c) && log <= after
    ensures FoundClosed(after, c) && FoundIdle(after, c)
  {
  }

  lemma {:induction false} ClosedKept(log: Log, after: Log, c: Class, stillOpen: bool)
    requires log <= after && (!stillOpen ==> FoundClosed(log, c))
    ensures !stillOpen ==> FoundClosed(after, c)
  {
    if !stillOpen {
      ClosedStays(log, after, c);
    }
  }

  lemma {:induction false} JustIdle(log: Log, e: Event, c: Class)
    requires e == Idle(c) || e == Closed(c)
    ensures FoundIdle(log + [e], c) && (e.Closed? ==> FoundClosed(log + [e], c))
  {
    assert (log + [e])[|log|] == e;
  }

  /** What an event adds to every reading of the log. */
  lemma {:induction false} Appended(log: Log, e: Event)
    ensures forall c ::
      Entered(log + [e], c) == Entered(log, c) + (if e.Accepted? && ClassIn(e.work) == c then [e.work] else [])
    ensures forall c ::
      Begun(log + [e], c) == Begun(log, c) + (if e.Started? && ClassIn(e.work) == c then [e.work] else [])
    ensures AllEntered(log + [e]) == AllEntered(log) + (if e.Accepted? then multiset{e.work} else multiset{})
    ensures AllBegun(log + [e]) == AllBegun(log) + (if e.Started? then multiset{e.work} else multiset{})
    ensures AllReplied(log + [e]) == AllReplied(log) + (if e.Replied? then multiset{e.work} else multiset{})
  {
    assert (log + [e])[..|log|] == log;
  }

  lemma {:induction false} ArrivedSnoc(log: Log, e: Event)
    ensures Arrived(log + [e]) == Arrived(log) + Comes(e)
    ensures Stopping in log + [e] <==> Stopping in log || e == Stopping
    ensures forall c :: FoundClosed(log + [e], c) <==> FoundClosed(log, c) || e == Closed(c)
  {
    assert (log + [e])[..|log|] == log;
  }

  lemma {:induction false} TurnKept(log: Log, e: Event)
    requires AllInTurn(log) && MayFollow(log, e)
    ensures AllInTurn(log + [e])
  {
    hide MayFollow;
    var after := log + [e];
    forall i | 0 <= i < |after|
      ensures MayFollow(after[..i], after[i])
    {
      assert after[..i] == log[..i];
      assert i == |log| ==> log[..i] == log;
    }
  }

  // ---- What a log in turn says of pauses -------------------------------------------

  lemma {:induction false} TurnBefore(log: Log, n: nat)
    requires AllInTurn(log) && n <= |log|
    ensures AllInTurn(log[..n])
  {
    hide MayFollow;
    forall i | 0 <= i < n
      ensures MayFollow(log[..n][..i], log[..n][i])
    {
      assert log[..n][..i] == log[..i];
    }
  }

  /** What began is the first of what entered; what was replied to is what began and
      is not under way. */
  lemma {:induction false} BegunFirst(log: Log, c: Class)
    requires AllInTurn(log)
    ensures Begun(log, c) <= Entered(log, c) && AllBegun(log) == AllReplied(log) + JobsOf(Under(log))
  {
    hide MayFollow;
    if log != [] {
      var before, e := log[..|log| - 1], log[|log| - 1];
      TurnBefore(log, |log| - 1);
      BegunFirst(before, c);
      assert log == before + [e] && MayFollow(before, e);
      BegunStep(before, e, c);
    }
  }

  lemma {:induction false} BegunStep(log: Log, e: Event, c: Class)
    requires MayFollow(log, e)
    requires Begun(log, c) <= Entered(log, c) && AllBegun(log) == AllReplied(log) + JobsOf(Under(log))
    ensures Begun(log + [e], c) <= Entered(log + [e], c)
    ensures AllBegun(log + [e]) == AllReplied(log + [e]) + JobsOf(Under(log + [e]))
  {
    hide Entered, Begun, AllEntered, AllBegun, AllReplied, Under, JobsOf, FoundIdle, FoundClosed, ClassIn;
    Appended(log, e);
    UnderGrown(log, e);
    JobsAfter(Under(log), e);
    MovedOn(AllBegun(log), AllReplied(log), JobsOf(Under(log)), JobsOf(UnderAfter(Under(log), e)),
            if e.Started? then multiset{e.work} else multiset{}, if e.Replied? then multiset{e.work} else multiset{});
    hide UnderAfter, Waiting, MayEnd;
  }

  lemma {:induction false} MovedOn(
      begun: multiset<Work>, replied: multiset<Work>, jobs: multiset<Work>, jobs': multiset<Work>,
      started: multiset<Work>, answered: multiset<Work>)
    requires begun == replied + jobs && jobs' + answered == jobs + started
    ensures begun + started == replied + answered + jobs'
  {
    Regroup(begun, begun, replied, multiset{}, jobs, multiset{}, jobs', started, started, answered);
  }

  /** At every pause a job or task below the interactive class comes through, every
      interactive job that had entered its queue by a look of that very pause has
      begun, and none is left without its reply. */
  lemma {:induction false} PausesServe(log: Log, j: nat) returns (look: nat)
    requires AllInTurn(log) && j < |log| && log[j].Resumed?
    requires var under := Under(log[..j]); under != [] && Below(under[|under| - 1])
    ensures look < j && Begun(log[..look], Interactive) == Entered(log[..look], Interactive)
    ensures log[look] == Closed(Interactive)
      || (log[look] == Idle(Interactive) && forall k :: look < k < j ==> !Turns(log[k]))
    ensures forall w :: ClassIn(w).Interactive? ==> AllReplied(log[..j])[w] == AllBegun(log[..j])[w]
  {
    hide Entered, Begun, AllBegun, AllReplied, JobsOf, Under, ClassIn, Turns;
    var before := log[..j];
    assert MayFollow(before, log[j]);
    if FoundClosed(before, Interactive) {
      look :| 0 <= look < j && before[look] == Closed(Interactive);
    } else {
      look :| 0 <= look < j && before[look] == Idle(Interactive) && forall k :: look < k < j ==> !Turns(before[k]);
      assert forall k :: look < k < j ==> log[k] == before[k];
    }
    assert MayFollow(log[..look], log[look]);
    TurnBefore(log, look);
    BegunFirst(log[..look], Interactive);
    AllOfIt(Begun(log[..look], Interactive), Entered(log[..look], Interactive));
    TurnBefore(log, j);
    BegunFirst(before, Interactive);
    NoneInteractive(Under(before));
  }

  lemma {:induction false} AllOfIt(a: seq<Work>, b: seq<Work>)
    requires a <= b && |b| - |a| == 0
    ensures a == b
  {
  }

  lemma {:induction false} NoneInteractive(under: seq<Activity>)
    requires |under| == 1 && Below(under[0])
    ensures forall w :: ClassIn(w).Interactive? ==> JobsOf(under)[w] == 0
  {
    JobsLast(under);
    assert under[..0] == [] && JobsOf([]) == multiset{};
  }

  /** Jobs, and the tasks they will leave. */
  function Weight(works: seq<Work>): nat {
    if works == [] then 0 else 1 + |works[0].tasks| + Weight(works[1..])
  }

  lemma {:induction false} WeightSnoc(works: seq<Work>, w: Work)
    ensures Weight(works + [w]) == Weight(works) + 1 + |w.tasks|
  {
    if works != [] {
      WeightSnoc(works[1..], w);
      assert (works + [w])[1..] == works[1..] + [w];
    }
  }

  /** The same for what is still to come. */
  function Load(coming: seq<Arrival>): nat {
    if coming == [] then 0
    else (if coming[0].Ask? then 1 + |coming[0].work.tasks| else 0) + Load(coming[1..])
  }

  // ---- The worker ----------------------------------------------------------------

  class Worker {
    /** What each class's queue holds, oldest first. */
    var interactive: seq<Work>
    var generative: seq<Work>
    /** What comes to this worker, from its start on. */
    ghost const all: seq<Arrival>
    /** What is still to come, and whether any handle is left. */
    var coming: seq<Arrival>
    var open: bool
    var stopping: bool
    /** The generator's background tasks, oldest first. */
    var tasks: seq<nat>
    /** What is under way, one inside the other. */
    ghost var under: seq<Activity>
    ghost var log: Log

    ghost predicate Valid()
      reads this
    {
      |interactive| <= QUEUE_DEPTH && |generative| <= QUEUE_DEPTH && (!open ==> coming == [])
      && Balanced(log, interactive, generative, under)
      && Arrived(log) + coming == all && (stopping <==> Stopping in log)
      && (open ==> !FoundClosed(log, Interactive) && !FoundClosed(log, Generative))
    }

    /** What is left to do; it only shrinks. */
    ghost function Left(): nat
      reads this
    {
      Load(coming) + Weight(interactive) + Weight(generative) + |tasks|
    }

    /** The log only grows, the submissions left only shrink, a queue grows only by
        them, and a dropped handle stays dropped. */
    twostate predicate Onward()
      reads this
    {
      old(log) <= log && |coming| <= old(|coming|) && (open ==> old(open))
      && (|coming| == old(|coming|) ==> |interactive| <= old(|interactive|) && |generative| <= old(|generative|))
    }

    constructor (coming: seq<Arrival>)
      ensures Valid() && under == [] && log == [] && open && !stopping && this.coming == coming == all
      ensures interactive == [] && generative == [] && tasks == []
    {
      interactive, generative, this.coming, open, stopping, tasks := [], [], coming, true, false, [];
      all := coming;
      under, log := [], [];
    }

    ghost method Record(e: Event)
      modifies this`log
      ensures log == old(log) + [e]
      ensures Arrived(log) == old(Arrived(log)) + Comes(e)
      ensures Stopping in log <==> Stopping in old(log) || e == Stopping
      ensures forall c :: FoundClosed(log, c) <==> FoundClosed(old(log), c) || e == Closed(c)
    {
      ArrivedSnoc(log, e);
      log := log + [e];
    }

    /** `Handle::enqueue` of the next submission: refused when the daemon is
        stopping or its queue is full, else at the back of its queue. */
    method Submit()
      requires Valid() && coming != [] && coming[0].Ask?
      modifies this
      ensures Valid() && under == old(under) && open == old(open) && tasks == old(tasks) && Quieter(old(log), log)
      ensures coming == old(coming)[1..] && Left() <= old(Left())
      ensures var w := old(coming)[0].work; var urgent := ClassIn(w).Interactive?;
        if old(stopping) || (if urgent then |old(interactive)| else |old(generative)|) == QUEUE_DEPTH then
          log == old(log) + [Refused(w)] && interactive == old(interactive) && generative == old(generative)
        else
          log == old(log) + [Accepted(w)]
          && interactive == old(interactive) + (if urgent then [w] else [])
          && generative == old(generative) + (if urgent then [] else [w])
    {
      hide Balanced, Quieter, Arrived, FoundIdle, FoundClosed;
      var w := coming[0].work;
      if stopping || (if ClassIn(w).Interactive? then |interactive| else |generative|) == QUEUE_DEPTH {
        Refuse(w);
      } else {
        Enter(w);
      }
    }

    method Refuse(w: Work)
      requires Valid() && coming != [] && coming[0] == Ask(w)
      requires stopping || (if ClassIn(w).Interactive? then |interactive| else |generative|) == QUEUE_DEPTH
      modifies this`coming, this`log
      ensures Valid() && coming == old(coming)[1..] && log == old(log) + [Refused(w)]
      ensures Left() <= old(Left()) && Quieter(old(log), log)
    {
      hide Balanced, Quieter, Arrived, FoundIdle, FoundClosed;
      WorkClass(w);
      StandsAt(log, interactive, generative, under);
      Step(log, interactive, generative, under, Refused(w));
      coming := coming[1..];
      Record(Refused(w));
    }

    method Enter(w: Work)
      requires Valid() && coming != [] && coming[0] == Ask(w) && !stopping
      requires (if ClassIn(w).Interactive? then |interactive| else |generative|) < QUEUE_DEPTH
      modifies this`coming, this`interactive, this`generative, this`log
      ensures Valid() && coming == old(coming)[1..] && log == old(log) + [Accepted(w)]
      ensures Left() <= old(Left()) && Quieter(old(log), log)
      ensures interactive == old(interactive) + (if ClassIn(w).Interactive? then [w] else [])
      ensures generative == old(generative) + (if ClassIn(w).Interactive? then [] else [w])
    {
      hide Balanced, Quieter, Arrived, FoundIdle, FoundClosed;
      WorkClass(w);
      StandsAt(log, interactive, generative, under);
      Step(log, interactive, generative, under, Accepted(w));
      coming := coming[1..];
      Record(Accepted(w));
      if ClassIn(w).Interactive? {
        WeightSnoc(interactive, w);
        interactive := interactive + [w];
      } else {
        WeightSnoc(generative, w);
        generative := generative + [w];
      }
    }

    /** The signal to stop: from here on nothing enters a queue. */
    method Signalled()
      requires Valid() && coming != [] && coming[0].Stop?
      modifies this`coming, this`stopping, this`log
      ensures Valid() && stopping && coming == old(coming)[1..] && log == old(log) + [Stopping]
      ensures Left() <= old(Left()) && Quieter(old(log), log)
    {
      hide Balanced, Quieter, Arrived;
      coming := coming[1..];
      Step(log, interactive, generative, under, Stopping);
      Record(Stopping);
      stopping := true;
    }

    /** What comes next. */
    method Arrive()
      requires Valid() && coming != []
      modifies this
      ensures Valid() && under == old(under) && open == old(open) && tasks == old(tasks) && Quieter(old(log), log)
      ensures coming == old(coming)[1..] && Left() <= old(Left()) && old(log) <= log
    {
      hide Balanced, Quieter, Arrived;
      if coming[0].Ask? {
        Submit();
      } else {
        Signalled();
      }
    }

    /** The handles may submit, and then be dropped, at any moment. */
    method Meanwhile()
      requires Valid()
      modifies this
      ensures Valid() && under == old(under) && Quieter(old(log), log)
      ensures Left() <= old(Left()) && Onward()
    {
      hide Balanced;
      while coming != []
        invariant Valid() && under == old(under) && open == old(open) && Quieter(old(log), log)
        invariant Left() <= old(Left()) && Onward()
        decreases |coming|
      {
        if * {
          break;
        }
        Arrive();
      }
      if coming == [] {
        var dropped: bool := *;
        open := open && !dropped;
      }
    }

    /** Whether a job of this class may start now. */
    ghost predicate Fit(c: Class)
      reads this
    {
      if under == [] then c.Generative? ==> FoundIdle(log, Interactive)
      else |under| == 1 && Below(under[0]) && c.Interactive?
    }

    /** `try_recv` on a class's queue; what it gives starts at once. */
    method TryReceive(c: Class) returns (found: Found)
      requires Valid() && !c.Background? && Fit(c)
      modifies this
      ensures Valid() && Onward()
      ensures match found
        case Got(w) =>
          ClassIn(w) == c && under == old(under) + [Running(w, 0)] && Left() + 1 + |w.tasks| <= old(Left())
        case _ =>
          under == old(under) && Left() <= old(Left()) && Quieter(old(log), log) && FoundIdle(log, c)
          && (if c.Interactive? then interactive else generative) == []
          && if found.Empty? then open else !open && FoundClosed(log, c)
    {
      hide Balanced, Arrived, FoundIdle, Weight, Load;
      Meanwhile();
      var queue := if c.Interactive? then interactive else generative;
      if queue == [] {
        var e := if open then Idle(c) else Closed(c);
        StandsAt(log, interactive, generative, under);
        Step(log, interactive, generative, under, e);
        JustIdle(log, e, c);
        QuietTwice(old(log), log, e);
        Record(e);
        return if open then Empty else Disconnected;
      }
      var w := Start(c);
      return Got(w);
    }

    /** The oldest of a queue starts. */
    method Start(c: Class) returns (w: Work)
      requires Valid() && !c.Background? && Fit(c) && (if c.Interactive? then interactive else generative) != []
      modifies this`interactive, this`generative, this`under, this`log
      ensures Valid() && ClassIn(w) == c && under == old(under) + [Running(w, 0)]
      ensures Left() + 1 + |w.tasks| <= old(Left())
      ensures log == old(log) + [Started(w)]
      ensures |interactive| <= old(|interactive|) && |generative| <= old(|generative|)
    {
      hide Balanced, Arrived, FoundIdle, FoundClosed, Under, Waiting, Entered, Begun, Quieter, Below, MayEnd, Load;
      var queue := if c.Interactive? then interactive else generative;
      w := queue[0];
      StandsAt(log, interactive, generative, under);
      OldestNext(Entered(log, c), Begun(log, c), queue);
      Step(log, interactive, generative, under, Started(w));
      if c.Interactive? {
        interactive := interactive[1..];
      } else {
        generative := generative[1..];
      }
      Record(Started(w));
      under := under + [Running(w, 0)];
    }

    /** A job, start to finish, and its reply: unless the daemon stops it comes
        through as many pauses as it is to, and may then fail at a look of a last
        one. */
    method Run(w: Work)
      requires Valid() && under != [] && under[|under| - 1] == Running(w, 0)
      requires |under| == 1 || (|under| == 2 && ClassIn(w).Interactive?)
      modifies this
      ensures Valid() && under == old(under)[..|old(under)| - 1]
      ensures Left() <= old(Left()) + |w.tasks| && Onward()
      decreases if ClassIn(w).Interactive? then 0 else 1, 2
    {
      hide Balanced, Quieter, FoundIdle, FoundClosed, Weight, Load, Arrived, UnderAfter;
      var n := ComeThrough(w, under[..|under| - 1]);
      if * {
        var failed := Pause(ClassIn(w), true);
      }
      Answer(w);
    }

    /** The pauses of a job, up to where the daemon's stopping ends it. */
    method ComeThrough(w: Work, ghost before: seq<Activity>) returns (n: nat)
      requires Valid() && under == before + [Running(w, 0)]
      requires before == [] || (|before| == 1 && ClassIn(w).Interactive?)
      modifies this
      ensures Valid() && under == before + [Running(w, n)] && (n == w.pauses || stopping)
      ensures under[|under| - 1] == Running(w, n) && under[..|under| - 1] == before
      ensures Left() <= old(Left()) && Onward()
      decreases if ClassIn(w).Interactive? then 0 else 1, 1
    {
      hide Balanced, Quieter, FoundIdle, FoundClosed, Weight, Load, Arrived, UnderAfter;
      n := 0;
      while n < w.pauses
        invariant n <= w.pauses && Valid() && under == before + [Running(w, n)]
        invariant Left() <= old(Left()) && Onward()
      {
        OnTop(before, w, n);
        var failed := Pause(ClassIn(w), false);
        if failed {
          break;
        }
        n := n + 1;
      }
      OnTop(before, w, n);
    }

    method Answer(w: Work)
      requires Valid() && under != [] && under[|under| - 1].Running? && under[|under| - 1].work == w
      requires under[|under| - 1].resumed == w.pauses || stopping
      modifies this`tasks, this`under, this`log
      ensures Valid() && under == old(under)[..|old(under)| - 1]
      ensures log == old(log) + [Replied(w)] && |tasks| <= |old(tasks)| + |w.tasks|
    {
      hide Balanced, Arrived, FoundIdle, FoundClosed;
      var left: nat :| left <= |w.tasks|;
      tasks := tasks + w.tasks[..left];
      StandsAt(log, interactive, generative, under);
      Step(log, interactive, generative, under, Replied(w));
      Record(Replied(w));
      under := under[..|under| - 1];
    }

    /** `Pause::pause`: interactive jobs, with a look at the check around each. It is
        come through only when nothing above the paused class waits. A pause that is
        `cut` is one where the paused job's own check fails; else only the daemon's
        stopping fails it. */
    method Pause(paused: Class, cut: bool) returns (failed: bool)
      requires Valid() && under != [] && (paused.Interactive? <==> !Below(under[|under| - 1]))
      requires !paused.Interactive? ==> |under| == 1
      modifies this
      ensures Valid() && Left() <= old(Left()) && Onward()
      ensures under == if failed then old(under) else UnderAfter(old(under), Resumed)
      ensures cut ==> failed
      ensures failed && !cut ==> stopping
      ensures !failed && !paused.Interactive? ==>
        interactive == [] && old(log) < log && log[|log| - 1] == Resumed
        && FoundIdle(log[..|log| - 1], Interactive)
      decreases if paused.Interactive? then 0 else 1, 0
    {
      hide Balanced, Quieter, FoundIdle, FoundClosed, Weight, Load, Arrived;
      while true
        invariant Valid() && under == old(under)
        invariant Left() <= old(Left()) && Onward()
        decreases Left()
      {
        var stopped: bool := *;
        if (cut && stopped) || stopping {
          return true;
        }
        // `next_at_pause`: only below the interactive class.
        if paused.Interactive? {
          if !cut {
            Resume();
          }
          return cut;
        }
        var next := TryReceive(Interactive);
        if !next.Got? {
          if !cut {
            Resume();
          }
          return cut;
        }
        Run(next.work);
        assert under == old(under);
      }
    }

    /** What paused goes on. */
    method Resume()
      requires Valid() && under != []
      requires Below(under[|under| - 1]) ==> |under| == 1 && FoundIdle(log, Interactive)
      modifies this`under, this`log
      ensures Valid() && under == UnderAfter(old(under), Resumed) && log == old(log) + [Resumed]
    {
      hide Balanced, Quieter, Arrived, FoundIdle, FoundClosed;
      StandsAt(log, interactive, generative, under);
      Step(log, interactive, generative, under, Resumed);
      Record(Resumed);
      under := UnderAfter(under, Resumed);
    }

    /** One background task, if the generator has one. */
    method Background() returns (ran: bool)
      requires Valid() && under == [] && FoundIdle(log, Interactive) && FoundIdle(log, Generative)
      modifies this
      ensures Valid() && under == []
      ensures Left() <= old(Left()) && Onward()
      ensures ran <==> old(tasks) != []
      ensures ran ==>
        Left() < old(Left()) && old(log) + [BackgroundBegan(old(tasks)[0])] <= log && log[|log| - 1] == BackgroundEnded
      ensures !ran ==> log == old(log)
    {
      hide Balanced, Quieter, Arrived, Weight, Load, FoundIdle, FoundClosed;
      if tasks == [] {
        return false;
      }
      var pauses := tasks[0];
      BeginTask();
      var n := 0;
      var going := true;
      while going && n < pauses
        invariant n <= pauses && Valid() && under == [Tasking(pauses, n)] && (going || stopping)
        invariant Left() < old(Left()) && Onward() && old(log) + [BackgroundBegan(pauses)] <= log
        decreases going, pauses - n
      {
        var failed := Pause(Serving.Background, false);
        if failed {
          going := false;
        } else {
          n := n + 1;
        }
      }
      EndTask();
      return true;
    }

    method BeginTask()
      requires Valid() && under == [] && FoundIdle(log, Interactive) && FoundIdle(log, Generative) && tasks != []
      modifies this`tasks, this`under, this`log
      ensures Valid() && under == [Tasking(old(tasks)[0], 0)] && tasks == old(tasks)[1..]
      ensures log == old(log) + [BackgroundBegan(old(tasks)[0])]
    {
      hide Balanced, Quieter, Arrived, FoundIdle, FoundClosed;
      var e := BackgroundBegan(tasks[0]);
      StandsAt(log, interactive, generative, under);
      Step(log, interactive, generative, under, e);
      Record(e);
      under, tasks := under + [Tasking(tasks[0], 0)], tasks[1..];
    }

    method EndTask()
      requires Valid() && |under| == 1 && under[0].Tasking? && (under[0].resumed == under[0].pauses || stopping)
      modifies this`under, this`log
      ensures Valid() && under == [] && log == old(log) + [BackgroundEnded]
    {
      hide Balanced, Quieter, Arrived, FoundIdle, FoundClosed;
      StandsAt(log, interactive, generative, under);
      Step(log, interactive, generative, under, BackgroundEnded);
      Record(BackgroundEnded);
      under := [];
    }

    /** `select.ready()`: it returns once a queue has work or the handles are gone. */
    method Wait()
      requires Valid()
      modifies this
      ensures Valid() && under == old(under) && Left() <= old(Left()) && old(log) <= log
      ensures |coming| < old(|coming|) || Onward()
      ensures old(open) && old(interactive == [] && generative == []) ==> |coming| < old(|coming|) || !open
      ensures !old(open) ==> interactive == old(interactive) && generative == old(generative) && !open
    {
      hide Balanced, Quieter, FoundIdle, Weight;
      if interactive == [] && generative == [] && open {
        if coming == [] {
          open := false;
        } else {
          Arrive();
        }
      }
    }

    /** One class's turn in the pick: a closed queue is not looked at again. */
    method Look(c: Class, stillOpen: bool) returns (found: Found, open': bool)
      requires Valid() && under == [] && !c.Background? && (c.Generative? ==> FoundIdle(log, Interactive))
      requires !stillOpen ==> ClosedFor(c)
      modifies this
      ensures Valid() && Onward() && (!open' ==> ClosedFor(c)) && (open' ==> stillOpen)
      ensures match found
        case Got(w) => under == [Running(w, 0)] && Left() + 1 + |w.tasks| <= old(Left())
        case _ =>
          under == [] && Left() <= old(Left()) && Quieter(old(log), log) && FoundIdle(log, c)
          && (open' ==> old(open)) && (if c.Interactive? then interactive else generative) == []
    {
      hide Balanced, FoundIdle, FoundClosed;
      if !stillOpen {
        ClosedStays(log, log, c);
        return Disconnected, false;
      }
      found := TryReceive(c);
      open' := !found.Disconnected?;
    }

    ghost predicate ClosedFor(c: Class)
      reads this
    {
      !open && (if c.Interactive? then interactive else generative) == [] && FoundClosed(log, c)
    }

    /** The highest class with work. */
    method Pick(interactiveOpen: bool, generativeOpen: bool) returns (found: Found, open': bool, open'': bool)
      requires Valid() && under == []
      requires (!interactiveOpen ==> ClosedFor(Interactive)) && (!generativeOpen ==> ClosedFor(Generative))
      modifies this
      ensures Valid() && Onward() && (open' ==> interactiveOpen) && (open'' ==> generativeOpen)
      ensures (!open' ==> ClosedFor(Interactive)) && (!open'' ==> ClosedFor(Generative))
      ensures match found
        case Got(w) => under == [Running(w, 0)] && Left() + 1 + |w.tasks| <= old(Left())
        case _ =>
          under == [] && Left() <= old(Left())
          && FoundIdle(log, Interactive) && FoundIdle(log, Generative)
          && (open' || open'' ==> old(open)) && (|coming| == old(|coming|) ==> interactive == [] && generative == [])
    {
      hide Balanced, FoundIdle, FoundClosed, Weight;
      ghost var was := log;
      found, open' := Look(Interactive, interactiveOpen);
      open'' := generativeOpen;
      ClosedKept(was, log, Generative, generativeOpen);
      if !found.Got? {
        was := log;
        found, open'' := Look(Generative, generativeOpen);
        ClosedKept(was, log, Interactive, open');
      }
    }

    /** `Worker::serve`: the highest class with work first, background work when
        nothing waits, and back when there are no handles and no work. All
        that was to come has then come, each submission accepted or refused as it
        had to be; every job that entered a queue has been started once, in the
        order of its class, and replied to once; nothing is left under way, and
        every start and end was in turn. */
    method Serve()
      requires Valid() && under == []
      modifies this
      ensures Valid() && !open && interactive == [] && generative == [] && coming == [] && old(log) <= log
      ensures Arrived(log) == old(Arrived(log)) + old(coming)
      ensures Begun(log, Interactive) == Entered(log, Interactive) && Begun(log, Generative) == Entered(log, Generative)
      ensures AllReplied(log) == AllEntered(log) && AllInTurn(log) && Under(log) == []
    {
      hide Balanced, FoundIdle, FoundClosed, AllInTurn, Weight, Entered, Begun, Under, JobsOf;
      var interactiveOpen, generativeOpen := true, true;
      while interactiveOpen || generativeOpen
        invariant Valid() && under == [] && old(log) <= log
        invariant (!interactiveOpen ==> ClosedFor(Interactive)) && (!generativeOpen ==> ClosedFor(Generative))
        decreases Left(), |coming|, open, interactiveOpen, generativeOpen
      {
        var next;
        next, interactiveOpen, generativeOpen := Pick(interactiveOpen, generativeOpen);
        ghost var was := log;
        if next.Got? {
          Run(next.work);
        } else if interactiveOpen || generativeOpen {
          var ran := Background();
          if !ran {
            Wait();
          }
        }
        ClosedKept(was, log, Interactive, interactiveOpen);
        ClosedKept(was, log, Generative, generativeOpen);
      }
      Finished(log);
    }
  }

  /** With nothing queued and nothing under way, all that entered was begun in
      order and replied to. */
  lemma {:induction false} Finished(log: Log)
    requires Balanced(log, [], [], [])
    ensures Begun(log, Interactive) == Entered(log, Interactive) && Begun(log, Generative) == Entered(log, Generative)
    ensures AllReplied(log) == AllEntered(log) && AllInTurn(log) && Under(log) == []
  {
  }

  datatype Found = Got(work: Work) | Empty | Disconnected

  /** The log accounts for the queues and for what is under way. */
  ghost predicate Balanced(log: Log, interactive: seq<Work>, generative: seq<Work>, under: seq<Activity>) {
    Ordered(log, Interactive, interactive) && Ordered(log, Generative, generative)
    && Counted(log, interactive, generative, under) && Under(log) == under && AllInTurn(log)
  }

  /** A class's queue holds what entered it and has not begun, in order. */
  ghost predicate Ordered(log: Log, c: Class, queue: seq<Work>) {
    Entered(log, c) == Begun(log, c) + queue && forall w :: w in queue ==> ClassIn(w) == c
  }

  /** What entered waits or has begun, what began is under way or has been replied to. */
  ghost predicate Counted(log: Log, interactive: seq<Work>, generative: seq<Work>, under: seq<Activity>) {
    AllEntered(log) == AllBegun(log) + (multiset(interactive) + multiset(generative))
    && AllBegun(log) == AllReplied(log) + JobsOf(under)
  }

  /** A queue after an event. */
  function QueueAfter(queue: seq<Work>, c: Class, e: Event): seq<Work> {
    if e.Accepted? && ClassIn(e.work) == c then queue + [e.work]
    else if e.Started? && ClassIn(e.work) == c && queue != [] then queue[1..]
    else queue
  }

  /** What starts is the oldest of its queue. */
  predicate FromFront(interactive: seq<Work>, generative: seq<Work>, e: Event) {
    e.Started? ==>
      var queue := if ClassIn(e.work).Interactive? then interactive else generative;
      queue != [] && queue[0] == e.work
  }

  /** An event in turn keeps the log balanced with the queues and what is under way. */
  lemma {:induction false} Step(
      log: Log, interactive: seq<Work>, generative: seq<Work>, under: seq<Activity>, e: Event)
    requires Balanced(log, interactive, generative, under) && MayFollow(log, e) && FromFront(interactive, generative, e)
    ensures Balanced(log + [e], QueueAfter(interactive, Interactive, e), QueueAfter(generative, Generative, e),
                     UnderAfter(under, e))
    ensures !Turns(e) ==> Quieter(log, log + [e])
  {
    hide MayFollow, Ordered, Counted, Quieter, FromFront, AllInTurn, Under, QueueAfter, UnderAfter;
    OrderedAfter(log, Interactive, interactive, generative, e);
    OrderedAfter(log, Generative, interactive, generative, e);
    CountedAfter(log, interactive, generative, under, e);
    UnderGrown(log, e);
    TurnKept(log, e);
    if !Turns(e) {
      Quiet(log, e);
    }
  }

  lemma {:induction false} UnderGrown(log: Log, e: Event)
    ensures Under(log + [e]) == UnderAfter(Under(log), e)
  {
    assert (log + [e])[..|log|] == log;
  }

  lemma {:induction false} OrderedAfter(
      log: Log, c: Class, interactive: seq<Work>, generative: seq<Work>, e: Event)
    requires !c.Background? && FromFront(interactive, generative, e)
    requires Ordered(log, c, if c.Interactive? then interactive else generative)
    ensures Ordered(log + [e], c, QueueAfter(if c.Interactive? then interactive else generative, c, e))
  {
    hide Entered, Begun, AllEntered, AllBegun, AllReplied, Under, ClassIn;
    Appended(log, e);
    var queue := if c.Interactive? then interactive else generative;
    var begun := Begun(log, c);
    if e.Started? && ClassIn(e.work) == c {
      assert queue == [e.work] + queue[1..];
      assert begun + queue == begun + [e.work] + queue[1..];
    } else if e.Accepted? && ClassIn(e.work) == c {
      assert begun + queue + [e.work] == begun + (queue + [e.work]);
    }
  }

  lemma {:induction false} CountedAfter(
      log: Log, interactive: seq<Work>, generative: seq<Work>, under: seq<Activity>, e: Event)
    requires Counted(log, interactive, generative, under) && FromFront(interactive, generative, e)
    requires Under(log) == under && MayFollow(log, e)
    ensures Counted(log + [e], QueueAfter(interactive, Interactive, e), QueueAfter(generative, Generative, e),
                    UnderAfter(under, e))
  {
    hide Entered, Begun, AllEntered, AllBegun, AllReplied, Under, JobsOf, FoundIdle, Waiting, ClassIn;
    Appended(log, e);
    JobsAfter(under, e);
    QueuesAfter(interactive, generative, e);
    var none := multiset{};
    Regroup(AllEntered(log), AllBegun(log), AllReplied(log),
            multiset(interactive) + multiset(generative), JobsOf(under),
            multiset(QueueAfter(interactive, Interactive, e)) + multiset(QueueAfter(generative, Generative, e)),
            JobsOf(UnderAfter(under, e)), if e.Accepted? then multiset{e.work} else none,
            if e.Started? then multiset{e.work} else none, if e.Replied? then multiset{e.work} else none);
    hide MayFollow, UnderAfter, QueueAfter;
  }

  lemma {:induction false} Regroup(
      entered: multiset<Work>, begun: multiset<Work>, replied: multiset<Work>, queued: multiset<Work>,
      jobs: multiset<Work>, queued': multiset<Work>, jobs': multiset<Work>, accepted: multiset<Work>,
      started: multiset<Work>, answered: multiset<Work>)
    requires entered == begun + queued && begun == replied + jobs
    requires queued' + started == queued + accepted && jobs' + answered == jobs + started
    ensures entered + accepted == begun + started + queued' && begun + started == replied + answered + jobs'
  {
    forall w
      ensures (entered + accepted)[w] == (begun + started + queued')[w]
      ensures (begun + started)[w] == (replied + answered + jobs')[w]
    {
      assert (queued' + started)[w] == (queued + accepted)[w] && (jobs' + answered)[w] == (jobs + started)[w];
    }
  }

  /** The queues together gain what is accepted and lose what starts. */
  lemma {:induction false} QueuesAfter(interactive: seq<Work>, generative: seq<Work>, e: Event)
    requires FromFront(interactive, generative, e)
    ensures var i, g := QueueAfter(interactive, Interactive, e), QueueAfter(generative, Generative, e);
      multiset(i) + multiset(g) + (if e.Started? then multiset{e.work} else multiset{})
      == multiset(interactive) + multiset(generative) + (if e.Accepted? then multiset{e.work} else multiset{})
  {
    if e.Started? || e.Accepted? {
      WorkClass(e.work);
    }
    if e.Started? {
      var queue := if ClassIn(e.work).Interactive? then interactive else generative;
      assert queue == [e.work] + queue[1..];
    }
  }

  lemma {:induction false} JobsAfter(under: seq<Activity>, e: Event)
    requires e.Replied? ==> under != [] && under[|under| - 1].Running? && under[|under| - 1].work == e.work
    requires e.BackgroundEnded? ==> |under| == 1 && under[0].Tasking?
    requires e.Resumed? ==> under != []
    ensures JobsOf(UnderAfter(under, e)) + (if e.Replied? then multiset{e.work} else multiset{})
            == JobsOf(under) + (if e.Started? then multiset{e.work} else multiset{})
  {
    hide JobsOf;
    match e {
      case Started(w) => JobsSnoc(under, Running(w, 0));
      case BackgroundBegan(pauses) => JobsSnoc(under, Tasking(pauses, 0));
      case Replied(_) => JobsLast(under);
      case BackgroundEnded => JobsLast(under);
      case Resumed =>
        var last := under[|under| - 1];
        JobsLast(under);
        JobsSnoc(under[..|under| - 1], last.(resumed := last.resumed + 1));
      case _ =>
    }
  }

  lemma {:induction false} JobsLast(under: seq<Activity>)
    requires under != []
    ensures var last := under[|under| - 1];
      JobsOf(under) == JobsOf(under[..|under| - 1]) + (if last.Running? then multiset{last.work} else multiset{})
  {
    JobsSnoc(under[..|under| - 1], under[|under| - 1]);
    assert under[..|under| - 1] + [under[|under| - 1]] == under;
  }

  lemma {:induction false} JobsSnoc(under: seq<Activity>, a: Activity)
    ensures JobsOf(under + [a]) == JobsOf(under) + (if a.Running? then multiset{a.work} else multiset{})
  {
    assert (under + [a])[..|under|] == under;
  }

  lemma {:induction false} WorkClass(w: Work)
    ensures ClassIn(w) == Interactive || ClassIn(w) == Generative
  {
  }

  lemma {:induction false} OldestNext(entered: seq<Work>, begun: seq<Work>, queue: seq<Work>)
    requires entered == begun + queue && queue != []
    ensures begun + [queue[0]] <= entered
  {
    assert queue == [queue[0]] + queue[1..];
  }

  lemma {:induction false} OnTop(before: seq<Activity>, w: Work, n: nat)
    ensures var under := before + [Running(w, n)];
      under[|under| - 1] == Running(w, n) && under[..|under| - 1] == before
      && UnderAfter(under, Resumed) == before + [Running(w, n + 1)]
  {
  }

  /** What the log says of the queues and of what is under way. */
  lemma {:induction false} StandsAt(log: Log, interactive: seq<Work>, generative: seq<Work>, under: seq<Activity>)
    requires Balanced(log, interactive, generative, under)
    ensures Under(log) == under
    ensures Waiting(log, Interactive) == |interactive| && Waiting(log, Generative) == |generative|
    ensures Entered(log, Interactive) == Begun(log, Interactive) + interactive
    ensures Entered(log, Generative) == Begun(log, Generative) + generative
    ensures forall w :: w in interactive ==> ClassIn(w) == Interactive
    ensures forall w :: w in generative ==> ClassIn(w) == Generative
  {
  }

  /** Nothing began or ended between two logs: what was found idle still is. */
  ghost predicate Quieter(before: Log, after: Log) {
    (FoundIdle(before, Interactive) ==> FoundIdle(after, Interactive))
    && (FoundIdle(before, Generative) ==> FoundIdle(after, Generative))
  }

  lemma {:induction false} Quiet(log: Log, e: Event)
    requires !Turns(e)
    ensures Quieter(log, log + [e])
  {
    if FoundIdle(log, Interactive) {
      StillIdle(log, e, Interactive);
    }
    if FoundIdle(log, Generative) {
      StillIdle(log, e, Generative);
    }
  }

  lemma {:induction false} QuietTwice(before: Log, log: Log, e: Event)
    requires Quieter(before, log) && !Turns(e)
    ensures Quieter(before, log + [e])
  {
    Quiet(log, e);
  }
}
