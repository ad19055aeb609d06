/** What a client of the merged watch may rely on, in every run, and where the promise ends. */
module WatchMuxTheorems {
  import opened WatchMux
  import opened WatchMuxLife
  import opened WatchMuxData
  import opened WatchMuxSafety

  lemma {:induction false} Included(script: seq<Item>, pos: nat, i: nat)
    requires i < pos <= |script| && !script[i].Mark?
    ensures script[i] in WithoutMarks(script[..pos])
  {
    ScriptGrows(script, pos - 1);
    if i < pos - 1 {
      Included(script, pos - 1, i);
    }
  }

  /** A merged bookmark is a safe resume point: whatever a covered stream will ever send at or below
      it has been received. */
  lemma BookmarkIsSafe(o: Options, namespaces: seq<Namespace>, steps: seq<Step>, x: Decision, ns: Namespace, i: nat)
    requires IsRun(o, namespaces, steps) && x in After(o, namespaces, steps).data.decided && ns in x.covers
    ensures var d := After(o, namespaces, steps).data;
            && ns in d.streams
            && (i < |d.streams[ns].script| && d.streams[ns].script[i].Change? && d.streams[ns].script[i].rev <= x.w
                ==> d.streams[ns].script[i] in EventsOf(d.log, ns))
  {
    var d := After(o, namespaces, steps).data;
    InvHolds(o, namespaces, steps);
    assert DecisionOk(d, x);
    var st := d.streams[ns];
    if i < |st.script| && st.script[i].Change? && st.script[i].rev <= x.w {
      assert EventsOf(d.log, ns) == HandedOver(d, ns);
      Included(st.script, st.pos, i);
    }
  }

  /** What a bookmark covers: one that announces the end of a replay, every namespace registered when it
      was decided; without a replay, exactly those whose watch was opened at a revision, and so all of them
      if and only if no watch was opened at none. */
  lemma BookmarkCoversIff(o: Options, namespaces: seq<Namespace>, steps: seq<Step>, x: Decision)
    requires IsRun(o, namespaces, steps) && x in After(o, namespaces, steps).data.decided
    ensures o.initialEvents && x.announce ==> x.covers == x.registered
    ensures var d := After(o, namespaces, steps).data;
            && (forall ns :: ns in x.registered ==> ns in d.streams)
            && (!o.initialEvents ==>
                  && (forall ns :: ns in x.covers <==> ns in x.registered && d.streams[ns].start > 0)
                  && (x.covers == x.registered <==> forall ns :: ns in x.registered ==> d.streams[ns].start > 0))
  {
    InvHolds(o, namespaces, steps);
    OptionsKept(o, namespaces, steps);
    assert CoverOk(o, After(o, namespaces, steps).data, x);
  }

  lemma {:induction false} OptionsKept(o: Options, namespaces: seq<Namespace>, steps: seq<Step>)
    requires IsRun(o, namespaces, steps)
    ensures After(o, namespaces, steps).options == o
    decreases |steps|
  {
    if steps != [] {
      OptionsKept(o, namespaces, steps[..|steps| - 1]);
    }
  }

  /** Watermarks that advance are decided in increasing order, and at most one decision announces
      the end of the replay. */
  lemma DecisionsAdvance(o: Options, namespaces: seq<Namespace>, steps: seq<Step>, i: nat, j: nat)
    requires IsRun(o, namespaces, steps)
    requires i < j < |After(o, namespaces, steps).data.decided|
    ensures var decided := After(o, namespaces, steps).data.decided;
            && (decided[i].advanced && decided[j].advanced ==> decided[i].w < decided[j].w)
            && !(decided[i].announce && decided[j].announce)
  {
    InvHolds(o, namespaces, steps);
  }

  /** Nothing is lost, repeated or reordered within a namespace. */
  lemma DeliveriesAreAPrefix(o: Options, namespaces: seq<Namespace>, steps: seq<Step>, ns: Namespace)
    requires IsRun(o, namespaces, steps)
    ensures var d := After(o, namespaces, steps).data;
            EventsOf(d.log, ns) <= if ns in d.streams then WithoutMarks(d.streams[ns].script) else []
  {
    var d := After(o, namespaces, steps).data;
    InvHolds(o, namespaces, steps);
    assert EventsOf(d.log, ns) == HandedOver(d, ns);
    if ns in d.streams {
      PrefixOfScript(d.streams[ns].script, d.streams[ns].pos);
    }
  }

  lemma {:induction false} PrefixOfScript(script: seq<Item>, pos: nat)
    requires pos <= |script|
    ensures WithoutMarks(script[..pos]) <= WithoutMarks(script)
    decreases |script| - pos
  {
    if pos == |script| {
      assert script[..pos] == script;
    } else {
      ScriptGrows(script, pos);
      PrefixOfScript(script, pos + 1);
    }
  }

  /** Every received bookmark was decided, and at most one of them announces the end of the replay. */
  lemma OneEndOfReplay(o: Options, namespaces: seq<Namespace>, steps: seq<Step>, e: Delivery)
    requires IsRun(o, namespaces, steps)
    ensures var d := After(o, namespaces, steps).data;
            && Announcements(d.log) <= 1
            && (e in d.log && e.Bookmark? ==> WasDecided(d, e.w, e.announce))
  {
    InvHolds(o, namespaces, steps);
  }

  predicate Sends(step: Step) {
    step.Deliver? || step.Post? || step.ExpireSend?
  }

  lemma DoneIsOver(s: State, step: Step)
    requires AllDone(s.life) && s.life.phase.Running? && Follower in s.life.status && Enabled(s, step)
    ensures !Sends(step) && !step.Added? && !step.Join? && !step.Open?
  {
    assert s.life.status[Follower].Done?;
  }

  /** The result channel closes only after the client stopped or was told 410; from then on no
      goroutine can send on it, and none is left to start another. */
  lemma ClosesLoudly(o: Options, namespaces: seq<Namespace>, steps: seq<Step>, step: Step)
    requires IsRun(o, namespaces, steps)
    ensures var s := After(o, namespaces, steps);
            s.life.closed ==>
              && (s.life.clientStopped || Gone in s.data.log)
              && AllDone(s.life)
              && (Enabled(s, step) ==> !Sends(step) && !step.Added? && !step.Join? && !step.Open?)
  {
    var s := After(o, namespaces, steps);
    InvHolds(o, namespaces, steps);
    if s.life.closed {
      assert s.life.status[Follower].Done?;
      if Enabled(s, step) {
        DoneIsOver(s, step);
      }
    }
  }

  /** When every goroutine has returned, every upstream watch that was opened has been stopped. */
  lemma EveryWatchIsStopped(o: Options, namespaces: seq<Namespace>, steps: seq<Step>)
    requires IsRun(o, namespaces, steps) && AllDone(After(o, namespaces, steps).life)
    ensures var s := After(o, namespaces, steps);
            && (forall ns :: ns in s.data.streams ==> Forwarder(ns) in s.life.ended)
            && (s.life.phase.Running? ==> Follower in s.life.ended)
  {
    InvHolds(o, namespaces, steps);
  }

  /** Coverage never shrinks in silence: until the stop channel is closed the follower and every
      forwarder live, and every namespace heard of is streamed or being joined, unless a goroutine
      is on its way to end the stream with a 410. */
  lemma CoverageNeverShrinks(o: Options, namespaces: seq<Namespace>, steps: seq<Step>, ns: Namespace)
    requires IsRun(o, namespaces, steps) && !After(o, namespaces, steps).life.stop
    ensures var s := After(o, namespaces, steps);
            && (ns in s.data.streams ==> Forwarder(ns) in s.life.status && !s.life.status[Forwarder(ns)].Done?)
            && (s.life.phase.Running? ==> Follower in s.life.status && !s.life.status[Follower].Done?)
            && (ns in s.data.announced ==>
                 || ns in s.data.streams
                 || (exists id :: Joins(s, id) && s.data.joins[id].ns == ns)
                 || (exists g :: g in s.life.status && InExpire(s.life.status[g])))
  {
    InvHolds(o, namespaces, steps);
    assert ns in After(o, namespaces, steps).data.announced ==> Attended(After(o, namespaces, steps), ns);
  }

  // ------------------------------------------------------------------ where the promise ends

  /** A namespace joined late is safe with every bookmark decided so far exactly when it starts at a
      revision at or above all of them: below one, an event in between is behind the client's resume
      point, and at none at all any event may be. */
  lemma LateJoinIsSafeIff(d: Data, ns: Namespace, at: nat)
    requires ns !in d.streams
    ensures (forall script: seq<Item>, x :: InOrder(script, at, false) && x in d.decided ==>
               Settled(Register(d, ns, at, script).streams[ns], x.w))
            <==> (forall x :: x in d.decided ==> 0 < at && x.w <= at)
  {
    if forall script: seq<Item>, x :: InOrder(script, at, false) && x in d.decided ==>
         Settled(Register(d, ns, at, script).streams[ns], x.w)
    {
      forall x | x in d.decided
        ensures 0 < at && x.w <= at
      {
        var script := [Change(if at == 0 then 0 else at + 1, 0)];
        assert InOrder(script, at, false);
        assert Settled(Register(d, ns, at, script).streams[ns], x.w);
        assert script[0].Change?;
      }
    }
    if forall x :: x in d.decided ==> 0 < at && x.w <= at {
      forall script: seq<Item>, x | InOrder(script, at, false) && x in d.decided
        ensures Settled(Register(d, ns, at, script).streams[ns], x.w)
      {
        forall i | 0 <= i < |script| && script[i].Change?
          ensures script[i].rev > x.w
        {
          assert Live(script, i, at, false);
        }
      }
    }
  }

  lemma Extend(o: Options, namespaces: seq<Namespace>, steps: seq<Step>, step: Step, s: State, t: State)
    requires IsRun(o, namespaces, steps) && After(o, namespaces, steps) == s
    requires Enabled(s, step) && Next(s, step) == t
    ensures IsRun(o, namespaces, steps + [step]) && After(o, namespaces, steps + [step]) == t
  {
  }

  /** The follower and the forwarder of "a" at work, with what "a" has said so far. */
  function Watching(d: Data): State {
    State(Options(true, false, 10), [],
          Life(Running, map[Forwarder("a") := Busy, Follower := Busy], Fresh, false, false, false, false, false, {}),
          d)
  }

  function Saying(st: Stream, log: seq<Delivery>, emitted: nat, decided: seq<Decision>): Data {
    Data(map["a" := st], emitted, false, map[], {"a"}, log, decided)
  }

  function OfA(pos: nat, revision: nat, pc: Pc): Stream {
    Stream(10, [Mark(100, false)], pos, Progress(revision, false), pc)
  }

  const At100 := Decision(100, false, true, {"a"}, {"a"})

  lemma Opens() returns (steps: seq<Step>)
    ensures IsRun(Options(true, false, 10), ["a"], steps)
    ensures After(Options(true, false, 10), ["a"], steps) == Watching(Saying(OfA(0, 10, Receiving), [], 0, []))
  {
    var o, script := Options(true, false, 10), [Mark(100, false)];
    var s0 := Start(o, ["a"]);
    assert IsRun(o, ["a"], []);
    var s1 := Next(s0, Open(script));
    Extend(o, ["a"], [], Open(script), s0, s1);
    Extend(o, ["a"], [] + [Open(script)], Follow, s1, Next(s1, Follow));
    steps := [] + [Open(script)] + [Follow];
  }

  lemma Receives()
    ensures var s := Watching(Saying(OfA(0, 10, Receiving), [], 0, []));
            && Enabled(s, Receive("a"))
            && Next(s, Receive("a")) == Watching(Saying(OfA(0, 10, Folding), [], 0, []))
  {
  }

  lemma Folds()
    ensures var s := Watching(Saying(OfA(0, 10, Folding), [], 0, []));
            && Enabled(s, FoldMark("a", 100))
            && Next(s, FoldMark("a", 100)) == Watching(Saying(OfA(1, 100, Posting(100, false)), [], 100, [At100]))
  {
    var d := Saying(OfA(0, 10, Folding), [], 0, []);
    var v := FoldOf(Options(true, false, 10), d, "a", 100);
    assert v.gauge.progress == map["a" := Progress(100, false)];
    assert "a" in v.gauge.progress;
    assert Decided(Options(true, false, 10), d.streams, 100, v) == At100;
  }

  lemma PostsIt()
    ensures var s := Watching(Saying(OfA(1, 100, Posting(100, false)), [], 100, [At100]));
            && Enabled(s, Post("a"))
            && Next(s, Post("a")) == Watching(Saying(OfA(1, 100, Receiving), [Bookmark(100, false)], 100, [At100]))
  {
  }

  lemma JoinsLate(s: State) returns (t: State)
    requires Is(s.life, Follower, Busy) && Joiner(0) !in s.life.status && !s.options.initialEvents
    requires "b" !in s.data.streams
    ensures Enabled(s, Added("b", 50, 0)) && Enabled(Next(s, Added("b", 50, 0)), Join(0, [Change(60, 0)]))
    ensures t == Next(Next(s, Added("b", 50, 0)), Join(0, [Change(60, 0)]))
    ensures t.data.log == s.data.log && "b" in t.data.streams && !Settled(t.data.streams["b"], 100)
  {
    t := Next(Next(s, Added("b", 50, 0)), Join(0, [Change(60, 0)]));
    assert t.data.streams["b"].script[0] == Change(60, 0) && t.data.streams["b"].pos == 0;
  }

  /** It does happen: a bookmark at 100 is received, and then a namespace created at 50 joins. */
  lemma LateJoinHappens() returns (steps: seq<Step>)
    ensures IsRun(Options(true, false, 10), ["a"], steps)
    ensures var d := After(Options(true, false, 10), ["a"], steps).data;
            Bookmark(100, false) in d.log && "b" in d.streams && !Settled(d.streams["b"], 100)
  {
    var o := Options(true, false, 10);
    var posted := Watching(Saying(OfA(1, 100, Receiving), [Bookmark(100, false)], 100, [At100]));
    steps := BookmarkHappens();
    var t := JoinsLate(posted);
    var added := Next(posted, Added("b", 50, 0));
    Extend(o, ["a"], steps, Added("b", 50, 0), posted, added);
    steps := steps + [Added("b", 50, 0)];
    Extend(o, ["a"], steps, Join(0, [Change(60, 0)]), added, t);
    steps := steps + [Join(0, [Change(60, 0)])];
  }

  /** A run in which one namespace is watched and a merged bookmark is decided, sent and received. */
  lemma BookmarkHappens() returns (steps: seq<Step>)
    ensures IsRun(Options(true, false, 10), ["a"], steps)
    ensures After(Options(true, false, 10), ["a"], steps)
            == Watching(Saying(OfA(1, 100, Receiving), [Bookmark(100, false)], 100, [At100]))
  {
    var o := Options(true, false, 10);
    var s0 := Watching(Saying(OfA(0, 10, Receiving), [], 0, []));
    var s1 := Watching(Saying(OfA(0, 10, Folding), [], 0, []));
    var s2 := Watching(Saying(OfA(1, 100, Posting(100, false)), [], 100, [At100]));
    var s3 := Watching(Saying(OfA(1, 100, Receiving), [Bookmark(100, false)], 100, [At100]));
    steps := Opens();
    Receives();
    Extend(o, ["a"], steps, Receive("a"), s0, s1);
    steps := steps + [Receive("a")];
    Folds();
    Extend(o, ["a"], steps, FoldMark("a", 100), s1, s2);
    steps := steps + [FoldMark("a", 100)];
    PostsIt();
    Extend(o, ["a"], steps, Post("a"), s2, s3);
    steps := steps + [Post("a")];
  }

  // ------------------------------------------------------------------ a watch from no revision

  const FromZero := Options(true, false, 0)

  /** The forwarders of "a" and "b" and the follower at work. */
  function Pair(a: Stream, b: Stream, log: seq<Delivery>, emitted: nat, decided: seq<Decision>): State {
    State(FromZero, [],
          Life(Running, map[Forwarder("a") := Busy, Forwarder("b") := Busy, Follower := Busy],
               Fresh, false, false, false, false, false, {}),
          Data(map["a" := a, "b" := b], emitted, false, map[], {"a", "b"}, log, decided))
  }

  /** "a" begins with the objects it has, the one at 80 before the one at 30. */
  function InA(pos: nat, revision: nat, pc: Pc): Stream {
    Stream(0, [Change(80, 0), Change(30, 0)], pos, Progress(revision, false), pc)
  }

  function InB(pos: nat, revision: nat, pc: Pc): Stream {
    Stream(0, [Mark(90, false)], pos, Progress(revision, false), pc)
  }

  const At80 := Decision(80, false, true, {"a", "b"}, {})

  const Delivered80 := [Event("a", Change(80, 0))]

  /** The streams opened one after the other, before the follower runs. */
  function Starting(todo: seq<Namespace>, status: map<Goroutine, Status>, streams: map<Namespace, Stream>): State {
    State(FromZero, todo, Life(Opening, status, Fresh, false, false, false, false, false, {}),
          Data(streams, 0, false, map[], streams.Keys, [], []))
  }

  lemma OpensA()
    ensures var s0, s1 := Starting(["a", "b"], map[], map[]),
                          Starting(["b"], map[Forwarder("a") := Busy], map["a" := InA(0, 0, Receiving)]);
            var open := Open([Change(80, 0), Change(30, 0)]);
            Start(FromZero, ["a", "b"]) == s0 && Enabled(s0, open) && Next(s0, open) == s1
  {
    assert ["a", "b"][1..] == ["b"];
  }

  lemma OpensB()
    ensures var s1 := Starting(["b"], map[Forwarder("a") := Busy], map["a" := InA(0, 0, Receiving)]);
            var s2 := Starting([], map[Forwarder("a") := Busy, Forwarder("b") := Busy],
                               map["a" := InA(0, 0, Receiving), "b" := InB(0, 0, Receiving)]);
            Enabled(s1, Open([Mark(90, false)])) && Next(s1, Open([Mark(90, false)])) == s2
  {
    assert ["b"][1..] == [];
  }

  lemma FollowsBoth()
    ensures var s2 := Starting([], map[Forwarder("a") := Busy, Forwarder("b") := Busy],
                               map["a" := InA(0, 0, Receiving), "b" := InB(0, 0, Receiving)]);
            Enabled(s2, Follow) && Next(s2, Follow) == Pair(InA(0, 0, Receiving), InB(0, 0, Receiving), [], 0, [])
  {
  }

  lemma OpensPair() returns (steps: seq<Step>)
    ensures IsRun(FromZero, ["a", "b"], steps)
    ensures After(FromZero, ["a", "b"], steps) == Pair(InA(0, 0, Receiving), InB(0, 0, Receiving), [], 0, [])
  {
    OpensA();
    OpensB();
    FollowsBoth();
    var a, b := Open([Change(80, 0), Change(30, 0)]), Open([Mark(90, false)]);
    var s1 := Starting(["b"], map[Forwarder("a") := Busy], map["a" := InA(0, 0, Receiving)]);
    var s2 := Starting([], map[Forwarder("a") := Busy, Forwarder("b") := Busy],
                       map["a" := InA(0, 0, Receiving), "b" := InB(0, 0, Receiving)]);
    steps := TakeThree(FromZero, ["a", "b"], [], a, b, Follow, Start(FromZero, ["a", "b"]), s1, s2,
                       Pair(InA(0, 0, Receiving), InB(0, 0, Receiving), [], 0, []));
  }

  lemma PairReads()
    ensures var s0 := Pair(InA(0, 0, Receiving), InB(0, 0, Receiving), [], 0, []);
            var s1 := Pair(InA(0, 0, Sending), InB(0, 0, Receiving), [], 0, []);
            Enabled(s0, Receive("a")) && Next(s0, Receive("a")) == s1
  {
  }

  lemma PairDelivers()
    ensures var s1 := Pair(InA(0, 0, Sending), InB(0, 0, Receiving), [], 0, []);
            var s2 := Pair(InA(1, 0, Recording(80)), InB(0, 0, Receiving), Delivered80, 0, []);
            Enabled(s1, Deliver("a")) && Next(s1, Deliver("a")) == s2
  {
  }

  lemma PairRecords()
    ensures var s2 := Pair(InA(1, 0, Recording(80)), InB(0, 0, Receiving), Delivered80, 0, []);
            var s3 := Pair(InA(1, 80, Receiving), InB(0, 0, Receiving), Delivered80, 0, []);
            Enabled(s2, Record("a")) && Next(s2, Record("a")) == s3
  {
  }

  lemma PairTurns()
    ensures var s3 := Pair(InA(1, 80, Receiving), InB(0, 0, Receiving), Delivered80, 0, []);
            var s4 := Pair(InA(1, 80, Receiving), InB(0, 0, Folding), Delivered80, 0, []);
            Enabled(s3, Receive("b")) && Next(s3, Receive("b")) == s4
  {
  }

  lemma PairFolds()
    ensures var s4 := Pair(InA(1, 80, Receiving), InB(0, 0, Folding), Delivered80, 0, []);
            var s5 := Pair(InA(1, 80, Receiving), InB(1, 90, Posting(80, false)), Delivered80, 80, [At80]);
            Enabled(s4, FoldMark("b", 80)) && Next(s4, FoldMark("b", 80)) == s5
  {
    var d := Pair(InA(1, 80, Receiving), InB(0, 0, Folding), Delivered80, 0, []).data;
    var v := FoldOf(FromZero, d, "b", 80);
    assert v.gauge.progress == map["a" := Progress(80, false), "b" := Progress(90, false)];
    assert "a" in v.gauge.progress && v.gauge.progress["a"].revision == 80;
    assert Decided(FromZero, d.streams, 80, v) == At80;
  }

  lemma PairPosts()
    ensures var s5 := Pair(InA(1, 80, Receiving), InB(1, 90, Posting(80, false)), Delivered80, 80, [At80]);
            Enabled(s5, Post("b")) && Next(s5, Post("b"))
            == Pair(InA(1, 80, Receiving), InB(1, 90, Receiving), Delivered80 + [Bookmark(80, false)], 80, [At80])
  {
  }

  lemma PairReceives() returns (steps: seq<Step>)
    ensures IsRun(FromZero, ["a", "b"], steps)
    ensures After(FromZero, ["a", "b"], steps)
            == Pair(InA(1, 80, Receiving), InB(0, 0, Receiving), Delivered80, 0, [])
  {
    var s0 := Pair(InA(0, 0, Receiving), InB(0, 0, Receiving), [], 0, []);
    var s1 := Pair(InA(0, 0, Sending), InB(0, 0, Receiving), [], 0, []);
    var s2 := Pair(InA(1, 0, Recording(80)), InB(0, 0, Receiving), Delivered80, 0, []);
    var s3 := Pair(InA(1, 80, Receiving), InB(0, 0, Receiving), Delivered80, 0, []);
    PairReads();
    PairDelivers();
    PairRecords();
    steps := OpensPair();
    steps := TakeThree(FromZero, ["a", "b"], steps, Receive("a"), Deliver("a"), Record("a"), s0, s1, s2, s3);
  }

  /** It does happen: a client that watches from no revision receives a bookmark at 80 while an object at 30
      is still to come. */
  lemma WatchFromZeroHappens() returns (steps: seq<Step>)
    ensures IsRun(FromZero, ["a", "b"], steps)
    ensures var d := After(FromZero, ["a", "b"], steps).data;
            Bookmark(80, false) in d.log && "a" in d.streams && !Settled(d.streams["a"], 80)
  {
    var s3 := Pair(InA(1, 80, Receiving), InB(0, 0, Receiving), Delivered80, 0, []);
    var s4 := Pair(InA(1, 80, Receiving), InB(0, 0, Folding), Delivered80, 0, []);
    var s5 := Pair(InA(1, 80, Receiving), InB(1, 90, Posting(80, false)), Delivered80, 80, [At80]);
    var s6 := Pair(InA(1, 80, Receiving), InB(1, 90, Receiving), Delivered80 + [Bookmark(80, false)], 80, [At80]);
    PairTurns();
    PairFolds();
    PairPosts();
    steps := PairReceives();
    steps := TakeThree(FromZero, ["a", "b"], steps, Receive("b"), FoldMark("b", 80), Post("b"), s3, s4, s5, s6);
    assert s6.data.streams["a"].script[1] == Change(30, 0);
  }

  lemma TakeThree(o: Options, namespaces: seq<Namespace>, steps: seq<Step>, x: Step, y: Step, z: Step,
                  s: State, s1: State, s2: State, s3: State) returns (more: seq<Step>)
    requires IsRun(o, namespaces, steps) && After(o, namespaces, steps) == s
    requires Enabled(s, x) && Next(s, x) == s1 && Enabled(s1, y) && Next(s1, y) == s2
    requires Enabled(s2, z) && Next(s2, z) == s3
    ensures IsRun(o, namespaces, more) && After(o, namespaces, more) == s3
  {
    Extend(o, namespaces, steps, x, s, s1);
    Extend(o, namespaces, steps + [x], y, s1, s2);
    Extend(o, namespaces, steps + [x] + [y], z, s2, s3);
    more := steps + [x] + [y] + [z];
  }
}
