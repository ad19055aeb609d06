/** What every interleaving of the watch multiplexer keeps, and what follows for its client. */
module WatchMuxSafety {
  import opened WatchMux
  import opened WatchMuxLife
  import opened WatchMuxData

  predicate InExpire(st: Status) {
    st.Expiring? || HoldsOnce(st)
  }

  /** Which goroutine goes with which data. */
  ghost predicate LinkOk(s: State) {
    && (forall ns :: ns in s.data.streams <==> Forwarder(ns) in s.life.status)
    && (forall id :: id in s.data.joins <==> Joiner(id) in s.life.status)
    && (s.life.gone <==> Gone in s.data.log)
  }

  /** Something still stands for a namespace the multiplexer has heard of: its stream, a goroutine
      trying to join it, one on its way to end the stream with a 410, or the end itself. */
  ghost predicate Attended(s: State, ns: Namespace) {
    || ns in s.data.streams
    || (exists id :: Joins(s, id) && s.data.joins[id].ns == ns)
    || (exists g :: g in s.life.status && InExpire(s.life.status[g]))
    || s.life.stop
  }

  ghost predicate CoverageOk(s: State) {
    forall ns :: ns in s.data.announced ==> Attended(s, ns)
  }

  ghost predicate Inv(s: State) {
    LifeOk(s.life) && DataOk(s.options, s.data) && LinkOk(s) && CoverageOk(s)
  }

  // ------------------------------------------------------------------ each part is kept

  lemma LifeKept(s: State, step: Step)
    requires LifeOk(s.life) && LinkOk(s) && Enabled(s, step)
    ensures LifeOk(NextLife(s, step))
  {
    var l := s.life;
    match step
    case Open(_) => if s.todo[0] !in s.data.streams { StartsOk(l, s.todo[0]); }
    case OpenFails => OpeningOk(l);
    case Follow => OpeningOk(l);
    case ClientStop => ClientOk(l);
    case Close => ClientOk(l);
    case Sweep => SweepOk(l, set ns | ns in s.data.streams :: Forwarder(ns));
    case StreamEnds(ns) => ExpiringOk(l, Forwarder(ns));
    case ForwardStops(ns) => ReturnOk(l, Forwarder(ns));
    case Added(_, _, id) => JoinerStartsOk(l, id);
    case FollowEnds => ExpiringOk(l, Follower);
    case FollowStops => ReturnOk(l, Follower);
    case Join(id, _) =>
      var ns := s.data.joins[id].ns;
      if ns in s.data.streams {
        ReturnOk(l, Joiner(id));
      } else {
        StartsOk(l, ns);
        ReturnOk(Become(l, Forwarder(ns), Busy), Joiner(id));
      }
    case Retry(id) => ExpiringOk(l, Joiner(id));
    case JoinFails(id) => ExpiringOk(l, Joiner(id));
    case JoinStops(id) => ReturnOk(l, Joiner(id));
    case ExpireEnter(g) => EnterOk(l, g);
    case ExpireSend(g) => SendGoneOk(l, g);
    case ExpireSeesStop(g) => SendGoneOk(l, g);
    case ExpireStop(g) => StopOk(l, g);
    case ExpireLeave(g) => LeaveOk(l, g);
    case _ =>
  }

  lemma DataKept(s: State, step: Step)
    requires DataOk(s.options, s.data) && Enabled(s, step)
    ensures DataOk(s.options, NextData(s, step))
  {
    var o, d, t := s.options, s.data, NextData(s, step);
    match step
    case Open(script) =>
      RegisterOk(o, d, s.todo[0], o.since, script);
      FrameOk(o, Register(d, s.todo[0], o.since, script), t.joins, t.announced);
    case Join(id, script) => RegisterOk(o, d, d.joins[id].ns, d.joins[id].at, script);
    case Receive(ns) =>
      ReceivedOk(d.streams[ns], o.initialEvents);
      QuietOk(o, d, ns, Received(d.streams[ns]));
    case Record(ns) =>
      RecordedOk(d.streams[ns], o.initialEvents);
      QuietOk(o, d, ns, Recorded(d.streams[ns]));
    case SkipPost(ns) =>
      RecordedOk(d.streams[ns], o.initialEvents);
      QuietOk(o, d, ns, d.streams[ns].(pc := Receiving));
    case Deliver(ns) => DeliverOk(o, d, ns);
    case FoldMark(ns, w) => FoldOk(o, d, ns, w);
    case Post(ns) => PostOk(o, d, ns);
    case ExpireSend(_) => GoneOk(o, d);
    case Added(_, _, _) => FrameOk(o, d, t.joins, t.announced);
    case Refused(_) => FrameOk(o, d, t.joins, t.announced);
    case Retry(_) => FrameOk(o, d, t.joins, t.announced);
    case _ => assert t == d;
  }

  /** The same goroutines and the same data, whatever became of them. */
  lemma LinkSame(s: State, t: State)
    requires LinkOk(s)
    requires t.data.streams.Keys == s.data.streams.Keys && t.data.joins.Keys == s.data.joins.Keys
    requires t.life.status.Keys - {Follower} == s.life.status.Keys - {Follower}
    requires t.life.gone == s.life.gone && (Gone in t.data.log <==> Gone in s.data.log)
    ensures LinkOk(t)
  {
    forall g: Goroutine | g != Follower
      ensures g in t.life.status <==> g in s.life.status
    {
      assert g in t.life.status.Keys - {Follower} <==> g in s.life.status.Keys - {Follower};
    }
    assert forall ns :: ns in t.data.streams <==> ns in t.data.streams.Keys;
    assert forall id :: id in t.data.joins <==> id in t.data.joins.Keys;
  }

  /** The steps in which a goroutine or its data comes to be. */
  predicate Links(step: Step) {
    step.Open? || step.Join? || step.Added? || step.ExpireSend?
  }

  /** The other steps that only move data. */
  predicate MovesData(step: Step) {
    step.Receive? || step.Deliver? || step.Record? || step.FoldMark? || step.Post? || step.SkipPost? || step.Refused?
  }

  /** The steps of a goroutine on its way through expire. */
  predicate Expires(step: Step) {
    step.ExpireEnter? || step.ExpireSend? || step.ExpireSeesStop? || step.ExpireStop? || step.ExpireLeave?
  }

  lemma DataLinkKept(s: State, step: Step)
    requires LinkOk(s) && Enabled(s, step) && MovesData(step)
    ensures LinkOk(Next(s, step))
  {
  }

  lemma ExpireLinkKept(s: State, step: Step)
    requires LinkOk(s) && Enabled(s, step) && Expires(step) && !Links(step)
    ensures LinkOk(Next(s, step))
  {
    LinkSame(s, Next(s, step));
  }

  lemma LifeLinkKept(s: State, step: Step)
    requires LinkOk(s) && Enabled(s, step) && !MovesData(step) && !Links(step) && !Expires(step)
    ensures LinkOk(Next(s, step))
  {
    LinkSame(s, Next(s, step));
  }

  lemma OpenLinkKept(s: State, script: seq<Item>)
    requires LinkOk(s) && Enabled(s, Open(script))
    ensures LinkOk(Next(s, Open(script)))
  {
  }

  lemma JoinLinkKept(s: State, id: nat, script: seq<Item>)
    requires LinkOk(s) && Enabled(s, Join(id, script))
    ensures LinkOk(Next(s, Join(id, script)))
  {
  }

  lemma AddedLinkKept(s: State, ns: Namespace, at: nat, id: nat)
    requires LinkOk(s) && Enabled(s, Added(ns, at, id))
    ensures LinkOk(Next(s, Added(ns, at, id)))
  {
  }

  lemma GoneLinkKept(s: State, g: Goroutine)
    requires LinkOk(s) && Enabled(s, ExpireSend(g))
    ensures LinkOk(Next(s, ExpireSend(g)))
  {
  }

  lemma LinkKept(s: State, step: Step)
    requires LinkOk(s) && Enabled(s, step)
    ensures LinkOk(Next(s, step))
  {
    if step.Open? {
      OpenLinkKept(s, step.script);
    } else if step.Join? {
      JoinLinkKept(s, step.id, step.script);
    } else if step.Added? {
      AddedLinkKept(s, step.ns, step.at, step.id);
    } else if step.ExpireSend? {
      GoneLinkKept(s, step.g);
    } else if MovesData(step) {
      DataLinkKept(s, step);
    } else if Expires(step) {
      ExpireLinkKept(s, step);
    } else {
      LifeLinkKept(s, step);
    }
  }

  lemma PursuitKept(s: State, step: Step, id: nat)
    requires Enabled(s, step) && Joins(s, id) && !s.life.stop
    ensures Attended(Next(s, step), s.data.joins[id].ns)
  {
    var t := Next(s, step);
    assert || (Joins(t, id) && t.data.joins[id].ns == s.data.joins[id].ns)
           || s.data.joins[id].ns in t.data.streams
           || (Joiner(id) in t.life.status && InExpire(t.life.status[Joiner(id)]));
  }

  /** The steps in which a goroutine starts. */
  predicate Begins(step: Step) {
    step.Open? || step.Join? || step.Added? || step.Follow?
  }

  lemma StartersLeaveItAlone(s: State, step: Step, g: Goroutine)
    requires forall ns :: ns in s.data.streams <==> Forwarder(ns) in s.life.status
    requires s.life.phase.Running? <==> Follower in s.life.status
    requires Enabled(s, step) && Begins(step) && g in s.life.status && InExpire(s.life.status[g])
    ensures Is(NextLife(s, step), g, s.life.status[g])
  {
    match step
    case Open(_) => assert s.todo[0] !in s.data.streams ==> g != Forwarder(s.todo[0]);
    case Join(id, _) => assert g != Joiner(id);
    case Added(_, _, id) => assert g != Joiner(id);
    case Follow => assert g != Follower;
  }

  /** Who is on the way through expire is moved by no step but its own. */
  lemma OthersLeaveItAlone(s: State, step: Step, g: Goroutine)
    requires Enabled(s, step) && !Begins(step) && !MovesData(step) && !(Expires(step) && step.g == g)
    requires g in s.life.status && InExpire(s.life.status[g])
    ensures Is(NextLife(s, step), g, s.life.status[g])
  {
    match step
    case StreamEnds(ns) => assert g != Forwarder(ns);
    case ForwardStops(ns) => assert g != Forwarder(ns);
    case FollowEnds => assert g != Follower;
    case FollowStops => assert g != Follower;
    case Retry(id) => assert g != Joiner(id);
    case JoinFails(id) => assert g != Joiner(id);
    case JoinStops(id) => assert g != Joiner(id);
    case ExpireEnter(h) => assert g != h;
    case ExpireSend(h) => assert g != h;
    case ExpireSeesStop(h) => assert g != h;
    case ExpireStop(h) => assert g != h;
    case ExpireLeave(h) => assert g != h;
    case OpenFails =>
    case ClientStop =>
    case Sweep =>
    case Close =>
  }

  lemma ExpiryKept(s: State, step: Step, g: Goroutine)
    requires OnceOk(s.life) && FlagsOk(s.life) && LinkOk(s) && Enabled(s, step) && !s.life.stop
    requires g in s.life.status && InExpire(s.life.status[g])
    ensures var l := NextLife(s, step); l.stop || (g in l.status && InExpire(l.status[g]))
  {
    if MovesData(step) {
      assert NextLife(s, step) == s.life;
    } else if Begins(step) {
      StartersLeaveItAlone(s, step, g);
    } else if !(Expires(step) && step.g == g) {
      OthersLeaveItAlone(s, step, g);
    }
  }

  lemma AttendedKept(s: State, step: Step, ns: Namespace)
    requires LifeOk(s.life) && LinkOk(s) && Enabled(s, step) && Attended(s, ns)
    ensures Attended(Next(s, step), ns)
  {
    if !s.life.stop && ns !in s.data.streams {
      if id :| Joins(s, id) && s.data.joins[id].ns == ns {
        PursuitKept(s, step, id);
      } else {
        var g :| g in s.life.status && InExpire(s.life.status[g]);
        ExpiryKept(s, step, g);
      }
    }
  }

  lemma CoverageKept(s: State, step: Step)
    requires Inv(s) && Enabled(s, step)
    ensures CoverageOk(Next(s, step))
  {
    var t := Next(s, step);
    forall ns | ns in t.data.announced
      ensures Attended(t, ns)
    {
      if ns in s.data.announced {
        AttendedKept(s, step, ns);
      } else if step.Added? {
        assert Joins(t, step.id) && t.data.joins[step.id].ns == ns;
      } else {
        assert step.Open?;
      }
    }
  }

  lemma InvKept(s: State, step: Step)
    requires Inv(s) && Enabled(s, step)
    ensures Inv(Next(s, step))
  {
    LifeKept(s, step);
    DataKept(s, step);
    LinkKept(s, step);
    CoverageKept(s, step);
  }

  lemma {:induction false} InvHolds(o: Options, namespaces: seq<Namespace>, steps: seq<Step>)
    requires IsRun(o, namespaces, steps)
    ensures Inv(After(o, namespaces, steps))
    decreases |steps|
  {
    if steps != [] {
      var before := steps[..|steps| - 1];
      InvHolds(o, namespaces, before);
      InvKept(After(o, namespaces, before), steps[|steps| - 1]);
    }
  }
}
