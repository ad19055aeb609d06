/** One watch stream merged from one upstream stream per namespace (pkg/proxy/watchmux.go).

The goroutines of the multiplexer are modelled as a state machine: every step is one critical
section, one channel operation or one return, and a run is any interleaving of enabled steps.
What an upstream stream is going to say is an arbitrary script fixed when the stream opens.
 */
module WatchMux {
  type Namespace = string

  /** What one upstream stream says: an object event, an error event (which carries no readable
      revision) or a bookmark. */
  datatype Item =
    | Change(rev: nat, content: int)
    | Fault(code: int)
    | Mark(rev: nat, endOfReplay: bool)

  function Rev(item: Item): nat {
    if item.Fault? then 0 else item.rev
  }

  /** True past the initial events. A replay the client asked for ends with a mark. A watch opened at no
      revision at all begins with the objects there are as well, and nothing marks where they end. */
  ghost predicate Live(script: seq<Item>, j: nat, start: nat, replaying: bool)
    requires j <= |script|
  {
    if replaying then exists e :: 0 <= e < j && script[e].Mark? && script[e].endOfReplay else start > 0
  }

  /** The upstream promise: past the initial events, events arrive in revision order, above the revision
      the stream was opened at and above everything said before. Initial events come in any order. */
  ghost predicate InOrder(script: seq<Item>, start: nat, replaying: bool) {
    forall j :: 0 <= j < |script| && script[j].Change? && Live(script, j, start, replaying) ==>
      script[j].rev > start && forall i :: 0 <= i < j ==> Rev(script[i]) < script[j].rev
  }

  // ------------------------------------------------------------------ the merged watermark

  datatype Progress = Progress(revision: nat, endOfReplay: bool)

  /** The mutex-guarded part of the multiplexer. */
  datatype Gauge = Gauge(progress: map<Namespace, Progress>, emitted: nat, replayed: bool)

  datatype Options = Options(bookmarks: bool, initialEvents: bool, since: nat)

  /** The minimum over the streams; zero without streams. */
  ghost predicate IsWatermark(progress: map<Namespace, Progress>, w: nat) {
    && (forall ns :: ns in progress ==> w <= progress[ns].revision)
    && (if progress == map[] then w == 0 else exists ns :: ns in progress && progress[ns].revision == w)
  }

  ghost predicate AllReplayed(progress: map<Namespace, Progress>) {
    forall ns :: ns in progress ==> progress[ns].endOfReplay
  }

  function Heard(p: Progress, rev: nat, endOfReplay: bool): Progress {
    Progress(if rev > p.revision then rev else p.revision, p.endOfReplay || endOfReplay)
  }

  datatype Verdict = Verdict(gauge: Gauge, advanced: bool, announce: bool)

  /** What one bookmark does to the guarded state, given the watermark it leaves. */
  ghost function Fold(o: Options, g: Gauge, ns: Namespace, rev: nat, endOfReplay: bool, w: nat): Verdict
    requires ns in g.progress
  {
    var progress := g.progress[ns := Heard(g.progress[ns], rev, endOfReplay)];
    var announce := o.initialEvents && AllReplayed(progress) && !g.replayed;
    var advanced := w > g.emitted;
    Verdict(Gauge(progress, if advanced then w else g.emitted, g.replayed || announce), advanced, announce)
  }

  /** Whether the bookmark is answered with a merged one. */
  predicate Posts(o: Options, w: nat, v: Verdict) {
    o.bookmarks && w != 0 && (v.advanced || v.announce)
  }

  /** The critical section of onBookmark and the decision it takes, as the source runs it: one
      sweep over the streams for the minimum and for the end of replay. */
  class Folder {
    const options: Options
    var progress: map<Namespace, Progress>
    var emitted: nat
    var replayed: bool

    constructor (o: Options)
      ensures options == o && progress == map[] && emitted == 0 && !replayed
    {
      options, progress, emitted, replayed := o, map[], 0, false;
    }

    function Value(): Gauge
      reads this
    {
      Gauge(progress, emitted, replayed)
    }

    method OnBookmark(ns: Namespace, rev: nat, endOfReplay: bool)
      returns (watermark: nat, post: bool, announce: bool)
      modifies this
      ensures ns !in old(progress) ==> Value() == old(Value()) && !post
      ensures ns in old(progress) ==>
                && IsWatermark(progress, watermark)
                && var v := Fold(options, old(Value()), ns, rev, endOfReplay, watermark);
                   Value() == v.gauge && announce == v.announce && post == Posts(options, watermark, v)
    {
      if ns !in progress {
        return 0, false, false;
      }
      progress := progress[ns := Heard(progress[ns], rev, endOfReplay)];
      var allReplayed, first := true, true;
      watermark := 0;
      var todo := progress.Keys;
      while todo != {}
        invariant todo <= progress.Keys
        invariant first <==> todo == progress.Keys
        invariant first ==> watermark == 0
        invariant forall n :: n in progress.Keys - todo ==> watermark <= progress[n].revision
        invariant !first ==> exists n :: n in progress.Keys - todo && progress[n].revision == watermark
        invariant allReplayed <==> forall n :: n in progress.Keys - todo ==> progress[n].endOfReplay
        decreases todo
      {
        var n :| n in todo;
        if first || progress[n].revision < watermark {
          watermark := progress[n].revision;
        }
        if !progress[n].endOfReplay {
          allReplayed := false;
        }
        todo, first := todo - {n}, false;
      }
      announce := options.initialEvents && allReplayed && !replayed;
      if announce {
        replayed := true;
      }
      var advanced := watermark > emitted;
      if advanced {
        emitted := watermark;
      }
      post := options.bookmarks && watermark != 0 && (advanced || announce);
    }

    /** recordRevision: how far one stream has delivered. */
    method RecordRevision(ns: Namespace, rev: nat)
      modifies this
      ensures emitted == old(emitted) && replayed == old(replayed)
      ensures progress == if ns in old(progress)
                          then old(progress)[ns := Heard(old(progress)[ns], rev, false)]
                          else old(progress)
    {
      if rev != 0 && ns in progress && rev > progress[ns].revision {
        progress := progress[ns := progress[ns].(revision := rev)];
      }
    }
  }

  // ------------------------------------------------------------------ goroutine lives

  datatype Goroutine = Forwarder(ns: Namespace) | Follower | Joiner(id: nat)

  /** Where a goroutine is in its life: at its work, or somewhere inside expire, or returned. */
  datatype Status = Busy | Expiring | SendingGone | Stopping | Sweeping | Done

  /** The once-guard around expire. */
  datatype Once = Fresh | Held(holder: Goroutine) | Spent

  datatype Phase = Opening | Running | Failed

  /** The stop channel, the wait group, the once-guards and the closing of the result channel.
      `ended` holds the goroutines whose upstream watch has been stopped, by the goroutine's own
      deferred Stop or by the sweep of Stop. */
  datatype Life = Life(
    phase: Phase,
    status: map<Goroutine, Status>,
    once: Once,
    stop: bool,
    swept: bool,
    clientStopped: bool,
    gone: bool,
    closed: bool,
    ended: set<Goroutine>)

  predicate Is(l: Life, g: Goroutine, st: Status) {
    g in l.status && l.status[g] == st
  }

  function Become(l: Life, g: Goroutine, st: Status): Life {
    l.(status := l.status[g := st])
  }

  /** A goroutine returns, and the deferred Stop of the watch it was pumping runs. */
  function Return(l: Life, g: Goroutine): Life {
    Become(l, g, Done).(ended := l.ended + {g})
  }

  ghost predicate AllDone(l: Life) {
    forall g :: g in l.status ==> l.status[g].Done?
  }

  /** expire, once entered: skipped when it has run, silent when the stream was already stopped. */
  function Enter(l: Life, g: Goroutine): Life {
    if l.once.Spent? then Return(l, g)
    else if l.stop then Return(l, g).(once := Spent)
    else Become(l, g, SendingGone).(once := Held(g))
  }

  // ------------------------------------------------------------------ stream contents

  /** Where a forwarder is between two receives. */
  datatype Pc = Receiving | Sending | Recording(rev: nat) | Folding | Posting(w: nat, announce: bool)

  /** One upstream watch: where it was opened, what it will say, how much of that has been handed
      over, what has been recorded about it, and what its forwarder is doing. */
  datatype Stream = Stream(start: nat, script: seq<Item>, pos: nat, said: Progress, pc: Pc)

  /** What the client receives. */
  datatype Delivery =
    | Event(ns: Namespace, item: Item)
    | Bookmark(w: nat, announce: bool)
    | Gone

  /** A merged bookmark as it was decided: the namespaces registered then, and those among them it
      speaks for, whose initial events were known to be over. */
  datatype Decision = Decision(
    w: nat, announce: bool, advanced: bool, registered: set<Namespace>, covers: set<Namespace>)

  /** One namespace being joined: where to start it and how many attempts are left. */
  datatype Quest = Quest(ns: Namespace, at: nat, left: nat, waiting: bool)

  /** join gives up after this many refusals. */
  const JOIN_ATTEMPTS: nat := 60

  datatype Data = Data(
    streams: map<Namespace, Stream>,
    emitted: nat,
    replayed: bool,
    joins: map<nat, Quest>,
    announced: set<Namespace>,
    log: seq<Delivery>,
    decided: seq<Decision>)

  function Said(streams: map<Namespace, Stream>): map<Namespace, Progress> {
    map ns | ns in streams :: streams[ns].said
  }

  predicate HasNext(st: Stream) {
    st.pos < |st.script|
  }

  function Put(d: Data, ns: Namespace, st: Stream): Data {
    d.(streams := d.streams[ns := st])
  }

  /** add: a namespace already watched is left alone, a new one gets a stream. */
  function Register(d: Data, ns: Namespace, at: nat, script: seq<Item>): Data {
    if ns in d.streams then d else Put(d, ns, Stream(at, script, 0, Progress(at, false), Receiving))
  }

  function Received(st: Stream): Stream
    requires HasNext(st)
  {
    st.(pc := if st.script[st.pos].Mark? then Folding else Sending)
  }

  function Delivered(st: Stream): Stream
    requires HasNext(st)
  {
    st.(pos := st.pos + 1, pc := Recording(Rev(st.script[st.pos])))
  }

  function Recorded(st: Stream): Stream
    requires st.pc.Recording?
  {
    st.(said := Heard(st.said, st.pc.rev, false), pc := Receiving)
  }

  ghost predicate CanFold(o: Options, d: Data, ns: Namespace, w: nat) {
    && ns in d.streams && d.streams[ns].pc.Folding? && HasNext(d.streams[ns])
    && d.streams[ns].script[d.streams[ns].pos].Mark?
    && IsWatermark(FoldOf(o, d, ns, w).gauge.progress, w)
  }

  ghost function FoldOf(o: Options, d: Data, ns: Namespace, w: nat): Verdict
    requires ns in d.streams && HasNext(d.streams[ns]) && d.streams[ns].script[d.streams[ns].pos].Mark?
  {
    var m := d.streams[ns].script[d.streams[ns].pos];
    Fold(o, Gauge(Said(d.streams), d.emitted, d.replayed), ns, m.rev, m.endOfReplay, w)
  }

  ghost function Covers(o: Options, streams: map<Namespace, Stream>, progress: map<Namespace, Progress>): set<Namespace> {
    set ns | ns in progress && ns in streams && if o.initialEvents then progress[ns].endOfReplay else streams[ns].start > 0
  }

  ghost function Decided(o: Options, streams: map<Namespace, Stream>, w: nat, v: Verdict): Decision {
    Decision(w, v.announce, v.advanced, v.gauge.progress.Keys, Covers(o, streams, v.gauge.progress))
  }

  ghost function Folded(o: Options, d: Data, ns: Namespace, w: nat): Data
    requires CanFold(o, d, ns, w)
  {
    var st, v := d.streams[ns], FoldOf(o, d, ns, w);
    var posts := Posts(o, w, v);
    var pc := if posts then Posting(w, v.announce) else Receiving;
    d.(streams := d.streams[ns := st.(pos := st.pos + 1, said := v.gauge.progress[ns], pc := pc)],
       emitted := v.gauge.emitted,
       replayed := v.gauge.replayed,
       decided := if posts
                  then d.decided + [Decided(o, d.streams, w, v)]
                  else d.decided)
  }

  // ------------------------------------------------------------------ the state machine

  datatype State = State(options: Options, todo: seq<Namespace>, life: Life, data: Data)

  function Start(o: Options, namespaces: seq<Namespace>): State {
    State(o, namespaces, Life(Opening, map[], Fresh, false, false, false, false, false, {}),
          Data(map[], 0, false, map[], {}, [], []))
  }

  datatype Step =
    // newWatchMux
    | Open(script: seq<Item>)
    | OpenFails
    | Follow
    // the client, the sweep of Stop over the watches, and the goroutine that closes the channel
    | ClientStop
    | Sweep
    | Close
    // forward
    | Receive(ns: Namespace)
    | StreamEnds(ns: Namespace)
    | Deliver(ns: Namespace)
    | Record(ns: Namespace)
    | FoldMark(ns: Namespace, w: nat)
    | Post(ns: Namespace)
    | SkipPost(ns: Namespace)
    | ForwardStops(ns: Namespace)
    // followNamespaces
    | Added(ns: Namespace, at: nat, id: nat)
    | FollowEnds
    | FollowStops
    // join
    | Join(id: nat, script: seq<Item>)
    | Refused(id: nat)
    | Retry(id: nat)
    | JoinFails(id: nat)
    | JoinStops(id: nat)
    // expire
    | ExpireEnter(g: Goroutine)
    | ExpireSend(g: Goroutine)
    | ExpireSeesStop(g: Goroutine)
    | ExpireStop(g: Goroutine)
    | ExpireLeave(g: Goroutine)

  predicate Forwards(s: State, ns: Namespace) {
    Is(s.life, Forwarder(ns), Busy) && ns in s.data.streams
  }

  predicate Joins(s: State, id: nat) {
    Is(s.life, Joiner(id), Busy) && id in s.data.joins
  }

  ghost predicate Enabled(s: State, step: Step) {
    match step
    case Open(script) =>
      s.life.phase.Opening? && s.todo != [] && InOrder(script, s.options.since, s.options.initialEvents)
    case OpenFails => s.life.phase.Opening?
    case Follow => s.life.phase.Opening? && s.todo == []
    case ClientStop => s.life.phase.Running?
    case Sweep => s.life.stop && !s.life.swept
    case Close => s.life.phase.Running? && !s.life.closed && AllDone(s.life)
    case Receive(ns) => Forwards(s, ns) && s.data.streams[ns].pc.Receiving? && HasNext(s.data.streams[ns])
    case StreamEnds(ns) => Forwards(s, ns) && s.data.streams[ns].pc.Receiving?
    case Deliver(ns) =>
      s.life.phase.Running? && Forwards(s, ns) && s.data.streams[ns].pc.Sending? && HasNext(s.data.streams[ns])
    case Record(ns) => Forwards(s, ns) && s.data.streams[ns].pc.Recording?
    case FoldMark(ns, w) => Forwards(s, ns) && CanFold(s.options, s.data, ns, w)
    case Post(ns) => s.life.phase.Running? && Forwards(s, ns) && s.data.streams[ns].pc.Posting?
    case SkipPost(ns) => s.life.stop && Forwards(s, ns) && s.data.streams[ns].pc.Posting?
    case ForwardStops(ns) =>
      s.life.stop && Forwards(s, ns) && (s.data.streams[ns].pc.Receiving? || s.data.streams[ns].pc.Sending?)
    case Added(ns, at, id) => Is(s.life, Follower, Busy) && Joiner(id) !in s.life.status
    case FollowEnds => Is(s.life, Follower, Busy)
    case FollowStops => s.life.stop && Is(s.life, Follower, Busy)
    case Join(id, script) =>
      Joins(s, id) && !s.data.joins[id].waiting
      && InOrder(script, s.data.joins[id].at, s.options.initialEvents)
    case Refused(id) => Joins(s, id) && !s.data.joins[id].waiting && s.data.joins[id].left > 0
    case Retry(id) => Joins(s, id) && s.data.joins[id].waiting
    case JoinFails(id) => Joins(s, id) && !s.data.joins[id].waiting
    case JoinStops(id) => s.life.stop && Joins(s, id) && s.data.joins[id].waiting
    case ExpireEnter(g) => Is(s.life, g, Expiring) && !s.life.once.Held?
    case ExpireSend(g) => s.life.phase.Running? && Is(s.life, g, SendingGone)
    case ExpireSeesStop(g) => s.life.stop && Is(s.life, g, SendingGone)
    case ExpireStop(g) => Is(s.life, g, Stopping)
    case ExpireLeave(g) => Is(s.life, g, Sweeping) && s.life.swept
  }

  /** What a step does to the goroutines. */
  ghost function NextLife(s: State, step: Step): Life
    requires Enabled(s, step)
  {
    var l, d := s.life, s.data;
    match step
    case Open(_) => if s.todo[0] in d.streams then l else Become(l, Forwarder(s.todo[0]), Busy)
    case OpenFails => l.(phase := Failed, stop := true)
    case Follow => Become(l, Follower, Busy).(phase := Running)
    case ClientStop => l.(stop := true, clientStopped := true)
    case Sweep => l.(swept := true, ended := l.ended + set ns | ns in d.streams :: Forwarder(ns))
    case Close => l.(closed := true)
    case StreamEnds(ns) => Become(l, Forwarder(ns), Expiring)
    case ForwardStops(ns) => Return(l, Forwarder(ns))
    case Added(_, _, id) => Become(l, Joiner(id), Busy)
    case FollowEnds => Become(l, Follower, Expiring)
    case FollowStops => Return(l, Follower)
    case Join(id, _) =>
      var ns := d.joins[id].ns;
      Return(if ns in d.streams then l else Become(l, Forwarder(ns), Busy), Joiner(id))
    case Retry(id) => if d.joins[id].left == 0 then Become(l, Joiner(id), Expiring) else l
    case JoinFails(id) => Become(l, Joiner(id), Expiring)
    case JoinStops(id) => Return(l, Joiner(id))
    case ExpireEnter(g) => Enter(l, g)
    case ExpireSend(g) => Become(l, g, Stopping).(gone := true)
    case ExpireSeesStop(g) => Become(l, g, Stopping)
    case ExpireStop(g) => Become(l, g, Sweeping).(stop := true)
    case ExpireLeave(g) => Return(l, g).(once := Spent)
    case _ => l
  }

  /** What a step does to the streams and to what the client has received. */
  ghost function NextData(s: State, step: Step): Data
    requires Enabled(s, step)
  {
    var d := s.data;
    match step
    case Open(script) =>
      Register(d, s.todo[0], s.options.since, script).(announced := d.announced + {s.todo[0]})
    case Receive(ns) => Put(d, ns, Received(d.streams[ns]))
    case Deliver(ns) =>
      var st := d.streams[ns];
      Put(d, ns, Delivered(st)).(log := d.log + [Event(ns, st.script[st.pos])])
    case Record(ns) => Put(d, ns, Recorded(d.streams[ns]))
    case FoldMark(ns, w) => Folded(s.options, d, ns, w)
    case Post(ns) =>
      var st := d.streams[ns];
      Put(d, ns, st.(pc := Receiving)).(log := d.log + [Bookmark(st.pc.w, st.pc.announce)])
    case SkipPost(ns) => Put(d, ns, d.streams[ns].(pc := Receiving))
    case Added(ns, at, id) =>
      d.(joins := d.joins[id := Quest(ns, at, JOIN_ATTEMPTS, false)], announced := d.announced + {ns})
    case Join(id, script) => Register(d, d.joins[id].ns, d.joins[id].at, script)
    case Refused(id) =>
      var q := d.joins[id];
      d.(joins := d.joins[id := q.(left := q.left - 1, waiting := true)])
    case Retry(id) =>
      var q := d.joins[id];
      if q.left == 0 then d else d.(joins := d.joins[id := q.(waiting := false)])
    case ExpireSend(_) => d.(log := d.log + [Gone])
    case _ => d
  }

  ghost function Next(s: State, step: Step): State
    requires Enabled(s, step)
  {
    State(s.options, if step.Open? then s.todo[1..] else s.todo, NextLife(s, step), NextData(s, step))
  }

  /** Every interleaving: each step is enabled where it is taken. */
  ghost predicate IsRun(o: Options, namespaces: seq<Namespace>, steps: seq<Step>)
    decreases |steps|, 0
  {
    steps != [] ==>
      && IsRun(o, namespaces, steps[..|steps| - 1])
      && Enabled(After(o, namespaces, steps[..|steps| - 1]), steps[|steps| - 1])
  }

  ghost function After(o: Options, namespaces: seq<Namespace>, steps: seq<Step>): State
    requires IsRun(o, namespaces, steps)
    decreases |steps|, 1
  {
    if steps == [] then Start(o, namespaces)
    else Next(After(o, namespaces, steps[..|steps| - 1]), steps[|steps| - 1])
  }
}
