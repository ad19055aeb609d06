/** What the merged stream has delivered and decided, against what its upstream streams say. */
module WatchMuxData {
  import opened WatchMux

  // ------------------------------------------------------------------ reading the log

  /** The events of one namespace, in the order the client received them. */
  function EventsOf(log: seq<Delivery>, ns: Namespace): seq<Item> {
    if log == [] then []
    else
      var last := log[|log| - 1];
      EventsOf(log[..|log| - 1], ns) + if last.Event? && last.ns == ns then [last.item] else []
  }

  /** What a stream has to say apart from bookmarks. */
  function WithoutMarks(script: seq<Item>): seq<Item> {
    if script == [] then []
    else
      var last := script[|script| - 1];
      WithoutMarks(script[..|script| - 1]) + if last.Mark? then [] else [last]
  }

  /** How many received bookmarks announced the end of the initial replay. */
  function Announcements(log: seq<Delivery>): nat {
    if log == [] then 0
    else
      var last := log[|log| - 1];
      Announcements(log[..|log| - 1]) + if last.Bookmark? && last.announce then 1 else 0
  }

  lemma LogGrows(log: seq<Delivery>, e: Delivery, ns: Namespace)
    ensures EventsOf(log + [e], ns) == EventsOf(log, ns) + if e.Event? && e.ns == ns then [e.item] else []
    ensures Announcements(log + [e]) == Announcements(log) + if e.Bookmark? && e.announce then 1 else 0
  {
  }

  lemma ScriptGrows(script: seq<Item>, pos: nat)
    requires pos < |script|
    ensures WithoutMarks(script[..pos + 1])
            == WithoutMarks(script[..pos]) + if script[pos].Mark? then [] else [script[pos]]
  {
    assert script[..pos + 1][..pos] == script[..pos];
  }

  // ------------------------------------------------------------------ one stream

  /** What has been recorded about a stream was handed over before. */
  ghost predicate StreamOk(st: Stream, replaying: bool) {
    && st.pos <= |st.script|
    && InOrder(st.script, st.start, replaying)
    && (st.said.revision == st.start || exists i :: 0 <= i < st.pos && Rev(st.script[i]) == st.said.revision)
    && (st.said.endOfReplay ==> Live(st.script, st.pos, st.start, true))
    && (st.pc.Recording? ==> st.pos > 0 && Rev(st.script[st.pos - 1]) == st.pc.rev)
    && (st.pc.Sending? ==> HasNext(st) && !st.script[st.pos].Mark?)
    && (st.pc.Folding? ==> HasNext(st) && st.script[st.pos].Mark?)
  }

  /** Every event the stream will ever send at or below a revision has been handed over. */
  ghost predicate Settled(st: Stream, w: nat) {
    forall i :: 0 <= i < |st.script| && st.script[i].Change? && st.script[i].rev <= w ==> i < st.pos
  }

  /** The heart of the watermark: a stream known to be past its initial events is settled up to what it
      has recorded. */
  lemma RecordedIsSettled(st: Stream, replaying: bool, w: nat)
    requires StreamOk(st, replaying) && (if replaying then st.said.endOfReplay else st.start > 0)
    requires w <= st.said.revision
    ensures Settled(st, w)
  {
  }

  lemma ReceivedOk(st: Stream, replaying: bool)
    requires StreamOk(st, replaying) && HasNext(st)
    ensures StreamOk(Received(st), replaying)
    ensures StreamOk(st.(pc := Receiving), replaying)
  {
  }

  lemma DeliveredOk(st: Stream, replaying: bool)
    requires StreamOk(st, replaying) && HasNext(st)
    ensures StreamOk(Delivered(st), replaying)
  {
  }

  lemma RecordedOk(st: Stream, replaying: bool)
    requires StreamOk(st, replaying)
    ensures st.pc.Recording? ==> StreamOk(Recorded(st), replaying)
    ensures StreamOk(st.(pc := Receiving), replaying)
  {
  }

  lemma HeardOk(st: Stream, replaying: bool, pc: Pc)
    requires StreamOk(st, replaying) && HasNext(st) && st.script[st.pos].Mark?
    requires pc.Receiving? || pc.Posting?
    ensures var m := st.script[st.pos];
            StreamOk(st.(pos := st.pos + 1, said := Heard(st.said, m.rev, m.endOfReplay), pc := pc), replaying)
  {
  }

  // ------------------------------------------------------------------ all of them together

  ghost predicate StreamsOk(o: Options, d: Data) {
    forall ns :: ns in d.streams ==> StreamOk(d.streams[ns], o.initialEvents)
  }

  /** The client has received exactly what each stream handed over. */
  ghost predicate LogOk(d: Data) {
    forall ns :: EventsOf(d.log, ns) == HandedOver(d, ns)
  }

  ghost function HandedOver(d: Data, ns: Namespace): seq<Item> {
    if ns in d.streams && d.streams[ns].pos <= |d.streams[ns].script|
    then WithoutMarks(d.streams[ns].script[..d.streams[ns].pos])
    else []
  }

  /** Everything decided stays true: the streams a bookmark speaks for are settled up to it. */
  ghost predicate DecisionOk(d: Data, x: Decision) {
    && (forall ns :: ns in x.covers ==> ns in d.streams && Settled(d.streams[ns], x.w))
    && (x.advanced ==> x.w <= d.emitted)
    && (x.announce ==> d.replayed)
  }

  ghost predicate DecisionsOk(d: Data) {
    && (forall x :: x in d.decided ==> DecisionOk(d, x))
    && (forall i, j :: 0 <= i < j < |d.decided| && d.decided[i].advanced && d.decided[j].advanced ==>
         d.decided[i].w < d.decided[j].w)
    && (forall i, j :: 0 <= i < j < |d.decided| && d.decided[i].announce ==> !d.decided[j].announce)
  }

  /** A bookmark on its way or received was decided. */
  ghost predicate WasDecided(d: Data, w: nat, announce: bool) {
    exists x :: x in d.decided && x.w == w && x.announce == announce
  }

  predicate Announces(st: Stream) {
    st.pc.Posting? && st.pc.announce
  }

  /** At most one bookmark, on its way or received, announces the end of the replay. */
  ghost predicate BookmarksOk(d: Data) {
    && (forall e :: e in d.log && e.Bookmark? ==> WasDecided(d, e.w, e.announce))
    && (forall ns :: ns in d.streams && d.streams[ns].pc.Posting? ==>
         WasDecided(d, d.streams[ns].pc.w, d.streams[ns].pc.announce))
    && Announcements(d.log) <= (if d.replayed then 1 else 0)
    && (forall ns :: ns in d.streams && Announces(d.streams[ns]) ==> d.replayed && Announcements(d.log) == 0)
    && (forall ns, other ::
         (ns in d.streams && other in d.streams && Announces(d.streams[ns]) && Announces(d.streams[other]))
         ==> ns == other)
  }

  /** The bookmark that announces the end of the replay speaks for every registered namespace; without a
      replay, a bookmark speaks for exactly those whose watch was opened at a revision. */
  ghost predicate CoverOk(o: Options, d: Data, x: Decision) {
    && (forall ns :: ns in x.registered ==> ns in d.streams)
    && (o.initialEvents && x.announce ==> x.covers == x.registered)
    && (!o.initialEvents ==>
          forall ns :: ns in x.covers <==> ns in x.registered && ns in d.streams && d.streams[ns].start > 0)
  }

  ghost predicate CoversOk(o: Options, d: Data) {
    forall x :: x in d.decided ==> CoverOk(o, d, x)
  }

  ghost predicate DataOk(o: Options, d: Data) {
    StreamsOk(o, d) && LogOk(d) && DecisionsOk(d) && BookmarksOk(d) && CoversOk(o, d)
  }

  /** One stream has been replaced and nothing else about the streams has changed. */
  ghost predicate Replaces(d: Data, t: Data, ns: Namespace) {
    ns in t.streams && t.streams == d.streams[ns := t.streams[ns]]
  }

  /** A replaced stream that says what it said, and has only moved forward. */
  ghost predicate Forward(d: Data, t: Data, ns: Namespace) {
    && Replaces(d, t, ns)
    && (ns in d.streams ==>
         && t.streams[ns].script == d.streams[ns].script && t.streams[ns].pos >= d.streams[ns].pos
         && t.streams[ns].start == d.streams[ns].start)
  }

  lemma CoversKept(o: Options, d: Data, t: Data, ns: Namespace)
    requires CoversOk(o, d) && t.decided == d.decided && Forward(d, t, ns)
    ensures CoversOk(o, t)
  {
    forall x | x in t.decided ensures CoverOk(o, t, x) {
      assert CoverOk(o, d, x);
    }
  }

  lemma StreamsKept(o: Options, d: Data, t: Data, ns: Namespace)
    requires StreamsOk(o, d) && Replaces(d, t, ns) && StreamOk(t.streams[ns], o.initialEvents)
    ensures StreamsOk(o, t)
  {
  }

  /** A stream that only moves forward keeps what was decided about it. */
  lemma DecisionsKept(d: Data, t: Data, ns: Namespace)
    requires DecisionsOk(d) && t.decided == d.decided && t.emitted == d.emitted && t.replayed == d.replayed
    requires Forward(d, t, ns)
    ensures DecisionsOk(t)
  {
  }

  lemma BookmarksKept(d: Data, t: Data, ns: Namespace)
    requires BookmarksOk(d) && t.decided == d.decided && t.replayed == d.replayed
    requires Replaces(d, t, ns) && !t.streams[ns].pc.Posting?
    requires t.log == d.log || exists e: Delivery :: !e.Bookmark? && t.log == d.log + [e]
    ensures BookmarksOk(t)
  {
  }

  lemma LogKept(d: Data, t: Data, ns: Namespace)
    requires LogOk(d) && Replaces(d, t, ns)
    requires EventsOf(t.log, ns) == HandedOver(t, ns)
    requires forall other :: other != ns ==> EventsOf(t.log, other) == EventsOf(d.log, other)
    ensures LogOk(t)
  {
  }

  /** A forwarder moves without handing anything over. */
  lemma QuietOk(o: Options, d: Data, ns: Namespace, st: Stream)
    requires DataOk(o, d) && StreamOk(st, o.initialEvents) && !st.pc.Posting?
    requires if ns in d.streams
             then st.script == d.streams[ns].script && st.pos == d.streams[ns].pos && st.start == d.streams[ns].start
             else st.pos == 0
    ensures DataOk(o, Put(d, ns, st))
  {
    var t := Put(d, ns, st);
    StreamsKept(o, d, t, ns);
    DecisionsKept(d, t, ns);
    CoversKept(o, d, t, ns);
    BookmarksKept(d, t, ns);
    assert LogOk(t) by {
      assert st.script[..0] == [];
      assert EventsOf(d.log, ns) == HandedOver(d, ns);
      LogKept(d, t, ns);
    }
  }

  lemma RegisterOk(o: Options, d: Data, ns: Namespace, at: nat, script: seq<Item>)
    requires DataOk(o, d) && InOrder(script, at, o.initialEvents)
    ensures DataOk(o, Register(d, ns, at, script))
  {
    if ns !in d.streams {
      QuietOk(o, d, ns, Stream(at, script, 0, Progress(at, false), Receiving));
    }
  }

  lemma DeliverOk(o: Options, d: Data, ns: Namespace)
    requires DataOk(o, d) && ns in d.streams && d.streams[ns].pc.Sending? && HasNext(d.streams[ns])
    ensures var st := d.streams[ns];
            DataOk(o, Put(d, ns, Delivered(st)).(log := d.log + [Event(ns, st.script[st.pos])]))
  {
    var st := d.streams[ns];
    var e := Event(ns, st.script[st.pos]);
    var t := Put(d, ns, Delivered(st)).(log := d.log + [e]);
    DeliveredOk(st, o.initialEvents);
    StreamsKept(o, d, t, ns);
    DecisionsKept(d, t, ns);
    CoversKept(o, d, t, ns);
    BookmarksKept(d, t, ns);
    DeliveredLogOk(d, ns);
  }

  lemma DeliveredLogOk(d: Data, ns: Namespace)
    requires LogOk(d) && ns in d.streams && HasNext(d.streams[ns]) && !d.streams[ns].script[d.streams[ns].pos].Mark?
    ensures var st := d.streams[ns];
            LogOk(Put(d, ns, Delivered(st)).(log := d.log + [Event(ns, st.script[st.pos])]))
  {
    var st := d.streams[ns];
    var e := Event(ns, st.script[st.pos]);
    var t := Put(d, ns, Delivered(st)).(log := d.log + [e]);
    forall other { LogGrows(d.log, e, other); }
    ScriptGrows(st.script, st.pos);
    assert EventsOf(d.log, ns) == HandedOver(d, ns);
    LogKept(d, t, ns);
  }

  lemma PostOk(o: Options, d: Data, ns: Namespace)
    requires DataOk(o, d) && ns in d.streams && d.streams[ns].pc.Posting?
    ensures var pc := d.streams[ns].pc;
            DataOk(o, Put(d, ns, d.streams[ns].(pc := Receiving)).(
                        log := d.log + [Bookmark(pc.w, pc.announce)]))
  {
    var st := d.streams[ns];
    var e := Bookmark(st.pc.w, st.pc.announce);
    var t := Put(d, ns, st.(pc := Receiving)).(log := d.log + [e]);
    RecordedOk(st, o.initialEvents);
    StreamsKept(o, d, t, ns);
    DecisionsKept(d, t, ns);
    CoversKept(o, d, t, ns);
    LogGrows(d.log, e, ns);
    assert LogOk(t) by {
      forall other { LogGrows(d.log, e, other); }
      assert EventsOf(d.log, ns) == HandedOver(d, ns);
      LogKept(d, t, ns);
    }
    PostedOk(d, t, ns);
  }

  /** The bookmark that was on its way has been received. */
  lemma PostedOk(d: Data, t: Data, ns: Namespace)
    requires BookmarksOk(d) && t.decided == d.decided && t.replayed == d.replayed
    requires ns in d.streams && d.streams[ns].pc.Posting? && Replaces(d, t, ns) && t.streams[ns].pc.Receiving?
    requires t.log == d.log + [Bookmark(d.streams[ns].pc.w, d.streams[ns].pc.announce)]
    ensures BookmarksOk(t)
  {
  }

  lemma GoneOk(o: Options, d: Data)
    requires DataOk(o, d)
    ensures DataOk(o, d.(log := d.log + [Gone]))
  {
  }

  // ------------------------------------------------------------------ deciding a bookmark

  /** The fold leaves in the streams exactly the progress it was decided on. */
  lemma FoldedProgress(o: Options, d: Data, ns: Namespace, w: nat)
    requires CanFold(o, d, ns, w)
    ensures Said(Folded(o, d, ns, w).streams) == FoldOf(o, d, ns, w).gauge.progress
  {
  }

  /** A bookmark decided now speaks the truth about every stream it covers. */
  lemma NewDecisionOk(o: Options, t: Data, w: nat)
    requires StreamsOk(o, t) && IsWatermark(Said(t.streams), w)
    ensures forall ns :: ns in Covers(o, t.streams, Said(t.streams)) ==> ns in t.streams && Settled(t.streams[ns], w)
  {
  }

  /** Appending one decision, with the flags moved accordingly. */
  lemma DecideOk(d: Data, t: Data, ns: Namespace, x: Decision)
    requires DecisionsOk(d) && Forward(d, t, ns) && t.decided == d.decided + [x]
    requires forall n :: n in x.covers ==> n in t.streams && Settled(t.streams[n], x.w)
    requires t.emitted == (if x.advanced then x.w else d.emitted) && (x.advanced ==> x.w > d.emitted)
    requires (d.replayed || x.announce ==> t.replayed) && (x.announce ==> !d.replayed)
    ensures DecisionsOk(t)
  {
    forall y | y in t.decided
      ensures DecisionOk(t, y)
    {
      if y in d.decided {
        assert DecisionOk(d, y);
      } else {
        assert y == x;
      }
    }
    forall i | 0 <= i < |d.decided|
      ensures t.decided[i].advanced && x.advanced ==> t.decided[i].w < x.w
      ensures t.decided[i].announce ==> !x.announce
    {
      assert DecisionOk(d, d.decided[i]);
    }
  }

  lemma UndecidedOk(d: Data, t: Data, ns: Namespace)
    requires DecisionsOk(d) && Forward(d, t, ns) && t.decided == d.decided
    requires t.emitted >= d.emitted && (d.replayed ==> t.replayed)
    ensures DecisionsOk(t)
  {
  }

  lemma FoldBookmarksOk(d: Data, t: Data, ns: Namespace)
    requires BookmarksOk(d) && t.log == d.log && Replaces(d, t, ns) && (d.replayed ==> t.replayed)
    requires t.decided == d.decided || exists x :: t.decided == d.decided + [x]
    requires t.streams[ns].pc.Posting? ==> WasDecided(t, t.streams[ns].pc.w, t.streams[ns].pc.announce)
    requires Announces(t.streams[ns]) ==> t.replayed && !d.replayed
    ensures BookmarksOk(t)
  {
  }

  lemma FoldDecisionsOk(o: Options, d: Data, ns: Namespace, w: nat)
    requires DecisionsOk(d) && CanFold(o, d, ns, w) && StreamsOk(o, Folded(o, d, ns, w))
    ensures DecisionsOk(Folded(o, d, ns, w))
  {
    var t, v := Folded(o, d, ns, w), FoldOf(o, d, ns, w);
    if Posts(o, w, v) {
      FoldCoverIsSettled(o, d, ns, w);
      DecideOk(d, t, ns, Decided(o, d.streams, w, v));
    } else {
      UndecidedOk(d, t, ns);
    }
  }

  lemma FoldCoverIsSettled(o: Options, d: Data, ns: Namespace, w: nat)
    requires CanFold(o, d, ns, w) && StreamsOk(o, Folded(o, d, ns, w))
    ensures var t := Folded(o, d, ns, w);
            forall n :: n in Covers(o, d.streams, FoldOf(o, d, ns, w).gauge.progress) ==>
              n in t.streams && Settled(t.streams[n], w)
  {
    var t, v := Folded(o, d, ns, w), FoldOf(o, d, ns, w);
    FoldedProgress(o, d, ns, w);
    NewDecisionOk(o, t, w);
    assert Covers(o, d.streams, v.gauge.progress) == Covers(o, t.streams, v.gauge.progress);
  }

  lemma FoldAnnouncesOk(o: Options, d: Data, ns: Namespace, w: nat)
    requires BookmarksOk(d) && CanFold(o, d, ns, w)
    ensures BookmarksOk(Folded(o, d, ns, w))
  {
    var t, v := Folded(o, d, ns, w), FoldOf(o, d, ns, w);
    if Posts(o, w, v) {
      assert t.decided == d.decided + [Decided(o, d.streams, w, v)];
      assert Decided(o, d.streams, w, v) in t.decided;
    }
    FoldBookmarksOk(d, t, ns);
  }

  lemma NewCoverOk(o: Options, d: Data, t: Data, w: nat, v: Verdict)
    requires v.gauge.progress.Keys == d.streams.Keys == t.streams.Keys
    requires forall n :: n in d.streams ==> t.streams[n].start == d.streams[n].start
    requires v.announce ==> AllReplayed(v.gauge.progress)
    ensures CoverOk(o, t, Decided(o, d.streams, w, v))
  {
    assert forall n :: n in v.gauge.progress.Keys <==> n in v.gauge.progress;
    assert forall n :: n in d.streams.Keys <==> n in d.streams;
    assert forall n :: n in t.streams.Keys <==> n in t.streams;
  }

  lemma FoldCoversOk(o: Options, d: Data, ns: Namespace, w: nat)
    requires CoversOk(o, d) && CanFold(o, d, ns, w)
    ensures CoversOk(o, Folded(o, d, ns, w))
  {
    var t, v := Folded(o, d, ns, w), FoldOf(o, d, ns, w);
    NewCoverOk(o, d, t, w, v);
    forall x | x in t.decided ensures CoverOk(o, t, x) {
      if x in d.decided {
        assert CoverOk(o, d, x);
      } else {
        assert x == Decided(o, d.streams, w, v);
      }
    }
  }

  lemma FoldOk(o: Options, d: Data, ns: Namespace, w: nat)
    requires DataOk(o, d) && CanFold(o, d, ns, w)
    ensures DataOk(o, Folded(o, d, ns, w))
  {
    var t, st := Folded(o, d, ns, w), d.streams[ns];
    HeardOk(st, o.initialEvents, t.streams[ns].pc);
    StreamsKept(o, d, t, ns);
    assert LogOk(t) by {
      ScriptGrows(st.script, st.pos);
      assert EventsOf(d.log, ns) == HandedOver(d, ns);
      LogKept(d, t, ns);
    }
    FoldDecisionsOk(o, d, ns, w);
    FoldAnnouncesOk(o, d, ns, w);
    FoldCoversOk(o, d, ns, w);
  }

  /** Which namespaces have been heard of, and who is joining them, is not part of the invariant. */
  lemma FrameOk(o: Options, d: Data, joins: map<nat, Quest>, announced: set<Namespace>)
    requires DataOk(o, d)
    ensures DataOk(o, d.(joins := joins, announced := announced))
  {
  }
}
