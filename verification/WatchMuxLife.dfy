/** The life of the multiplexer's goroutines: who may close the stop channel, when the result
    channel closes, and that nothing is sent after it. */
module WatchMuxLife {
  import opened WatchMux

  predicate HoldsOnce(st: Status) {
    st.SendingGone? || st.Stopping? || st.Sweeping?
  }

  /** The once-guard has at most one goroutine inside, and it is the one on record. */
  ghost predicate OnceOk(l: Life) {
    && (l.once.Spent? ==> l.stop)
    && (l.once.Held? ==> l.once.holder in l.status && HoldsOnce(l.status[l.once.holder]))
    && (forall g :: g in l.status && HoldsOnce(l.status[g]) ==> l.once == Held(g))
  }

  /** What each goroutine has lived through. */
  ghost predicate StatusOk(l: Life, g: Goroutine, st: Status) {
    && (st.Stopping? ==> l.stop || l.gone)
    && (st.Sweeping? ==> l.stop)
    && (st.Done? && !g.Joiner? ==> l.stop && g in l.ended)
    && (!g.Forwarder? ==> l.phase.Running?)
  }

  ghost predicate FlagsOk(l: Life) {
    && (l.phase.Opening? ==> !l.stop)
    && (l.phase.Failed? ==> l.stop)
    && (l.phase.Running? <==> Follower in l.status)
    && (l.swept ==> l.stop)
    && (l.gone ==> l.phase.Running?)
    && (l.stop && l.phase.Running? ==> l.clientStopped || l.gone)
    && (l.closed ==> l.phase.Running? && AllDone(l))
  }

  ghost predicate LifeOk(l: Life) {
    FlagsOk(l) && OnceOk(l) && forall g :: g in l.status ==> StatusOk(l, g, l.status[g])
  }

  lemma StartsOk(l: Life, ns: Namespace)
    requires LifeOk(l) && !l.closed && Forwarder(ns) !in l.status
    ensures LifeOk(Become(l, Forwarder(ns), Busy))
  {
  }

  lemma JoinerStartsOk(l: Life, id: nat)
    requires LifeOk(l) && Is(l, Follower, Busy) && Joiner(id) !in l.status
    ensures LifeOk(Become(l, Joiner(id), Busy))
  {
  }

  lemma OpeningOk(l: Life)
    requires LifeOk(l) && l.phase.Opening?
    ensures LifeOk(l.(phase := Failed, stop := true))
    ensures LifeOk(Become(l, Follower, Busy).(phase := Running))
  {
  }

  lemma ClientOk(l: Life)
    requires LifeOk(l) && l.phase.Running?
    ensures LifeOk(l.(stop := true, clientStopped := true))
    ensures AllDone(l) ==> LifeOk(l.(closed := true))
  {
  }

  lemma SweepOk(l: Life, more: set<Goroutine>)
    requires LifeOk(l) && l.stop
    ensures LifeOk(l.(swept := true, ended := l.ended + more))
  {
  }

  lemma ReturnOk(l: Life, g: Goroutine)
    requires LifeOk(l) && Is(l, g, Busy) && (l.stop || g.Joiner?)
    ensures LifeOk(Return(l, g))
  {
  }

  lemma ExpiringOk(l: Life, g: Goroutine)
    requires LifeOk(l) && Is(l, g, Busy)
    ensures LifeOk(Become(l, g, Expiring))
  {
  }

  lemma EnterOk(l: Life, g: Goroutine)
    requires LifeOk(l) && Is(l, g, Expiring) && !l.once.Held?
    ensures LifeOk(Enter(l, g))
  {
  }

  lemma SendGoneOk(l: Life, g: Goroutine)
    requires LifeOk(l) && Is(l, g, SendingGone)
    ensures l.phase.Running? ==> LifeOk(Become(l, g, Stopping).(gone := true))
    ensures l.stop ==> LifeOk(Become(l, g, Stopping))
  {
  }

  lemma StopOk(l: Life, g: Goroutine)
    requires LifeOk(l) && Is(l, g, Stopping)
    ensures LifeOk(Become(l, g, Sweeping).(stop := true))
  {
  }

  lemma LeaveOk(l: Life, g: Goroutine)
    requires LifeOk(l) && Is(l, g, Sweeping) && l.swept
    ensures LifeOk(Return(l, g).(once := Spent))
  {
  }
}
