/** Writing on top of what was read: the optimistic retry loop of a patch and the single attempt of a
    PUT (pkg/proxy/proxy.go).

The upstream server holds one object under an ever growing revision. Other writers may act between
the read of an attempt and its write; which of them do, and how, is an arbitrary script.
 */
module RetryLoop {
  import opened Wrappers

  datatype Error = NotFound | Conflict | AlreadyExists | PreconditionFailed | Refused(reason: int)

  datatype Result<T> = Ok(value: T) | Err(error: Error)

  // ------------------------------------------------------------------ the upstream server

  datatype Stored<V> = Stored(version: nat, value: V)

  /** The object, if it exists, and the server's revision counter. */
  datatype Server<V> = Server(clock: nat, cell: Option<Stored<V>>)

  ghost predicate Sound<V>(s: Server<V>) {
    s.cell.Some? ==> s.cell.value.version <= s.clock
  }

  /** Another writer's write: the object is put, whether or not it existed, or removed. */
  datatype Meddling<V> = Put(value: V) | Remove

  function Store<V>(s: Server<V>, value: V): Server<V> {
    Server(s.clock + 1, Some(Stored(s.clock + 1, value)))
  }

  function Meddled<V>(s: Server<V>, writes: seq<Meddling<V>>): Server<V>
    decreases |writes|
  {
    if writes == [] then s
    else
      var t := Meddled(s, writes[..|writes| - 1]);
      match writes[|writes| - 1]
      case Put(value) => Store(t, value)
      case Remove => Server(t.clock + 1, None)
  }

  /** Everything another writer leaves behind is newer than what was there before it. */
  lemma {:induction false} MeddlingIsNewer<V>(s: Server<V>, writes: seq<Meddling<V>>)
    requires Sound(s)
    ensures Sound(Meddled(s, writes)) && Meddled(s, writes).clock == s.clock + |writes|
    ensures writes != [] && Meddled(s, writes).cell.Some? ==> Meddled(s, writes).cell.value.version > s.clock
    decreases |writes|
  {
    if writes != [] {
      MeddlingIsNewer(s, writes[..|writes| - 1]);
    }
  }

  // ------------------------------------------------------------------ the request

  /** The resourceVersion of the object that is sent: the one that was read, one the caller wrote into
      its request, or none at all. */
  datatype Rv = AsRead | Fixed(rv: nat) | Unset

  /** What the caller wants: how the object changes, under which resourceVersion, under which
      precondition on the version read, and whether a missing object is to be created from a blank one;
      and what the gateway makes of it, given the object it read or, for a create, given none. */
  datatype Request<!V> = Request(
    change: V -> Result<V>,
    rv: Rv,
    precondition: Option<nat>,
    blank: V,
    allowCreate: bool,
    guard: (V, V) -> Result<V>,
    guardNew: V -> Result<V>)

  predicate Accepts<V>(r: Request<V>, read: Option<Stored<V>>) {
    r.precondition.Some? ==> read.Some? && r.precondition.value == read.value.version
  }

  /** The object computed from what was read and guarded against it. */
  function Computed<V>(r: Request<V>, read: Option<Stored<V>>): Result<V> {
    if read.None? && !r.allowCreate then Err(NotFound)
    else if !Accepts(r, read) then Err(PreconditionFailed)
    else
      var changed := r.change(if read.Some? then read.value.value else r.blank);
      if changed.Err? then changed
      else if read.Some? then r.guard(changed.value, read.value.value)
      else r.guardNew(changed.value)
  }

  function Sent(rv: Rv, read: Stored): Option<nat> {
    match rv
    case AsRead => Some(read.version)
    case Fixed(v) => Some(v)
    case Unset => None
  }

  /** The upstream update: refused when the object is gone or has another version than the one sent. */
  function Update<V>(s: Server<V>, rv: Option<nat>, value: V): Result<Server<V>> {
    if s.cell.None? then Err(NotFound)
    else if rv.Some? && rv.value != s.cell.value.version then Err(Conflict)
    else Ok(Store(s, value))
  }

  function Create<V>(s: Server<V>, value: V): Result<Server<V>> {
    if s.cell.Some? then Err(AlreadyExists) else Ok(Store(s, value))
  }

  // ------------------------------------------------------------------ one attempt

  datatype Outcome = Committed | Retries | Failed(error: Error)

  datatype Attempt<V> = Attempt(server: Server<V>, outcome: Outcome)

  /** One turn of guaranteedUpdate: read, compute, let the other writers act, write. */
  function Turn<V>(s: Server<V>, r: Request<V>, writes: seq<Meddling<V>>): Attempt<V> {
    var later := Meddled(s, writes);
    var computed := Computed(r, s.cell);
    if computed.Err? then Attempt(later, Failed(computed.error))
    else if s.cell.None? then
      var created := Create(later, computed.value);
      if created.Ok? then Attempt(created.value, Committed) else Attempt(later, Retries)
    else
      var updated := Update(later, Sent(r.rv, s.cell.value), computed.value);
      if updated.Ok? then Attempt(updated.value, Committed)
      else if updated.error.Conflict? then Attempt(later, Retries)
      else Attempt(later, Failed(updated.error))
  }

  /** What a committed write replaced, and what it was computed and guarded against. */
  ghost predicate GuardedAgainstReplaced<V>(s: Server<V>, r: Request<V>, writes: seq<Meddling<V>>) {
    var replaced := Meddled(s, writes).cell;
    var after := Turn(s, r, writes).server.cell;
    after.Some? && Computed(r, replaced) == Ok(after.value.value)
  }

  /** No lost update: under the version that was read, a turn commits only if nobody wrote in between,
      and then what is stored was computed from and guarded against exactly what it replaced. */
  lemma CommitReplacesWhatItRead<V>(s: Server<V>, r: Request<V>, writes: seq<Meddling<V>>)
    requires Sound(s) && r.rv == AsRead && Turn(s, r, writes).outcome.Committed?
    ensures s.cell.Some? ==> writes == []
    ensures GuardedAgainstReplaced(s, r, writes)
  {
    MeddlingIsNewer(s, writes);
  }

  /** A turn is retried only because somebody wrote in between. */
  lemma RetryMeansInterference<V>(s: Server<V>, r: Request<V>, writes: seq<Meddling<V>>)
    requires Sound(s) && r.rv == AsRead && Turn(s, r, writes).outcome.Retries?
    ensures writes != []
  {
  }

  /** How a turn under the version it read ends: refused exactly if the computation is; committed, with
      exactly what was computed, if nobody interferes with one that is not; and otherwise retried, or gone. */
  lemma TurnDecides<V>(s: Server<V>, r: Request<V>, writes: seq<Meddling<V>>)
    requires Sound(s) && r.rv == AsRead
    ensures var turn, computed := Turn(s, r, writes), Computed(r, s.cell);
            && (computed.Err? ==> turn == Attempt(Meddled(s, writes), Failed(computed.error)))
            && (computed.Ok? && writes == [] ==>
                  turn.outcome == Committed && turn.server == Store(s, computed.value))
            && (computed.Ok? && s.cell.Some? && writes != [] ==>
                  turn == Attempt(Meddled(s, writes), if Meddled(s, writes).cell.Some? then Retries else Failed(NotFound)))
            && (computed.Ok? && s.cell.None? ==>
                  turn.outcome == if Meddled(s, writes).cell.Some? then Retries else Committed)
  {
    MeddlingIsNewer(s, writes);
  }

  // ------------------------------------------------------------------ the loop

  /** guaranteedUpdate over a script: the turns it takes, until one of them decides or the script ends. */
  function Turns<V>(s: Server<V>, r: Request<V>, script: seq<seq<Meddling<V>>>): (turns: seq<Attempt<V>>)
    ensures |turns| <= |script| && (script != [] ==> turns != [])
    ensures forall k :: 0 <= k < |turns| - 1 ==> turns[k].outcome.Retries?
    decreases |script|
  {
    if script == [] then []
    else
      var turn := Turn(s, r, script[0]);
      if turn.outcome.Retries? then [turn] + Turns(turn.server, r, script[1..]) else [turn]
  }

  function Last<V>(s: Server<V>, turns: seq<Attempt<V>>): Attempt<V> {
    if turns == [] then Attempt(s, Retries) else turns[|turns| - 1]
  }

  /** How the loop ends. */
  function Run<V>(s: Server<V>, r: Request<V>, script: seq<seq<Meddling<V>>>): (end: Attempt<V>)
    ensures end == Last(s, Turns(s, r, script))
    decreases |script|
  {
    if script == [] then Attempt(s, Retries)
    else
      var turn := Turn(s, r, script[0]);
      if turn.outcome.Retries? then Run(turn.server, r, script[1..]) else turn
  }

  /** guaranteedUpdate as the source runs it, a loop that goes round again on a conflict. */
  class Upstream<V> {
    var server: Server<V>
    var script: seq<seq<Meddling<V>>>

    constructor (s: Server<V>, script: seq<seq<Meddling<V>>>)
      ensures server == s && this.script == script
    {
      server, this.script := s, script;
    }

    /** The other writers act. */
    method Meddle()
      requires script != []
      modifies this
      ensures server == Meddled(old(server), old(script)[0]) && script == old(script)[1..]
    {
      server, script := Meddled(server, script[0]), script[1..];
    }

    /** Read, compute, let the other writers act, write. */
    method Once(r: Request<V>) returns (outcome: Outcome)
      requires script != []
      modifies this
      ensures outcome == Turn(old(server), r, old(script)[0]).outcome
      ensures server == Turn(old(server), r, old(script)[0]).server
      ensures script == old(script)[1..]
    {
      var original := server.cell;
      var computed := Computed(r, original);
      Meddle();
      if computed.Err? {
        return Failed(computed.error);
      }
      var written := if original.None? then Create(server, computed.value)
                     else Update(server, Sent(r.rv, original.value), computed.value);
      if written.Err? {
        return if written.error.Conflict? || written.error.AlreadyExists? then Retries else Failed(written.error);
      }
      server := written.value;
      return Committed;
    }

    method GuaranteedUpdate(r: Request<V>) returns (outcome: Outcome)
      modifies this
      ensures Attempt(server, outcome) == Last(old(server), Turns(old(server), r, old(script)))
    {
      outcome := Retries;
      while script != []
        invariant Run(old(server), r, old(script)) == Run(server, r, script)
        invariant outcome.Retries?
        decreases |script|
      {
        outcome := Once(r);
        if !outcome.Retries? {
          return;
        }
      }
    }
  }

  function Writes<V>(script: seq<seq<Meddling<V>>>): nat {
    if script == [] then 0 else |script[0]| + Writes(script[1..])
  }

  /** Under the version that was read, every retry is paid for by an interfering write, so the loop makes
      at most as many retries as there are of those, and a turn nobody interferes with is the last one. */
  lemma {:induction false} RetriesAreBounded<V>(s: Server<V>, r: Request<V>, script: seq<seq<Meddling<V>>>)
    requires Sound(s) && r.rv == AsRead
    ensures |Turns(s, r, script)| <= Writes(script) + 1
    ensures forall k :: 0 <= k < |script| && script[k] == [] ==>
              |Turns(s, r, script)| <= k + 1 && !Last(s, Turns(s, r, script)).outcome.Retries?
    decreases |script|
  {
    if script != [] {
      var turn := Turn(s, r, script[0]);
      MeddlingIsNewer(s, script[0]);
      if turn.outcome.Retries? {
        RetriesAreBounded(turn.server, r, script[1..]);
        forall k | 0 <= k < |script| && script[k] == []
          ensures |Turns(s, r, script)| <= k + 1 && !Last(s, Turns(s, r, script)).outcome.Retries?
        {
          assert script[1..][k - 1] == [];
        }
      }
    }
  }

  /** What was stored when the last turn of the loop wrote. */
  function Replaced<V>(s: Server<V>, r: Request<V>, script: seq<seq<Meddling<V>>>): Option<Stored<V>>
    decreases |script|
  {
    if script == [] then None
    else
      var turn := Turn(s, r, script[0]);
      if turn.outcome.Retries? then Replaced(turn.server, r, script[1..]) else Meddled(s, script[0]).cell
  }

  /** Whatever the loop ends up storing was computed from and guarded against exactly what it replaced. */
  lemma {:induction false} LoopLosesNothing<V>(s: Server<V>, r: Request<V>, script: seq<seq<Meddling<V>>>)
    requires Sound(s) && r.rv == AsRead && Run(s, r, script).outcome.Committed?
    ensures Sound(Run(s, r, script).server) && Run(s, r, script).server.cell.Some?
    ensures Computed(r, Replaced(s, r, script)) == Ok(Run(s, r, script).server.cell.value.value)
    decreases |script|
  {
    var turn := Turn(s, r, script[0]);
    MeddlingIsNewer(s, script[0]);
    if turn.outcome.Retries? {
      LoopLosesNothing(turn.server, r, script[1..]);
    } else {
      CommitReplacesWhatItRead(s, r, script[0]);
    }
  }

  // ------------------------------------------------------------------ versions the caller wrote itself

  function Undisturbed<V>(n: nat): seq<seq<Meddling<V>>> {
    seq(n, _ => [])
  }

  /** A patch that writes its own resourceVersion, undisturbed by anybody: it is decided at its first turn
      if that version is the stored one, and otherwise goes round for ever. */
  lemma {:induction false} OwnVersionRetriesForeverIff<V>(s: Server<V>, r: Request<V>, n: nat)
    requires Sound(s) && s.cell.Some? && r.rv.Fixed? && Computed(r, s.cell).Ok? && n > 0
    ensures Last(s, Turns(s, r, Undisturbed(n))).outcome
            == if r.rv.rv == s.cell.value.version then Committed else Retries
    ensures r.rv.rv != s.cell.value.version ==> |Turns(s, r, Undisturbed(n))| == n
    decreases n
  {
    var script := Undisturbed<V>(n);
    assert script[1..] == Undisturbed<V>(n - 1);
    assert Turn(s, r, script[0]).server.cell == s.cell || r.rv.rv == s.cell.value.version;
    if n > 1 && r.rv.rv != s.cell.value.version {
      assert Turn(s, r, script[0]) == Attempt(s, Retries);
      OwnVersionRetriesForeverIff(s, r, n - 1);
    }
  }

  /** A PUT that carries a resourceVersion and commits replaces that version, and was guarded against it
      exactly when the version had been issued by the time the gateway read. */
  lemma PutIsGuardedIff<V>(s: Server<V>, r: Request<V>, writes: seq<Meddling<V>>)
    requires Sound(s) && s.cell.Some? && r.rv.Fixed? && Turn(s, r, writes).outcome.Committed?
    ensures Meddled(s, writes).cell.Some? && Meddled(s, writes).cell.value.version == r.rv.rv
    ensures Meddled(s, writes).cell == s.cell <==> r.rv.rv <= s.clock
    ensures r.rv.rv <= s.clock ==> writes == [] && GuardedAgainstReplaced(s, r, writes)
  {
    MeddlingIsNewer(s, writes);
  }

  /** A PUT without a resourceVersion commits over whatever was written in between, unless the object is
      gone: it replaced what it was guarded against exactly when nobody interfered. */
  lemma UnconditionalPutIsGuardedIff<V>(s: Server<V>, r: Request<V>, writes: seq<Meddling<V>>)
    requires Sound(s) && s.cell.Some? && r.rv.Unset? && Computed(r, s.cell).Ok?
    ensures Turn(s, r, writes).outcome.Committed? <==> Meddled(s, writes).cell.Some?
    ensures Meddled(s, writes).cell == s.cell <==> writes == []
  {
    MeddlingIsNewer(s, writes);
  }
}
