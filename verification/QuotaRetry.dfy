/** Writing one object through conflicts, as the quota controllers do
    (pkg/clusterresourcequota/controllers/util.go).
 */
module QuotaRetry {
  import opened RetryLoop
  import opened Wrappers

  const STEPS := 5

  datatype Answer = Unchanged | Written | GaveUp(error: Error)

  datatype End<V> = End(server: Server<V>, answer: Answer)

  /** One try on an object read before: change it, let the others act, write it unless nothing changed.
      A conflict is the one error that leads to another try. */
  function Try<V(==)>(s: Server<V>, obj: Stored<V>, f: V -> V, writes: seq<Meddling<V>>): End<V> {
    var later := Meddled(s, writes);
    if f(obj.value) == obj.value then End(later, Unchanged)
    else
      var updated := Update(later, Some(obj.version), f(obj.value));
      if updated.Ok? then End(updated.value, Written) else End(later, GaveUp(updated.error))
  }

  /** Tries with the object in hand, and refreshes it after each conflict, as often as there are scripts of
      what the others do meanwhile. */
  function Tries<V(==)>(s: Server<V>, obj: Stored<V>, f: V -> V, script: seq<seq<Meddling<V>>>): End<V>
    requires script != []
    decreases |script|
  {
    var end := Try(s, obj, f, script[0]);
    if !end.answer.GaveUp? || end.answer.error != Conflict || |script| == 1 then end
    else if end.server.cell.None? then End(end.server, GaveUp(NotFound))
    else Tries(end.server, end.server.cell.value, f, script[1..])
  }

  /** UpdateOnConflict as the source runs it. */
  method UpdateOnConflict<V(==)>(s: Server<V>, obj: Stored<V>, f: V -> V, script: seq<seq<Meddling<V>>>)
    returns (end: End<V>)
    requires |script| == STEPS
    ensures end == Tries(s, obj, f, script)
  {
    var server, it, firstTry := s, obj, true;
    end := End(s, GaveUp(Conflict));
    for i := 0 to STEPS
      invariant end.server == server && (i == 0 <==> firstTry)
      invariant firstTry ==> it == obj && server == s
      invariant i < STEPS ==>
                  Tries(s, obj, f, script) == if firstTry then Tries(s, obj, f, script)
                                              else if server.cell.None? then End(server, GaveUp(NotFound))
                                              else Tries(server, server.cell.value, f, script[i..])
      invariant i == STEPS ==> end == Tries(s, obj, f, script)
    {
      if firstTry {
        firstTry := false;
      } else {
        if server.cell.None? {
          return End(server, GaveUp(NotFound));
        }
        it := server.cell.value;
      }
      assert script[i..][0] == script[i] && script[i..][1..] == script[i + 1..];
      end := Try(server, it, f, script[i]);
      server := end.server;
      if !end.answer.GaveUp? || end.answer.error != Conflict {
        return;
      }
    }
  }

  /** A version identifies what was stored under it. */
  ghost predicate Genuine<V>(s: Server<V>, obj: Stored<V>) {
    obj.version <= s.clock && (s.cell.Some? && s.cell.value.version == obj.version ==> s.cell.value == obj)
  }

  /** What the last try found stored when it came to write. */
  function Found<V(==)>(s: Server<V>, obj: Stored<V>, f: V -> V, script: seq<seq<Meddling<V>>>): Option<Stored<V>>
    requires script != []
    decreases |script|
  {
    var end := Try(s, obj, f, script[0]);
    if !end.answer.GaveUp? || end.answer.error != Conflict || |script| == 1 || end.server.cell.None? then
      Meddled(s, script[0]).cell
    else Found(end.server, end.server.cell.value, f, script[1..])
  }

  /** However stale the object handed in was, a write that goes through was computed from exactly what it
      replaced; and giving up, or having nothing to change, means that nothing was written. */
  lemma {:induction false} WrittenFromWhatItReplaced<V>(s: Server<V>, obj: Stored<V>, f: V -> V, script: seq<seq<Meddling<V>>>)
    requires script != [] && Sound(s) && Genuine(s, obj)
    ensures var end, found := Tries(s, obj, f, script), Found(s, obj, f, script);
            && (end.answer.Written? ==>
                  found.Some? && f(found.value.value) != found.value.value
                  && end.server.cell.Some? && end.server.cell.value.value == f(found.value.value))
            && (!end.answer.Written? ==> end.server.cell == found)
    decreases |script|
  {
    MeddlingIsNewer(s, script[0]);
    var end := Try(s, obj, f, script[0]);
    if end.answer == GaveUp(Conflict) && |script| > 1 && end.server.cell.Some? {
      WrittenFromWhatItReplaced(end.server, end.server.cell.value, f, script[1..]);
    }
  }

  /** It gives up on a conflict only after every try has been beaten: the first by a newer version or a
      write, and each further one by a write of somebody else's since the object was refreshed. */
  lemma {:induction false} ConflictMeansBeatenEveryTime<V>(s: Server<V>, obj: Stored<V>, f: V -> V, script: seq<seq<Meddling<V>>>)
    requires script != [] && Sound(s) && Genuine(s, obj) && Tries(s, obj, f, script).answer == GaveUp(Conflict)
    ensures script[0] != [] || s.cell != Some(obj)
    ensures forall i :: 1 <= i < |script| ==> script[i] != []
    decreases |script|
  {
    MeddlingIsNewer(s, script[0]);
    if |script| > 1 {
      var end := Try(s, obj, f, script[0]);
      ConflictMeansBeatenEveryTime(end.server, end.server.cell.value, f, script[1..]);
      forall i | 1 <= i < |script| ensures script[i] != [] {
        assert script[i] == script[1..][i - 1];
      }
    }
  }
}
