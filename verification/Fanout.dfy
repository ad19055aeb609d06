/** A list over all of a tenant's namespaces, page by page (pkg/proxy/fanout.go).

The upstream cluster is a set of snapshots, one per revision it still holds. A pinned read of a
compacted revision is refused, which is the 410 clients already handle. An upstream page may be
any length up to its limit; `Full` below is the promise the source relies on.
 */
module Fanout {

  type Item = int

  /** The tenant's namespaces in sorted order, and the objects of each. */
  datatype Snapshot = Snapshot(namespaces: seq<string>, items: map<string, seq<Item>>)

  datatype Error = BadRequest | Expired

  datatype Result<T> = Ok(value: T) | Err(error: Error)

  /** Upstream's own continue token: the revision it was issued at and where it got to. */
  datatype Inner = NoInner | Inner(rev: nat, offset: nat)

  datatype Upstream = Upstream(current: nat, held: map<nat, Snapshot>, serves: (nat, string, nat, nat) -> nat)

  datatype Page = Page(items: seq<Item>, inner: Inner)

  const MAX_FANNED_NAMESPACES: nat := 500

  function ItemsOf(s: Snapshot, ns: string): seq<Item> {
    if ns in s.items then s.items[ns] else []
  }

  function Min(a: int, b: int): int {
    if a < b then a else b
  }

  /** One namespace read from an offset. A limit of zero asks for everything; a positive one is served
      as far as the upstream server cares to, never past the limit or the end. */
  function ListNamespace(u: Upstream, ns: string, rev: nat, offset: nat, limit: nat): Result<Page> {
    if rev !in u.held then Err(Expired)
    else
      var all := ItemsOf(u.held[rev], ns);
      if offset > |all| then Err(BadRequest)
      else
        var size := if limit == 0 then |all| - offset
                    else Min(u.serves(rev, ns, offset, limit), Min(limit, |all| - offset));
        Ok(Page(all[offset..offset + size], if offset + size < |all| then Inner(rev, offset + size) else NoInner))
  }

  /** A page shorter than its limit means the namespace is exhausted. */
  ghost predicate Full(u: Upstream) {
    forall rev, ns, offset, limit :: u.serves(rev, ns, offset, limit) >= limit
  }

  // ------------------------------------------------------------------ the cursor on the wire

  datatype Cursor = Cursor(rev: nat, index: int, inner: Inner)

  /** A decoded token: one this proxy wrote, with the version it was stamped with and a revision that
      may be missing, or something else altogether. */
  datatype Token = NoToken | Written(version: string, rev: nat, hasRev: bool, index: int, inner: Inner) | Foreign

  const FANOUT_CONTINUE_VERSION := "kubezoo/v1"

  function Encode(c: Cursor): (t: Token)
    ensures c.index >= 0 ==> Decode(t) == Ok(c)
  {
    Written(FANOUT_CONTINUE_VERSION, c.rev, true, c.index, c.inner)
  }

  function Decode(t: Token): Result<Cursor> {
    if !t.Written? || t.version != FANOUT_CONTINUE_VERSION || !t.hasRev || t.index < 0 then Err(BadRequest)
    else Ok(Cursor(t.rev, t.index, t.inner))
  }

  // ------------------------------------------------------------------ what is still to be listed

  /** All objects of the namespaces from an index on, in order. */
  function FlatFrom(s: Snapshot, index: nat): seq<Item>
    requires index <= |s.namespaces|
    decreases |s.namespaces| - index
  {
    if index == |s.namespaces| then [] else ItemsOf(s, s.namespaces[index]) + FlatFrom(s, index + 1)
  }

  function Flat(s: Snapshot): seq<Item> {
    FlatFrom(s, 0)
  }

  function Offset(inner: Inner): nat {
    if inner.Inner? then inner.offset else 0
  }

  /** A cursor points into the pinned namespace list, and into a namespace only at its own revision. */
  predicate Fits(s: Snapshot, c: Cursor) {
    && 0 <= c.index <= |s.namespaces|
    && (c.inner.Inner? ==>
         c.index < |s.namespaces| && c.inner.rev == c.rev && c.inner.offset < |ItemsOf(s, s.namespaces[c.index])|)
  }

  function Remaining(s: Snapshot, c: Cursor): seq<Item>
    requires Fits(s, c)
  {
    if c.index == |s.namespaces| then []
    else ItemsOf(s, s.namespaces[c.index])[Offset(c.inner)..] + FlatFrom(s, c.index + 1)
  }

  lemma RemainingAtBoundary(s: Snapshot, rev: nat, index: nat)
    requires index <= |s.namespaces|
    ensures Remaining(s, Cursor(rev, index, NoInner)) == FlatFrom(s, index)
  {
  }

  // ------------------------------------------------------------------ one page

  /** What the client gets. */
  datatype Answer = Answer(items: seq<Item>, token: Token, rev: nat)

  /** One upstream read: its limit, how many objects came back, and whether a continue token came with
      them. */
  datatype Read = Read(asked: nat, returned: nat, more: bool)

  /** One page as it was read, with every upstream read made for it, and with the number of objects passed
      over because a page shorter than its limit was taken for the last one of its namespace. */
  datatype Walk = Walk(items: seq<Item>, token: Token, lost: nat, calls: seq<Read>)

  function ReadOf(ask: nat, page: Page): Read {
    Read(ask, |page.items|, page.inner.Inner?)
  }

  /** A read that returned less than it was asked for, and yet said that there is more. */
  predicate Short(r: Read) {
    r.returned < r.asked && r.more
  }

  predicate AnyShort(calls: seq<Read>) {
    exists i :: 0 <= i < |calls| && Short(calls[i])
  }

  function Passed(s: Snapshot, ns: string, inner: Inner): nat {
    if inner.Inner? && inner.offset <= |ItemsOf(s, ns)| then |ItemsOf(s, ns)| - inner.offset else 0
  }

  function Revision(c: Cursor): nat {
    if c.inner.Inner? then c.inner.rev else c.rev
  }

  /** A page that this namespace fills: the cursor stays in it if it has more, and goes on to the next one
      otherwise; there is no cursor past the last one. */
  function FullWalk(s: Snapshot, c: Cursor, ask: nat, page: Page): Walk {
    var next := Cursor(c.rev, if page.inner.NoInner? then c.index + 1 else c.index, page.inner);
    Walk(page.items, if next.index >= |s.namespaces| && page.inner.NoInner? then NoToken else Encode(next), 0, [ReadOf(ask, page)])
  }

  /** A namespace that does not fill the page, and what follows it. */
  function JoinedWalk(s: Snapshot, c: Cursor, limited: bool, ask: nat, page: Page, rest: Walk): Walk
    requires 0 <= c.index < |s.namespaces|
  {
    var lost := if limited then Passed(s, s.namespaces[c.index], page.inner) else 0;
    Walk(page.items + rest.items, rest.token, lost + rest.lost, [ReadOf(ask, page)] + rest.calls)
  }

  /** The rest of a page from a cursor on, with room for some more objects. */
  function Walked(u: Upstream, s: Snapshot, c: Cursor, limited: bool, room: nat): Result<Walk>
    requires 0 <= c.index
    decreases |s.namespaces| - c.index
  {
    if c.index >= |s.namespaces| then Ok(Walk([], NoToken, 0, []))
    else
      var ask := if limited then room else 0;
      var page := ListNamespace(u, s.namespaces[c.index], Revision(c), Offset(c.inner), ask);
      if page.Err? then Err(page.error)
      else if limited && |page.value.items| >= room then Ok(FullWalk(s, c, ask, page.value))
      else
        var on := Cursor(c.rev, c.index + 1, if limited then NoInner else page.value.inner);
        var rest := Walked(u, s, on, limited, if limited then room - |page.value.items| else 0);
        if rest.Err? then rest else Ok(JoinedWalk(s, c, limited, ask, page.value, rest.value))
  }

  function Begin(u: Upstream, token: Token): Result<Cursor> {
    if token.NoToken? then Ok(Cursor(u.current, 0, NoInner)) else Decode(token)
  }

  /** A whole list request: the cursor is read, the pinned namespaces are enumerated, a page is walked. */
  function Listed(u: Upstream, limit: nat, token: Token): Result<Walk> {
    var c := Begin(u, token);
    if c.Err? then Err(c.error)
    else if c.value.rev !in u.held then Err(Expired)
    else
      var s := u.held[c.value.rev];
      if |s.namespaces| > MAX_FANNED_NAMESPACES || !(0 <= c.value.index <= |s.namespaces|) then Err(BadRequest)
      else Walked(u, s, c.value, limit > 0, limit)
  }

  function Wire(w: Result<Walk>, rev: nat): Result<Answer> {
    if w.Err? then Err(w.error) else Ok(Answer(w.value.items, w.value.token, rev))
  }

  /** The answer once the objects gathered so far are put before the rest of the walk. */
  function Behind(gathered: seq<Item>, rest: Result<Walk>, rev: nat): Result<Answer> {
    if rest.Err? then Err(rest.error) else Ok(Answer(gathered + rest.value.items, rest.value.token, rev))
  }

  /** One namespace that does not fill the page moves its objects from the walk to the gathered ones. */
  lemma GathersOn(u: Upstream, s: Snapshot, c: Cursor, limited: bool, room: nat, gathered: seq<Item>, page: Page)
    requires 0 <= c.index < |s.namespaces| && !(limited && |page.items| >= room)
    requires ListNamespace(u, s.namespaces[c.index], Revision(c), Offset(c.inner), if limited then room else 0) == Ok(page)
    ensures var on := Cursor(c.rev, c.index + 1, if limited then NoInner else page.inner);
            Behind(gathered, Walked(u, s, c, limited, room), c.rev)
            == Behind(gathered + page.items, Walked(u, s, on, limited, if limited then room - |page.items| else 0), c.rev)
  {
    assert forall rest: seq<Item> :: gathered + (page.items + rest) == gathered + page.items + rest;
  }

  /** One that fills it ends the page. */
  lemma GathersAll(u: Upstream, s: Snapshot, c: Cursor, room: nat, gathered: seq<Item>, page: Page)
    requires 0 <= c.index < |s.namespaces| && |page.items| >= room
    requires ListNamespace(u, s.namespaces[c.index], Revision(c), Offset(c.inner), room) == Ok(page)
    ensures Behind(gathered, Walked(u, s, c, true, room), c.rev)
            == Ok(Answer(gathered + page.items, FullWalk(s, c, room, page).token, c.rev))
  {
  }

  /** A refused read refuses the list, and past the last namespace there is nothing more. */
  lemma GathersNone(u: Upstream, s: Snapshot, c: Cursor, limited: bool, room: nat, gathered: seq<Item>)
    requires 0 <= c.index
    ensures c.index >= |s.namespaces| ==>
              Behind(gathered, Walked(u, s, c, limited, room), c.rev) == Ok(Answer(gathered, NoToken, c.rev))
    ensures c.index < |s.namespaces| ==>
              var page := ListNamespace(u, s.namespaces[c.index], Revision(c), Offset(c.inner), if limited then room else 0);
              page.Err? ==> Behind(gathered, Walked(u, s, c, limited, room), c.rev) == Err(page.error)
  {
    assert gathered + [] == gathered;
  }

  /** listAcrossNamespaces as the source runs it, one loop over the namespaces. */
  method ListAcrossNamespaces(u: Upstream, limit: nat, token: Token) returns (r: Result<Answer>)
    ensures r == Wire(Listed(u, limit, token), if Begin(u, token).Ok? then Begin(u, token).value.rev else 0)
  {
    var cursor := Cursor(u.current, 0, NoInner);
    if !token.NoToken? {
      var decoded := Decode(token);
      if decoded.Err? {
        return Err(decoded.error);
      }
      cursor := decoded.value;
    }
    if cursor.rev !in u.held {
      return Err(Expired);
    }
    var s := u.held[cursor.rev];
    if |s.namespaces| > MAX_FANNED_NAMESPACES || cursor.index > |s.namespaces| {
      return Err(BadRequest);
    }
    r := Gather(u, s, cursor, limit);
    assert forall xs: seq<Item> :: [] + xs == xs;
  }

  method Gather(u: Upstream, s: Snapshot, cursor: Cursor, limit: nat) returns (r: Result<Answer>)
    requires 0 <= cursor.index <= |s.namespaces|
    ensures r == Behind([], Walked(u, s, cursor, limit > 0, limit), cursor.rev)
  {
    var gathered: seq<Item>, remaining, inner := [], limit, cursor.inner;
    ghost var answer := Behind([], Walked(u, s, cursor, limit > 0, limit), cursor.rev);
    for index := cursor.index to |s.namespaces|
      invariant limit > 0 ==> 0 < remaining <= limit
      invariant remaining == if limit > 0 then limit - |gathered| else 0
      invariant Behind(gathered, Walked(u, s, Cursor(cursor.rev, index, inner), limit > 0, remaining), cursor.rev) == answer
    {
      ghost var c := Cursor(cursor.rev, index, inner);
      var asked := if limit > 0 then remaining else 0;
      var rev := if inner.Inner? then inner.rev else cursor.rev;
      var page := ListNamespace(u, s.namespaces[index], rev, Offset(inner), asked);
      if page.Err? {
        GathersNone(u, s, c, limit > 0, remaining, gathered);
        return Err(page.error);
      }
      if limit > 0 && |page.value.items| >= remaining {
        GathersAll(u, s, c, remaining, gathered, page.value);
      } else {
        GathersOn(u, s, c, limit > 0, remaining, gathered, page.value);
      }
      gathered := gathered + page.value.items;
      inner := page.value.inner;
      if limit > 0 {
        if |gathered| >= limit {
          // a full page: say where it stopped
          var next := Cursor(cursor.rev, if inner.NoInner? then index + 1 else index, inner);
          if next.index >= |s.namespaces| && inner.NoInner? {
            return Ok(Answer(gathered, NoToken, cursor.rev));
          }
          return Ok(Answer(gathered, Encode(next), cursor.rev));
        }
        // taken as exhausted
        remaining := limit - |gathered|;
        inner := NoInner;
      }
    }
    GathersNone(u, s, Cursor(cursor.rev, |s.namespaces|, inner), limit > 0, remaining, gathered);
    return Ok(Answer(gathered, NoToken, cursor.rev));
  }

  // ------------------------------------------------------------------ what one page leaves

  function Rest(s: Snapshot, t: Token): seq<Item> {
    if t.NoToken? || Decode(t).Err? || !Fits(s, Decode(t).value) then [] else Remaining(s, Decode(t).value)
  }

  /** An issued token can be used: it decodes, fits the pinned namespaces and keeps the revision. Only a
      full page has a successor, no page is overfull, and no upstream read of a limited request goes
      out without a limit. */
  ghost predicate TokenLaw(s: Snapshot, c: Cursor, limited: bool, room: nat, w: Walk) {
    && (w.token.NoToken? || (limited && Decode(w.token).Ok? && Fits(s, Decode(w.token).value)
                             && Decode(w.token).value.rev == c.rev))
    && (limited ==> |w.items| <= room)
    && (w.token != NoToken ==> |w.items| == room)
    && (limited ==> AsksWithin(w.calls, room))
  }

  ghost predicate AsksWithin(calls: seq<Read>, room: nat) {
    forall k :: 0 <= k < |calls| ==> 0 < calls[k].asked <= room
  }

  lemma JoinedTokens(s: Snapshot, c: Cursor, limited: bool, room: nat, page: Page, rest: Walk)
    requires 0 <= c.index < |s.namespaces| && (limited ==> |page.items| < room)
    requires TokenLaw(s, Cursor(c.rev, c.index + 1, NoInner), limited, if limited then room - |page.items| else 0, rest)
    ensures TokenLaw(s, c, limited, room, JoinedWalk(s, c, limited, if limited then room else 0, page, rest))
  {
  }

  /** Nothing appears or disappears except what was passed over, and order is kept. */
  ghost predicate ContentLaw(s: Snapshot, c: Cursor, items: seq<Item>, token: Token, lost: nat)
    requires Fits(s, c)
  {
    Accounts(items, lost, Rest(s, token), Remaining(s, c))
  }

  ghost predicate Accounts(items: seq<Item>, lost: nat, rest: seq<Item>, whole: seq<Item>) {
    |items| + lost + |rest| == |whole| && (lost == 0 ==> items + rest == whole)
  }

  /** Accounts add up over two consecutive stretches. */
  lemma AccountsAddUp(got: seq<Item>, skipped: seq<Item>, items: seq<Item>, lost: nat, rest: seq<Item>, whole: seq<Item>)
    requires Accounts(items, lost, rest, whole)
    ensures Accounts(got + items, |skipped| + lost, rest, got + skipped + whole)
  {
  }

  /** An upstream page and what it leaves of its namespace. */
  ghost predicate Splits(s: Snapshot, c: Cursor, page: Page)
    requires Fits(s, c) && c.index < |s.namespaces|
  {
    var all := ItemsOf(s, s.namespaces[c.index]);
    && (page.inner.Inner? ==> page.inner.rev == c.rev && page.inner.offset < |all|)
    && page.items + (if page.inner.Inner? then all[page.inner.offset..] else []) == all[Offset(c.inner)..]
  }

  lemma PageSplits(u: Upstream, s: Snapshot, c: Cursor, ask: nat)
    requires Fits(s, c) && c.index < |s.namespaces| && c.rev in u.held && u.held[c.rev] == s
    ensures var page := ListNamespace(u, s.namespaces[c.index], Revision(c), Offset(c.inner), ask);
            && page.Ok? && Splits(s, c, page.value)
            && (ask > 0 ==> |page.value.items| <= ask)
            && (ask == 0 ==> page.value.inner.NoInner?)
            && (Full(u) && |page.value.items| < ask ==> page.value.inner.NoInner?)
  {
  }

  lemma FullTokens(s: Snapshot, c: Cursor, room: nat, page: Page)
    requires Fits(s, c) && c.index < |s.namespaces| && Splits(s, c, page) && |page.items| == room > 0
    ensures TokenLaw(s, c, true, room, FullWalk(s, c, room, page))
  {
  }

  lemma {:induction false} WalkKeepsTokens(u: Upstream, s: Snapshot, c: Cursor, limited: bool, room: nat)
    requires Fits(s, c) && c.rev in u.held && u.held[c.rev] == s && (limited ==> room > 0)
    ensures Walked(u, s, c, limited, room).Ok?
    ensures TokenLaw(s, c, limited, room, Walked(u, s, c, limited, room).value)
    decreases |s.namespaces| - c.index
  {
    if c.index < |s.namespaces| {
      var ask := if limited then room else 0;
      PageSplits(u, s, c, ask);
      var page := ListNamespace(u, s.namespaces[c.index], Revision(c), Offset(c.inner), ask).value;
      if limited && |page.items| >= room {
        FullTokens(s, c, room, page);
      } else {
        var on := Cursor(c.rev, c.index + 1, NoInner);
        var less := if limited then room - |page.items| else 0;
        WalkKeepsTokens(u, s, on, limited, less);
        JoinedTokens(s, c, limited, room, page, Walked(u, s, on, limited, less).value);
      }
    }
  }

  lemma {:induction false} WalkKeepsContents(u: Upstream, s: Snapshot, c: Cursor, limited: bool, room: nat)
    requires Fits(s, c) && c.rev in u.held && u.held[c.rev] == s && (limited ==> room > 0)
    requires Walked(u, s, c, limited, room).Ok?
    ensures WalkAccounts(u, s, c, limited, Walked(u, s, c, limited, room).value)
    decreases |s.namespaces| - c.index
  {
    if c.index < |s.namespaces| {
      var ask := if limited then room else 0;
      PageSplits(u, s, c, ask);
      var page := ListNamespace(u, s.namespaces[c.index], Revision(c), Offset(c.inner), ask).value;
      if limited && |page.items| >= room {
        FullContents(u, s, c, room, page);
      } else {
        var on := Cursor(c.rev, c.index + 1, NoInner);
        var less := if limited then room - |page.items| else 0;
        WalkKeepsContents(u, s, on, limited, less);
        JoinedContents(u, s, c, limited, ask, page, Walked(u, s, on, limited, less).value);
      }
    }
  }

  /** A walk accounts for everything from its cursor on. It loses something exactly if one of its reads was
      short, which none is from a server that fills its pages, or without a limit. */
  ghost predicate WalkAccounts(u: Upstream, s: Snapshot, c: Cursor, limited: bool, w: Walk)
    requires Fits(s, c)
  {
    && ContentLaw(s, c, w.items, w.token, w.lost)
    && (w.lost > 0 <==> AnyShort(w.calls)) && (Full(u) || !limited ==> w.lost == 0)
  }

  lemma FullContents(u: Upstream, s: Snapshot, c: Cursor, room: nat, page: Page)
    requires Fits(s, c) && c.index < |s.namespaces| && Splits(s, c, page) && |page.items| >= room
    ensures WalkAccounts(u, s, c, true, FullWalk(s, c, room, page))
  {
    StopsFull(s, c, page);
  }

  lemma JoinedContents(u: Upstream, s: Snapshot, c: Cursor, limited: bool, ask: nat, page: Page, rest: Walk)
    requires Fits(s, c) && c.index < |s.namespaces| && Splits(s, c, page)
    requires WalkAccounts(u, s, Cursor(c.rev, c.index + 1, NoInner), limited, rest)
    requires (Full(u) || !limited ==> page.inner.NoInner?) && (limited ==> |page.items| < ask)
    ensures WalkAccounts(u, s, c, limited, JoinedWalk(s, c, limited, ask, page, rest))
  {
    GoesOn(s, c, page, rest);
    AnyShortOf(ReadOf(ask, page), rest.calls);
  }

  lemma AnyShortOf(r: Read, rest: seq<Read>)
    ensures AnyShort([r] + rest) <==> Short(r) || AnyShort(rest)
  {
    var all := [r] + rest;
    if AnyShort(rest) {
      var i :| 0 <= i < |rest| && Short(rest[i]);
      assert all[i + 1] == rest[i];
    }
    if Short(r) {
      assert all[0] == r;
    }
  }

  /** A page that is not full goes on into the next namespace. */
  lemma GoesOn(s: Snapshot, c: Cursor, page: Page, rest: Walk)
    requires Fits(s, c) && c.index < |s.namespaces| && Splits(s, c, page)
    requires ContentLaw(s, Cursor(c.rev, c.index + 1, NoInner), rest.items, rest.token, rest.lost)
    ensures ContentLaw(s, c, page.items + rest.items, rest.token,
                       Passed(s, s.namespaces[c.index], page.inner) + rest.lost)
  {
    RemainingAtBoundary(s, c.rev, c.index + 1);
    var all := ItemsOf(s, s.namespaces[c.index]);
    var skipped := if page.inner.Inner? then all[page.inner.offset..] else [];
    AccountsAddUp(page.items, skipped, rest.items, rest.lost, Rest(s, rest.token), FlatFrom(s, c.index + 1));
  }

  /** A page that ends exactly where it is full leaves the rest of its namespace and what follows. */
  lemma StopsFull(s: Snapshot, c: Cursor, page: Page)
    requires Fits(s, c) && c.index < |s.namespaces|
    requires Splits(s, c, page)
    ensures var next := Cursor(c.rev, if page.inner.NoInner? then c.index + 1 else c.index, page.inner);
            Fits(s, next) && page.items + Remaining(s, next) == Remaining(s, c)
  {
  }

  // ------------------------------------------------------------------ following the tokens

  /** The cluster as each page of one pagination finds it. Between pages anything may be written, created
      or deleted, and old revisions may be compacted; a revision still held has not changed. */
  ghost predicate Pins(world: seq<Upstream>, rev: nat, s: Snapshot) {
    forall k :: 0 <= k < |world| && rev in world[k].held ==> world[k].held[rev] == s
  }

  function TokenBefore(pages: seq<Walk>, k: nat): Token
    requires k <= |pages|
  {
    if k == 0 then NoToken else pages[k - 1].token
  }

  /** Pages obtained by following continue tokens from an empty cursor. */
  ghost predicate Pagination(world: seq<Upstream>, limit: nat, pages: seq<Walk>) {
    && |world| == |pages|
    && (forall k {:trigger TokenBefore(pages, k)} :: 0 <= k < |pages| ==>
         Listed(world[k], limit, TokenBefore(pages, k)) == Ok(pages[k]))
    && (forall k :: 0 <= k < |pages| - 1 ==> pages[k].token != NoToken)
  }

  /** The objects on the first pages, in order. */
  function Gathered(pages: seq<Walk>, k: nat := |pages|): seq<Item>
    requires k <= |pages|
    decreases k
  {
    if k == 0 then [] else Gathered(pages, k - 1) + pages[k - 1].items
  }

  function LostIn(pages: seq<Walk>, k: nat := |pages|): nat
    requires k <= |pages|
    decreases k
  {
    if k == 0 then 0 else LostIn(pages, k - 1) + pages[k - 1].lost
  }

  lemma PageLaws(u: Upstream, s: Snapshot, limit: nat, token: Token)
    requires Begin(u, token).Ok? && Fits(s, Begin(u, token).value) && limit > 0
    requires Begin(u, token).value.rev in u.held ==> u.held[Begin(u, token).value.rev] == s
    ensures var c := Begin(u, token).value;
            match Listed(u, limit, token)
            case Ok(w) =>
              && TokenLaw(s, c, true, limit, w) && ContentLaw(s, c, w.items, w.token, w.lost)
              && (w.lost > 0 <==> AnyShort(w.calls)) && (Full(u) ==> w.lost == 0)
            case Err(e) => e == if c.rev in u.held then BadRequest else Expired
    ensures |s.namespaces| <= MAX_FANNED_NAMESPACES ==>
              (Listed(u, limit, token).Ok? <==> Begin(u, token).value.rev in u.held)
  {
    var c := Begin(u, token).value;
    if c.rev in u.held {
      WalkKeepsTokens(u, s, c, true, limit);
      WalkKeepsContents(u, s, c, true, limit);
    }
  }

  /** Every issued token can be followed: the next page is served from the same snapshot, or refused as
      expired if that snapshot is gone, and never refused for any other reason. */
  lemma IssuedTokenWorks(u: Upstream, later: Upstream, s: Snapshot, limit: nat, token: Token)
    requires Begin(u, token).Ok? && Fits(s, Begin(u, token).value) && limit > 0
    requires Begin(u, token).value.rev in u.held && u.held[Begin(u, token).value.rev] == s
    requires Begin(u, token).value.rev in later.held ==> later.held[Begin(u, token).value.rev] == s
    requires Listed(u, limit, token).Ok? && Listed(u, limit, token).value.token != NoToken
    ensures var rev, next := Begin(u, token).value.rev, Listed(u, limit, token).value.token;
            && Begin(later, next).Ok? && Fits(s, Begin(later, next).value) && Begin(later, next).value.rev == rev
            && (rev in later.held ==> Listed(later, limit, next).Ok?)
            && (rev !in later.held ==> Listed(later, limit, next) == Err(Expired))
  {
    PageLaws(u, s, limit, token);
    PageLaws(later, s, limit, Listed(u, limit, token).value.token);
  }

  function CursorOf(rev: nat, t: Token): Cursor {
    if t.NoToken? || Decode(t).Err? then Cursor(rev, 0, NoInner) else Decode(t).value
  }

  /** One page of a pagination: its token was usable, and it keeps the law of a page. */
  ghost predicate Link(s: Snapshot, rev: nat, limit: nat, t: Token, w: Walk) {
    && (t.NoToken? || Decode(t).Ok?) && Fits(s, CursorOf(rev, t)) && CursorOf(rev, t).rev == rev
    && TokenLaw(s, CursorOf(rev, t), true, limit, w)
    && ContentLaw(s, CursorOf(rev, t), w.items, w.token, w.lost)
  }

  /** A token a page can be asked for with. */
  ghost predicate Usable(s: Snapshot, rev: nat, t: Token) {
    (t.NoToken? || Decode(t).Ok?) && Fits(s, CursorOf(rev, t)) && CursorOf(rev, t).rev == rev
  }

  /** A page of a pagination pinned to a snapshot: what it was asked with was usable, and so is what it
      issued. */
  ghost predicate Linked(u: Upstream, s: Snapshot, rev: nat, limit: nat, t: Token, w: Walk) {
    && Link(s, rev, limit, t, w) && (w.token.NoToken? || Usable(s, rev, w.token))
    && (w.lost > 0 <==> AnyShort(w.calls)) && (Full(u) ==> w.lost == 0)
  }

  ghost predicate Asked(u: Upstream, s: Snapshot, rev: nat, limit: nat, t: Token, w: Walk) {
    && Listed(u, limit, t) == Ok(w)
    && (t.NoToken? ==> u.current == rev) && (rev in u.held ==> u.held[rev] == s)
  }

  lemma AskedIsLinked(u: Upstream, s: Snapshot, rev: nat, limit: nat, t: Token, w: Walk)
    requires limit > 0 && Usable(s, rev, t) && Asked(u, s, rev, limit, t, w)
    ensures Linked(u, s, rev, limit, t, w)
  {
    PageLaws(u, s, limit, t);
  }

  lemma FirstIsUsable(s: Snapshot, rev: nat)
    ensures Usable(s, rev, NoToken)
  {
  }

  lemma IssuedIsUsable(u: Upstream, s: Snapshot, rev: nat, limit: nat, t: Token, w: Walk)
    requires limit > 0 && Usable(s, rev, t) && Asked(u, s, rev, limit, t, w) && !w.token.NoToken?
    ensures Usable(s, rev, w.token)
  {
    AskedIsLinked(u, s, rev, limit, t, w);
  }

  lemma PageIsAsked(world: seq<Upstream>, limit: nat, pages: seq<Walk>, s: Snapshot, k: nat)
    requires Pagination(world, limit, pages) && k < |pages| && Pins(world, world[0].current, s)
    ensures Asked(world[k], s, world[0].current, limit, TokenBefore(pages, k), pages[k])
  {
  }

  lemma {:induction false} TokensAreUsable(world: seq<Upstream>, limit: nat, pages: seq<Walk>, s: Snapshot, k: nat)
    requires limit > 0 && Pagination(world, limit, pages) && k < |pages|
    requires Pins(world, world[0].current, s)
    ensures Usable(s, world[0].current, TokenBefore(pages, k))
    decreases k
  {
    var rev := world[0].current;
    if k > 0 {
      TokensAreUsable(world, limit, pages, s, k - 1);
      PageIsAsked(world, limit, pages, s, k - 1);
      IssuedIsUsable(world[k - 1], s, rev, limit, TokenBefore(pages, k - 1), pages[k - 1]);
    } else {
      FirstIsUsable(s, rev);
    }
  }

  lemma PagesLink(world: seq<Upstream>, limit: nat, pages: seq<Walk>, s: Snapshot, k: nat)
    requires limit > 0 && Pagination(world, limit, pages) && k < |pages|
    requires Pins(world, world[0].current, s)
    ensures Linked(world[k], s, world[0].current, limit, TokenBefore(pages, k), pages[k])
  {
    PageIsAsked(world, limit, pages, s, k);
    TokensAreUsable(world, limit, pages, s, k);
    AskedIsLinked(world[k], s, world[0].current, limit, TokenBefore(pages, k), pages[k]);
  }

  /** What is left to list before a page: everything, or what its token points at. */
  function Left(s: Snapshot, t: Token): seq<Item> {
    if t.NoToken? then Flat(s) else Rest(s, t)
  }

  ghost predicate PageAccounts(s: Snapshot, pages: seq<Walk>, k: nat)
    requires k < |pages|
  {
    Accounts(pages[k].items, pages[k].lost, Rest(s, pages[k].token), Left(s, TokenBefore(pages, k)))
  }

  lemma LinkAccounts(s: Snapshot, rev: nat, limit: nat, pages: seq<Walk>, k: nat)
    requires k < |pages| && Link(s, rev, limit, TokenBefore(pages, k), pages[k])
    ensures PageAccounts(s, pages, k)
  {
  }

  ghost predicate Balanced(pages: seq<Walk>, left: seq<seq<Item>>, i: nat)
    requires i < |pages| && |left| == |pages| + 1
  {
    Accounts(pages[i].items, pages[i].lost, left[i + 1], left[i])
  }

  /** Accounts of consecutive pages add up; `left` is what is left to list before each of them. */
  lemma {:induction false} ChainAccounts(pages: seq<Walk>, left: seq<seq<Item>>, k: nat)
    requires k <= |pages| && |left| == |pages| + 1
    requires forall i :: 0 <= i < k ==> Balanced(pages, left, i)
    ensures Accounts(Gathered(pages, k), LostIn(pages, k), left[k], left[0])
    decreases k
  {
    if k > 0 {
      assert Balanced(pages, left, k - 1);
      ChainAccounts(pages, left, k - 1);
      AccountsFollow(Gathered(pages, k - 1), LostIn(pages, k - 1), left[k - 1], left[0],
                     pages[k - 1].items, pages[k - 1].lost, left[k]);
    } else {
      assert [] + left[0] == left[0];
    }
  }

  lemma {:induction false} FullPages(pages: seq<Walk>, limit: nat, k: nat)
    requires k <= |pages| && forall i :: 0 <= i < k ==> |pages[i].items| == limit
    ensures |Gathered(pages, k)| == limit * k
    decreases k
  {
    if k > 0 {
      FullPages(pages, limit, k - 1);
    }
  }

  lemma AccountsFollow(items: seq<Item>, lost: nat, rest: seq<Item>, whole: seq<Item>,
                       more: seq<Item>, lostMore: nat, rest': seq<Item>)
    requires Accounts(items, lost, rest, whole) && Accounts(more, lostMore, rest', rest)
    ensures Accounts(items + more, lost + lostMore, rest', whole)
  {
  }

  lemma {:induction false} NothingLostIff(pages: seq<Walk>, k: nat)
    requires k <= |pages|
    ensures LostIn(pages, k) == 0 <==> forall i :: 0 <= i < k ==> pages[i].lost == 0
    decreases k
  {
    if k > 0 {
      NothingLostIff(pages, k - 1);
    }
  }

  /** What a page owes: its share of the account, and no more than its limit. */
  ghost predicate PageOk(s: Snapshot, limit: nat, pages: seq<Walk>, k: nat)
    requires k < |pages|
  {
    && PageAccounts(s, pages, k)
    && |pages[k].items| <= limit && (pages[k].token != NoToken ==> |pages[k].items| == limit)
  }

  lemma PagesOk(world: seq<Upstream>, limit: nat, pages: seq<Walk>, s: Snapshot)
    requires limit > 0 && Pagination(world, limit, pages) && pages != []
    requires world[0].current in world[0].held && Pins(world, world[0].current, s)
    ensures forall k :: 0 <= k < |pages| ==> PageOk(s, limit, pages, k)
    ensures forall k :: 0 <= k < |pages| ==> (pages[k].lost > 0 <==> AnyShort(pages[k].calls))
    ensures forall k :: 0 <= k < |pages| && Full(world[k]) ==> pages[k].lost == 0
  {
    forall k | 0 <= k < |pages|
      ensures PageOk(s, limit, pages, k)
      ensures (pages[k].lost > 0 <==> AnyShort(pages[k].calls)) && (Full(world[k]) ==> pages[k].lost == 0)
    {
      PagesLink(world, limit, pages, s, k);
      LinkAccounts(s, world[0].current, limit, pages, k);
    }
  }

  /** What is left to list before a page, and after the last one. */
  function LeftBefore(s: Snapshot, pages: seq<Walk>, i: nat): seq<Item>
    requires i <= |pages|
  {
    if i == 0 then Flat(s) else Rest(s, pages[i - 1].token)
  }

  function AllLeft(s: Snapshot, pages: seq<Walk>): (left: seq<seq<Item>>)
    ensures |left| == |pages| + 1 && forall i :: 0 <= i <= |pages| ==> left[i] == LeftBefore(s, pages, i)
  {
    seq(|pages| + 1, i requires 0 <= i <= |pages| => LeftBefore(s, pages, i))
  }

  lemma PageBalances(s: Snapshot, limit: nat, pages: seq<Walk>, i: nat)
    requires i < |pages| && PageOk(s, limit, pages, i) && (i > 0 ==> pages[i - 1].token != NoToken)
    ensures Balanced(pages, AllLeft(s, pages), i)
  {
  }

  lemma PagesAddUp(s: Snapshot, limit: nat, pages: seq<Walk>)
    requires pages != [] && forall k :: 0 <= k < |pages| ==> PageOk(s, limit, pages, k)
    requires forall k :: 0 <= k < |pages| - 1 ==> pages[k].token != NoToken
    ensures Accounts(Gathered(pages), LostIn(pages), LeftBefore(s, pages, |pages|), Flat(s))
  {
    forall i | 0 <= i < |pages|
      ensures Balanced(pages, AllLeft(s, pages), i)
    {
      assert PageOk(s, limit, pages, i);
      PageBalances(s, limit, pages, i);
    }
    ChainAccounts(pages, AllLeft(s, pages), |pages|);
  }

  lemma PagesAreFull(s: Snapshot, limit: nat, pages: seq<Walk>)
    requires pages != [] && forall k :: 0 <= k < |pages| ==> PageOk(s, limit, pages, k)
    requires forall k :: 0 <= k < |pages| - 1 ==> pages[k].token != NoToken
    ensures forall k :: 0 <= k < |pages| - 1 ==> |pages[k].items| == limit
    ensures limit * (|pages| - 1) <= |Gathered(pages)|
  {
    forall k | 0 <= k < |pages| - 1 ensures |pages[k].items| == limit {
      assert PageOk(s, limit, pages, k);
    }
    FullPages(pages, limit, |pages| - 1);
  }

  /** Some upstream read returned less than it was asked for together with a continue token. */
  ghost predicate AnyPageShort(pages: seq<Walk>) {
    exists k :: 0 <= k < |pages| && AnyShort(pages[k].calls)
  }

  /** Following the tokens to the end yields the flat list of the first page's snapshot, whatever happened to
      the cluster meanwhile, exactly when no upstream read returned less than it was asked for together with
      a continue token; and none does when the upstream server fills its pages. */
  lemma FollowingIsExact(world: seq<Upstream>, limit: nat, pages: seq<Walk>, s: Snapshot)
    requires limit > 0 && Pagination(world, limit, pages) && pages != [] && pages[|pages| - 1].token == NoToken
    requires world[0].current in world[0].held && Pins(world, world[0].current, s)
    ensures Gathered(pages) == Flat(s) <==> !AnyPageShort(pages)
    ensures (forall k :: 0 <= k < |pages| ==> Full(world[k])) ==> !AnyPageShort(pages)
  {
    PagesOk(world, limit, pages, s);
    PagesAddUp(s, limit, pages);
    NothingLostIff(pages, |pages|);
    assert Gathered(pages) + [] == Gathered(pages);
  }

  /** A pagination ends: every page but the last holds exactly `limit` objects, so there is at most
      one page more than there are full pages in the snapshot. */
  lemma FollowingIsBounded(world: seq<Upstream>, limit: nat, pages: seq<Walk>, s: Snapshot)
    requires limit > 0 && Pagination(world, limit, pages) && pages != []
    requires world[0].current in world[0].held && Pins(world, world[0].current, s)
    ensures forall k :: 0 <= k < |pages| - 1 ==> |pages[k].items| == limit
    ensures limit * (|pages| - 1) <= |Flat(s)|
  {
    PagesOk(world, limit, pages, s);
    PagesAddUp(s, limit, pages);
    PagesAreFull(s, limit, pages);
  }

  /** A list without a limit is the flat list of the current snapshot, in one page, however the upstream
      server fills limited ones. */
  lemma UnlimitedIsFlat(u: Upstream)
    requires u.current in u.held && |u.held[u.current].namespaces| <= MAX_FANNED_NAMESPACES
    ensures var w := Listed(u, 0, NoToken);
            w.Ok? && w.value.items == Flat(u.held[u.current]) && w.value.token == NoToken
  {
    var s := u.held[u.current];
    var c := Cursor(u.current, 0, NoInner);
    WalkKeepsTokens(u, s, c, false, 0);
    WalkKeepsContents(u, s, c, false, 0);
    RemainingAtBoundary(s, u.current, 0);
    var w := Walked(u, s, c, false, 0).value;
    assert w.items + [] == w.items;
  }

  /** The promise is needed: an upstream server that answers a limit of two with one object and a token
      has the second one passed over. */
  lemma ShortPageLoses(a: Item, b: Item)
    ensures var s := Snapshot(["ns"], map["ns" := [a, b]]);
            var u := Upstream(1, map[1 := s], (_, _, _, _) => 1);
            Listed(u, 2, NoToken) == Ok(Walk([a], NoToken, 1, [Read(2, 1, true)])) && Flat(s) == [a, b]
  {
    var s := Snapshot(["ns"], map["ns" := [a, b]]);
    var u := Upstream(1, map[1 := s], (_, _, _, _) => 1);
    assert ListNamespace(u, "ns", 1, 0, 2) == Ok(Page([a], Inner(1, 1))) by {
      assert [a, b][0..1] == [a];
    }
    assert Walked(u, s, Cursor(1, 1, NoInner), true, 1) == Ok(Walk([], NoToken, 0, []));
    assert [a] + [] == [a] && [Read(2, 1, true)] + [] == [Read(2, 1, true)];
    assert FlatFrom(s, 1) == [] && [a, b] + [] == [a, b];
  }
}
