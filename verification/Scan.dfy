/**
 Paging over several collections (`scan` in memorybridge/service.py).

 Other clients change the store while a page is read: `View` gives every collection as each successive call
 to the store sees it, None while the collection does not exist.  Each call takes one tick.
 */
module Scan {
  import opened Basics
  import opened Sorting
  import opened Json
  import opened Cursor

  datatype Point = Point(id: PointId, payload: Json)
  datatype Item = Item(ci: nat, point: Point)

  type View = (nat, nat) -> Option<seq<Point>>

  /** `next` is where the following page starts, `later` the tick after the last call. */
  datatype Page = Page(items: seq<Item>, next: Option<Position>, later: nat) | Raised

  /** The points a scroll may return: those with an id of at least `offset`. */
  function From(c: seq<Point>, offset: Option<PointId>): seq<Point> {
    if offset.None? || c == [] || IdLeq(offset.value, c[0].id) then c else From(c[1..], offset)
  }

  function Tagged(ci: nat, points: seq<Point>): (items: seq<Item>)
    ensures |items| == |points| && forall k :: 0 <= k < |items| ==> items[k] == Item(ci, points[k])
  {
    if points == [] then [] else [Item(ci, points[0])] + Tagged(ci, points[1..])
  }

  function Prepend(items: seq<Item>, page: Page): Page {
    if page.Raised? then Raised else page.(items := items + page.items)
  }

  /** One page of at most `room` items out of `n` collections. */
  function PageFrom(view: View, n: nat, tick: nat, pos: Position, room: nat): Page
    decreases n - pos.ci
  {
    if pos.ci >= n then Page([], None, tick)
    else if room == 0 then Page([], Some(Position(pos.ci, None)), tick)
    else if view(tick, pos.ci).None? then PageFrom(view, n, tick + 1, Position(pos.ci + 1, None), room)
    else if view(tick + 1, pos.ci).None? then Raised
    else
      var found := From(view(tick + 1, pos.ci).value, pos.offset);
      if |found| > room then
        Page(Tagged(pos.ci, found[..room]), Some(Position(pos.ci, Some(found[room].id))), tick + 2)
      else
        Prepend(Tagged(pos.ci, found), PageFrom(view, n, tick + 2, Position(pos.ci + 1, None), room - |found|))
  }

  datatype Reply = Reply(items: seq<Item>, next: Option<string>, later: nat)

  function NextCursor(next: Option<Position>): Option<string> {
    match next
    case None => None
    case Some(p) => CursorTextIsAscii(p); Some(EncodeCursor(p))
  }

  /** The reply to one request; None when the source raises. */
  function ReplyTo(view: View, n: nat, limit: nat, cursor: Option<string>, tick: nat): Option<Reply> {
    if n == 0 then Some(Reply([], None, tick))
    else
      match DecodeCursor(cursor)
      case None => None
      case Some(pos) => AsReply(PageFrom(view, n, tick, pos, limit))
  }

  function AsReply(page: Page): Option<Reply> {
    match page
    case Raised => None
    case Page(items, next, later) => Some(Reply(items, NextCursor(next), later))
  }

  method Scan(view: View, n: nat, limit: nat, cursor: Option<string>, start: nat) returns (reply: Option<Reply>)
    ensures reply == ReplyTo(view, n, limit, cursor, start)
  {
    if n == 0 {
      return Some(Reply([], None, start));
    }
    var decoded := DecodeCursor(cursor);
    if decoded.None? {
      return None;
    }
    var page := ReadPage(view, n, limit, decoded.value, start);
    reply := AsReply(page);
  }

  /** The loop over the collections. */
  method ReadPage(view: View, n: nat, limit: nat, from: Position, start: nat) returns (page: Page)
    ensures page == PageFrom(view, n, start, from, limit)
  {
    var ci, offset := from.ci, from.offset;
    var items: seq<Item>, tick := [], start;
    ghost var whole := PageFrom(view, n, start, from, limit);
    StartsWhole(view, n, start, from, limit);
    while ci < n && |items| < limit
      invariant |items| <= limit
      invariant Remains(view, n, whole, items, tick, Position(ci, offset), limit - |items|)
      decreases n - ci
    {
      var pos, room := Position(ci, offset), limit - |items|;
      if view(tick, ci).None? {
        SkipsMissing(view, n, whole, items, tick, pos, room);
        ci, offset, tick := ci + 1, None, tick + 1;
        continue;
      }
      if view(tick + 1, ci).None? {
        StopsAtVanished(view, n, whole, items, tick, pos, room);
        return Raised;
      }
      var found := From(view(tick + 1, ci).value, offset);
      if |found| > room {
        StopsAtFull(view, n, whole, items, tick, pos, room);
        return Page(items + Tagged(ci, found[..room]), Some(Position(ci, Some(found[room].id))), tick + 2);
      }
      TakesAll(view, n, whole, items, tick, pos, room);
      items := items + Tagged(ci, found);
      ci, offset, tick := ci + 1, None, tick + 2;
    }
    return Page(items, if ci < n then Some(Position(ci, None)) else None, tick);
  }

  lemma {:induction false} StartsWhole(view: View, n: nat, tick: nat, pos: Position, room: nat)
    ensures Remains(view, n, PageFrom(view, n, tick, pos, room), [], tick, pos, room)
  {
    var page := PageFrom(view, n, tick, pos, room);
    if page.Page? {
      assert [] + page.items == page.items;
    }
  }

  /** `items` and the page from here on make up the whole page. */
  ghost predicate Remains(view: View, n: nat, whole: Page, items: seq<Item>, tick: nat, pos: Position, room: nat)
    ensures Remains(view, n, whole, items, tick, pos, room) && pos.ci >= n ==> whole == Page(items, None, tick)
    ensures Remains(view, n, whole, items, tick, pos, room) && pos.ci < n && room == 0 ==>
              whole == Page(items, Some(Position(pos.ci, None)), tick)
  {
    assert items + [] == items;
    whole == Prepend(items, PageFrom(view, n, tick, pos, room))
  }

  lemma SkipsMissing(view: View, n: nat, whole: Page, items: seq<Item>, tick: nat, pos: Position, room: nat)
    requires Remains(view, n, whole, items, tick, pos, room) && pos.ci < n && room > 0 && view(tick, pos.ci).None?
    ensures Remains(view, n, whole, items, tick + 1, Position(pos.ci + 1, None), room)
  {
  }

  lemma StopsAtVanished(view: View, n: nat, whole: Page, items: seq<Item>, tick: nat, pos: Position, room: nat)
    requires Remains(view, n, whole, items, tick, pos, room) && pos.ci < n && room > 0
    requires view(tick, pos.ci).Some? && view(tick + 1, pos.ci).None?
    ensures whole == Raised
  {
  }

  lemma StopsAtFull(view: View, n: nat, whole: Page, items: seq<Item>, tick: nat, pos: Position, room: nat)
    requires Remains(view, n, whole, items, tick, pos, room) && pos.ci < n && room > 0
    requires view(tick, pos.ci).Some? && view(tick + 1, pos.ci).Some?
    requires |From(view(tick + 1, pos.ci).value, pos.offset)| > room
    ensures var found := From(view(tick + 1, pos.ci).value, pos.offset);
            whole == Page(items + Tagged(pos.ci, found[..room]), Some(Position(pos.ci, Some(found[room].id))), tick + 2)
  {
  }

  lemma TakesAll(view: View, n: nat, whole: Page, items: seq<Item>, tick: nat, pos: Position, room: nat)
    requires Remains(view, n, whole, items, tick, pos, room) && pos.ci < n && room > 0
    requires view(tick, pos.ci).Some? && view(tick + 1, pos.ci).Some?
    requires |From(view(tick + 1, pos.ci).value, pos.offset)| <= room
    ensures var found := From(view(tick + 1, pos.ci).value, pos.offset);
            Remains(view, n, whole, items + Tagged(pos.ci, found), tick + 2, Position(pos.ci + 1, None), room - |found|)
  {
    var found := Tagged(pos.ci, From(view(tick + 1, pos.ci).value, pos.offset));
    var rest := PageFrom(view, n, tick + 2, Position(pos.ci + 1, None), room - |found|);
    if rest.Page? {
      assert items + (found + rest.items) == items + found + rest.items;
    }
  }

  // ---- one page ------------------------------------------------------------------------------------

  ghost predicate Ordered(c: seq<Point>) {
    forall i, j :: 0 <= i < j < |c| ==> IdLess(c[i].id, c[j].id)
  }

  ghost predicate OrderedView(view: View) {
    forall t, ci :: view(t, ci).Some? ==> Ordered(view(t, ci).value)
  }

  /** `pos` has been passed, so nothing at this key is returned from there on. */
  predicate Passed(ci: nat, id: PointId, pos: Position) {
    ci < pos.ci || (ci == pos.ci && pos.offset.Some? && IdLess(id, pos.offset.value))
  }

  predicate KeyLess(a: Item, b: Item) {
    a.ci < b.ci || (a.ci == b.ci && IdLess(a.point.id, b.point.id))
  }

  ghost predicate Ascending(items: seq<Item>) {
    forall i, j :: 0 <= i < j < |items| ==> KeyLess(items[i], items[j])
  }

  ghost predicate Holds(view: View, t: nat, ci: nat, point: Point) {
    view(t, ci).Some? && point in view(t, ci).value
  }

  /** What makes a point the same point while its payload changes. */
  datatype Key = Key(ci: nat, id: PointId)

  function KeyOf(item: Item): Key {
    Key(item.ci, item.point.id)
  }

  ghost predicate HoldsKey(view: View, t: nat, key: Key) {
    exists point :: Holds(view, t, key.ci, point) && point.id == key.id
  }

  /** At every tick in the range the collection exists and holds a point with this id, whatever its payload. */
  ghost predicate Throughout(view: View, key: Key, from: nat, to: nat) {
    forall t :: from <= t < to ==> HoldsKey(view, t, key)
  }

  ghost predicate Has(items: seq<Item>, key: Key) {
    exists item :: item in items && KeyOf(item) == key
  }

  ghost predicate Seen(view: View, item: Item, from: nat, to: nat) {
    exists t :: from <= t < to && Holds(view, t, item.ci, item.point)
  }

  /** In the range of keys that starts at `pos` and ends before `next`. */
  predicate InRange(key: Key, n: nat, pos: Position, next: Option<Position>) {
    && key.ci < n
    && !Passed(key.ci, key.id, pos)
    && (next.Some? ==> Passed(key.ci, key.id, next.value))
  }

  ghost predicate ItemsInRange(items: seq<Item>, n: nat, pos: Position, next: Option<Position>) {
    forall k :: 0 <= k < |items| ==> InRange(KeyOf(items[k]), n, pos, next)
  }

  lemma {:induction false} FromIsTail(c: seq<Point>, offset: Option<PointId>)
    requires Ordered(c)
    ensures var k := |c| - |From(c, offset)|;
            && 0 <= k && From(c, offset) == c[k..]
            && (forall i :: 0 <= i < k ==> offset.Some? && IdLess(c[i].id, offset.value))
            && (forall i :: k <= i < |c| ==> !(offset.Some? && IdLess(c[i].id, offset.value)))
  {
    if offset.Some? && c != [] {
      if IdLeq(offset.value, c[0].id) {
        forall i | 0 <= i < |c| ensures !IdLess(c[i].id, offset.value) {
          IdOrder(offset.value, c[0].id, c[i].id);
          IdOrder(c[i].id, offset.value, c[i].id);
        }
      } else {
        IdOrder(c[0].id, offset.value, offset.value);
        FromIsTail(c[1..], offset);
      }
    }
  }

  lemma {:induction false} LaterIsLater(view: View, n: nat, tick: nat, pos: Position, room: nat)
    ensures var page := PageFrom(view, n, tick, pos, room); page.Page? ==> tick <= page.later
    decreases n - pos.ci
  {
    if pos.ci < n && room > 0 {
      var ahead := Position(pos.ci + 1, None);
      if view(tick, pos.ci).None? {
        LaterIsLater(view, n, tick + 1, ahead, room);
      } else if view(tick + 1, pos.ci).Some? {
        var found := From(view(tick + 1, pos.ci).value, pos.offset);
        if |found| <= room {
          LaterIsLater(view, n, tick + 2, ahead, room - |found|);
        }
      }
    }
  }

  /** No page is longer than asked, and only the last is shorter. */
  lemma {:induction false} PageSize(view: View, n: nat, tick: nat, pos: Position, room: nat)
    ensures var page := PageFrom(view, n, tick, pos, room);
            page.Page? ==> |page.items| <= room && (page.next.Some? ==> |page.items| == room)
    decreases n - pos.ci
  {
    if pos.ci < n && room > 0 {
      if view(tick, pos.ci).None? {
        PageSize(view, n, tick + 1, Position(pos.ci + 1, None), room);
      } else if view(tick + 1, pos.ci).Some? {
        var found := From(view(tick + 1, pos.ci).value, pos.offset);
        if |found| <= room {
          PageSize(view, n, tick + 2, Position(pos.ci + 1, None), room - |found|);
        }
      }
    }
  }

  lemma {:induction false} PrependKeepsOrder(ci: nat, points: seq<Point>, items: seq<Item>)
    requires Ordered(points) && Ascending(items)
    requires forall k :: 0 <= k < |items| ==> ci < items[k].ci
    ensures Ascending(Tagged(ci, points) + items)
  {
  }

  /** What a page covers: keys from its position up to the next, in order. */
  ghost predicate Covers(n: nat, pos: Position, page: Page)
    requires page.Page?
  {
    ItemsInRange(page.items, n, pos, page.next) && Ascending(page.items)
  }

  lemma SliceIsOrdered(c: seq<Point>, i: nat, j: nat)
    requires Ordered(c) && i <= j <= |c|
    ensures Ordered(c[i..j])
  {
  }

  lemma {:induction false} TaggedAscends(ci: nat, points: seq<Point>)
    requires Ordered(points)
    ensures Ascending(Tagged(ci, points))
  {
  }

  lemma {:induction false} SliceInRange(ci: nat, n: nat, c: seq<Point>, offset: Option<PointId>, k: nat, room: nat)
    requires Ordered(c) && ci < n && k + room < |c|
    requires forall i :: k <= i < |c| ==> !(offset.Some? && IdLess(c[i].id, offset.value))
    ensures ItemsInRange(Tagged(ci, c[k..k + room]), n, Position(ci, offset), Some(Position(ci, Some(c[k + room].id))))
  {
    var items := Tagged(ci, c[k..k + room]);
    forall i | 0 <= i < room
      ensures InRange(KeyOf(items[i]), n, Position(ci, offset), Some(Position(ci, Some(c[k + room].id))))
    {
      assert items[i].point == c[k + i];
    }
  }

  lemma {:induction false} FullPageCovers(ci: nat, n: nat, c: seq<Point>, offset: Option<PointId>, room: nat)
    requires Ordered(c) && ci < n && |From(c, offset)| > room
    ensures var found := From(c, offset); var pos := Position(ci, offset);
            Ascending(Tagged(ci, found[..room]))
            && ItemsInRange(Tagged(ci, found[..room]), n, pos, Some(Position(ci, Some(found[room].id))))
  {
    FromIsTail(c, offset);
    var found, k := From(c, offset), |c| - |From(c, offset)|;
    SliceIsOrdered(c, k, k + room);
    assert found[..room] == c[k..k + room] && found[room] == c[k + room];
    TaggedAscends(ci, c[k..k + room]);
    SliceInRange(ci, n, c, offset, k, room);
  }

  lemma {:induction false} TaggedInRange(ci: nat, n: nat, c: seq<Point>, offset: Option<PointId>, next: Option<Position>)
    requires Ordered(c) && ci < n && (next.Some? ==> ci < next.value.ci)
    ensures Ordered(From(c, offset)) && ItemsInRange(Tagged(ci, From(c, offset)), n, Position(ci, offset), next)
  {
    FromIsTail(c, offset);
    SliceIsOrdered(c, |c| - |From(c, offset)|, |c|);
  }

  lemma {:induction false} NextIsAhead(view: View, n: nat, tick: nat, pos: Position, room: nat)
    ensures var page := PageFrom(view, n, tick, pos, room); page.Page? && page.next.Some? ==> pos.ci <= page.next.value.ci < n
    decreases n - pos.ci
  {
    if pos.ci < n && room > 0 {
      var ahead := Position(pos.ci + 1, None);
      if view(tick, pos.ci).None? {
        NextIsAhead(view, n, tick + 1, ahead, room);
      } else if view(tick + 1, pos.ci).Some? {
        var found := From(view(tick + 1, pos.ci).value, pos.offset);
        if |found| <= room {
          NextIsAhead(view, n, tick + 2, ahead, room - |found|);
        }
      }
    }
  }

  lemma {:induction false} PageCovers(view: View, n: nat, tick: nat, pos: Position, room: nat)
    requires OrderedView(view)
    ensures var page := PageFrom(view, n, tick, pos, room); page.Page? ==> Covers(n, pos, page)
    decreases n - pos.ci
  {
    var page := PageFrom(view, n, tick, pos, room);
    if page.Page? && pos.ci < n && room > 0 {
      var ahead := Position(pos.ci + 1, None);
      if view(tick, pos.ci).None? {
        PageCovers(view, n, tick + 1, ahead, room);
      } else {
        var c := view(tick + 1, pos.ci).value;
        var found := From(c, pos.offset);
        if |found| > room {
          FullPageCovers(pos.ci, n, c, pos.offset, room);
        } else {
          var rest := PageFrom(view, n, tick + 2, ahead, room - |found|);
          PageCovers(view, n, tick + 2, ahead, room - |found|);
          NextIsAhead(view, n, tick + 2, ahead, room - |found|);
          TaggedInRange(pos.ci, n, c, pos.offset, rest.next);
          PrependKeepsOrder(pos.ci, found, rest.items);
        }
      }
    }
  }

  lemma {:induction false} FoundIsComplete(item: Item, c: seq<Point>, offset: Option<PointId>)
    requires Ordered(c) && item.point in c && !Passed(item.ci, item.point.id, Position(item.ci, offset))
    ensures item in Tagged(item.ci, From(c, offset))
  {
    FromIsTail(c, offset);
    var i :| 0 <= i < |c| && c[i] == item.point;
    var k := |c| - |From(c, offset)|;
    assert From(c, offset)[i - k] == item.point;
    assert Tagged(item.ci, From(c, offset))[i - k] == item;
  }

  lemma {:induction false} FullIsComplete(item: Item, c: seq<Point>, offset: Option<PointId>, room: nat)
    requires Ordered(c) && item.point in c && !Passed(item.ci, item.point.id, Position(item.ci, offset))
    requires |From(c, offset)| > room && IdLess(item.point.id, From(c, offset)[room].id)
    ensures item in Tagged(item.ci, From(c, offset)[..room])
  {
    var found := From(c, offset);
    FoundIsComplete(item, c, offset);
    FromIsTail(c, offset);
    var i :| 0 <= i < |found| && found[i] == item.point;
    if room < i {
      assert IdLess(found[room].id, found[i].id);
      IdOrder(found[room].id, found[i].id, found[i].id);
    }
    assert found[..room][i] == item.point;
    assert Tagged(item.ci, found[..room])[i] == item;
  }

  lemma {:induction false} FoundHasKey(key: Key, c: seq<Point>, offset: Option<PointId>, k: nat, point: Point)
    requires Ordered(c) && point in c && point.id == key.id && !Passed(key.ci, key.id, Position(key.ci, offset))
    requires k <= |From(c, offset)|
    requires k < |From(c, offset)| ==> IdLess(key.id, From(c, offset)[k].id)
    ensures Has(Tagged(key.ci, From(c, offset)[..k]), key)
  {
    var item, found := Item(key.ci, point), From(c, offset);
    if k < |found| {
      FullIsComplete(item, c, offset, k);
    } else {
      FoundIsComplete(item, c, offset);
      assert found[..k] == found;
    }
    assert KeyOf(item) == key;
  }

  lemma HasInLonger(own: seq<Item>, rest: seq<Item>, key: Key)
    requires Has(own, key) || Has(rest, key)
    ensures Has(own + rest, key)
  {
    var item :| (item in own || item in rest) && KeyOf(item) == key;
    assert item in own + rest;
  }

  lemma {:induction false} PageIsComplete(view: View, n: nat, tick: nat, pos: Position, room: nat, key: Key)
    requires OrderedView(view)
    requires var page := PageFrom(view, n, tick, pos, room);
             page.Page? && InRange(key, n, pos, page.next) && Throughout(view, key, tick, page.later)
    ensures Has(PageFrom(view, n, tick, pos, room).items, key)
    decreases n - pos.ci
  {
    var page, ahead := PageFrom(view, n, tick, pos, room), Position(pos.ci + 1, None);
    if pos.ci < n && room > 0 {
      if view(tick, pos.ci).None? {
        LaterIsLater(view, n, tick + 1, ahead, room);
        assert key.ci == pos.ci ==> HoldsKey(view, tick, key);
        PageIsComplete(view, n, tick + 1, ahead, room, key);
      } else {
        var c := view(tick + 1, pos.ci).value;
        var found := From(c, pos.offset);
        var k := if |found| > room then room else |found|;
        var rest := if |found| > room then [] else PageFrom(view, n, tick + 2, ahead, room - |found|).items;
        assert found[..k] == if |found| > room then found[..room] else found;
        assert page.items == Tagged(pos.ci, found[..k]) + rest;
        if key.ci == pos.ci {
          assert tick + 1 < page.later by { LaterIsLater(view, n, tick + 2, ahead, room - k); }
          assert HoldsKey(view, tick + 1, key);
          var point :| Holds(view, tick + 1, key.ci, point) && point.id == key.id;
          FoundHasKey(key, c, pos.offset, k, point);
        } else if |found| <= room {
          PageIsComplete(view, n, tick + 2, ahead, room - |found|, key);
        }
        HasInLonger(Tagged(pos.ci, found[..k]), rest, key);
      }
    }
  }

  lemma SeenLonger(view: View, item: Item, from: nat, to: nat, from': nat)
    requires Seen(view, item, from, to) && from' <= from
    ensures Seen(view, item, from', to)
  {
  }

  lemma {:induction false} PageIsSound(view: View, n: nat, tick: nat, pos: Position, room: nat, item: Item)
    requires OrderedView(view)
    requires var page := PageFrom(view, n, tick, pos, room); page.Page? && item in page.items
    ensures Seen(view, item, tick, PageFrom(view, n, tick, pos, room).later)
    decreases n - pos.ci
  {
    var page, ahead := PageFrom(view, n, tick, pos, room), Position(pos.ci + 1, None);
    if view(tick, pos.ci).None? {
      PageIsSound(view, n, tick + 1, ahead, room, item);
      SeenLonger(view, item, tick + 1, page.later, tick);
    } else {
      var c := view(tick + 1, pos.ci).value;
      var found := From(c, pos.offset);
      FromIsTail(c, pos.offset);
      var own := Tagged(pos.ci, if |found| > room then found[..room] else found);
      if item in own {
        LaterIsLater(view, n, tick + 2, ahead, if |found| > room then 0 else room - |found|);
        var i :| 0 <= i < |own| && own[i] == item;
        assert item.point == found[i] && found[i] in c;
        assert Holds(view, tick + 1, item.ci, item.point);
      } else {
        PageIsSound(view, n, tick + 2, ahead, room - |found|, item);
        SeenLonger(view, item, tick + 2, page.later, tick);
      }
    }
  }

  // ---- the whole walk ------------------------------------------------------------------------------

  /** One request of a walk and its reply. */
  datatype Visit = Visit(cursor: Option<string>, tick: nat, reply: Reply)

  ghost predicate Answered(view: View, n: nat, limit: nat, v: Visit) {
    ReplyTo(view, n, limit, v.cursor, v.tick) == Some(v.reply)
  }

  /** Each request passes on the cursor of the reply before it; the first passes none. */
  ghost predicate Walk(view: View, n: nat, limit: nat, visits: seq<Visit>) {
    && (forall k :: 0 <= k < |visits| ==> Answered(view, n, limit, visits[k]))
    && (visits != [] ==> visits[0].cursor == None)
    && (forall k :: 0 < k < |visits| ==> Follows(visits[k - 1], visits[k]))
  }

  ghost predicate Follows(a: Visit, b: Visit) {
    a.reply.next.Some? && b.cursor == a.reply.next && a.reply.later <= b.tick
  }

  function Returned(visits: seq<Visit>): seq<Item> {
    if visits == [] then [] else Returned(visits[..|visits| - 1]) + visits[|visits| - 1].reply.items
  }

  /** Where the walk stands: everything before this position has been covered. */
  function Standing(visits: seq<Visit>): Option<Position> {
    if visits == [] then Some(Position(0, None))
    else if visits[|visits| - 1].reply.next.None? then None
    else DecodeCursor(visits[|visits| - 1].reply.next)
  }

  /** Positions never move back. */
  lemma {:induction false} NextIsFurther(view: View, n: nat, tick: nat, pos: Position, room: nat, ci: nat, id: PointId)
    requires OrderedView(view) && (room > 0 || pos.offset.None?) && Passed(ci, id, pos)
    ensures var page := PageFrom(view, n, tick, pos, room); page.Page? && page.next.Some? ==> Passed(ci, id, page.next.value)
    decreases n - pos.ci
  {
    var ahead := Position(pos.ci + 1, None);
    if pos.ci < n && room > 0 {
      if view(tick, pos.ci).None? {
        NextIsFurther(view, n, tick + 1, ahead, room, ci, id);
      } else if view(tick + 1, pos.ci).Some? {
        var c := view(tick + 1, pos.ci).value;
        var found := From(c, pos.offset);
        if |found| <= room {
          NextIsFurther(view, n, tick + 2, ahead, room - |found|, ci, id);
        } else if ci == pos.ci {
          FromIsTail(c, pos.offset);
          IdOrder(id, pos.offset.value, found[room].id);
          IdOrder(pos.offset.value, found[room].id, id);
        }
      }
    }
  }

  lemma {:induction false} ReplyIsPage(view: View, n: nat, limit: nat, v: Visit, pos: Position)
    requires n > 0 && Answered(view, n, limit, v) && DecodeCursor(v.cursor) == Some(pos)
    ensures var page := PageFrom(view, n, v.tick, pos, limit);
            && page.Page? && v.reply.items == page.items && v.reply.later == page.later
            && (if v.reply.next.None? then page.next.None? else page.next == DecodeCursor(v.reply.next))
  {
    var page := PageFrom(view, n, v.tick, pos, limit);
    if page.next.Some? {
      CursorRoundTrip(page.next.value);
    }
  }

  lemma PassedThenInRange(item: Item, pos: Position, other: Item, n: nat, next: Option<Position>)
    requires Passed(item.ci, item.point.id, pos) && InRange(KeyOf(other), n, pos, next)
    ensures KeyLess(item, other)
  {
    if pos.offset.Some? {
      IdOrder(item.point.id, pos.offset.value, other.point.id);
      IdOrder(pos.offset.value, other.point.id, item.point.id);
    }
  }

  /** What the visits so far have returned: everything up to the standing position, in order. */
  ghost predicate Covered(n: nat, limit: nat, visits: seq<Visit>) {
    && Ascending(Returned(visits))
    && ItemsInRange(Returned(visits), n, Position(0, None), Standing(visits))
    && |Returned(visits)| <= limit * |visits|
    && (Standing(visits).Some? ==> |Returned(visits)| == limit * |visits|)
  }

  lemma JoinPages(items: seq<Item>, page: seq<Item>, n: nat, pos: Position, next: Option<Position>)
    requires Ascending(items) && ItemsInRange(items, n, Position(0, None), Some(pos))
    requires Ascending(page) && ItemsInRange(page, n, pos, next)
    requires next.Some? ==> forall k :: 0 <= k < |items| ==> Passed(items[k].ci, items[k].point.id, next.value)
    ensures Ascending(items + page) && ItemsInRange(items + page, n, Position(0, None), next)
  {
    forall i, j | 0 <= i < |items| && 0 <= j < |page| ensures KeyLess(items[i], page[j]) {
      PassedThenInRange(items[i], pos, page[j], n, next);
    }
  }

  lemma {:induction false} FirstPageOfNone(view: View, limit: nat, visits: seq<Visit>)
    requires Walk(view, 0, limit, visits) && visits != []
    ensures |visits| == 1 && Returned(visits) == [] && Standing(visits) == None
  {
    assert |visits| > 1 ==> Follows(visits[0], visits[1]);
    assert Answered(view, 0, limit, visits[0]);
    assert visits[..0] == [];
  }

  lemma CoversMore(view: View, n: nat, limit: nat, items: seq<Item>, pos: Position, v: Visit, next: Option<Position>)
    requires OrderedView(view) && limit > 0 && n > 0 && Answered(view, n, limit, v)
    requires Ascending(items) && ItemsInRange(items, n, Position(0, None), Some(pos)) && DecodeCursor(v.cursor) == Some(pos)
    requires next == if v.reply.next.None? then None else DecodeCursor(v.reply.next)
    ensures Ascending(items + v.reply.items) && ItemsInRange(items + v.reply.items, n, Position(0, None), next)
    ensures |v.reply.items| <= limit && (next.Some? ==> |v.reply.items| == limit)
  {
    ReplyIsPage(view, n, limit, v, pos);
    PageSize(view, n, v.tick, pos, limit);
    PageCovers(view, n, v.tick, pos, limit);
    if next.Some? {
      forall k | 0 <= k < |items| ensures Passed(items[k].ci, items[k].point.id, next.value) {
        NextIsFurther(view, n, v.tick, pos, limit, items[k].ci, items[k].point.id);
      }
    }
    JoinPages(items, v.reply.items, n, pos, next);
  }

  lemma OneMorePage(limit: nat, k: nat)
    ensures limit * (k + 1) == limit * k + limit
  {
  }

  lemma CoveredStep(view: View, n: nat, limit: nat, visits: seq<Visit>)
    requires OrderedView(view) && limit > 0 && Walk(view, n, limit, visits) && visits != [] && n > 0
    requires Covered(n, limit, visits[..|visits| - 1])
    ensures Covered(n, limit, visits)
  {
    var init, v := visits[..|visits| - 1], visits[|visits| - 1];
    StandingBefore(view, n, limit, visits);
    CoversMore(view, n, limit, Returned(init), Standing(init).value, v, Standing(visits));
    OneMorePage(limit, |init|);
    assert Returned(visits) == Returned(init) + v.reply.items;
  }

  lemma {:induction false} WalkCovers(view: View, n: nat, limit: nat, visits: seq<Visit>)
    requires OrderedView(view) && limit > 0 && Walk(view, n, limit, visits)
    ensures Covered(n, limit, visits)
  {
    if visits != [] && n == 0 {
      FirstPageOfNone(view, limit, visits);
    } else if visits != [] {
      StandingBefore(view, n, limit, visits);
      WalkCovers(view, n, limit, visits[..|visits| - 1]);
      CoveredStep(view, n, limit, visits);
    }
  }

  /** The last request started where the visits before it stand. */
  lemma StandingBefore(view: View, n: nat, limit: nat, visits: seq<Visit>)
    requires n > 0 && Walk(view, n, limit, visits) && visits != []
    ensures var init, v := visits[..|visits| - 1], visits[|visits| - 1];
            && Walk(view, n, limit, init) && Answered(view, n, limit, v)
            && Standing(init).Some? && DecodeCursor(v.cursor) == Standing(init)
  {
    var init, v := visits[..|visits| - 1], visits[|visits| - 1];
    if init != [] {
      assert Follows(visits[|visits| - 2], v);
      assert init[|init| - 1] == visits[|visits| - 2];
    }
  }

  lemma {:induction false} WalkIsComplete(view: View, n: nat, limit: nat, visits: seq<Visit>, key: Key)
    requires OrderedView(view) && limit > 0 && Walk(view, n, limit, visits) && visits != []
    requires Throughout(view, key, visits[0].tick, visits[|visits| - 1].reply.later)
    requires InRange(key, n, Position(0, None), Standing(visits))
    ensures Has(Returned(visits), key)
  {
    if n > 0 {
      var init, v := visits[..|visits| - 1], visits[|visits| - 1];
      StandingBefore(view, n, limit, visits);
      var pos := Standing(init).value;
      ReplyIsPage(view, n, limit, v, pos);
      WalkMovesOn(view, n, limit, visits);
      LaterIsLater(view, n, v.tick, pos, limit);
      if Passed(key.ci, key.id, pos) {
        assert init != [];
        assert init[|init| - 1] == visits[|visits| - 2];
        assert Follows(visits[|visits| - 2], v);
        WalkIsComplete(view, n, limit, init, key);
      } else {
        PageIsComplete(view, n, v.tick, pos, limit, key);
      }
      HasInLonger(Returned(init), v.reply.items, key);
    }
  }

  lemma {:induction false} WalkMovesOn(view: View, n: nat, limit: nat, visits: seq<Visit>)
    requires n > 0 && Walk(view, n, limit, visits) && visits != []
    ensures visits[0].tick <= visits[|visits| - 1].tick <= visits[|visits| - 1].reply.later
  {
    var init, v := visits[..|visits| - 1], visits[|visits| - 1];
    StandingBefore(view, n, limit, visits);
    ReplyIsPage(view, n, limit, v, Standing(init).value);
    LaterIsLater(view, n, v.tick, Standing(init).value, limit);
    if init != [] {
      WalkMovesOn(view, n, limit, init);
      assert Follows(visits[|visits| - 2], v);
    }
  }

  lemma {:induction false} ReturnedIsSeen(view: View, n: nat, limit: nat, visits: seq<Visit>, item: Item)
    requires OrderedView(view) && Walk(view, n, limit, visits) && item in Returned(visits)
    ensures Seen(view, item, visits[0].tick, visits[|visits| - 1].reply.later)
  {
    if n == 0 {
      FirstPageOfNone(view, limit, visits);
    } else {
      var init, v := visits[..|visits| - 1], visits[|visits| - 1];
      StandingBefore(view, n, limit, visits);
      ReplyIsPage(view, n, limit, v, Standing(init).value);
      WalkMovesOn(view, n, limit, visits);
      if item in v.reply.items {
        PageIsSound(view, n, v.tick, Standing(init).value, limit, item);
        SeenLonger(view, item, v.tick, v.reply.later, visits[0].tick);
      } else {
        ReturnedIsSeen(view, n, limit, init, item);
        var w := visits[|visits| - 2];
        assert init[|init| - 1] == w && Follows(w, v);
        var t :| visits[0].tick <= t < w.reply.later && Holds(view, t, item.ci, item.point);
        assert t < v.reply.later;
      }
    }
  }

  lemma {:induction false} AscendingKeysDiffer(items: seq<Item>)
    requires Ascending(items)
    ensures Distinct(Map(items, KeyOf))
  {
  }

  ghost predicate Finished(visits: seq<Visit>) {
    visits != [] && visits[|visits| - 1].reply.next.None?
  }

  /** One item has this key, and no other. */
  ghost predicate HasOnce(items: seq<Item>, key: Key) {
    exists i :: 0 <= i < |items| && KeyOf(items[i]) == key && forall j :: 0 <= j < |items| && KeyOf(items[j]) == key ==> j == i
  }

  lemma AscendingHasOnce(items: seq<Item>, key: Key)
    requires Ascending(items) && Has(items, key)
    ensures HasOnce(items, key)
  {
    var item :| item in items && KeyOf(item) == key;
    var i :| 0 <= i < |items| && items[i] == item;
    forall j | 0 <= j < |items| && KeyOf(items[j]) == key ensures j == i {
    }
  }

  /**
   A finished walk, whatever other clients did meanwhile, returns its items in collection-then-id order without
   repeating a key, each from the store, and exactly once every point that was there throughout, even if its payload
   changed on the way.
   */
  lemma {:induction false} WalkReturnsEachPointOnce(view: View, n: nat, limit: nat, visits: seq<Visit>)
    requires OrderedView(view) && limit > 0 && Walk(view, n, limit, visits) && Finished(visits)
    ensures Ascending(Returned(visits))
    ensures var (from, to) := (visits[0].tick, visits[|visits| - 1].reply.later);
            && (forall key: Key :: key.ci < n && Throughout(view, key, from, to) ==> HasOnce(Returned(visits), key))
            && (forall item :: item in Returned(visits) ==> Seen(view, item, from, to))
  {
    WalkCovers(view, n, limit, visits);
    var from, to := visits[0].tick, visits[|visits| - 1].reply.later;
    forall key: Key | key.ci < n && Throughout(view, key, from, to) ensures HasOnce(Returned(visits), key) {
      WalkIsComplete(view, n, limit, visits, key);
      AscendingHasOnce(Returned(visits), key);
    }
    forall item | item in Returned(visits) ensures Seen(view, item, from, to) {
      ReturnedIsSeen(view, n, limit, visits, item);
    }
  }

  /**
   Walks end: while the keys of all points ever seen come from a finite set, all requests but the last return a full
   page of new keys, so their number is bounded.
   */
  lemma WalksAreShort(view: View, n: nat, limit: nat, visits: seq<Visit>, universe: set<Key>)
    requires OrderedView(view) && limit > 0 && Walk(view, n, limit, visits) && visits != []
    requires forall t, ci, p :: Holds(view, t, ci, p) ==> Key(ci, p.id) in universe
    ensures limit * (|visits| - 1) <= |universe|
    ensures !Finished(visits) && n > 0 ==> limit * |visits| <= |universe|
  {
    var init := visits[..|visits| - 1];
    WalkCovers(view, n, limit, visits);
    var keys := Map(Returned(visits), KeyOf);
    AscendingKeysDiffer(Returned(visits));
    forall k | 0 <= k < |keys| ensures keys[k] in universe {
      var item := Returned(visits)[k];
      ReturnedIsSeen(view, n, limit, visits, item);
      var t :| Holds(view, t, item.ci, item.point);
    }
    DistinctFits(keys, universe);
    if n > 0 {
      StandingBefore(view, n, limit, visits);
      WalkCovers(view, n, limit, init);
      assert |Returned(init)| <= |Returned(visits)|;
      ReplyIsPage(view, n, limit, visits[|visits| - 1], Standing(init).value);
    } else {
      FirstPageOfNone(view, limit, visits);
    }
  }
}
