/** Messages in pages, newest first, each page starting after the last message of the one before. */
module Paging {
  import opened Options

  const PAGE: nat := 50

  type Id = nat
  type Bot = nat

  datatype Message = Message(bot: Bot, time: int)

  datatype Host = Host(bots: set<Bot>, messages: map<Id, Message>)

  datatype Answer = NotFound | UnknownCursor | Page(messages: seq<Id>, next: Option<Id>)

  /** `a` comes before `b` in a list of newest first; equal times are ordered by id. */
  predicate Newer(db: map<Id, Message>, a: Id, b: Id)
    requires a in db && b in db
  {
    db[a].time > db[b].time || (db[a].time == db[b].time && a > b)
  }

  ghost predicate Ordered(db: map<Id, Message>, s: seq<Id>) {
    && (forall id :: id in s ==> id in db)
    && forall i, j :: 0 <= i < j < |s| ==> Newer(db, s[i], s[j])
  }

  ghost predicate IsTop(db: map<Id, Message>, ids: set<Id>, top: Id)
    requires ids <= db.Keys
  {
    top in ids && forall id :: id in ids && id != top ==> Newer(db, top, id)
  }

  lemma {:induction false} TopExists(db: map<Id, Message>, ids: set<Id>)
    requires ids <= db.Keys && ids != {}
    ensures exists top :: IsTop(db, ids, top)
    decreases |ids|
  {
    var some := PickId(ids);
    if ids == {some} {
      assert IsTop(db, ids, some);
    } else {
      TopExists(db, ids - {some});
      var top :| IsTop(db, ids - {some}, top);
      if Newer(db, some, top) {
        forall id | id in ids && id != some
          ensures Newer(db, some, id)
        {
          assert id in ids - {some};
        }
        assert IsTop(db, ids, some);
      } else {
        assert IsTop(db, ids, top);
      }
    }
  }

  lemma PickId<T>(ids: set<T>) returns (id: T)
    requires ids != {}
    ensures id in ids
  {
    id :| id in ids;
  }

  /** The list of `ids`, newest first. */
  ghost function Listing(db: map<Id, Message>, ids: set<Id>): (s: seq<Id>)
    requires ids <= db.Keys
    ensures forall id :: id in s <==> id in ids
    ensures |s| == |ids|
    decreases |ids|
  {
    if ids == {} then []
    else
      TopExists(db, ids);
      var top :| IsTop(db, ids, top);
      [top] + Listing(db, ids - {top})
  }

  lemma {:induction false} ListingOrdered(db: map<Id, Message>, ids: set<Id>)
    requires ids <= db.Keys
    ensures Ordered(db, Listing(db, ids))
    decreases |ids|
  {
    hide Listing, Ordered, Newer;
    if ids != {} {
      ListingHead(db, ids);
      var s := Listing(db, ids);
      ListingOrdered(db, ids - {s[0]});
      TopOrdered(db, s);
    } else {
      NoneOrdered(db, Listing(db, ids));
    }
  }

  lemma NoneOrdered(db: map<Id, Message>, s: seq<Id>)
    requires |s| == 0
    ensures Ordered(db, s)
  {
  }

  lemma TopOrdered(db: map<Id, Message>, s: seq<Id>)
    requires s != [] && Ordered(db, s[1..]) && s[0] in db && (forall id :: id in s[1..] ==> Newer(db, s[0], id))
    ensures Ordered(db, s)
  {
    hide Newer;
    forall i, j | 0 <= i < j < |s|
      ensures Newer(db, s[i], s[j])
    {
      assert s[j] == s[1..][j - 1];
      if i > 0 {
        assert s[i] == s[1..][i - 1];
      }
    }
  }

  /** There is only one such list. */
  lemma {:induction false} OrderedIsListing(db: map<Id, Message>, other: map<Id, Message>, s: seq<Id>, ids: set<Id>)
    requires ids <= db.Keys && ids <= other.Keys
    requires forall id :: id in ids ==> db[id] == other[id]
    requires Ordered(other, s) && forall id :: id in s <==> id in ids
    ensures s == Listing(db, ids)
    decreases |ids|
  {
    hide Newer, Ordered, Listing;
    if ids == {} {
      assert s == [] by { EmptyWhenNone(s); }
      assert Listing(db, ids) == [];
    } else {
      ListingHead(db, ids);
      SameHead(db, other, s, ids);
      TailOrdered(other, s, 1);
      OrderedIsListing(db, other, s[1..], ids - {s[0]});
      SameSplit(s, Listing(db, ids));
    }
  }

  lemma SameSplit(s: seq<Id>, t: seq<Id>)
    requires s != [] && t != [] && s[0] == t[0] && s[1..] == t[1..]
    ensures s == t
  {
    assert forall i :: 0 < i < |s| ==> s[i] == s[1..][i - 1];
    assert forall i :: 0 < i < |t| ==> t[i] == t[1..][i - 1];
  }

  lemma SameHead(db: map<Id, Message>, other: map<Id, Message>, s: seq<Id>, ids: set<Id>)
    requires ids <= db.Keys && ids <= other.Keys && ids != {}
    requires forall id :: id in ids ==> db[id] == other[id]
    requires Ordered(other, s) && forall id :: id in s <==> id in ids
    ensures s != [] && s[0] == Listing(db, ids)[0]
    ensures forall id :: id in s[1..] <==> id in ids - {s[0]}
  {
    hide Listing;
    ListingHead(db, ids);
    var l := Listing(db, ids);
    assert l[0] in s;
    var i: nat :| i < |s| && s[i] == l[0];
    assert s[0] in ids;
    FirstIsTop(db, other, s, l, i);
    forall id
      ensures id in s[1..] <==> id in ids - {s[0]}
    {
      RestHas(other, s, id);
    }
  }

  lemma ListingHead(db: map<Id, Message>, ids: set<Id>)
    requires ids <= db.Keys && ids != {}
    ensures var l := Listing(db, ids);
            && l != [] && l[0] in ids && l == [l[0]] + Listing(db, ids - {l[0]})
            && forall id :: id in ids && id != l[0] ==> Newer(db, l[0], id)
  {
  }

  lemma EmptyWhenNone(s: seq<Id>)
    requires forall id :: id !in s
    ensures s == []
  {
    var first := if s == [] then 0 else s[0];
    assert s == [] || first in s;
  }

  lemma FirstIsTop(db: map<Id, Message>, other: map<Id, Message>, s: seq<Id>, l: seq<Id>, i: nat)
    requires i < |s| && l != [] && s[i] == l[0] && s[0] in db && l[0] in db && Ordered(other, s)
    requires other[s[0]] == db[s[0]] && other[l[0]] == db[l[0]]
    requires s[0] != l[0] ==> Newer(db, l[0], s[0])
    ensures s[0] == l[0]
  {
  }

  lemma RestHas(db: map<Id, Message>, s: seq<Id>, id: Id)
    requires s != [] && Ordered(db, s)
    ensures id in s[1..] <==> id in s && id != s[0]
  {
    if id in s && id != s[0] {
      var i: nat :| i < |s| && s[i] == id;
      assert s[1..][i - 1] == id;
    }
  }

  // Pages.

  function OfBot(db: map<Id, Message>, bot: Bot): set<Id> {
    set id | id in db && db[id].bot == bot
  }

  /** The bot's messages that come after the cursor, or all of them. */
  function After(db: map<Id, Message>, bot: Bot, cursor: Option<Id>): set<Id>
    requires cursor.Some? ==> cursor.value in db
  {
    if cursor.None? then OfBot(db, bot)
    else set id | id in db && db[id].bot == bot && Newer(db, cursor.value, id)
  }

  /** The query: one row more than a page tells whether there is a next one. */
  ghost function PageMessages(host: Host, bot: Bot, cursor: Option<Id>): Answer {
    var db := host.messages;
    if bot !in host.bots then NotFound
    else if cursor.Some? && (cursor.value !in db || db[cursor.value].bot != bot) then UnknownCursor
    else
      var found := Listing(db, After(db, bot, cursor));
      var rows := if |found| > PAGE + 1 then found[..PAGE + 1] else found;
      var page := if |rows| > PAGE then rows[..PAGE] else rows;
      Page(page, if |rows| > PAGE && page != [] then Some(page[|page| - 1]) else None)
  }

  ghost predicate Known(host: Host, bot: Bot, cursor: Option<Id>) {
    && bot in host.bots
    && (cursor.Some? ==> cursor.value in host.messages && host.messages[cursor.value].bot == bot)
  }

  ghost function Rest(host: Host, bot: Bot, cursor: Option<Id>): seq<Id>
    requires Known(host, bot, cursor)
  {
    Listing(host.messages, After(host.messages, bot, cursor))
  }

  /** A page is the start of what is left, and its cursor stands at its end when more is left. */
  lemma PageIsStart(host: Host, bot: Bot, cursor: Option<Id>)
    requires Known(host, bot, cursor)
    ensures var rest := Rest(host, bot, cursor);
            PageMessages(host, bot, cursor)
            == if |rest| > PAGE then Page(rest[..PAGE], Some(rest[PAGE - 1])) else Page(rest, None)
  {
    hide Listing, After, Newer;
    var rest := Rest(host, bot, cursor);
    if |rest| > PAGE {
      assert rest[..PAGE + 1][..PAGE] == rest[..PAGE];
    }
  }

  lemma TailOrdered(db: map<Id, Message>, s: seq<Id>, n: nat)
    requires Ordered(db, s) && n <= |s|
    ensures Ordered(db, s[n..])
  {
    hide Newer;
    var tail := s[n..];
    forall i, j | 0 <= i < j < |tail|
      ensures Newer(db, tail[i], tail[j])
    {
      assert tail[i] == s[n + i] && tail[j] == s[n + j];
    }
  }

  lemma TailHas(db: map<Id, Message>, s: seq<Id>, k: nat, id: Id)
    requires Ordered(db, s) && k < |s|
    ensures id in s[k + 1..] <==> id in s && Newer(db, s[k], id)
  {
    var tail := s[k + 1..];
    if id in tail {
      var j: nat :| j < |tail| && tail[j] == id;
      assert s[k + 1 + j] == id;
    }
    if id in s && Newer(db, s[k], id) {
      var j: nat :| j < |s| && s[j] == id;
      assert j > k;
      assert tail[j - k - 1] == id;
    }
  }

  /** What is left after the `k`-th message of a list is the list from there on. */
  lemma RestAfter(db: map<Id, Message>, ids: set<Id>, k: nat)
    requires ids <= db.Keys && k < |ids|
    ensures Listing(db, set id | id in ids && Newer(db, Listing(db, ids)[k], id)) == Listing(db, ids)[k + 1..]
  {
    hide Listing, Ordered, Newer;
    var s := Listing(db, ids);
    ListingOrdered(db, ids);
    var after := set id | id in ids && Newer(db, s[k], id);
    forall id
      ensures id in s[k + 1..] <==> id in after
    {
      TailHas(db, s, k, id);
    }
    TailOrdered(db, s, k + 1);
    OrderedIsListing(db, db, s[k + 1..], after);
  }

  lemma AfterIsTransitive(db: map<Id, Message>, bot: Bot, cursor: Option<Id>, next: Id)
    requires cursor.Some? ==> cursor.value in db
    requires next in After(db, bot, cursor)
    ensures After(db, bot, Some(next)) == set id | id in After(db, bot, cursor) && Newer(db, next, id)
  {
  }

  /** Following a page's cursor leaves exactly the messages the page did not have. */
  lemma NextLeaves(host: Host, bot: Bot, cursor: Option<Id>)
    requires Known(host, bot, cursor) && |Rest(host, bot, cursor)| > PAGE
    ensures var rest := Rest(host, bot, cursor);
            Known(host, bot, Some(rest[PAGE - 1])) && Rest(host, bot, Some(rest[PAGE - 1])) == rest[PAGE..]
  {
    var db := host.messages;
    var ids := After(db, bot, cursor);
    var next := Rest(host, bot, cursor)[PAGE - 1];
    assert next in ids;
    AfterIsTransitive(db, bot, cursor, next);
    RestAfter(db, ids, PAGE - 1);
  }

  /** Messages that arrive while a reader stands at the cursor: they are newer than it. */
  ghost predicate Arrived(host: Host, later: Host, bot: Bot, cursor: Id) {
    && cursor in host.messages && host.bots <= later.bots
    && (forall id :: id in host.messages ==> id in later.messages && later.messages[id] == host.messages[id])
    && (forall id :: id in later.messages && id !in host.messages && later.messages[id].bot == bot ==>
          Newer(later.messages, id, cursor))
  }

  /** They do not change what is left to read. */
  lemma ArrivalsUnseen(host: Host, later: Host, bot: Bot, cursor: Id)
    requires Known(host, bot, Some(cursor)) && Arrived(host, later, bot, cursor)
    ensures Known(later, bot, Some(cursor)) && Rest(later, bot, Some(cursor)) == Rest(host, bot, Some(cursor))
  {
    var ids := After(host.messages, bot, Some(cursor));
    assert After(later.messages, bot, Some(cursor)) == ids;
    ListingOrdered(host.messages, ids);
    OrderedIsListing(later.messages, host.messages, Rest(host, bot, Some(cursor)), ids);
  }

  // The walk.

  /** The pages a reader gets who follows the cursors to the end, with arrivals in between. */
  ghost predicate IsWalk(hosts: seq<Host>, bot: Bot, cursor: Option<Id>, pages: seq<seq<Id>>)
    decreases |pages|
  {
    && |hosts| == |pages| >= 1
    && match PageMessages(hosts[0], bot, cursor)
       case Page(messages, next) =>
         && pages[0] == messages
         && (if next.None? then |pages| == 1
             else (|pages| > 1 && Arrived(hosts[0], hosts[1], bot, next.value) &&
                   IsWalk(hosts[1..], bot, next, pages[1..])))
       case _ => false
  }

  function Flatten(pages: seq<seq<Id>>): seq<Id> {
    if pages == [] then [] else pages[0] + Flatten(pages[1..])
  }

  lemma WalkFirst(hosts: seq<Host>, bot: Bot, cursor: Option<Id>, pages: seq<seq<Id>>)
    requires hosts != [] && Known(hosts[0], bot, cursor) && IsWalk(hosts, bot, cursor, pages)
    ensures |hosts| == |pages|
    ensures var rest := Rest(hosts[0], bot, cursor);
            if |rest| > PAGE then
              && |pages| > 1 && pages[0] == rest[..PAGE] && Arrived(hosts[0], hosts[1], bot, rest[PAGE - 1])
              && IsWalk(hosts[1..], bot, Some(rest[PAGE - 1]), pages[1..])
            else pages == [rest]
  {
    hide Rest, PageMessages, Arrived, Known;
    PageIsStart(hosts[0], bot, cursor);
  }

  /** The walk reads exactly what was left when it started: newest first, every message once,
      none that arrived meanwhile, and in the fewest pages that hold it. */
  lemma {:induction false} WalkReadsAll(hosts: seq<Host>, bot: Bot, cursor: Option<Id>, pages: seq<seq<Id>>)
    requires hosts != [] && Known(hosts[0], bot, cursor) && IsWalk(hosts, bot, cursor, pages)
    ensures Flatten(pages) == Rest(hosts[0], bot, cursor)
    ensures Ordered(hosts[0].messages, Flatten(pages))
    ensures PAGE * (|pages| - 1) <= |Rest(hosts[0], bot, cursor)| <= PAGE * |pages|
    decreases |pages|
  {
    hide Rest, Ordered, IsWalk, Arrived, Known, Flatten;
    WalkFirst(hosts, bot, cursor, pages);
    RestOrdered(hosts[0], bot, cursor);
    var rest := Rest(hosts[0], bot, cursor);
    if |rest| > PAGE {
      NextLeaves(hosts[0], bot, cursor);
      ArrivalsUnseen(hosts[0], hosts[1], bot, rest[PAGE - 1]);
      WalkReadsAll(hosts[1..], bot, Some(rest[PAGE - 1]), pages[1..]);
      FlattenNext(pages);
      Rejoin(rest, PAGE);
    } else {
      FlattenOne(rest);
    }
  }

  /** So in terms of bots, times and ids alone: a walk reads exactly the messages of the bot that are older
      than the cursor (equal times by id), all of them without a cursor, each once, the newest first. */
  lemma WalkReadsOlder(hosts: seq<Host>, bot: Bot, cursor: Option<Id>, pages: seq<seq<Id>>)
    requires hosts != [] && Known(hosts[0], bot, cursor) && IsWalk(hosts, bot, cursor, pages)
    ensures var db, s := hosts[0].messages, Flatten(pages);
            && (forall id :: id in s <==>
                  && id in db && db[id].bot == bot
                  && (cursor.Some? ==>
                        var anchor := cursor.value;
                        db[id].time < db[anchor].time || (db[id].time == db[anchor].time && id < anchor)))
            && forall i, j :: 0 <= i < j < |s| ==>
                 db[s[i]].time > db[s[j]].time || (db[s[i]].time == db[s[j]].time && s[i] > s[j])
  {
    hide IsWalk, Flatten, Listing;
    WalkReadsAll(hosts, bot, cursor, pages);
  }

  /** A page holds fifty messages and says where to go on, or it is the last and holds at most fifty. */
  lemma PageHoldsFifty(host: Host, bot: Bot, cursor: Option<Id>)
    requires Known(host, bot, cursor)
    ensures var r := PageMessages(host, bot, cursor);
            r.Page? && |r.messages| == (if |After(host.messages, bot, cursor)| > 50 then 50
                                        else |After(host.messages, bot, cursor)|)
            && (r.next.Some? <==> |After(host.messages, bot, cursor)| > 50)
  {
    PageIsStart(host, bot, cursor);
    hide Listing, After, Newer;
  }

  /** A page is refused exactly for a bot that is not there, or a cursor that is no message of the bot. */
  lemma PageRefusedIff(host: Host, bot: Bot, cursor: Option<Id>)
    ensures PageMessages(host, bot, cursor).NotFound? <==> bot !in host.bots
    ensures PageMessages(host, bot, cursor).UnknownCursor?
            <==> bot in host.bots && cursor.Some?
                 && !(cursor.value in host.messages && host.messages[cursor.value].bot == bot)
  {
    hide Listing, After;
  }

  lemma FlattenNext(pages: seq<seq<Id>>)
    requires pages != []
    ensures Flatten(pages) == pages[0] + Flatten(pages[1..])
  {
  }

  lemma Rejoin(s: seq<Id>, n: nat)
    requires n <= |s|
    ensures s[..n] + s[n..] == s
  {
  }

  lemma FlattenOne(page: seq<Id>)
    ensures Flatten([page]) == page
  {
    assert [page][1..] == [];
  }

  lemma RestOrdered(host: Host, bot: Bot, cursor: Option<Id>)
    requires Known(host, bot, cursor)
    ensures Ordered(host.messages, Rest(host, bot, cursor))
  {
    ListingOrdered(host.messages, After(host.messages, bot, cursor));
  }

  /** The pages of a reader who may stop anywhere, with arrivals in between. */
  ghost predicate IsPartialWalk(hosts: seq<Host>, bot: Bot, cursor: Option<Id>, pages: seq<seq<Id>>)
    decreases |pages|
  {
    && |hosts| == |pages| >= 1
    && match PageMessages(hosts[0], bot, cursor)
       case Page(messages, next) =>
         && pages[0] == messages
         && (|pages| > 1 ==> next.Some? && Arrived(hosts[0], hosts[1], bot, next.value)
                             && IsPartialWalk(hosts[1..], bot, next, pages[1..]))
       case _ => false
  }

  lemma PartialFirst(hosts: seq<Host>, bot: Bot, cursor: Option<Id>, pages: seq<seq<Id>>)
    requires hosts != [] && Known(hosts[0], bot, cursor) && IsPartialWalk(hosts, bot, cursor, pages)
    ensures |hosts| == |pages| > 0
    ensures var rest := Rest(hosts[0], bot, cursor);
            && pages[0] == (if |rest| > PAGE then rest[..PAGE] else rest)
            && (|pages| > 1 ==>
                  && |rest| > PAGE && Arrived(hosts[0], hosts[1], bot, rest[PAGE - 1])
                  && IsPartialWalk(hosts[1..], bot, Some(rest[PAGE - 1]), pages[1..]))
  {
    hide Rest, PageMessages, Arrived, Known;
    PageIsStart(hosts[0], bot, cursor);
  }

  /** Whatever arrives in between, a reader who has got some pages has the start of what was left
      when the walk began, and no more pages than that takes: every walk ends. */
  lemma {:induction false} WalkIsBounded(hosts: seq<Host>, bot: Bot, cursor: Option<Id>, pages: seq<seq<Id>>)
    requires hosts != [] && Known(hosts[0], bot, cursor) && IsPartialWalk(hosts, bot, cursor, pages)
    ensures Flatten(pages) <= Rest(hosts[0], bot, cursor)
    ensures |pages| > 1 ==> PAGE * (|pages| - 1) < |Rest(hosts[0], bot, cursor)|
    decreases |pages|
  {
    hide Rest, IsPartialWalk, Arrived, Known, Flatten;
    PartialFirst(hosts, bot, cursor, pages);
    var rest := Rest(hosts[0], bot, cursor);
    if |pages| > 1 {
      NextLeaves(hosts[0], bot, cursor);
      ArrivalsUnseen(hosts[0], hosts[1], bot, rest[PAGE - 1]);
      WalkIsBounded(hosts[1..], bot, Some(rest[PAGE - 1]), pages[1..]);
      FlattenNext(pages);
      Rejoin(rest, PAGE);
    } else {
      assert pages == [pages[0]];
      FlattenOne(pages[0]);
    }
  }

  /** From every known cursor there is a walk to the end. */
  lemma {:induction false} WalkEnds(host: Host, bot: Bot, cursor: Option<Id>)
      returns (hosts: seq<Host>, pages: seq<seq<Id>>)
    requires Known(host, bot, cursor)
    ensures hosts != [] && hosts[0] == host && IsWalk(hosts, bot, cursor, pages)
    decreases |Rest(host, bot, cursor)|
  {
    hide Listing, After, Newer, PageMessages;
    PageIsStart(host, bot, cursor);
    var rest := Rest(host, bot, cursor);
    if |rest| > PAGE {
      NextLeaves(host, bot, cursor);
      hosts, pages := WalkEnds(host, bot, Some(rest[PAGE - 1]));
      ArrivesNothing(host, bot, rest[PAGE - 1]);
      assert ([host] + hosts)[1..] == hosts && ([rest[..PAGE]] + pages)[1..] == pages;
      hosts, pages := [host] + hosts, [rest[..PAGE]] + pages;
    } else {
      hosts, pages := [host], [rest];
    }
  }

  lemma ArrivesNothing(host: Host, bot: Bot, cursor: Id)
    requires cursor in host.messages
    ensures Arrived(host, host, bot, cursor)
  {
  }

  /** A message that arrives behind the reader's cursor is read: what is left has one message more
      if and only if the cursor is newer than the newcomer. */
  lemma LateArrivalIff(host: Host, bot: Bot, cursor: Id, id: Id, time: int)
    requires Known(host, bot, Some(cursor)) && id !in host.messages
    ensures var later := host.(messages := host.messages[id := Message(bot, time)]);
            Known(later, bot, Some(cursor)) &&
            (id in Rest(later, bot, Some(cursor)) <==> Newer(later.messages, cursor, id)) &&
            (Arrived(host, later, bot, cursor) <==> Newer(later.messages, id, cursor))
  {
    var later := host.(messages := host.messages[id := Message(bot, time)]);
    assert id in After(later.messages, bot, Some(cursor)) <==> Newer(later.messages, cursor, id);
  }
}
