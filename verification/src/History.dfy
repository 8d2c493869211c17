/**
 Channel history of the realtime service (rust/src/realtime.rs): a counter and a trimmed list in
 Redis, written by three separate commands per message and read page by page through cursors.
 */
module Histories {
  import opened Protocol

  const KEPT: nat := 1000

  datatype Message = Message(number: int, body: Bytes)

  // ---- reading --------------------------------------------------------------------------

  /** The messages numbered above the cursor, in list order. */
  function Above(log: seq<Message>, cursor: int): seq<Message> {
    if log == [] then []
    else if log[0].number > cursor then [log[0]] + Above(log[1..], cursor)
    else Above(log[1..], cursor)
  }

  function Page(log: seq<Message>, cursor: int, limit: nat): seq<Message>
    requires limit >= 1
  {
    var above := Above(log, cursor);
    if |above| <= limit then above else above[..limit]
  }

  /** Only messages of the list, and only above the cursor. */
  lemma {:induction false} AboveMember(log: seq<Message>, cursor: int, m: Message)
    ensures m in Above(log, cursor) <==> m in log && m.number > cursor
  {
    if log != [] {
      AboveMember(log[1..], cursor, m);
      assert m in log <==> m == log[0] || m in log[1..];
    }
  }

  lemma {:induction false} AboveSnoc(log: seq<Message>, m: Message, cursor: int)
    ensures Above(log + [m], cursor) == Above(log, cursor) + (if m.number > cursor then [m] else [])
  {
    if log == [] {
      assert [] + [m] == [m] && [m][1..] == [];
    } else {
      AboveSnoc(log[1..], m, cursor);
      assert (log + [m])[1..] == log[1..] + [m];
    }
  }

  lemma {:induction false} AboveSplit(a: seq<Message>, b: seq<Message>, cursor: int)
    ensures Above(a + b, cursor) == Above(a, cursor) + Above(b, cursor)
    decreases |b|
  {
    hide Above;
    if b == [] {
      AboveNothing(cursor);
      assert a + b == a;
    } else {
      var front, last := b[..|b| - 1], b[|b| - 1];
      AboveSplit(a, front, cursor);
      AboveSnoc(a + front, last, cursor);
      AboveSnoc(front, last, cursor);
      assert a + b == (a + front) + [last] && b == front + [last];
    }
  }

  lemma AboveNothing(cursor: int)
    ensures Above([], cursor) == []
  {
  }

  /** The read loop: skip up to the cursor, collect, stop at the limit. */
  method ReadPage(log: seq<Message>, start: Option<int>, limit: nat) returns (items: seq<Message>, next: Option<int>)
    ensures items == Page(log, if start.Some? then start.value else 0, Clamp(limit, 1, 100))
    ensures next == if items == [] then None else Some(items[|items| - 1].number)
  {
    var cursor := if start.Some? then start.value else 0;
    var size := Clamp(limit, 1, 100);
    items := [];
    var n := 0;
    assert log[..0] == [];
    hide Above;
    AboveNothing(cursor);
    while n < |log|
      invariant 0 <= n <= |log| && |items| < size
      invariant items == Above(log[..n], cursor)
    {
      AboveSnoc(log[..n], log[n], cursor);
      assert log[..n + 1] == log[..n] + [log[n]];
      if log[n].number > cursor {
        items := items + [log[n]];
        if |items| >= size {
          AboveSplit(log[..n + 1], log[n + 1..], cursor);
          assert log == log[..n + 1] + log[n + 1..];
          return items, Some(log[n].number);
        }
      }
      n := n + 1;
    }
    assert log[..n] == log;
    next := if items == [] then None else Some(items[|items| - 1].number);
  }

  // ---- paging ------------------------------------------------------------------------------

  lemma {:induction false} AboveShrinks(log: seq<Message>, low: int, high: int, m: Message)
    requires low < high && m in log && low < m.number <= high
    ensures |Above(log, high)| < |Above(log, low)|
  {
    if log[0] == m {
      AboveMonotone(log[1..], low, high);
    } else {
      AboveShrinks(log[1..], low, high, m);
    }
  }

  lemma {:induction false} AboveMonotone(log: seq<Message>, low: int, high: int)
    requires low <= high
    ensures |Above(log, high)| <= |Above(log, low)|
  {
    if log != [] {
      AboveMonotone(log[1..], low, high);
    }
  }

  lemma PageAdvances(log: seq<Message>, cursor: int, limit: nat)
    requires limit >= 1 && Page(log, cursor, limit) != []
    ensures var page := Page(log, cursor, limit); var last := page[|page| - 1];
      last.number > cursor && last in log && |Above(log, last.number)| < |Above(log, cursor)|
  {
    var page := Page(log, cursor, limit);
    var last := page[|page| - 1];
    AboveMember(log, cursor, last);
    AboveShrinks(log, cursor, last.number, last);
  }

  /** All pages from a cursor on, following the returned cursors until a page is empty. It always ends. */
  function Pages(log: seq<Message>, cursor: int, limit: nat): seq<Message>
    requires limit >= 1
    decreases |Above(log, cursor)|
  {
    var page := Page(log, cursor, limit);
    if page == [] then []
    else
      PageAdvances(log, cursor, limit);
      page + Pages(log, page[|page| - 1].number, limit)
  }

  lemma {:induction false} PagesMember(log: seq<Message>, cursor: int, limit: nat, m: Message)
    requires limit >= 1 && m in Pages(log, cursor, limit)
    ensures m in log && m.number > cursor
    decreases |Above(log, cursor)|
  {
    var page := Page(log, cursor, limit);
    if page != [] {
      PageAdvances(log, cursor, limit);
      if m in page {
        AboveMember(log, cursor, m);
      } else {
        PagesMember(log, page[|page| - 1].number, limit, m);
      }
    }
  }

  predicate Increasing(log: seq<Message>) {
    forall i, j | 0 <= i < j < |log| :: log[i].number < log[j].number
  }

  /** Position `c` separates the list: everything before is at most its last entry, everything after is above it. */
  ghost predicate Cut(log: seq<Message>, c: nat) {
    c == 0 || (c <= |log|
               && (forall i | 0 <= i < c :: log[i].number <= log[c - 1].number)
               && (forall j | c <= j < |log| :: log[j].number > log[c - 1].number))
  }

  lemma {:induction false} AboveAll(log: seq<Message>, cursor: int)
    requires forall i | 0 <= i < |log| :: log[i].number > cursor
    ensures Above(log, cursor) == log
  {
    if log != [] {
      AboveAll(log[1..], cursor);
    }
  }

  lemma {:induction false} AboveNone(log: seq<Message>, cursor: int)
    requires forall i | 0 <= i < |log| :: log[i].number <= cursor
    ensures Above(log, cursor) == []
  {
    if log != [] {
      AboveNone(log[1..], cursor);
    }
  }

  /** At a cut, reading on from its last number gives exactly the rest of the list. */
  lemma AboveAtCut(log: seq<Message>, c: nat)
    requires 1 <= c <= |log| && Cut(log, c)
    ensures Above(log, log[c - 1].number) == log[c..]
  {
    var cursor := log[c - 1].number;
    assert log == log[..c] + log[c..];
    AboveSplit(log[..c], log[c..], cursor);
    AboveNone(log[..c], cursor);
    AboveAll(log[c..], cursor);
  }

  /** Every page boundary of a complete reading is a cut. */
  ghost predicate CutsFrom(log: seq<Message>, c: nat, limit: nat)
    requires limit >= 1
    decreases |log| - c
  {
    Cut(log, c) && (c < |log| ==> CutsFrom(log, Min(c + limit, |log|), limit))
  }

  ghost function CursorAt(log: seq<Message>, c: nat): int
    requires c <= |log|
  {
    if c == 0 then 0 else log[c - 1].number
  }

  ghost predicate Numbered(log: seq<Message>) {
    && (forall i | 0 <= i < |log| :: log[i].number >= 1)
    && (forall i, j | 0 <= i < j < |log| :: log[i].number != log[j].number)
  }

  lemma AboveFrom(log: seq<Message>, c: nat)
    requires c <= |log| && Cut(log, c) && Numbered(log)
    ensures Above(log, CursorAt(log, c)) == log[c..]
  {
    if c == 0 {
      AboveAll(log, 0);
      assert log[0..] == log;
    } else {
      AboveAtCut(log, c);
    }
  }

  lemma PageFrom(log: seq<Message>, c: nat, limit: nat)
    requires c < |log| && limit >= 1 && Cut(log, c) && Numbered(log)
    ensures Page(log, CursorAt(log, c), limit) == log[c..Min(c + limit, |log|)]
    ensures Pages(log, CursorAt(log, c), limit)
         == log[c..Min(c + limit, |log|)] + Pages(log, CursorAt(log, Min(c + limit, |log|)), limit)
  {
    hide Above, Page;
    AboveFrom(log, c);
    PageOfEnd(log, CursorAt(log, c), c, limit);
    PagesCons(log, CursorAt(log, c), limit);
  }

  lemma PagesCons(log: seq<Message>, cursor: int, limit: nat)
    requires limit >= 1 && Page(log, cursor, limit) != []
    ensures var page := Page(log, cursor, limit);
      Pages(log, cursor, limit) == page + Pages(log, page[|page| - 1].number, limit)
  {
    hide Above, Page;
  }

  lemma PagesAtEnd(log: seq<Message>, limit: nat)
    requires limit >= 1 && Numbered(log)
    ensures Pages(log, CursorAt(log, |log|), limit) == [] <==> Cut(log, |log|)
  {
    if Cut(log, |log|) {
      AboveFrom(log, |log|);
    } else {
      NotPast(log);
    }
  }

  /** If the last entry is not the greatest, reading on from it finds something. */
  lemma NotPast(log: seq<Message>)
    requires log != [] && !Cut(log, |log|)
    ensures Above(log, log[|log| - 1].number) != []
  {
    var cursor := log[|log| - 1].number;
    var i :| 0 <= i < |log| && log[i].number > cursor;
    Contains(log, cursor, i);
  }

  lemma {:induction false} Contains(log: seq<Message>, cursor: int, i: nat)
    requires i < |log| && log[i].number > cursor
    ensures Above(log, cursor) != [] && log[i] in Above(log, cursor)
    ensures exists k :: 0 <= k <= i && Above(log, cursor)[0] == log[k]
  {
    if log[0].number > cursor {
      assert Above(log, cursor)[0] == log[0];
      if i > 0 {
        Contains(log[1..], cursor, i - 1);
      }
    } else {
      Contains(log[1..], cursor, i - 1);
      var k :| 0 <= k <= i - 1 && Above(log[1..], cursor)[0] == log[1..][k];
      assert Above(log, cursor)[0] == log[k + 1];
    }
  }

  /**
   Reading page by page returns the whole list once and in order exactly when every page boundary
   is a cut.
   */
  lemma {:induction false} PagingExact(log: seq<Message>, c: nat, limit: nat)
    requires limit >= 1 && Numbered(log) && c <= |log| && Cut(log, c)
    ensures Pages(log, CursorAt(log, c), limit) == log[c..] <==> CutsFrom(log, c, limit)
    decreases |log| - c
  {
    hide Pages, Cut, Numbered, Page;
    if c == |log| {
      PagesAtEnd(log, limit);
    } else {
      var next := Min(c + limit, |log|);
      PageFrom(log, c, limit);
      var page, rest := log[c..next], Pages(log, CursorAt(log, next), limit);
      assert log[c..] == page + log[next..];
      SameFront(page, rest, log[next..]);
      if Cut(log, next) {
        PagingExact(log, next, limit);
      } else {
        NoCutNoRest(log, next, limit);
      }
    }
  }

  lemma SameFront(front: seq<Message>, a: seq<Message>, b: seq<Message>)
    ensures front + a == front + b <==> a == b
  {
    assert (front + a)[|front|..] == a && (front + b)[|front|..] == b;
  }

  /** Without a cut the following pages are not the rest of the list. */
  lemma NoCutNoRest(log: seq<Message>, c: nat, limit: nat)
    requires limit >= 1 && Numbered(log) && 1 <= c <= |log| && !Cut(log, c)
    ensures Pages(log, log[c - 1].number, limit) != log[c..]
  {
    var cursor := log[c - 1].number;
    var pages := Pages(log, cursor, limit);
    if j :| c <= j < |log| && log[j].number <= cursor {
      assert log[c..][j - c] == log[j];
      if log[j] in pages { PagesMember(log, cursor, limit, log[j]); }
    } else {
      var i :| 0 <= i < c && log[i].number > cursor;
      Contains(log, cursor, i);
      var k :| 0 <= k <= i && Above(log, cursor)[0] == log[k];
      assert pages[0] == log[k];
      if c < |log| { assert log[c..][0] == log[c]; }
    }
  }

  /** An increasing list is read completely by pages of any size. */
  lemma {:induction false} IncreasingCuts(log: seq<Message>, c: nat, limit: nat)
    requires limit >= 1 && Increasing(log) && c <= |log|
    ensures CutsFrom(log, c, limit)
    decreases |log| - c
  {
    if c < |log| {
      IncreasingCuts(log, Min(c + limit, |log|), limit);
    }
  }

  lemma PagingComplete(log: seq<Message>, limit: nat)
    requires limit >= 1 && Increasing(log) && forall i | 0 <= i < |log| :: log[i].number >= 1
    ensures Pages(log, 0, limit) == log
  {
    IncreasingCuts(log, 0, limit);
    PagingExact(log, 0, limit);
    assert log[0..] == log;
  }

  /** In an increasing list the messages above a cursor are its end. */
  lemma {:induction false} AboveIsEnd(log: seq<Message>, cursor: int) returns (k: nat)
    requires Increasing(log)
    ensures k <= |log| && Above(log, cursor) == log[k..]
  {
    if log == [] {
      k := 0;
    } else if log[0].number > cursor {
      k := 0;
      AboveAll(log, cursor);
    } else {
      k := AboveIsEnd(log[1..], cursor);
      k := k + 1;
    }
  }

  /** Pages of changing sizes, one per limit, from any cursor. */
  function PagesBy(log: seq<Message>, cursor: int, limits: seq<nat>): seq<Message>
    requires forall i | 0 <= i < |limits| :: limits[i] >= 1
    decreases |limits|
  {
    if limits == [] then []
    else
      var page := Page(log, cursor, limits[0]);
      if page == [] then [] else page + PagesBy(log, page[|page| - 1].number, limits[1..])
  }

  /** From any cursor, with any limits: later messages once and in order, and all of them after enough pages. */
  lemma {:induction false} AnyPagingComplete(log: seq<Message>, cursor: int, limits: seq<nat>)
    requires Increasing(log) && forall i | 0 <= i < |limits| :: limits[i] >= 1
    ensures PagesBy(log, cursor, limits) <= Above(log, cursor)
    ensures |limits| >= |Above(log, cursor)| ==> PagesBy(log, cursor, limits) == Above(log, cursor)
    decreases |limits|
  {
    hide Above, Page, Increasing, Cut;
    var k := AboveIsEnd(log, cursor);
    if k == |log| {
      NoPage(log, cursor, limits);
    } else if limits != [] {
      var next := Min(k + limits[0], |log|);
      PageOfEnd(log, cursor, k, limits[0]);
      IncreasingCut(log, next);
      AboveAtCut(log, next);
      AnyPagingComplete(log, log[next - 1].number, limits[1..]);
      assert log[k..] == log[k..next] + log[next..];
    }
  }

  lemma NoPage(log: seq<Message>, cursor: int, limits: seq<nat>)
    requires Above(log, cursor) == [] && forall i | 0 <= i < |limits| :: limits[i] >= 1
    ensures PagesBy(log, cursor, limits) == []
  {
  }

  lemma PageOfEnd(log: seq<Message>, cursor: int, k: nat, limit: nat)
    requires k < |log| && limit >= 1 && Above(log, cursor) == log[k..]
    ensures var next := Min(k + limit, |log|);
      Page(log, cursor, limit) == log[k..next] && log[k..next][next - k - 1] == log[next - 1]
  {
    hide Above;
  }

  lemma IncreasingCut(log: seq<Message>, c: nat)
    requires Increasing(log) && c <= |log|
    ensures Cut(log, c)
  {
  }

  /** With pages of one message, only an increasing list is read completely. */
  lemma SinglePagesNeedOrder(log: seq<Message>)
    requires Numbered(log)
    ensures Pages(log, 0, 1) == log <==> Increasing(log)
  {
    assert log[0..] == log;
    PagingExact(log, 0, 1);
    if CutsFrom(log, 0, 1) {
      forall i, j | 0 <= i < j < |log| ensures log[i].number < log[j].number {
        CutAt(log, 0, i + 1);
      }
    } else if Increasing(log) {
      IncreasingCuts(log, 0, 1);
    }
  }

  lemma {:induction false} CutAt(log: seq<Message>, c: nat, d: nat)
    requires c <= d <= |log| && CutsFrom(log, c, 1)
    ensures Cut(log, d)
    decreases d - c
  {
    if c < d {
      CutAt(log, c + 1, d);
    }
  }

  // ---- writing -----------------------------------------------------------------------------

  /** The counter, the list, and numbers drawn by publishers that have not appended yet. */
  datatype Channel = Channel(counter: int, log: seq<Message>, drawn: set<int>)

  datatype Command = Incr | Push(number: int, body: Bytes) | Trim

  function Trimmed(log: seq<Message>): seq<Message> {
    if |log| <= KEPT then log else log[|log| - KEPT..]
  }

  predicate Allowed(c: Channel, command: Command) {
    command.Push? ==> command.number in c.drawn
  }

  function Execute(c: Channel, command: Command): Channel {
    match command
    case Incr => c.(counter := c.counter + 1, drawn := c.drawn + {c.counter + 1})
    case Push(number, body) => c.(log := c.log + [Message(number, body)], drawn := c.drawn - {number})
    case Trim => c.(log := Trimmed(c.log))
  }

  ghost predicate ChannelOk(c: Channel) {
    && c.counter >= 0 && Numbered(c.log)
    && (forall i | 0 <= i < |c.log| :: c.log[i].number <= c.counter && c.log[i].number !in c.drawn)
    && (forall n | n in c.drawn :: 1 <= n <= c.counter)
  }

  lemma CommandOk(c: Channel, command: Command)
    requires ChannelOk(c) && Allowed(c, command)
    ensures ChannelOk(Execute(c, command))
  {
  }

  /** An append whose number is above the last one in the list. */
  predicate InOrder(c: Channel, command: Command) {
    command.Push? && c.log != [] ==> c.log[|c.log| - 1].number < command.number
  }

  lemma CommandOrder(c: Channel, command: Command)
    requires ChannelOk(c) && Allowed(c, command) && Increasing(c.log)
    ensures Increasing(Execute(c, command).log) <==> InOrder(c, command)
  {
    if command.Push? && c.log != [] {
      var log := Execute(c, command).log;
      assert log[|c.log| - 1] == c.log[|c.log| - 1] && log[|c.log|].number == command.number;
    }
  }

  function Commands(c: Channel, commands: seq<Command>): Channel {
    if commands == [] then c
    else Execute(Commands(c, commands[..|commands| - 1]), commands[|commands| - 1])
  }

  /** Each command may be executed where it stands. */
  predicate AllAllowed(c: Channel, commands: seq<Command>) {
    commands == [] ||
    var front, last := commands[..|commands| - 1], commands[|commands| - 1];
    AllAllowed(c, front) && Allowed(Commands(c, front), last)
  }

  predicate AllInOrder(c: Channel, commands: seq<Command>) {
    commands == [] ||
    var front, last := commands[..|commands| - 1], commands[|commands| - 1];
    AllInOrder(c, front) && InOrder(Commands(c, front), last)
  }

  /** The list is increasing before and after every command. */
  predicate AlwaysIncreasing(c: Channel, commands: seq<Command>) {
    && Increasing(Commands(c, commands).log)
    && (commands == [] || AlwaysIncreasing(c, commands[..|commands| - 1]))
  }

  /** Numbers stay distinct under every interleaving of publishers. */
  lemma {:induction false} NumbersStayDistinct(c: Channel, commands: seq<Command>)
    requires ChannelOk(c) && AllAllowed(c, commands)
    ensures ChannelOk(Commands(c, commands))
  {
    hide ChannelOk, Allowed;
    if commands != [] {
      var front, last := commands[..|commands| - 1], commands[|commands| - 1];
      NumbersStayDistinct(c, front);
      CommandOk(Commands(c, front), last);
    }
  }

  /** The list is increasing all along exactly when every append comes in the order of its number. */
  lemma {:induction false} IncreasingExactly(c: Channel, commands: seq<Command>)
    requires ChannelOk(c) && Increasing(c.log) && AllAllowed(c, commands)
    ensures AlwaysIncreasing(c, commands) <==> AllInOrder(c, commands)
  {
    hide ChannelOk, Allowed, Increasing, InOrder;
    if commands != [] {
      var front, last := commands[..|commands| - 1], commands[|commands| - 1];
      IncreasingExactly(c, front);
      NumbersStayDistinct(c, front);
      if AlwaysIncreasing(c, front) {
        CommandOrder(Commands(c, front), last);
      }
    }
  }

  /** Two publishers whose appends cross: a reader with one-message pages never sees the first message. */
  lemma CrossedAppends(a: Bytes, b: Bytes)
    ensures var c := Execute(Execute(Execute(Execute(Channel(0, [], {}), Incr), Incr), Push(2, b)), Push(1, a));
      && Allowed(Execute(Execute(Channel(0, [], {}), Incr), Incr), Push(2, b))
      && Allowed(Execute(Execute(Execute(Channel(0, [], {}), Incr), Incr), Push(2, b)), Push(1, a))
      && Message(1, a) in c.log && Message(1, a) !in Pages(c.log, 0, 1)
  {
    var log := [Message(2, b), Message(1, a)];
    assert Above([Message(1, a)], 0) == [Message(1, a)] + Above([], 0) && Above([Message(1, a)], 2) == Above([], 2);
    assert log[1..] == [Message(1, a)];
    assert Page(log, 0, 1) == [Message(2, b)] && Page(log, 2, 1) == [];
    assert Execute(Execute(Execute(Execute(Channel(0, [], {}), Incr), Incr), Push(2, b)), Push(1, a)).log == log;
  }

  // ---- one publisher at a time ------------------------------------------------------------

  /** The list holds the last thousand numbers, in order. */
  ghost predicate Contiguous(counter: int, log: seq<Message>) {
    && counter >= 0 && |log| == Min(counter, KEPT)
    && forall i | 0 <= i < |log| :: log[i].number == counter - |log| + 1 + i
  }

  /** The counter and the list of one channel, written by one publisher at a time. */
  class History {
    var counter: int
    var log: seq<Message>

    /** Numbers drawn by calls that failed before their append. */
    ghost var lost: set<int>

    constructor ()
      ensures State() == Channel(0, [], {}) && Valid() && Contiguous(counter, log)
    {
      counter, log, lost := 0, [], {};
    }

    ghost function State(): Channel
      reads this
    {
      Channel(counter, log, lost)
    }

    ghost predicate Valid()
      reads this
    {
      ChannelOk(State()) && Increasing(log)
    }

    /**
     Draw, append, trim. `done` commands take effect; the call fails unless all three are
     confirmed, and a failed call is not undone.
     */
    method Publish(body: Bytes, done: nat, confirmed: bool) returns (r: Result<int, DeliveryError>)
      requires Valid() && done <= 3 && (confirmed ==> done == 3)
      modifies this
      ensures Valid()
      ensures r == if confirmed then Ok(old(counter) + 1) else Err(Unavailable)
      ensures State() == Published(old(State()), body, done)
      ensures old(Contiguous(counter, log)) && done == 3 ==> Contiguous(counter, log)
      ensures old(|log|) <= KEPT && done != 2 ==> |log| <= KEPT
    {
      hide ChannelOk, Increasing, Contiguous;
      ghost var c := State();
      var number := counter + 1;
      PublishedOk(c, body, done);
      if done == 0 {
        return Err(Unavailable);
      }
      counter, lost := number, lost + {number};
      if done == 1 {
        return Err(Unavailable);
      }
      log, lost := log + [Message(number, body)], lost - {number};
      if done == 2 {
        return Err(Unavailable);
      }
      if |log| > KEPT {
        log := log[|log| - KEPT..];
      }
      return if confirmed then Ok(number) else Err(Unavailable);
    }
  }

  /** The first `done` commands of a publication. */
  ghost function Published(c: Channel, body: Bytes, done: nat): Channel
    requires done <= 3
  {
    var one := Execute(c, Incr);
    var two := Execute(one, Push(c.counter + 1, body));
    if done == 0 then c else if done == 1 then one else if done == 2 then two else Execute(two, Trim)
  }

  lemma PublishedOk(c: Channel, body: Bytes, done: nat)
    requires done <= 3 && ChannelOk(c) && Increasing(c.log)
    ensures var after := Published(c, body, done);
      && ChannelOk(after) && Increasing(after.log)
      && (Contiguous(c.counter, c.log) && done == 3 ==> Contiguous(after.counter, after.log))
      && (|c.log| <= KEPT && done != 2 ==> |after.log| <= KEPT)
  {
    PublishOrder(c, c.counter + 1, body);
    PublishSize(c, c.counter + 1, body);
    hide ChannelOk, Increasing, Contiguous;
  }

  /** Those are commands of a run, so the theorems about runs cover `Publish`. */
  lemma PublishedCommands(c: Channel, body: Bytes, done: nat)
    requires done <= 3
    ensures Published(c, body, done) == Commands(c, [Incr, Push(c.counter + 1, body), Trim][..done])
  {
    hide Commands, Execute;
    var push := Push(c.counter + 1, body);
    var all := [Incr, push, Trim];
    assert all[..0] == [] && all[..1] == [] + [Incr] && all[..2] == all[..1] + [push] && all[..3] == all[..2] + [Trim];
    NoCommands(c);
    CommandsSnoc(c, [], Incr);
    CommandsSnoc(c, all[..1], push);
    CommandsSnoc(c, all[..2], Trim);
  }

  lemma NoCommands(c: Channel)
    ensures Commands(c, []) == c
  {
  }

  lemma CommandsSnoc(c: Channel, commands: seq<Command>, command: Command)
    ensures Commands(c, commands + [command]) == Execute(Commands(c, commands), command)
  {
    assert (commands + [command])[..|commands|] == commands;
  }

  lemma PublishSize(c: Channel, number: int, body: Bytes)
    requires number == c.counter + 1
    ensures var after := Execute(Execute(Execute(c, Incr), Push(number, body)), Trim);
      && |after.log| <= KEPT && (Contiguous(c.counter, c.log) ==> Contiguous(after.counter, after.log))
  {
  }

  lemma PublishOrder(c: Channel, number: int, body: Bytes)
    requires ChannelOk(c) && Increasing(c.log) && number == c.counter + 1
    ensures var one := Execute(c, Incr); var two := Execute(one, Push(number, body)); var three := Execute(two, Trim);
      && ChannelOk(one) && ChannelOk(two) && ChannelOk(three) && Increasing(two.log) && Increasing(three.log)
  {
    var one := Execute(c, Incr);
    var two := Execute(one, Push(number, body));
    CommandOk(c, Incr);
    CommandOk(one, Push(number, body));
    CommandOk(two, Trim);
    CommandOrder(one, Push(number, body));
    CommandOrder(two, Trim);
  }

  /** Written by one publisher at a time without failures, the list is read completely by pages of any size. */
  lemma SequentialPaging(counter: int, log: seq<Message>, limit: nat)
    requires Contiguous(counter, log) && limit >= 1
    ensures Increasing(log) && |log| <= KEPT && Pages(log, 0, limit) == log
  {
    hide Pages;
    PagingComplete(log, limit);
  }

  // ---- readers and publishers together --------------------------------------------------------

  /**
   A reader beside any publishers: `pushed` are all numbers ever appended, `seen` what its pages
   returned, `missed` what was no longer in the list when a page passed it.
   */
  datatype Reader = Reader(channel: Channel, pushed: set<int>, cursor: int, seen: seq<int>, missed: set<int>)

  datatype Move = Write(command: Command) | Read(limit: nat)

  ghost predicate Stored(log: seq<Message>, n: int) {
    exists i :: 0 <= i < |log| && log[i].number == n
  }

  function Numbers(page: seq<Message>): seq<int> {
    seq(|page|, i requires 0 <= i < |page| => page[i].number)
  }

  predicate May(r: Reader, move: Move) {
    move.Write? ==> Allowed(r.channel, move.command) && InOrder(r.channel, move.command)
  }

  ghost function Act(r: Reader, move: Move): Reader {
    match move
    case Write(command) =>
      r.(channel := Execute(r.channel, command),
         pushed := if command.Push? then r.pushed + {command.number} else r.pushed)
    case Read(limit) =>
      var page := Page(r.channel.log, r.cursor, Clamp(limit, 1, 100));
      if page == [] then r
      else
        var last := page[|page| - 1].number;
        r.(cursor := last, seen := r.seen + Numbers(page),
           missed := r.missed + set n | n in r.pushed && r.cursor < n <= last && !Stored(r.channel.log, n))
  }

  /** A number that left the list has at least a thousand later ones in it. */
  ghost predicate Dropped(log: seq<Message>, n: int) {
    |log| >= KEPT && log[0].number > n
  }

  ghost predicate WriterOk(c: Channel, pushed: set<int>) {
    && ChannelOk(c) && Increasing(c.log)
    && (forall i | 0 <= i < |c.log| :: c.log[i].number in pushed)
    && (forall n | n in pushed :: n !in c.drawn && (Stored(c.log, n) || Dropped(c.log, n)))
  }

  /** Everything appended between the start and the cursor was seen once, in order, or had been dropped. */
  ghost predicate ReaderOk(r: Reader, start: int) {
    && WriterOk(r.channel, r.pushed)
    && (r.cursor == start || (r.cursor > start && r.cursor in r.pushed))
    && (forall i, j | 0 <= i < j < |r.seen| :: r.seen[i] < r.seen[j])
    && (forall n :: n in r.seen || n in r.missed <==> n in r.pushed && start < n <= r.cursor)
    && (forall n | n in r.missed :: n !in r.seen && Dropped(r.channel.log, n))
  }

  lemma PushOk(c: Channel, pushed: set<int>, number: int, body: Bytes)
    requires WriterOk(c, pushed) && Allowed(c, Push(number, body)) && InOrder(c, Push(number, body))
    ensures WriterOk(Execute(c, Push(number, body)), pushed + {number})
    ensures forall n | Dropped(c.log, n) :: Dropped(Execute(c, Push(number, body)).log, n)
    ensures forall n | n in pushed :: n < number
  {
    CommandOk(c, Push(number, body));
    CommandOrder(c, Push(number, body));
    var after := Execute(c, Push(number, body));
    hide ChannelOk;
    forall n | Stored(c.log, n) ensures Stored(after.log, n) && n < number {
      var i :| 0 <= i < |c.log| && c.log[i].number == n;
      assert after.log[i].number == n && after.log[|c.log|].number == number;
    }
    assert after.log[|c.log|].number == number;
  }

  lemma TrimOk(c: Channel, pushed: set<int>)
    requires WriterOk(c, pushed)
    ensures WriterOk(Execute(c, Trim), pushed)
    ensures forall n | Dropped(c.log, n) :: Dropped(Execute(c, Trim).log, n)
  {
    CommandOk(c, Trim);
    CommandOrder(c, Trim);
    hide ChannelOk;
    forall n | Stored(c.log, n) ensures Stored(Trimmed(c.log), n) || Dropped(Trimmed(c.log), n) {
      TrimKeeps(c.log, n);
    }
    forall n | Dropped(c.log, n) ensures Dropped(Trimmed(c.log), n) { }
    hide Stored, Dropped;
  }

  lemma TrimKeeps(log: seq<Message>, n: int)
    requires Increasing(log) && Stored(log, n)
    ensures Stored(Trimmed(log), n) || Dropped(Trimmed(log), n)
  {
    var i :| 0 <= i < |log| && log[i].number == n;
    if |log| > KEPT && i >= |log| - KEPT { assert Trimmed(log)[i - (|log| - KEPT)].number == n; }
  }

  lemma WriteOk(c: Channel, pushed: set<int>, command: Command)
    requires WriterOk(c, pushed) && Allowed(c, command) && InOrder(c, command)
    ensures WriterOk(Execute(c, command), if command.Push? then pushed + {command.number} else pushed)
    ensures forall n | Dropped(c.log, n) :: Dropped(Execute(c, command).log, n)
    ensures command.Push? ==> forall n | n in pushed :: n < command.number
  {
    match command {
      case Incr => CommandOk(c, Incr);
      case Push(number, body) => PushOk(c, pushed, number, body);
      case Trim => TrimOk(c, pushed);
    }
  }

  /** In an increasing list the stored numbers above a cursor are those from some index on. */
  lemma StoredAbove(log: seq<Message>, cursor: int) returns (k: nat)
    requires Increasing(log)
    ensures k <= |log| && Above(log, cursor) == log[k..]
    ensures forall i | 0 <= i < |log| :: log[i].number > cursor <==> i >= k
  {
    k := AboveIsEnd(log, cursor);
    forall i | 0 <= i < |log| ensures log[i].number > cursor <==> i >= k {
      AboveMember(log, cursor, log[i]);
      if i >= k { assert log[k..][i - k] == log[i]; }
      if log[i].number > cursor {
        var j :| 0 <= j < |log[k..]| && log[k..][j] == log[i];
        assert log[k + j] == log[i];
      }
    }
  }

  /** The numbers of a page are the stored ones between the cursor and its last. */
  lemma PageNumbers(log: seq<Message>, cursor: int, limit: nat)
    requires Increasing(log) && limit >= 1
    ensures var page := Page(log, cursor, limit);
      && (page == [] <==> forall n | Stored(log, n) :: n <= cursor)
      && (page != [] ==>
            && Stored(log, page[|page| - 1].number) && page[|page| - 1].number > cursor
            && Increasing(page)
            && forall n :: n in Numbers(page) <==> Stored(log, n) && cursor < n <= page[|page| - 1].number)
  {
    hide Above, Page;
    var k := StoredAbove(log, cursor);
    if k < |log| {
      PageOfEnd(log, cursor, k, limit);
      var next := Min(k + limit, |log|);
      assert Stored(log, log[k].number) && Stored(log, log[next - 1].number);
      SliceNumbers(log, k, next, cursor);
      hide Numbers;
    } else {
      EmptyEnd(log, cursor, limit);
    }
  }

  lemma EmptyEnd(log: seq<Message>, cursor: int, limit: nat)
    requires limit >= 1 && Above(log, cursor) == []
    ensures Page(log, cursor, limit) == []
  {
  }

  /**
   Without failures a page from any cursor is the next run of consecutive numbers, and is empty
   only when nothing newer exists.
   */
  lemma PageIsNext(counter: int, log: seq<Message>, cursor: int, limit: nat)
    requires Contiguous(counter, log) && limit >= 1
    ensures var page := Page(log, cursor, limit); var from := Max(cursor, counter - |log|);
      && |page| == Min(limit, Max(counter - from, 0))
      && (forall i | 0 <= i < |page| :: page[i].number == from + 1 + i)
      && (page == [] <==> counter == 0 || cursor >= counter)
  {
    hide Above, Page;
    var k := StoredAbove(log, cursor);
    if k < |log| {
      PageOfEnd(log, cursor, k, limit);
      assert log[k].number > cursor && (k > 0 ==> log[k - 1].number <= cursor);
    } else {
      EmptyEnd(log, cursor, limit);
      assert log != [] ==> log[|log| - 1].number <= cursor;
    }
  }

  lemma SliceNumbers(log: seq<Message>, k: nat, next: nat, cursor: int)
    requires Increasing(log) && k < next <= |log|
    requires forall i | 0 <= i < |log| :: log[i].number > cursor <==> i >= k
    ensures forall n :: n in Numbers(log[k..next]) <==> Stored(log, n) && cursor < n <= log[next - 1].number
  {
    var page := log[k..next];
    forall n ensures n in Numbers(page) <==> Stored(log, n) && cursor < n <= log[next - 1].number {
      if n in Numbers(page) {
        var i :| 0 <= i < |page| && page[i].number == n;
        assert page[i] == log[k + i] && k + i <= next - 1;
      }
      if Stored(log, n) && cursor < n <= log[next - 1].number {
        var i :| 0 <= i < |log| && log[i].number == n;
        assert k <= i < next;
        assert Numbers(page)[i - k] == page[i - k].number == n;
      }
    }
  }

  lemma ReadOk(r: Reader, start: int, limit: nat)
    requires ReaderOk(r, start)
    ensures ReaderOk(Act(r, Read(limit)), start)
  {
    var log := r.channel.log;
    var page := Page(log, r.cursor, Clamp(limit, 1, 100));
    PageNumbers(log, r.cursor, Clamp(limit, 1, 100));
    hide Page, ChannelOk;
    if page != [] {
      var after := Act(r, Read(limit));
      forall n | Stored(log, n) ensures n in r.pushed {
        var i :| 0 <= i < |log| && log[i].number == n;
      }
      hide Stored;
      forall i, j | 0 <= i < j < |after.seen| ensures after.seen[i] < after.seen[j] {
        if i < |r.seen| {
          assert r.seen[i] in r.seen;
          if j >= |r.seen| { assert Numbers(page)[j - |r.seen|] in Numbers(page); }
        }
      }
    }
  }

  ghost function Moves(r: Reader, moves: seq<Move>): Reader {
    if moves == [] then r else Act(Moves(r, moves[..|moves| - 1]), moves[|moves| - 1])
  }

  /** Each command may be executed where it stands, and appends come in the order of their numbers. */
  ghost predicate AllMay(r: Reader, moves: seq<Move>) {
    moves == [] ||
    var front, last := moves[..|moves| - 1], moves[|moves| - 1];
    AllMay(r, front) && May(Moves(r, front), last)
  }

  ghost function NewReader(start: int): Reader {
    Reader(Channel(0, [], {}), {}, start, [], {})
  }

  /**
   However commands and reads interleave, as long as appends come in number order: from any
   cursor a reader sees every number appended up to its cursor once and in order, except those
   the thousand-message limit had dropped.
   */
  lemma {:induction false} NothingSkipped(start: int, moves: seq<Move>)
    requires AllMay(NewReader(start), moves)
    ensures ReaderOk(Moves(NewReader(start), moves), start)
  {
    if moves != [] {
      hide ReaderOk, Act, May;
      var front, last := moves[..|moves| - 1], moves[|moves| - 1];
      NothingSkipped(start, front);
      MoveOk(Moves(NewReader(start), front), start, last);
    }
  }

  lemma WriteMoveOk(r: Reader, start: int, command: Command)
    requires ReaderOk(r, start) && Allowed(r.channel, command) && InOrder(r.channel, command)
    ensures ReaderOk(Act(r, Write(command)), start)
  {
    hide WriterOk, Execute, Dropped;
    WriteOk(r.channel, r.pushed, command);
  }

  lemma MoveOk(r: Reader, start: int, move: Move)
    requires ReaderOk(r, start) && May(r, move)
    ensures ReaderOk(Act(r, move), start)
  {
    hide ReaderOk, Act;
    match move {
      case Read(limit) => ReadOk(r, start, limit);
      case Write(command) => WriteMoveOk(r, start, command);
    }
  }

  /** An empty page means that nothing newer was ever appended. */
  lemma EmptyPageMeansCaughtUp(start: int, moves: seq<Move>, limit: nat)
    requires AllMay(NewReader(start), moves)
    ensures var r := Moves(NewReader(start), moves);
      Page(r.channel.log, r.cursor, Clamp(limit, 1, 100)) == [] <==> forall n | n in r.pushed :: n <= r.cursor
  {
    var r := Moves(NewReader(start), moves);
    NothingSkipped(start, moves);
    PageNumbers(r.channel.log, r.cursor, Clamp(limit, 1, 100));
    hide Page, Moves;
    var log := r.channel.log;
    forall n | n in r.pushed && !Stored(log, n) ensures Stored(log, log[0].number) && n < log[0].number {
      assert log[0].number == log[0].number;
    }
    forall n | Stored(log, n) ensures n in r.pushed {
      var i :| 0 <= i < |log| && log[i].number == n;
    }
  }
}
