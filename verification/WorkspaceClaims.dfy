/**
 * The in-process claim on an agent's shared working folder
 * (src/agent/workspace-claim.ts): one holder per folder, re-entrant for that
 * holder, first come first served for everybody else.
 *
 * A promise is a ticket number here: `resolved` lists the tickets in the order
 * they were resolved, `next` is the first number not handed out. A folder name
 * stands for the resolved path.
 */
module WorkspaceClaims {
  import opened Common

  type Id = string
  type Dir = string

  datatype Waiter = Waiter(holder: Id, ticket: nat)
  datatype Folder = Folder(holder: Id, waiters: seq<Waiter>)
  datatype State = State(folders: map<Dir, Folder>, held: map<Id, Dir>, resolved: seq<nat>, next: nat)

  const EMPTY := State(map[], map[], [], 0)

  function HolderOf(s: State, dir: Dir): Option<Id> {
    if dir in s.folders then Some(s.folders[dir].holder) else None
  }

  // ---------------------------------------------------------------- operations

  /** The waiters of `h`, in order. */
  function Own(ws: seq<Waiter>, h: Id): seq<Waiter> {
    if ws == [] then []
    else Own(ws[..|ws| - 1], h) + if ws[|ws| - 1].holder == h then [ws[|ws| - 1]] else []
  }

  /** The waiters of everybody but `h`, in order. */
  function Others(ws: seq<Waiter>, h: Id): seq<Waiter> {
    if ws == [] then []
    else Others(ws[..|ws| - 1], h) + if ws[|ws| - 1].holder == h then [] else [ws[|ws| - 1]]
  }

  function Tickets(ws: seq<Waiter>): seq<nat> {
    seq(|ws|, i requires 0 <= i < |ws| => ws[i].ticket)
  }

  function Acquired(s: State, dir: Dir, h: Id): State {
    var granted := s.(resolved := s.resolved + [s.next], next := s.next + 1);
    if dir !in s.folders then
      granted.(folders := s.folders[dir := Folder(h, [])], held := s.held[h := dir])
    else if s.folders[dir].holder == h then
      granted
    else
      var f := s.folders[dir];
      s.(folders := s.folders[dir := f.(waiters := f.waiters + [Waiter(h, s.next)])], next := s.next + 1)
  }

  /** Every entry of `held` names a folder of that holder. */
  ghost predicate Linked(s: State) {
    forall h :: h in s.held ==> s.held[h] in s.folders && s.folders[s.held[h]].holder == h
  }

  function Released(s: State, h: Id): State
    requires h in s.held ==> s.held[h] in s.folders
  {
    if h !in s.held then s
    else
      var dir := s.held[h];
      var f := s.folders[dir];
      var dropped := s.(held := s.held - {h});
      if f.waiters == [] then
        dropped.(folders := s.folders - {dir})
      else
        var n := f.waiters[0];
        dropped.(
          folders := s.folders[dir := Folder(n.holder, Others(f.waiters[1..], n.holder))],
          held := (s.held - {h})[n.holder := dir],
          resolved := s.resolved + [n.ticket] + Tickets(Own(f.waiters[1..], n.holder)))
  }

  // ---------------------------------------------------------------- invariants

  /** The holder of a folder never waits for it. */
  ghost predicate NoSelfWait(s: State) {
    forall d, i :: d in s.folders && 0 <= i < |s.folders[d].waiters| ==>
      s.folders[d].waiters[i].holder != s.folders[d].holder
  }

  /** `held` is the inverse of the folders' holders. */
  ghost predicate Inverse(s: State) {
    && Linked(s)
    && forall d :: d in s.folders ==> s.folders[d].holder in s.held && s.held[s.folders[d].holder] == d
  }

  ghost predicate QueuedAt(s: State, t: nat, d: Dir, i: nat) {
    d in s.folders && i < |s.folders[d].waiters| && s.folders[d].waiters[i].ticket == t
  }

  /** Every ticket handed out is resolved exactly once, or waits at exactly one place. */
  ghost predicate TicketsKept(s: State) {
    && NoDuplicates(s.resolved)
    && (forall k :: 0 <= k < |s.resolved| ==> s.resolved[k] < s.next)
    && (forall t: nat, d, i: nat :: QueuedAt(s, t, d, i) ==> t < s.next && t !in s.resolved)
    && (forall t: nat, d, i: nat, d', i': nat :: QueuedAt(s, t, d, i) && QueuedAt(s, t, d', i') ==> d == d' && i == i')
    && (forall t: nat :: t < s.next && t !in s.resolved ==> exists d, i :: QueuedAt(s, t, d, i))
  }

  ghost predicate Valid(s: State) {
    Linked(s) && NoSelfWait(s) && TicketsKept(s)
  }

  // ------------------------------------------------------- filtering a queue

  lemma {:induction false} OthersAre(ws: seq<Waiter>, h: Id)
    ensures forall w :: w in Others(ws, h) <==> w in ws && w.holder != h
    ensures forall w :: w in Own(ws, h) <==> w in ws && w.holder == h
  {
    if ws != [] {
      OthersAre(ws[..|ws| - 1], h);
      assert ws == ws[..|ws| - 1] + [ws[|ws| - 1]];
    }
  }

  ghost predicate DistinctTickets(ws: seq<Waiter>) {
    forall i, j :: 0 <= i < j < |ws| ==> ws[i].ticket != ws[j].ticket
  }

  lemma {:induction false} SplitKeepsTicketsDistinct(ws: seq<Waiter>, h: Id)
    requires DistinctTickets(ws)
    ensures DistinctTickets(Others(ws, h)) && DistinctTickets(Own(ws, h))
  {
    if ws != [] {
      var front, last := ws[..|ws| - 1], ws[|ws| - 1];
      assert forall i :: 0 <= i < |front| ==> front[i] == ws[i];
      SplitKeepsTicketsDistinct(front, h);
      OthersAre(front, h);
      NewTicket(Others(front, h), last);
      NewTicket(Own(front, h), last);
    }
  }

  lemma NewTicket(ws: seq<Waiter>, last: Waiter)
    requires DistinctTickets(ws) && forall w :: w in ws ==> w.ticket != last.ticket
    ensures DistinctTickets(ws + [last])
  {
    assert forall i :: 0 <= i < |ws| ==> ws[i] in ws;
  }

  // -------------------------------------------------- what each call preserves

  lemma AcquireKeepsValid(s: State, dir: Dir, h: Id)
    requires Valid(s)
    ensures Valid(Acquired(s, dir, h))
  {
    var s' := Acquired(s, dir, h);
    var queues := dir in s.folders && s.folders[dir].holder != h;
    forall t: nat, d, i: nat | QueuedAt(s', t, d, i)
      ensures QueuedAt(s, t, d, i) || (queues && t == s.next && d == dir && i == |s.folders[dir].waiters|)
    {
    }
    forall t: nat, d, i: nat | QueuedAt(s, t, d, i) ensures QueuedAt(s', t, d, i) {
    }
    if queues {
      assert QueuedAt(s', s.next, dir, |s.folders[dir].waiters|);
    } else {
      assert s'.resolved[|s.resolved|] == s.next;
    }
    forall t: nat | t < s'.next && t !in s'.resolved ensures exists d, i :: QueuedAt(s', t, d, i) {
      if t < s.next {
        var d, i :| QueuedAt(s, t, d, i);
        assert QueuedAt(s', t, d, i);
      }
    }
  }

  lemma ReleaseKeepsLinks(s: State, h: Id)
    requires Linked(s) && NoSelfWait(s)
    ensures Linked(Released(s, h)) && NoSelfWait(Released(s, h))
  {
    if h in s.held && s.folders[s.held[h]].waiters != [] {
      var ws := s.folders[s.held[h]].waiters;
      OthersAre(ws[1..], ws[0].holder);
    }
  }

  lemma ReleaseKeepsTickets(s: State, h: Id)
    requires Valid(s)
    ensures TicketsKept(Released(s, h))
  {
    if h in s.held {
      var dir, s' := s.held[h], Released(s, h);
      var ws := s.folders[dir].waiters;
      if ws == [] {
        forall t: nat, d, i: nat ensures QueuedAt(s', t, d, i) <==> QueuedAt(s, t, d, i) {
        }
        forall t: nat | t < s'.next && t !in s'.resolved ensures exists d, i :: QueuedAt(s', t, d, i) {
          var d, i :| QueuedAt(s, t, d, i);
          assert QueuedAt(s', t, d, i);
        }
      } else {
        HandOffKeepsTickets(s, h);
      }
    }
  }

  ghost predicate HandsOff(s: State, h: Id) {
    h in s.held && s.held[h] in s.folders && s.folders[s.held[h]].waiters != []
  }

  /** A ticket still queued after a hand-off was queued in the same folder before, for a holder that was passed over. */
  lemma QueuedBefore(s: State, h: Id, t: nat, d: Dir, i: nat) returns (i0: nat)
    requires HandsOff(s, h) && QueuedAt(Released(s, h), t, d, i)
    ensures QueuedAt(s, t, d, i0)
    ensures d == s.held[h] ==> s.folders[d].waiters[i0].holder != s.folders[d].waiters[0].holder
    ensures d != s.held[h] ==> i0 == i
  {
    if d == s.held[h] {
      var ws := s.folders[d].waiters;
      var others := Others(ws[1..], ws[0].holder);
      OthersAre(ws[1..], ws[0].holder);
      assert others[i] in others;
      var j :| 0 <= j < |ws[1..]| && ws[1..][j] == others[i];
      i0 := j + 1;
    } else {
      i0 := i;
    }
  }

  /** A ticket resolved by a hand-off was queued in that folder, for the new holder. */
  lemma ResolvedBefore(s: State, h: Id, t: nat) returns (i0: nat)
    requires HandsOff(s, h) && t in Released(s, h).resolved && t !in s.resolved
    ensures QueuedAt(s, t, s.held[h], i0)
    ensures s.folders[s.held[h]].waiters[i0].holder == s.folders[s.held[h]].waiters[0].holder
  {
    var ws := s.folders[s.held[h]].waiters;
    var own := Own(ws[1..], ws[0].holder);
    if t == ws[0].ticket {
      i0 := 0;
    } else {
      assert t in Tickets(own);
      var k :| 0 <= k < |own| && Tickets(own)[k] == t;
      OthersAre(ws[1..], ws[0].holder);
      assert own[k] in own;
      var j :| 0 <= j < |ws[1..]| && ws[1..][j] == own[k];
      i0 := j + 1;
    }
  }

  lemma QueueHasDistinctTickets(s: State, d: Dir)
    requires TicketsKept(s) && d in s.folders
    ensures DistinctTickets(s.folders[d].waiters)
  {
    var ws := s.folders[d].waiters;
    forall i, j | 0 <= i < j < |ws| ensures ws[i].ticket != ws[j].ticket {
      assert QueuedAt(s, ws[i].ticket, d, i) && QueuedAt(s, ws[j].ticket, d, j);
    }
  }

  lemma HandOffResolvesOnce(s: State, h: Id)
    requires Valid(s) && HandsOff(s, h)
    ensures NoDuplicates(Released(s, h).resolved)
  {
    var dir := s.held[h];
    var ws := s.folders[dir].waiters;
    var n, own := ws[0], Own(ws[1..], ws[0].holder);
    QueueHasDistinctTickets(s, dir);
    SplitKeepsTicketsDistinct(ws[1..], n.holder);
    OthersAre(ws[1..], n.holder);
    assert QueuedAt(s, n.ticket, dir, 0);
    forall i | 0 <= i < |own|
      ensures own[i].ticket !in s.resolved && own[i].ticket != n.ticket
    {
      assert own[i] in own;
      var j :| 0 <= j < |ws[1..]| && ws[1..][j] == own[i];
      assert QueuedAt(s, own[i].ticket, dir, j + 1);
    }
  }

  /** Handing a folder to the next holder moves that holder's tickets, and no other, to `resolved`. */
  lemma HandOffKeepsTickets(s: State, h: Id)
    requires Valid(s) && HandsOff(s, h)
    ensures TicketsKept(Released(s, h))
  {
    var dir, s' := s.held[h], Released(s, h);
    HandOffResolvesOnce(s, h);
    forall k | 0 <= k < |s'.resolved| ensures s'.resolved[k] < s'.next {
      if s'.resolved[k] !in s.resolved {
        var i0 := ResolvedBefore(s, h, s'.resolved[k]);
      }
    }
    forall t: nat, d, i: nat | QueuedAt(s', t, d, i) ensures t < s'.next && t !in s'.resolved {
      var i0 := QueuedBefore(s, h, t, d, i);
      if t in s'.resolved {
        var j0 := ResolvedBefore(s, h, t);
      }
    }
    forall t: nat, d, i: nat, d', i': nat | QueuedAt(s', t, d, i) && QueuedAt(s', t, d', i')
      ensures d == d' && i == i'
    {
      var i0 := QueuedBefore(s, h, t, d, i);
      var j0 := QueuedBefore(s, h, t, d', i');
      if d == dir {
        QueueHasDistinctTickets(s, dir);
        SplitKeepsTicketsDistinct(s.folders[dir].waiters[1..], s.folders[dir].waiters[0].holder);
      }
    }
    forall t: nat | t < s'.next && t !in s'.resolved ensures exists d, i: nat :: QueuedAt(s', t, d, i) {
      StillQueued(s, h, t);
    }
  }

  lemma OwnResolved(s: State, h: Id)
    requires Valid(s) && HandsOff(s, h)
    ensures var ws, resolved := s.folders[s.held[h]].waiters, Released(s, h).resolved;
            ws[0].ticket in resolved && forall w :: w in Own(ws[1..], ws[0].holder) ==> w.ticket in resolved
  {
    var s', ws := Released(s, h), s.folders[s.held[h]].waiters;
    var own := Own(ws[1..], ws[0].holder);
    assert s'.resolved[|s.resolved|] == ws[0].ticket;
    forall w | w in own
      ensures w.ticket in s'.resolved
    {
      var j :| 0 <= j < |own| && own[j] == w;
      assert s'.resolved[|s.resolved| + 1 + j] == w.ticket;
    }
  }

  lemma StillQueued(s: State, h: Id, t: nat)
    requires Valid(s) && HandsOff(s, h) && t < s.next && t !in Released(s, h).resolved
    ensures exists d, i: nat :: QueuedAt(Released(s, h), t, d, i)
  {
    var dir, s' := s.held[h], Released(s, h);
    assert t !in s.resolved;
    var d, i: nat :| QueuedAt(s, t, d, i);
    if d != dir {
      assert QueuedAt(s', t, d, i);
      return;
    }
    var ws := s.folders[dir].waiters;
    var n := ws[0];
    var own, others := Own(ws[1..], n.holder), Others(ws[1..], n.holder);
    OthersAre(ws[1..], n.holder);
    OwnResolved(s, h);
    assert i > 0;
    assert ws[1..][i - 1] == ws[i];
    assert ws[i] in others;
    var j :| 0 <= j < |others| && others[j] == ws[i];
    assert QueuedAt(s', t, dir, j);
  }

  lemma ReleaseKeepsValid(s: State, h: Id)
    requires Valid(s)
    ensures Valid(Released(s, h))
  {
    ReleaseKeepsLinks(s, h);
    ReleaseKeepsTickets(s, h);
  }

  /** The maps stay mutually inverse across an `acquire` exactly when it does not take a second folder. */
  lemma AcquireInverse(s: State, dir: Dir, h: Id)
    requires Inverse(s)
    ensures Inverse(Acquired(s, dir, h)) <==> !(dir !in s.folders && h in s.held)
  {
    if dir !in s.folders && h in s.held {
      var d0, s' := s.held[h], Acquired(s, dir, h);
      assert d0 in s'.folders && s'.folders[d0].holder == h && s'.held[h] == dir;
    }
  }

  /** The maps stay mutually inverse across a release exactly when the next holder has no other folder. */
  lemma ReleaseInverse(s: State, h: Id)
    requires Inverse(s) && NoSelfWait(s)
    ensures Inverse(Released(s, h)) <==>
            !(h in s.held && var ws := s.folders[s.held[h]].waiters; ws != [] && ws[0].holder in s.held)
  {
    ReleaseKeepsLinks(s, h);
    if h in s.held {
      var dir := s.held[h];
      var ws := s.folders[dir].waiters;
      var s' := Released(s, h);
      if ws != [] {
        assert ws[0].holder != s.folders[dir].holder;
        if ws[0].holder in s.held {
          var d0 := s.held[ws[0].holder];
          assert d0 in s'.folders && s'.folders[d0].holder == ws[0].holder && s'.held[ws[0].holder] == dir;
        }
      }
    }
  }

  // ------------------------------------------------------------- fair hand-off

  /** The holders waiting, in the order of their first outstanding request. */
  function FirstSeen(ws: seq<Waiter>): seq<Id> {
    if ws == [] then []
    else
      var before, h := FirstSeen(ws[..|ws| - 1]), ws[|ws| - 1].holder;
      if h in before then before else before + [h]
  }

  /** Who holds a folder and who gets it next, and next after that. */
  function Line(s: State, dir: Dir): seq<Id> {
    if dir in s.folders then [s.folders[dir].holder] + FirstSeen(s.folders[dir].waiters) else []
  }

  lemma {:induction false} FirstSeenHolds(ws: seq<Waiter>)
    ensures forall h :: h in FirstSeen(ws) <==> exists i :: 0 <= i < |ws| && ws[i].holder == h
    ensures ws != [] ==> FirstSeen(ws) != [] && FirstSeen(ws)[0] == ws[0].holder
    ensures NoDuplicates(FirstSeen(ws))
  {
    if ws != [] {
      var front := ws[..|ws| - 1];
      FirstSeenHolds(front);
      forall h ensures h in FirstSeen(ws) <==> exists i :: 0 <= i < |ws| && ws[i].holder == h {
        if h in FirstSeen(front) {
          var i :| 0 <= i < |front| && front[i].holder == h;
          assert ws[i].holder == h;
        }
        if exists i :: 0 <= i < |ws| && ws[i].holder == h {
          var i :| 0 <= i < |ws| && ws[i].holder == h;
          assert i < |front| ==> front[i].holder == h;
        }
      }
    }
  }

  lemma OneMoreInLine(ws: seq<Waiter>, last: Waiter)
    ensures FirstSeen(ws + [last]) == if last.holder in FirstSeen(ws) then FirstSeen(ws)
            else FirstSeen(ws) + [last.holder]
  {
    assert (ws + [last])[..|ws|] == ws;
  }

  lemma OneMoreOther(ws: seq<Waiter>, last: Waiter, h: Id)
    ensures Others(ws + [last], h) == if last.holder == h then Others(ws, h) else Others(ws, h) + [last]
  {
    assert (ws + [last])[..|ws|] == ws;
  }

  lemma InLineAfter(h: Id, line: seq<Id>, x: Id)
    ensures x in [h] + line <==> x == h || x in line
    ensures ([h] + line) + [x] == [h] + (line + [x])
  {
  }

  lemma LineGrows(front: seq<Waiter>, rest: seq<Waiter>, last: Waiter, h: Id, line: seq<Id>)
    requires FirstSeen(front) == [h] + line && FirstSeen(Others(rest, h)) == line
    ensures FirstSeen(front + [last]) == [h] + FirstSeen(Others(rest + [last], h))
  {
    OneMoreInLine(front, last);
    OneMoreOther(rest, last, h);
    InLineAfter(h, line, last.holder);
    if last.holder != h {
      OneMoreInLine(Others(rest, h), last);
    }
  }

  lemma LineGrowsFrom(w: Waiter, front: seq<Waiter>, last: Waiter)
    requires FirstSeen([w] + front) == [w.holder] + FirstSeen(Others(front, w.holder))
    ensures FirstSeen([w] + (front + [last])) == [w.holder] + FirstSeen(Others(front + [last], w.holder))
  {
    LineGrows([w] + front, front, last, w.holder, FirstSeen(Others(front, w.holder)));
    assert ([w] + front) + [last] == [w] + (front + [last]);
  }

  lemma LineOfOne(w: Waiter)
    ensures FirstSeen([w]) == [w.holder]
  {
    assert [w][..0] == [];
  }

  lemma {:induction false} LineFrom(w: Waiter, rest: seq<Waiter>)
    ensures FirstSeen([w] + rest) == [w.holder] + FirstSeen(Others(rest, w.holder))
  {
    if rest == [] {
      LineOfOne(w);
      assert [w] + rest == [w];
    } else {
      var front, last := rest[..|rest| - 1], rest[|rest| - 1];
      assert front + [last] == rest;
      LineFrom(w, front);
      LineGrowsFrom(w, front, last);
    }
  }

  /** Taking the next holder with all its requests out of the queue drops it from the line and moves nobody else. */
  lemma HandOffDropsTheHead(ws: seq<Waiter>)
    requires ws != []
    ensures FirstSeen(Others(ws[1..], ws[0].holder)) == FirstSeen(ws)[1..]
  {
    LineFrom(ws[0], ws[1..]);
    assert [ws[0]] + ws[1..] == ws;
  }

  datatype Event = Ask(dir: Dir, who: Id) | Free(who: Id)

  ghost function Step(s: State, e: Event): State
    requires Valid(s)
    ensures Valid(Step(s, e))
  {
    match e
    case Ask(d, h) => AcquireKeepsValid(s, d, h); Acquired(s, d, h)
    case Free(h) => ReleaseKeepsValid(s, h); Released(s, h)
  }

  ghost function Run(s: State, es: seq<Event>): State
    requires Valid(s)
    ensures Valid(Run(s, es))
    decreases es
  {
    if es == [] then s else Run(Step(s, es[0]), es[1..])
  }

  /** How one event moves the line of a folder: a release takes the head off, a request joins the end once. */
  lemma StepMovesLine(s: State, e: Event, dir: Dir)
    requires Valid(s)
    ensures Line(Step(s, e), dir) ==
            match e
            case Ask(d, h) => if d == dir && h !in Line(s, dir) then Line(s, dir) + [h] else Line(s, dir)
            case Free(h) => if h in s.held && s.held[h] == dir then Line(s, dir)[1..] else Line(s, dir)
  {
    match e
    case Ask(d, h) => RequestMovesLine(s, d, h, dir);
    case Free(h) => ReleaseMovesLine(s, h, dir);
  }

  lemma RequestMovesLine(s: State, d: Dir, h: Id, dir: Dir)
    requires Linked(s)
    ensures Line(Acquired(s, d, h), dir) == if d == dir && h !in Line(s, dir) then Line(s, dir) + [h] else Line(s, dir)
  {
    if d == dir && dir in s.folders && s.folders[dir].holder != h {
      var ws := s.folders[dir].waiters;
      assert (ws + [Waiter(h, s.next)])[..|ws|] == ws;
    }
  }

  lemma ReleaseMovesLine(s: State, h: Id, dir: Dir)
    requires Linked(s)
    ensures Line(Released(s, h), dir) == if h in s.held && s.held[h] == dir then Line(s, dir)[1..] else Line(s, dir)
  {
    if h in s.held && s.held[h] == dir {
      var ws := s.folders[dir].waiters;
      if ws != [] {
        HandOffDropsTheHead(ws);
        FirstSeenHolds(ws);
      }
    }
  }

  /** The step is a release of folder `dir`. */
  ghost predicate Frees(s: State, e: Event, dir: Dir) {
    e.Free? && e.who in s.held && s.held[e.who] == dir
  }

  /** How often the folder changes hands, or becomes free, in a run. */
  ghost function Releases(s: State, es: seq<Event>, dir: Dir): nat
    requires Valid(s)
    decreases es
  {
    if es == [] then 0
    else (if Frees(s, es[0], dir) then 1 else 0) + Releases(Step(s, es[0]), es[1..], dir)
  }

  lemma PlaceMoves(s: State, e: Event, dir: Dir, p: nat)
    requires Valid(s) && p < |Line(s, dir)| && (Frees(s, e, dir) ==> p > 0)
    ensures var s', p' := Step(s, e), if Frees(s, e, dir) then p - 1 else p;
            Valid(s') && p' < |Line(s', dir)| && Line(s', dir)[p'] == Line(s, dir)[p]
  {
    StepMovesLine(s, e, dir);
  }

  /**
   * First come, first served: whoever stands at place `p` of a folder's line
   * stands at place `p - r` after `r` releases of that folder, whatever else
   * happens in between. With `r == p` it holds the folder.
   */
  lemma {:induction false} ServedInOrder(s: State, es: seq<Event>, dir: Dir, p: nat)
    requires Valid(s) && p < |Line(s, dir)| && Releases(s, es, dir) <= p
    ensures p - Releases(s, es, dir) < |Line(Run(s, es), dir)|
    ensures Line(Run(s, es), dir)[p - Releases(s, es, dir)] == Line(s, dir)[p]
    decreases es
  {
    if es != [] {
      var s', rest := Step(s, es[0]), es[1..];
      var p' := if Frees(s, es[0], dir) then p - 1 else p;
      PlaceMoves(s, es[0], dir, p);
      assert Releases(s', rest, dir) <= p' && p' - Releases(s', rest, dir) == p - Releases(s, es, dir);
      ServedInOrder(s', rest, dir, p');
      assert Run(s, es) == Run(s', rest);
    }
  }

  ghost predicate Waits(s: State, dir: Dir, w: Waiter) {
    dir in s.folders && w in s.folders[dir].waiters
  }

  /** A waiter keeps its place in the queue until its ticket is resolved. */
  lemma WaiterStays(s: State, e: Event, dir: Dir, w: Waiter)
    requires Valid(s) && Waits(s, dir, w)
    ensures w.ticket in Step(s, e).resolved || Waits(Step(s, e), dir, w)
  {
    var ws := s.folders[dir].waiters;
    if Frees(s, e, dir) {
      OthersAre(ws[1..], ws[0].holder);
      OwnResolved(s, e.who);
      assert w == ws[0] || w in ws[1..];
    }
  }

  lemma ResolvedStays(s: State, es: seq<Event>, t: nat)
    requires Valid(s) && t in s.resolved
    ensures t in Run(s, es).resolved
    decreases es
  {
    if es != [] {
      ResolvedStays(Step(s, es[0]), es[1..], t);
    }
  }

  lemma {:induction false} WaiterStaysThroughout(s: State, es: seq<Event>, dir: Dir, w: Waiter)
    requires Valid(s) && Waits(s, dir, w)
    ensures w.ticket in Run(s, es).resolved || Waits(Run(s, es), dir, w)
    decreases es
  {
    if es != [] {
      WaiterStays(s, es[0], dir, w);
      if Waits(Step(s, es[0]), dir, w) {
        WaiterStaysThroughout(Step(s, es[0]), es[1..], dir, w);
      } else {
        ResolvedStays(Step(s, es[0]), es[1..], w.ticket);
      }
    }
  }

  /**
   * A waiter behind `k` other waiting holders gets the folder, and its promise resolved, with the `k + 1`-st
   * release.
   */
  lemma GrantedWithin(s: State, es: seq<Event>, dir: Dir, w: Waiter, k: nat)
    requires Valid(s) && Waits(s, dir, w)
    requires k < |FirstSeen(s.folders[dir].waiters)| && FirstSeen(s.folders[dir].waiters)[k] == w.holder
    requires Releases(s, es, dir) == k + 1
    ensures HolderOf(Run(s, es), dir) == Some(w.holder) && w.ticket in Run(s, es).resolved
  {
    ServedInOrder(s, es, dir, k + 1);
    WaiterStaysThroughout(s, es, dir, w);
    var s' := Run(s, es);
    assert forall i :: 0 <= i < |s'.folders[dir].waiters| ==> s'.folders[dir].waiters[i].holder != w.holder;
  }

  // ------------------------------------------------- one home folder per holder

  /** Every holder and waiter asks for its own home folder only; then the two maps are mutually inverse. */
  ghost predicate Homed(s: State, home: map<Id, Dir>) {
    && Inverse(s)
    && NoSelfWait(s)
    && (forall d :: d in s.folders ==> s.folders[d].holder in home && home[s.folders[d].holder] == d)
    && (forall d, i :: d in s.folders && 0 <= i < |s.folders[d].waiters| ==>
          s.folders[d].waiters[i].holder in home && home[s.folders[d].waiters[i].holder] == d)
  }

  lemma AcquireKeepsHomed(s: State, home: map<Id, Dir>, h: Id)
    requires Homed(s, home) && h in home
    ensures Homed(Acquired(s, home[h], h), home)
  {
    AcquireInverse(s, home[h], h);
  }

  lemma ReleaseKeepsHomed(s: State, home: map<Id, Dir>, h: Id)
    requires Homed(s, home)
    ensures Homed(Released(s, h), home)
    ensures forall d :: d in s.folders && s.folders[d].holder != h ==>
            d in Released(s, h).folders && Released(s, h).folders[d].holder == s.folders[d].holder
    ensures h in home ==> HolderOf(Released(s, h), home[h]) != Some(h)
  {
    ReleaseInverse(s, h);
    ReleaseKeepsLinks(s, h);
    if h in s.held {
      var ws := s.folders[s.held[h]].waiters;
      if ws != [] {
        OthersAre(ws[1..], ws[0].holder);
        var others := Others(ws[1..], ws[0].holder);
        forall i | 0 <= i < |others|
          ensures others[i] in ws
        {
          assert others[i] in others;
          var j :| 0 <= j < |ws[1..]| && ws[1..][j] == others[i];
          assert ws[j + 1] == others[i];
        }
      }
    }
  }

  // ----------------------------------------------------- folders that are stuck

  /** Folder `d` is held by `h`, whose entry in `held` names another folder, or none. */
  ghost predicate Stuck(s: State, h: Id, d: Dir) {
    d in s.folders && s.folders[d].holder == h && !(h in s.held && s.held[h] == d)
  }

  lemma StepKeepsStuck(s: State, e: Event, h: Id, d: Dir)
    requires Valid(s) && Stuck(s, h, d)
    ensures Stuck(Step(s, e), h, d)
  {
  }

  lemma {:induction false} StuckStays(s: State, es: seq<Event>, h: Id, d: Dir)
    requires Valid(s) && Stuck(s, h, d)
    ensures Stuck(Run(s, es), h, d)
    decreases es
  {
    if es != [] {
      StepKeepsStuck(s, es[0], h, d);
      StuckStays(Step(s, es[0]), es[1..], h, d);
    }
  }

  ghost predicate HoldsAfter(s: State, es: seq<Event>, h: Id, d: Dir)
    requires Valid(s)
  {
    HolderOf(Run(s, es), d) == Some(h)
  }

  lemma FreeLets(s: State, h: Id, d: Dir)
    requires Valid(s) && d in s.folders && s.folders[d].holder == h && h in s.held && s.held[h] == d
    ensures HolderOf(Step(s, Free(h)), d) != Some(h)
  {
    assert forall i :: 0 <= i < |s.folders[d].waiters| ==> s.folders[d].waiters[i].holder != h;
  }

  /** A holder keeps a folder over every history, whatever is released, exactly when its entry names another one. */
  lemma KeptForGoodExactly(s: State, h: Id, d: Dir)
    requires Valid(s) && HolderOf(s, d) == Some(h)
    ensures (forall es: seq<Event> :: HoldsAfter(s, es, h, d)) <==> Stuck(s, h, d)
  {
    if Stuck(s, h, d) {
      forall es: seq<Event>
        ensures HoldsAfter(s, es, h, d)
      {
        StuckStays(s, es, h, d);
      }
    } else {
      var es := [Free(h)];
      assert es[1..] == [] && Run(s, es) == Step(s, Free(h));
      FreeLets(s, h, d);
      assert !HoldsAfter(s, es, h, d);
    }
  }

  /** A holder that takes a second folder keeps the first one for good: its releases reach only the last. */
  lemma SecondFolderIsStuck(s: State, h: Id, first: Dir, second: Dir, es: seq<Event>)
    requires Valid(s) && HolderOf(s, first) == Some(h) && second !in s.folders
    ensures HolderOf(Run(Step(s, Ask(second, h)), es), first) == Some(h)
  {
    StuckStays(Step(s, Ask(second, h)), es, h, first);
  }

  // ------------------------------------------------------------------ the class

  /** The claim object itself; `resolved` and `next` record what its callers' promises saw. */
  class Claims {
    var folders: map<Dir, Folder>
    var held: map<Id, Dir>
    var resolved: seq<nat>
    var next: nat

    ghost function View(): State
      reads this
    {
      State(folders, held, resolved, next)
    }

    constructor ()
      ensures View() == EMPTY && Valid(View())
    {
      folders, held, resolved, next := map[], map[], [], 0;
    }

    method Acquire(dir: Dir, h: Id) returns (ticket: nat)
      requires Valid(View())
      modifies this
      ensures View() == Acquired(old(View()), dir, h) && Valid(View())
      ensures ticket == old(next)
    {
      AcquireKeepsValid(View(), dir, h);
      ticket := next;
      next := next + 1;
      if dir !in folders {
        folders := folders[dir := Folder(h, [])];
        held := held[h := dir];
        resolved := resolved + [ticket];
        return;
      }
      var f := folders[dir];
      if f.holder == h {
        resolved := resolved + [ticket];
        return;
      }
      folders := folders[dir := f.(waiters := f.waiters + [Waiter(h, ticket)])];
    }

    method ReleaseHolder(h: Id)
      requires Valid(View())
      modifies this
      ensures View() == Released(old(View()), h) && Valid(View())
    {
      ReleaseKeepsValid(View(), h);
      if h !in held {
        return;
      }
      var dir := held[h];
      held := held - {h};
      var f := folders[dir];
      if f.waiters == [] {
        folders := folders - {dir};
        return;
      }
      var n, rest := f.waiters[0], f.waiters[1..];
      var own := Own(rest, n.holder);
      folders := folders[dir := Folder(n.holder, Others(rest, n.holder))];
      held := held[n.holder := dir];
      resolved := resolved + [n.ticket];
      var i := 0;
      while i < |own|
        invariant 0 <= i <= |own|
        invariant folders == old(folders)[dir := Folder(n.holder, Others(rest, n.holder))]
        invariant held == (old(held) - {h})[n.holder := dir] && next == old(next)
        invariant resolved == old(resolved) + [n.ticket] + Tickets(own)[..i]
      {
        resolved := resolved + [own[i].ticket];
        i := i + 1;
      }
      assert Tickets(own)[..i] == Tickets(own);
    }
  }
}
