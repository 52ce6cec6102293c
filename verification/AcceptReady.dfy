/**
 * Accept all Ready and its Undo (apps/web/src/batch-review.tsx): ids sent a turn at a time,
 * what was filed kept whatever happens to a later turn, and taken back by one Undo.
 */
module AcceptReady {
  import opened Text

  const ACCEPT_READY_MAX := 50
  const BATCH_MAX_FILES := 200

  function Concat<T>(parts: seq<seq<T>>): seq<T> {
    if parts == [] then [] else parts[0] + Concat(parts[1..])
  }

  lemma {:induction false} ConcatMore<T>(a: seq<seq<T>>, b: seq<seq<T>>)
    ensures Concat(a + b) == Concat(a) + Concat(b)
    decreases |a|
  {
    if a == [] {
      assert a + b == b;
    } else {
      assert (a + b)[1..] == a[1..] + b;
      ConcatMore(a[1..], b);
    }
  }

  // ------------------------------------------------------------- turns

  function Least(a: nat, b: nat): nat {
    if a < b then a else b
  }

  /** Ids cut into runs of `size`, in their order; the last may be shorter. */
  function InTurns(ids: seq<string>, size: nat): (turns: seq<seq<string>>)
    requires size > 0
  {
    seq((|ids| + size - 1) / size, i requires 0 <= i < (|ids| + size - 1) / size =>
      assert i * size <= |ids| by { TurnStarts(|ids|, size, i); }
      ids[i * size..Least((i + 1) * size, |ids|)])
  }

  lemma TurnStarts(n: nat, size: nat, i: nat)
    requires size > 0 && i < (n + size - 1) / size
    ensures i * size < n && i * size <= (i + 1) * size
  {
    var q, r := (n + size - 1) / size, (n + size - 1) % size;
    assert n + size - 1 == q * size + r;
    Times(size, i + 1, q);
    Times(size, i, i + 1);
  }

  lemma Times(size: nat, a: nat, b: nat)
    requires a <= b
    ensures a * size <= b * size && (a + 1) * size == a * size + size
  {
    assert b * size - a * size == (b - a) * size;
  }

  /** Every turn but the last is full, none is empty, and none is over its most. */
  lemma TurnsFit(ids: seq<string>, size: nat, i: nat)
    requires size > 0 && i < |InTurns(ids, size)|
    ensures 0 < |InTurns(ids, size)[i]| <= size
    ensures i < |InTurns(ids, size)| - 1 ==> |InTurns(ids, size)[i]| == size
  {
    TurnStarts(|ids|, size, i);
    assert (i + 1) * size == i * size + size;
    if i < |InTurns(ids, size)| - 1 {
      TurnStarts(|ids|, size, i + 1);
    }
  }

  lemma TurnIs(ids: seq<string>, size: nat, i: nat)
    requires size > 0 && i < |InTurns(ids, size)|
    ensures i * size <= Least((i + 1) * size, |ids|) <= |ids| && i * size < |ids|
    ensures InTurns(ids, size)[i] == ids[i * size..Least((i + 1) * size, |ids|)]
  {
    TurnStarts(|ids|, size, i);
  }

  lemma Joined(ids: seq<string>, a: nat, b: nat)
    requires a <= b <= |ids|
    ensures ids[..a] + ids[a..b] == ids[..b]
  {
  }

  /** The first turns are the first ids, in order: as many as they hold. */
  lemma {:induction false} TurnsAreAPrefix(ids: seq<string>, size: nat, n: nat)
    requires size > 0 && n <= |InTurns(ids, size)|
    ensures Concat(InTurns(ids, size)[..n]) == ids[..Least(n * size, |ids|)]
    decreases n
  {
    hide InTurns;
    var turns := InTurns(ids, size);
    if n == 0 {
      assert turns[..0] == [];
    } else {
      var last := turns[n - 1];
      TurnsAreAPrefix(ids, size, n - 1);
      TurnIs(ids, size, n - 1);
      assert turns[..n] == turns[..n - 1] + [last];
      ConcatMore(turns[..n - 1], [last]);
      OnePart(last);
      Joined(ids, (n - 1) * size, Least(n * size, |ids|));
    }
  }

  lemma OnePart<T>(part: seq<T>)
    ensures Concat([part]) == part
  {
    assert [part][1..] == [];
  }

  lemma TurnsReach(n: nat, size: nat)
    requires size > 0
    ensures (n + size - 1) / size * size >= n
  {
    var q, r := (n + size - 1) / size, (n + size - 1) % size;
    assert n + size - 1 == q * size + r;
  }

  /** All the turns, one after another, are all the ids. */
  lemma TurnsAreAll(ids: seq<string>, size: nat)
    requires size > 0
    ensures Concat(InTurns(ids, size)) == ids
  {
    var turns := InTurns(ids, size);
    TurnsReach(|ids|, size);
    assert |turns| * size >= |ids|;
    hide InTurns;
    TurnsAreAPrefix(ids, size, |turns|);
    assert turns[..|turns|] == turns;
  }

  // ------------------------------------------------------------- accepting

  /** What the vault did with one turn: the earliest moment of `until` stands for its word. */
  datatype Result = Result(accepted: seq<string>, skipped: seq<string>, failed: seq<string>, until: Option<nat>)

  datatype Reply = Did(result: Result) | SignedOut | Threw

  const NOTHING := Result([], [], [], None)

  function Earliest(a: Option<nat>, b: Option<nat>): Option<nat> {
    if a.None? then b else if b.None? then a else Some(Least(a.value, b.value))
  }

  function Both(a: Result, b: Result): Result {
    Result(a.accepted + b.accepted, a.skipped + b.skipped, a.failed + b.failed, Earliest(a.until, b.until))
  }

  datatype Stopped = NotStopped | BySignOut | ByError | ByFailures(left: nat)

  /** What came of the turns sent: how many, what they did, and why the rest were not. */
  datatype Sent = Sent(turns: nat, all: Result, stopped: Stopped)

  /** A turn's reply ends it: not answered, or some of it failed and there is more to send. */
  predicate EndsIt(reply: Reply, last: bool) {
    !reply.Did? || (reply.result.failed != [] && !last)
  }

  /** Said of the replies alone: every turn up to the first that ends it. */
  function Reached(replies: seq<Reply>, from: nat, n: nat): (r: nat)
    requires from <= n <= |replies|
    ensures from <= r <= n
    ensures forall i :: from <= i < r - 1 ==> !EndsIt(replies[i], i == n - 1)
    ensures r < n ==> r > from && EndsIt(replies[r - 1], false)
    decreases n - from
  {
    if from == n then from
    else if EndsIt(replies[from], from == n - 1) then from + 1
    else Reached(replies, from + 1, n)
  }

  /** The turns sent: every one up to the first not answered, or some of which failed; that one, and none after it. */
  lemma StopsAtTheFirst(replies: seq<Reply>)
    ensures var n := Reached(replies, 0, |replies|);
      && (forall i :: 0 <= i < n - 1 ==> replies[i].Did? && replies[i].result.failed == [])
      && (n < |replies| ==> n > 0 && !(replies[n - 1].Did? && replies[n - 1].result.failed == []))
  {
  }

  function AllOf(replies: seq<Reply>): Result {
    if replies == [] then NOTHING
    else
      var before := AllOf(replies[..|replies| - 1]);
      var last := replies[|replies| - 1];
      if last.Did? then Both(before, last.result) else before
  }

  /** Everything accepted is of some reply, in the order it came. */
  function AcceptedOf(replies: seq<Reply>): seq<seq<string>> {
    seq(|replies|, i requires 0 <= i < |replies| => if replies[i].Did? then replies[i].result.accepted else [])
  }

  lemma {:induction false} AllAccepted(replies: seq<Reply>)
    ensures AllOf(replies).accepted == Concat(AcceptedOf(replies))
    ensures AllOf(replies).until.Some? ==>
      exists i :: 0 <= i < |replies| && replies[i].Did? && replies[i].result.until == AllOf(replies).until
    ensures forall i :: 0 <= i < |replies| && replies[i].Did? && replies[i].result.until.Some? ==>
      AllOf(replies).until.Some? && AllOf(replies).until.value <= replies[i].result.until.value
    decreases |replies|
  {
    if replies != [] {
      var before, last := replies[..|replies| - 1], replies[|replies| - 1];
      AllAccepted(before);
      assert AcceptedOf(replies) == AcceptedOf(before) + [if last.Did? then last.result.accepted else []];
      ConcatMore(AcceptedOf(before), [if last.Did? then last.result.accepted else []]);
      OnePart(if last.Did? then last.result.accepted else []);
      forall i | 0 <= i < |replies| && replies[i].Did? && replies[i].result.until.Some?
        ensures AllOf(replies).until.Some? && AllOf(replies).until.value <= replies[i].result.until.value
      {
        if i < |before| {
          assert before[i] == replies[i];
        }
      }
      if AllOf(before).until.Some? {
        var i :| 0 <= i < |before| && before[i].Did? && before[i].result.until == AllOf(before).until;
        assert replies[i] == before[i];
      }
      assert last.Did? ==> replies[|replies| - 1] == last;
    }
  }

  /** A turn at a time: `replies` is what the vault would answer each, should it be sent. */
  method SendTurns(itemIds: seq<string>, replies: seq<Reply>) returns (sent: Sent, requests: seq<seq<string>>)
    requires |replies| == |InTurns(itemIds, ACCEPT_READY_MAX)|
    ensures sent.turns == Reached(replies, 0, |replies|) && sent.all == AllOf(replies[..sent.turns])
    ensures requests == InTurns(itemIds, ACCEPT_READY_MAX)[..sent.turns]
    ensures sent.stopped == NotStopped <==>
      sent.turns == |replies| && (|replies| > 0 ==> replies[|replies| - 1].Did?)
    ensures sent.stopped.ByFailures? ==>
      sent.stopped.left == |itemIds| - |Concat(requests)| && 0 < sent.turns < |replies| && replies[sent.turns - 1].Did?
    ensures sent.stopped == ByError <==> 0 < sent.turns && replies[sent.turns - 1].Threw?
    ensures sent.stopped == BySignOut <==> 0 < sent.turns && replies[sent.turns - 1].SignedOut?
  {
    var turns := InTurns(itemIds, ACCEPT_READY_MAX);
    var all := NOTHING;
    requests := [];
    assert replies[..0] == [];
    for at := 0 to |turns|
      invariant requests == turns[..at]
      invariant all == AllOf(replies[..at])
      invariant Reached(replies, at, |replies|) == Reached(replies, 0, |replies|)
      invariant at > 0 ==> replies[at - 1].Did?
    {
      assert turns[..at + 1] == turns[..at] + [turns[at]];
      assert replies[..at + 1][..at] == replies[..at];
      requests := requests + [turns[at]];
      if replies[at].Threw? {
        return Sent(at + 1, all, ByError), requests;
      }
      if replies[at].SignedOut? {
        return Sent(at + 1, all, BySignOut), requests;
      }
      all := Both(all, replies[at].result);
      if |replies[at].result.failed| > 0 && at < |turns| - 1 {
        LeftAfter(itemIds, at + 1);
        return Sent(at + 1, all, ByFailures(|Concat(turns[at + 1..])|)), requests;
      }
    }
    assert replies[..|replies|] == replies && turns[..|turns|] == turns;
    sent := Sent(|turns|, all, NotStopped);
  }

  lemma LeftAfter(ids: seq<string>, n: nat)
    requires n <= |InTurns(ids, ACCEPT_READY_MAX)|
    ensures |Concat(InTurns(ids, ACCEPT_READY_MAX)[n..])| == |ids| - |Concat(InTurns(ids, ACCEPT_READY_MAX)[..n])|
  {
    var turns := InTurns(ids, ACCEPT_READY_MAX);
    TurnsAreAll(ids, ACCEPT_READY_MAX);
    assert turns == turns[..n] + turns[n..];
    ConcatMore(turns[..n], turns[n..]);
  }

  /** What is sent is a prefix of the ids shown, in order, ACCEPT_READY_MAX at most a turn: however it stops. */
  lemma SentIsAPrefix(itemIds: seq<string>, n: nat)
    requires n <= |InTurns(itemIds, ACCEPT_READY_MAX)|
    ensures Concat(InTurns(itemIds, ACCEPT_READY_MAX)[..n]) <= itemIds
    ensures forall i :: 0 <= i < n ==> 0 < |InTurns(itemIds, ACCEPT_READY_MAX)[i]| <= 50 && (i < |InTurns(itemIds, ACCEPT_READY_MAX)| - 1 ==> |InTurns(itemIds, ACCEPT_READY_MAX)[i]| == 50)
  {
    TurnsAreAPrefix(itemIds, ACCEPT_READY_MAX, n);
    forall i | 0 <= i < n
      ensures 0 < |InTurns(itemIds, ACCEPT_READY_MAX)[i]| <= 50
      ensures i < |InTurns(itemIds, ACCEPT_READY_MAX)| - 1 ==> |InTurns(itemIds, ACCEPT_READY_MAX)[i]| == 50
    {
      TurnsFit(itemIds, ACCEPT_READY_MAX, i);
    }
  }

  // ------------------------------------------------------------- the toast, and Undo

  datatype Undo = Undo(batch: string, itemIds: seq<string>, until: Option<nat>)

  datatype Toast = Toast(undo: Option<Undo>, stopped: Stopped, busy: bool)

  /** An earlier Undo of the same batch, if it may still be undone. */
  function Still(toast: Option<Toast>, batch: string, now: nat): Option<Undo> {
    if toast.Some? && toast.value.undo.Some? && toast.value.undo.value.batch == batch
       && (toast.value.undo.value.until.None? || toast.value.undo.value.until.value > now)
    then toast.value.undo
    else None
  }

  function ToastOf(toast: Option<Toast>, batch: string, now: nat, sent: Sent): Toast {
    var earlier := Still(toast, batch, now);
    var ids := (if earlier.Some? then earlier.value.itemIds else []) + sent.all.accepted;
    var until := Earliest(if earlier.Some? then earlier.value.until else None, sent.all.until);
    Toast(if ids != [] then Some(Undo(batch, ids, until)) else None, sent.stopped, false)
  }

  /** One Accept all Ready: of which batch, when its answer came, and what came of it. */
  datatype Accept = Accept(batch: string, now: nat, sent: Sent)

  /** How an Undo ended: every turn of it answered; nobody signed in any more; or one not answered. */
  datatype UndoEnd = TookAllBack | NobodySignedIn | Failed

  datatype Event = Accepts(accept: Accept) | Undoes(end: UndoEnd) | Dismisses

  /** The toast once an Undo ended: gone from it, or there to try again. */
  function Undone(was: Toast, end: UndoEnd): Toast {
    match end
    case TookAllBack => Toast(None, NotStopped, false)
    case NobodySignedIn => was.(busy := true)
    case Failed => was.(busy := false)
  }

  function Next(toast: Option<Toast>, e: Event): Option<Toast> {
    match e
    case Accepts(a) => Some(ToastOf(toast, a.batch, a.now, a.sent))
    case Undoes(end) => if toast.Some? && toast.value.undo.Some? then Some(Undone(toast.value, end)) else toast
    case Dismisses => None
  }

  function After(events: seq<Event>): Option<Toast> {
    if events == [] then None else Next(After(events[..|events| - 1]), events[|events| - 1])
  }

  predicate UndoAfter(events: seq<Event>) {
    After(events).Some? && After(events).value.undo.Some?
  }

  function AcceptedBy(events: seq<Event>): seq<seq<string>> {
    seq(|events|, i requires 0 <= i < |events| => if events[i].Accepts? then events[i].accept.sent.all.accepted else [])
  }

  /** Accepted at `i`, and no longer to be undone at `j`. */
  predicate PastAt(events: seq<Event>, i: nat, j: nat) {
    && i < |events| && j < |events| && events[i].Accepts? && events[j].Accepts?
    && events[i].accept.sent.all.until.Some? && events[i].accept.sent.all.until.value <= events[j].accept.now
  }

  /**
   * Accepted at `from`, and joined by all accepted since: of one batch, each come before
   * any accepted since `from` could no longer be undone; nothing undone, nothing dismissed.
   */
  predicate Chain(events: seq<Event>, from: nat) {
    && from < |events| && events[from].Accepts? && events[from].accept.sent.all.accepted != []
    && (forall j :: from < j < |events| ==> events[j] != Dismisses && events[j] != Undoes(TookAllBack))
    && (forall j :: from < j < |events| && events[j].Accepts? ==> events[j].accept.batch == events[from].accept.batch)
    && (forall i, j :: from <= i < j < |events| ==> !PastAt(events, i, j))
  }

  /** Where the Undo there is began. */
  function BeganAt(events: seq<Event>): (from: nat)
    requires UndoAfter(events)
  {
    var n := |events| - 1;
    if events[n].Accepts? && Still(After(events[..n]), events[n].accept.batch, events[n].accept.now).None? then n
    else BeganAt(events[..n])
  }

  /** What an Undo is: of which items, of which batch, until when. */
  predicate Names(events: seq<Event>, from: nat, u: Undo) {
    && Chain(events, from) && u.batch == events[from].accept.batch
    && u.itemIds == Concat(AcceptedBy(events[from..])) && u.itemIds != []
    && (forall i :: from <= i < |events| && events[i].Accepts? && events[i].accept.sent.all.until.Some? ==>
          u.until.Some? && u.until.value <= events[i].accept.sent.all.until.value)
    && (u.until.Some? ==> exists i :: from <= i < |events| && events[i].Accepts? && events[i].accept.sent.all.until == u.until)
  }

  /**
   * Nothing that was there is carried over into what is accepted at `from`: there was no
   * Undo; or it was of another batch; or something in it could no longer be undone.
   */
  predicate BeginsAfresh(events: seq<Event>, from: nat) {
    && from < |events| && events[from].Accepts?
    && (|| !UndoAfter(events[..from])
        || After(events[..from]).value.undo.value.batch != events[from].accept.batch
        || exists i :: BeganAt(events[..from]) <= i < from && PastAt(events, i, from))
  }

  /** Which is what the code finds of the toast alone. */
  lemma AfreshIs(events: seq<Event>, from: nat)
    requires from < |events| && events[from].Accepts?
    requires UndoAfter(events[..from]) ==> Names(events[..from], BeganAt(events[..from]), After(events[..from]).value.undo.value)
    ensures BeginsAfresh(events, from) <==> Still(After(events[..from]), events[from].accept.batch, events[from].accept.now).None?
  {
    var before := events[..from];
    if UndoAfter(before) {
      var u := After(before).value.undo.value;
      var f := BeganAt(before);
      assert forall i :: 0 <= i < from ==> before[i] == events[i];
      if u.until.Some? && u.until.value <= events[from].accept.now {
        var i :| f <= i < from && before[i].Accepts? && before[i].accept.sent.all.until == u.until;
        assert PastAt(events, i, from);
      }
      hide Chain, AcceptedBy;
    }
  }

  lemma NamesMore(events: seq<Event>, from: nat, u: Undo, e: Event)
    requires Names(events, from, u) && !e.Accepts? && e != Dismisses && e != Undoes(TookAllBack)
    ensures Names(events + [e], from, u)
  {
    var more := events + [e];
    assert more[from..] == events[from..] + [e];
    assert AcceptedBy(more[from..]) == AcceptedBy(events[from..]) + [[]];
    ConcatMore(AcceptedBy(events[from..]), [[]]);
    OnePart<string>([]);
    ChainMore(events, from, e);
    if u.until.Some? {
      var i :| from <= i < |events| && events[i].Accepts? && events[i].accept.sent.all.until == u.until;
      assert more[i] == events[i];
    }
  }

  lemma ChainMore(events: seq<Event>, from: nat, e: Event)
    requires Chain(events, from)
    ensures Chain(events + [e], from) <==>
      && e != Dismisses && e != Undoes(TookAllBack)
      && (e.Accepts? ==>
            (e.accept.batch == events[from].accept.batch && forall i :: from <= i < |events| ==> !PastAt(events + [e], i, |events|)))
  {
    var more := events + [e];
    var n := |events|;
    assert forall i :: 0 <= i < n ==> more[i] == events[i];
    assert more[n] == e;
    assert forall i, j :: 0 <= i < n && 0 <= j < n ==> PastAt(more, i, j) == PastAt(events, i, j);
  }

  /** One more joins it: its items after those there, until the earliest of all their moments. */
  lemma NamesOneMore(events: seq<Event>, from: nat, u: Undo, a: Accept)
    requires Names(events, from, u) && u.batch == a.batch && (u.until.None? || u.until.value > a.now)
    ensures Names(events + [Accepts(a)], from, Undo(a.batch, u.itemIds + a.sent.all.accepted, Earliest(u.until, a.sent.all.until)))
  {
    var e := Accepts(a);
    var more := events + [e];
    var n := |events|;
    assert forall i :: 0 <= i < n ==> more[i] == events[i];
    assert more[n] == e;
    assert more[from..] == events[from..] + [e];
    assert AcceptedBy(more[from..]) == AcceptedBy(events[from..]) + [a.sent.all.accepted];
    ConcatMore(AcceptedBy(events[from..]), [a.sent.all.accepted]);
    OnePart(a.sent.all.accepted);
    ChainMore(events, from, e);
    var until := Earliest(u.until, a.sent.all.until);
    if until.Some? && until == u.until {
      var i :| from <= i < n && events[i].Accepts? && events[i].accept.sent.all.until == u.until;
      assert more[i] == events[i];
    }
  }

  lemma NamesAlone(events: seq<Event>, a: Accept)
    requires a.sent.all.accepted != []
    ensures Names(events + [Accepts(a)], |events|, Undo(a.batch, a.sent.all.accepted, a.sent.all.until))
  {
    var more := events + [Accepts(a)];
    assert more[|events|..] == [Accepts(a)];
    assert AcceptedBy([Accepts(a)]) == [a.sent.all.accepted];
    OnePart(a.sent.all.accepted);
  }

  /**
   * Whatever came before, Accepts, Undos and the toast dismissed: an Undo there is names
   * exactly what was accepted since it began, in order, until the earliest moment any of it
   * may be undone; and nothing that was there before was carried over into its beginning.
   */
  lemma {:induction false} UndoNamesTheLast(events: seq<Event>)
    requires UndoAfter(events)
    ensures Names(events, BeganAt(events), After(events).value.undo.value)
    ensures BeginsAfresh(events, BeganAt(events))
    decreases |events|
  {
    hide Names, Chain, AcceptedBy, BeginsAfresh;
    var n := |events| - 1;
    var before, last := events[..n], events[n];
    assert events == before + [last];
    if UndoAfter(before) {
      UndoNamesTheLast(before);
      NamesFrom(before, BeganAt(before), After(before).value.undo.value);
      AfreshStill(events, n, BeganAt(before));
    }
    if last.Accepts? {
      AfreshIs(events, n);
      var earlier := Still(After(before), last.accept.batch, last.accept.now);
      if earlier.Some? {
        NamesOneMore(before, BeganAt(before), earlier.value, last.accept);
      } else {
        NamesAlone(before, last.accept);
        NoneThenIts(last.accept.sent.all);
      }
    } else {
      NamesMore(before, BeganAt(before), After(before).value.undo.value, last);
    }
  }

  /** Of what came before, and so whatever comes after. */
  lemma AfreshStill(events: seq<Event>, n: nat, from: nat)
    requires from < n <= |events|
    ensures BeginsAfresh(events[..n], from) <==> BeginsAfresh(events, from)
  {
    var some := events[..n];
    assert some[..from] == events[..from] && some[from] == events[from];
    assert forall i :: 0 <= i < n ==> some[i] == events[i];
    assert forall i :: 0 <= i < n ==> PastAt(some, i, from) == PastAt(events, i, from);
  }

  lemma NoneThenIts(r: Result)
    ensures Earliest(None, r.until) == r.until && [] + r.accepted == r.accepted
  {
  }

  lemma NamesFrom(events: seq<Event>, from: nat, u: Undo)
    requires Names(events, from, u)
    ensures from < |events| && events[from].Accepts?
  {
  }

  /** What was accepted, and joined by all since, is there to be undone, with whatever it joined itself. */
  lemma {:induction false} ChainIsThere(events: seq<Event>, from: nat)
    requires Chain(events, from) && BeginsAfresh(events, from)
    ensures UndoAfter(events) && BeganAt(events) == from
    decreases |events|
  {
    var n := |events| - 1;
    var before, last := events[..n], events[n];
    assert events == before + [last];
    hide BeginsAfresh;
    if from < n {
      PrefixChain(events, from, n);
      AfreshStill(events, n, from);
      ChainIsThere(before, from);
      UndoNamesTheLast(before);
      if last.Accepts? {
        StillThere(events, from, After(before).value.undo.value);
      }
    } else {
      if UndoAfter(before) {
        UndoNamesTheLast(before);
      }
      AfreshIs(events, n);
    }
  }

  lemma PrefixChain(events: seq<Event>, from: nat, n: nat)
    requires Chain(events, from) && from < n <= |events|
    ensures Chain(events[..n], from)
  {
    var some := events[..n];
    assert forall i :: 0 <= i < n ==> some[i] == events[i];
    assert forall i, j :: 0 <= i < n && 0 <= j < n ==> PastAt(some, i, j) == PastAt(events, i, j);
  }

  lemma StillThere(events: seq<Event>, from: nat, u: Undo)
    requires |events| > 0 && Chain(events, from) && from < |events| - 1 && events[|events| - 1].Accepts?
    requires Names(events[..|events| - 1], from, u)
    ensures u.batch == events[|events| - 1].accept.batch && (u.until.None? || u.until.value > events[|events| - 1].accept.now)
  {
    var n := |events| - 1;
    if u.until.Some? {
      var i :| from <= i < n && events[..n][i].Accepts? && events[..n][i].accept.sent.all.until == u.until;
      assert events[i] == events[..n][i] && !PastAt(events, i, n);
    }
  }

  /** So it began in one place only. */
  lemma UndoBeganOnce(events: seq<Event>, from: nat)
    requires Chain(events, from) && BeginsAfresh(events, from)
    ensures UndoAfter(events) && BeganAt(events) == from
  {
    ChainIsThere(events, from);
  }

  /**
   * Something accepted, with nothing since to stop its being undone, is named by the Undo
   * there is if and only if what it was joined to at first is still joined to all since:
   * they share one moment, the earliest, and are let go together.
   */
  lemma EarlierIsNamed(events: seq<Event>, i: nat)
    requires Chain(events, i)
    ensures UndoAfter(events[..i + 1]) && BeganAt(events[..i + 1]) <= i
    ensures Chain(events, BeganAt(events[..i + 1])) <==> UndoAfter(events) && BeganAt(events) <= i
    ensures UndoAfter(events) && BeganAt(events) <= i ==> BeganAt(events) == BeganAt(events[..i + 1])
  {
    ThereAtFirst(events, i);
    var f := BeganAt(events[..i + 1]);
    UndoNamesTheLast(events[..i + 1]);
    AfreshStill(events, i + 1, f);
    hide BeginsAfresh;
    if Chain(events, f) {
      ChainIsThere(events, f);
    }
    if UndoAfter(events) && BeganAt(events) <= i {
      var g := BeganAt(events);
      UndoNamesTheLast(events);
      PrefixChain(events, g, i + 1);
      AfreshStill(events, i + 1, g);
      ChainIsThere(events[..i + 1], g);
    }
  }

  lemma ThereAtFirst(events: seq<Event>, i: nat)
    requires Chain(events, i)
    ensures UndoAfter(events[..i + 1]) && BeganAt(events[..i + 1]) <= i
  {
    var some := events[..i + 1];
    assert some[..i] == events[..i] && some[i] == events[i];
    UndoNamesTheLast(some);
  }

  /**
   * Found: what was accepted second, and may still be undone, is not named after a third,
   * once the first is past: the three pressed as far apart as a little over half the time
   * there is to undo one.
   */
  lemma LetGoTogether(a: Accept, b: Accept, c: Accept)
    requires a.batch == b.batch == c.batch
    requires a.sent.all.accepted != [] && b.sent.all.accepted != [] && c.sent.all.accepted != []
    requires a.sent.all.until.Some? && b.sent.all.until.Some? && b.now < a.sent.all.until.value <= c.now < b.sent.all.until.value
    ensures var events := [Accepts(a), Accepts(b), Accepts(c)];
      && Chain(events, 1) && UndoAfter(events) && BeganAt(events) == 2
      && After(events).value.undo.value.itemIds == c.sent.all.accepted
  {
    var events := [Accepts(a), Accepts(b), Accepts(c)];
    var two := [Accepts(a), Accepts(b)];
    assert events[..2] == two && two[..1] == [Accepts(a)] && [Accepts(a)][..0] == [];
    NoneThenIts(a.sent.all);
    assert After([]) == None;
    assert After([Accepts(a)]).value.undo == Some(Undo(a.batch, a.sent.all.accepted, a.sent.all.until));
    assert After(two).value.undo.value.until == Earliest(a.sent.all.until, b.sent.all.until);
    assert Still(After(two), c.batch, c.now).None?;
  }

  // ------------------------------------------------------------- undoing

  /** Whether the vault answered an undo's turn, and with whether anybody is signed in. */
  datatype UndoReply = TookBack | NobodyIn | Broke

  /** Said of the replies alone: the first that ends it, or none. */
  function EndOf(replies: seq<UndoReply>): UndoEnd {
    if replies == [] then TookAllBack
    else if replies[0] == NobodyIn then NobodySignedIn
    else if replies[0] == Broke then Failed
    else EndOf(replies[1..])
  }

  /** What is left of the toast: nothing to undo, if every turn was answered; else all it was, to be tried again, unless nobody was signed in any more. */
  lemma {:induction false} UndoneIs(was: Toast, replies: seq<UndoReply>)
    ensures var t := Undone(was, EndOf(replies));
      && ((forall i :: 0 <= i < |replies| ==> replies[i] == TookBack) ==> t.undo.None? && t.stopped == NotStopped && !t.busy)
      && (forall n :: 0 <= n < |replies| && replies[n] != TookBack && (forall i :: 0 <= i < n ==> replies[i] == TookBack) ==>
            t == was.(busy := replies[n] == NobodyIn))
  {
    if replies != [] && replies[0] == TookBack {
      UndoneIs(was, replies[1..]);
      forall n | 0 <= n < |replies| && replies[n] != TookBack && forall i :: 0 <= i < n ==> replies[i] == TookBack
        ensures Undone(was, EndOf(replies)) == was.(busy := replies[n] == NobodyIn)
      {
        assert replies[1..][n - 1] == replies[n];
      }
    }
  }

  /** What an Accept says: why its rest were not sent; and an Undo, while there is anything to undo, of what came before in the batch and may still be undone, then of what it accepted. */
  lemma AcceptSays(toast: Option<Toast>, a: Accept)
    ensures var t := Next(toast, Accepts(a)).value;
      var was := if toast.Some? then toast.value.undo else None;
      var joins := was.Some? && was.value.batch == a.batch && (was.value.until.None? || a.now < was.value.until.value);
      var ids := (if joins then was.value.itemIds else []) + a.sent.all.accepted;
      && Next(toast, Accepts(a)).Some? && t.stopped == a.sent.stopped && !t.busy
      && (t.undo.None? <==> ids == []) && (t.undo.Some? ==> t.undo.value.itemIds == ids && t.undo.value.batch == a.batch)
  {
  }

  /** In turns of BATCH_MAX_FILES: Undo is still there to try again unless every one was answered. */
  method UndoTurns(was: Toast, replies: seq<UndoReply>) returns (toast: Toast, requests: seq<seq<string>>)
    requires was.undo.Some? && |replies| == |InTurns(was.undo.value.itemIds, BATCH_MAX_FILES)|
    ensures toast == Undone(was, EndOf(replies))
    ensures requests <= InTurns(was.undo.value.itemIds, BATCH_MAX_FILES)
    ensures toast.undo == None <==> forall i :: 0 <= i < |replies| ==> replies[i] == TookBack
    ensures toast.undo == None ==> Concat(requests) == was.undo.value.itemIds
    ensures forall i :: 0 <= i < |requests| ==> 0 < |requests[i]| <= 200
  {
    var turns := InTurns(was.undo.value.itemIds, BATCH_MAX_FILES);
    requests := [];
    forall i | 0 <= i < |turns|
      ensures 0 < |turns[i]| <= BATCH_MAX_FILES
    {
      TurnsFit(was.undo.value.itemIds, BATCH_MAX_FILES, i);
    }
    assert replies[0..] == replies;
    for at := 0 to |turns|
      invariant requests == turns[..at]
      invariant forall i :: 0 <= i < at ==> replies[i] == TookBack
      invariant EndOf(replies) == EndOf(replies[at..])
    {
      requests := requests + [turns[at]];
      assert replies[at..][1..] == replies[at + 1..];
      if replies[at] == NobodyIn {
        return was.(busy := true), requests;
      }
      if replies[at] == Broke {
        return was.(busy := false), requests;
      }
    }
    TurnsAreAll(was.undo.value.itemIds, BATCH_MAX_FILES);
    assert turns[..|turns|] == turns;
    toast := Toast(None, NotStopped, false);
  }
}
