/**
 * What asking for a page promises: a page asked for already is waiting or on its way, one that
 * is neither is asked for anew, and those waiting start in the order they were asked for.
 */
module BatchPagesAsked {
  import opened Text
  import opened BatchPages

  predicate WaitsFor(s: Pages, key: string, ticket: nat) {
    exists i :: 0 <= i < |s.queue| && s.queue[i] == Waiting(key, ticket)
  }

  /** Fetched for this sign-in, and not settled yet. */
  predicate OnItsWay(s: Pages, key: string, ticket: nat) {
    ticket in s.flights && s.flights[ticket].key == key && s.flights[ticket].from == s.era
  }

  /** Every page asked for is waiting, or on its way, under its own key. */
  predicate AskedWell(s: Pages) {
    forall k :: k in s.asked ==> WaitsFor(s, k, s.asked[k]) || OnItsWay(s, k, s.asked[k])
  }

  lemma StartNextAsked(s: Pages)
    requires AskedWell(s) && OncePerTicket(s) && s.queue != []
    ensures AskedWell(StartNext(s))
  {
    var t := StartNext(s);
    assert InQueue(s, s.queue[0].ticket);
    forall k | k in t.asked
      ensures WaitsFor(t, k, t.asked[k]) || OnItsWay(t, k, t.asked[k])
    {
      if WaitsFor(s, k, s.asked[k]) {
        var i :| 0 <= i < |s.queue| && s.queue[i] == Waiting(k, s.asked[k]);
        assert i > 0 ==> t.queue[i - 1] == Waiting(k, s.asked[k]);
      }
    }
  }

  lemma {:induction false} PumpedAsked(s: Pages)
    requires AskedWell(s) && OncePerTicket(s) && NoneLost(s)
    ensures AskedWell(Pumped(s))
    decreases |s.queue|
  {
    hide AskedWell, OncePerTicket, NoneLost;
    if s.running < PAGES_AT_ONCE && s.queue != [] {
      StartNextAsked(s);
      StartNextTickets(s);
      PumpedAsked(StartNext(s));
    }
  }

  lemma QueuedAsked(s: Pages, key: string)
    requires AskedWell(s)
    ensures AskedWell(Queued(s, key))
  {
    var t := Queued(s, key);
    forall k | k in t.asked
      ensures WaitsFor(t, k, t.asked[k]) || OnItsWay(t, k, t.asked[k])
    {
      if k == key {
        assert t.queue[|s.queue|] == Waiting(k, t.asked[k]);
      } else if WaitsFor(s, k, s.asked[k]) {
        var i :| 0 <= i < |s.queue| && s.queue[i] == Waiting(k, s.asked[k]);
        assert t.queue[i] == Waiting(k, s.asked[k]);
      }
    }
  }

  lemma AskAsked(s: Pages, key: string)
    requires AskedWell(s) && Sound(s)
    ensures AskedWell(Ask(s, key))
  {
    if key !in s.held && key !in s.asked {
      QueuedAsked(s, key);
      QueuedTickets(s, key);
      hide AskedWell, OncePerTicket, NoneLost;
      PumpedAsked(Queued(s, key));
    }
  }

  /** One taken out of the queue, and its key no longer asked for. */
  lemma TakenOutAsked(s: Pages, t: Pages, at: nat)
    requires AskedWell(s) && at < |s.queue| && t.queue == s.queue[..at] + s.queue[at + 1..]
    requires t.asked == s.asked - {s.queue[at].key} && t.flights == s.flights && t.era == s.era
    ensures AskedWell(t)
  {
    forall k | k in t.asked
      ensures WaitsFor(t, k, t.asked[k]) || OnItsWay(t, k, t.asked[k])
    {
      if WaitsFor(s, k, s.asked[k]) {
        var i :| 0 <= i < |s.queue| && s.queue[i] == Waiting(k, s.asked[k]);
        assert i != at;
        assert t.queue[if i < at then i else i - 1] == Waiting(k, s.asked[k]);
      }
    }
  }

  lemma CancelAsked(s: Pages, ticket: nat)
    requires AskedWell(s)
    ensures AskedWell(Cancel(s, ticket))
  {
    var at := IndexOf(s.queue, ticket);
    if at < |s.queue| {
      TakenOutAsked(s, Cancel(s, ticket), at);
    }
  }

  lemma ForgetOneAsked(s: Pages, key: string)
    requires AskedWell(s)
    ensures AskedWell(ForgetOne(s, key))
  {
    var at := IndexOfKey(s.queue, key);
    if at < |s.queue| {
      TakenOutAsked(s, ForgetOne(s, key), at);
    } else {
      var t := ForgetOne(s, key);
      assert forall k :: k in t.asked ==> (WaitsFor(s, k, s.asked[k]) ==> WaitsFor(t, k, t.asked[k]));
    }
  }

  lemma {:induction false} ForgetEachStillAsked(s: Pages, keys: seq<string>)
    requires AskedWell(s)
    ensures AskedWell(ForgetEach(s, keys))
    decreases |keys|
  {
    hide AskedWell, ForgetOne;
    if keys != [] {
      ForgetOneAsked(s, keys[0]);
      ForgetEachStillAsked(ForgetOne(s, keys[0]), keys[1..]);
    }
  }

  lemma StoreAsked(s: Pages, ticket: nat, came: Came)
    requires AskedWell(s) && ticket in s.flights
    ensures AskedWell(Store(s, ticket, came))
  {
    var t := Store(s, ticket, came);
    assert forall k, x: nat :: WaitsFor(t, k, x) == WaitsFor(s, k, x);
  }

  lemma LandAsked(s: Pages, ticket: nat)
    requires AskedWell(s) && Sound(s) && ticket in s.flights && s.flights[ticket].Fetched?
    ensures AskedWell(Land(s, ticket))
  {
    var t := Landed(s, ticket);
    LandedTickets(s, ticket);
    assert forall k, x: nat :: WaitsFor(t, k, x) == WaitsFor(s, k, x);
    assert AskedWell(t);
    hide AskedWell, Sound, OncePerTicket, NoneLost;
    if s.flights[ticket].from == s.era {
      PumpedAsked(t);
    }
  }

  lemma NextAsked(s: Pages, e: Event)
    requires AskedWell(s) && Sound(s) && May(s, e)
    ensures AskedWell(Next(s, e))
  {
    hide AskedWell, Sound, Ask, Cancel, Store, Land, ForgetEach, Lists, ListsAll;
    match e
    case Asks(key) => AskAsked(s, key);
    case Cancels(t) => CancelAsked(s, t);
    case Stores(t, came) => StoreAsked(s, t, came);
    case Lands(t) => LandAsked(s, t);
    case Forgets(_, keys) => ForgetEachStillAsked(s, keys);
    case ForgetsAll(_, keys) => NoneAsked(ForgetAll(s, keys));
  }

  lemma NoneAsked(s: Pages)
    ensures s.asked == map[] ==> AskedWell(s)
  {
  }

  lemma {:induction false} RunAsked(s: Pages, events: seq<Event>, t: Pages)
    requires AskedWell(s) && Sound(s) && Run(s, events, t)
    ensures AskedWell(t) && Sound(t)
    decreases |events|
  {
    hide AskedWell, Sound, Next, May;
    if events != [] {
      NextAsked(s, events[0]);
      NextSound(s, events[0]);
      RunAsked(Next(s, events[0]), events[1..], t);
    }
  }

  /** In every run, what is said to be asked for is: its promise is not settled, and is waiting or on its way for that page. */
  lemma AskedIsPending(events: seq<Event>, s: Pages, key: string)
    requires Run(EMPTY, events, s) && key in s.asked
    ensures !IsSettled(s, s.asked[key]) && s.asked[key] < s.tickets
    ensures WaitsFor(s, key, s.asked[key]) || OnItsWay(s, key, s.asked[key])
  {
    hide Run;
    EmptySound();
    NoneAsked(EMPTY);
    RunAsked(EMPTY, events, s);
    hide Counted, Busy, HeldWell, HandedWell, NoneLost;
    if WaitsFor(s, key, s.asked[key]) {
      var i :| 0 <= i < |s.queue| && s.queue[i] == Waiting(key, s.asked[key]);
      assert InQueue(s, s.asked[key]);
    }
  }

  /**
   * In every run, a page neither held nor waiting nor on its way is asked for anew: a promise of
   * its own, started at once if fewer than four are on their way, else last in the queue.
   */
  lemma AskedAnew(events: seq<Event>, s: Pages, key: string)
    requires Run(EMPTY, events, s)
    requires key !in s.held && forall t: nat :: !WaitsFor(s, key, t) && !OnItsWay(s, key, t)
    ensures var t := Ask(s, key);
      && t.tickets == s.tickets + 1 && t.asked == s.asked[key := s.tickets] && t.held == s.held && t.settled == s.settled
      && (if |Current(s)| < 4 then
            t.queue == s.queue == [] && t.flights == s.flights[s.tickets := Fetching(key, s.era)]
          else t.queue == s.queue + [Waiting(key, s.tickets)] && t.flights == s.flights)
  {
    hide Run;
    EmptySound();
    NoneAsked(EMPTY);
    RunAsked(EMPTY, events, s);
    assert key !in s.asked;
    hide OncePerTicket, NoneLost, HeldWell, HandedWell, AskedWell;
    PumpedTwice(Queued(s, key));
  }

  lemma PumpedTwice(s: Pages)
    ensures s.running >= PAGES_AT_ONCE || s.queue == [] ==> Pumped(s) == s
    ensures s.running < PAGES_AT_ONCE && |s.queue| == 1 ==> Pumped(s) == StartNext(s)
  {
    if s.running < PAGES_AT_ONCE && |s.queue| == 1 {
      assert StartNext(s).queue == [];
      assert Pumped(StartNext(s)) == StartNext(s);
    }
  }

  /** One taken out of the queue before its turn and asked for again is fetched after all, unless it still waits or goes under another promise. */
  lemma CancelledIsAskedAnew(events: seq<Event>, s: Pages, key: string, ticket: nat)
    requires Run(EMPTY, events, s) && WaitsFor(s, key, ticket) && key !in s.held
    requires forall t: nat :: t != ticket ==> !WaitsFor(s, key, t) && !OnItsWay(s, key, t)
    ensures var u := Cancel(s, ticket);
      && IsSettled(u, ticket) && !WaitsFor(u, key, ticket)
      && Ask(u, key).asked == u.asked[key := s.tickets] && !IsSettled(Ask(u, key), s.tickets)
      && (WaitsFor(Ask(u, key), key, s.tickets) || OnItsWay(Ask(u, key), key, s.tickets))
  {
    hide Run, Sound, Ask;
    EmptySound();
    RunSound(EMPTY, events, s);
    Cancelled(s, key, ticket);
    var u := Cancel(s, ticket);
    assert May(s, Cancels(ticket));
    RunMore(EMPTY, events, s, Cancels(ticket));
    AskedAnew(events + [Cancels(ticket)], u, key);
    assert May(u, Asks(key));
    RunMore(EMPTY, events + [Cancels(ticket)], u, Asks(key));
    AskedIsPending(events + [Cancels(ticket)] + [Asks(key)], Ask(u, key), key);
  }

  lemma Cancelled(s: Pages, key: string, ticket: nat)
    requires Sound(s) && WaitsFor(s, key, ticket)
    requires forall t: nat :: t != ticket ==> !WaitsFor(s, key, t) && !OnItsWay(s, key, t)
    ensures var u := Cancel(s, ticket);
      && u.held == s.held && u.tickets == s.tickets && IsSettled(u, ticket)
      && forall t: nat :: !WaitsFor(u, key, t) && !OnItsWay(u, key, t)
  {
    hide Counted, Busy, HeldWell, HandedWell, NoneLost;
    var i :| 0 <= i < |s.queue| && s.queue[i] == Waiting(key, ticket);
    var at := IndexOf(s.queue, ticket);
    assert at == i;
    assert InQueue(s, ticket);
    var u := Cancel(s, ticket);
    assert u.settled[|s.settled|].ticket == ticket;
    OneTakenOut(s, u, at);
    hide OncePerTicket, WaitsFor;
    assert forall t: nat :: OnItsWay(u, key, t) ==> OnItsWay(s, key, t) && t != ticket;
    assert forall t: nat :: WaitsFor(u, key, t) ==> WaitsFor(s, key, t) && t != ticket;
  }

  /** Of promises told apart, one taken out: what still waits, waited, and is not that one. */
  lemma OneTakenOut(s: Pages, u: Pages, at: nat)
    requires OncePerTicket(s) && at < |s.queue| && u.queue == s.queue[..at] + s.queue[at + 1..]
    ensures s.queue[at].ticket !in s.flights
    ensures forall k, t: nat :: WaitsFor(u, k, t) ==> WaitsFor(s, k, t) && t != s.queue[at].ticket
  {
    assert InQueue(s, s.queue[at].ticket);
    forall k, t: nat | WaitsFor(u, k, t)
      ensures WaitsFor(s, k, t) && t != s.queue[at].ticket
    {
      var j :| 0 <= j < |u.queue| && u.queue[j] == Waiting(k, t);
      assert s.queue[if j < at then j else j + 1] == Waiting(k, t);
    }
  }

  // ------------------------------------------------------------- in the order asked for

  /** How many more may start. */
  function Room(s: Pages): nat {
    if s.running >= PAGES_AT_ONCE then 0
    else if PAGES_AT_ONCE - s.running < |s.queue| then PAGES_AT_ONCE - s.running
    else |s.queue|
  }

  /** Those started, of the first `n` waiting; and no other flight than there was. */
  ghost predicate StartsFirst(s: Pages, t: Pages, n: nat) {
    && n <= |s.queue|
    && (forall i :: 0 <= i < n ==> s.queue[i].ticket in t.flights && t.flights[s.queue[i].ticket] == Fetching(s.queue[i].key, s.era))
    && (forall x :: x in s.flights ==> x in t.flights && t.flights[x] == s.flights[x])
    && (forall x :: x in t.flights ==> x in s.flights || exists i :: 0 <= i < n && s.queue[i].ticket == x)
  }

  lemma StartsOneMore(s: Pages, u: Pages, t: Pages, n: nat)
    requires s.queue != [] && u == StartNext(s) && StartsFirst(u, t, n) && s.queue[0].ticket !in s.flights
    ensures StartsFirst(s, t, n + 1)
  {
    forall i | 0 <= i < n + 1
      ensures s.queue[i].ticket in t.flights && t.flights[s.queue[i].ticket] == Fetching(s.queue[i].key, s.era)
    {
      assert i > 0 ==> u.queue[i - 1] == s.queue[i];
    }
    forall x | x in t.flights && x !in s.flights
      ensures exists i :: 0 <= i < n + 1 && s.queue[i].ticket == x
    {
      if x in u.flights {
        assert s.queue[0].ticket == x;
      } else {
        var i :| 0 <= i < n && u.queue[i].ticket == x;
        assert s.queue[i + 1].ticket == x;
      }
    }
  }

  lemma FirstIsNotAway(s: Pages)
    requires OncePerTicket(s) && s.queue != []
    ensures s.queue[0].ticket !in s.flights
  {
    assert InQueue(s, s.queue[0].ticket);
  }

  lemma NoneStart(s: Pages)
    ensures StartsFirst(s, s, 0)
  {
  }

  /** As many start as may, the first asked for first; the others wait on as they were. */
  lemma {:induction false} FirstAskedStartFirst(s: Pages)
    requires OncePerTicket(s) && NoneLost(s)
    ensures var t, n := Pumped(s), Room(s);
      t == s.(queue := s.queue[n..], running := s.running + n, flights := t.flights) && StartsFirst(s, t, n)
    decreases |s.queue|
  {
    hide NoneLost, OncePerTicket, StartsFirst;
    if s.running < PAGES_AT_ONCE && s.queue != [] {
      var u := StartNext(s);
      StartNextTickets(s);
      FirstIsNotAway(s);
      FirstAskedStartFirst(u);
      StartsOneMore(s, u, Pumped(s), Room(u));
      assert s.queue[1..][Room(u)..] == s.queue[Room(s)..];
    } else {
      NoneStart(s);
      assert s.queue[0..] == s.queue;
    }
  }
}
