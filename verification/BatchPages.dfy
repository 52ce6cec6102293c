/**
 * A batch's pages, fetched a few at a time and held as object URLs
 * (apps/web/src/batch-pages.ts). An asker's promise is its ticket; a fetch on its way is
 * a flight, which first stores what came and then, in a step of its own, settles.
 */
module BatchPages {
  import opened Text

  const PAGES_AT_ONCE := 4

  datatype Waiting = Waiting(key: string, ticket: nat)

  datatype Flight =
    | Fetching(key: string, from: nat)
    | Fetched(key: string, from: nat, url: Option<nat>)

  /** A promise settled: with which URL, if any, and in which era. */
  datatype Settled = Settled(ticket: nat, url: Option<nat>, era: nat)

  /** What came of a fetch: a page, or none (none there, or it failed). */
  datatype Came = Page | NoPage

  /**
   * The module's maps, queue and counters, and the world around them: the flights, the
   * promises settled, the era each URL was made for, and the URLs revoked.
   */
  datatype Pages = Pages(
    held: map<string, nat>, asked: map<string, nat>, queue: seq<Waiting>, running: int, era: nat,
    flights: map<nat, Flight>, settled: seq<Settled>, tickets: nat, born: seq<nat>, revoked: set<nat>)

  const EMPTY := Pages(map[], map[], [], 0, 0, map[], [], 0, [], {})

  // ------------------------------------------------------------- the steps

  /** The next in the queue started. */
  function StartNext(s: Pages): Pages
    requires s.queue != []
  {
    s.(queue := s.queue[1..], running := s.running + 1,
       flights := s.flights[s.queue[0].ticket := Fetching(s.queue[0].key, s.era)])
  }

  function Pumped(s: Pages): Pages
    decreases |s.queue|
  {
    if s.running < PAGES_AT_ONCE && s.queue != [] then Pumped(StartNext(s)) else s
  }

  function Queued(s: Pages, key: string): Pages {
    s.(queue := s.queue + [Waiting(key, s.tickets)], asked := s.asked[key := s.tickets], tickets := s.tickets + 1)
  }

  /** A page asked for: held already, asked for already, or queued. */
  function Ask(s: Pages, key: string): Pages {
    if key in s.held || key in s.asked then s else Pumped(Queued(s, key))
  }

  function Settle(s: Pages, ticket: nat, url: Option<nat>): Pages {
    s.(settled := s.settled + [Settled(ticket, url, s.era)])
  }

  /** Where in the queue a ticket waits; its length if it does not. */
  function IndexOf(queue: seq<Waiting>, ticket: nat): (i: nat)
    ensures i <= |queue|
    ensures i < |queue| ==> queue[i].ticket == ticket
    ensures forall j :: 0 <= j < i ==> queue[j].ticket != ticket
  {
    if queue == [] || queue[0].ticket == ticket then 0 else 1 + IndexOf(queue[1..], ticket)
  }

  function IndexOfKey(queue: seq<Waiting>, key: string): (i: nat)
    ensures i <= |queue|
    ensures i < |queue| ==> queue[i].key == key
    ensures forall j :: 0 <= j < i ==> queue[j].key != key
  {
    if queue == [] || queue[0].key == key then 0 else 1 + IndexOfKey(queue[1..], key)
  }

  function Cancel(s: Pages, ticket: nat): Pages {
    var at := IndexOf(s.queue, ticket);
    if at == |s.queue| then s
    else
      Settle(s.(queue := s.queue[..at] + s.queue[at + 1..], asked := s.asked - {s.queue[at].key}), ticket, None)
  }

  /** A fetch comes back: kept only if its sign-in is still this one and its page is still asked for. */
  function Store(s: Pages, ticket: nat, came: Came): Pages
    requires ticket in s.flights
  {
    var f := s.flights[ticket];
    if came == NoPage || f.from != s.era || f.key !in s.asked then
      s.(flights := s.flights[ticket := Fetched(f.key, f.from, None)])
    else
      s.(born := s.born + [f.from], held := s.held[f.key := |s.born|],
         flights := s.flights[ticket := Fetched(f.key, f.from, Some(|s.born|))])
  }

  /** And its promise is settled; forgotten meanwhile, with nothing, and the counts started again without it. */
  function Landed(s: Pages, ticket: nat): Pages
    requires ticket in s.flights && s.flights[ticket].Fetched?
  {
    var f := s.flights[ticket];
    var t := Settle(s.(flights := s.flights - {ticket}), ticket, if f.from == s.era then f.url else None);
    if f.from != s.era then t else t.(asked := s.asked - {f.key}, running := s.running - 1)
  }

  /** Unless all was forgotten meanwhile, the next may start. */
  function Land(s: Pages, ticket: nat): Pages
    requires ticket in s.flights && s.flights[ticket].Fetched?
  {
    if s.flights[ticket].from != s.era then Landed(s, ticket) else Pumped(Landed(s, ticket))
  }

  function ForgetOne(s: Pages, key: string): Pages {
    var at := IndexOfKey(s.queue, key);
    var t := s.(revoked := if key in s.held then s.revoked + {s.held[key]} else s.revoked,
                held := s.held - {key}, asked := s.asked - {key});
    if at == |s.queue| then t
    else Settle(t.(queue := s.queue[..at] + s.queue[at + 1..]), s.queue[at].ticket, None)
  }

  function ForgetEach(s: Pages, keys: seq<string>): Pages
    decreases |keys|
  {
    if keys == [] then s else ForgetEach(ForgetOne(s, keys[0]), keys[1..])
  }

  /** Another page of this item: its id, a mark and a number. */
  predicate PageOf(id: string, key: string) {
    id + "#" <= key
  }

  function QueueKeys(queue: seq<Waiting>): (r: seq<string>)
    ensures |r| == |queue|
    ensures forall i :: 0 <= i < |r| ==> r[i] == queue[i].key
  {
    if queue == [] then [] else [queue[0].key] + QueueKeys(queue[1..])
  }

  /**
   * What forgetting these items goes through: each of them, and every page of each that
   * is held, asked for or queued, in whatever order the maps give them.
   */
  ghost predicate Lists(s: Pages, ids: seq<string>, keys: seq<string>) {
    && |ids| <= |keys| && keys[..|ids|] == ids
    && (forall k :: k in keys[|ids|..] ==> exists id :: id in ids && PageOf(id, k))
    && (forall id, k :: id in ids && PageOf(id, k) && (k in s.held || k in s.asked || k in QueueKeys(s.queue)) ==> k in keys)
  }

  /** What forgetting everything lists first: each held key once, and each queued one as often as it is queued. */
  predicate ListsAll(s: Pages, ids: seq<string>) {
    && (forall k :: k in s.held ==> k in ids)
    && multiset(QueueKeys(s.queue)) <= multiset(ids)
  }

  function ForgetAll(s: Pages, keys: seq<string>): Pages {
    ForgetEach(s.(era := s.era + 1), keys).(asked := map[], running := 0)
  }

  // ------------------------------------------------------------- runs

  datatype Event =
    | Asks(key: string)
    | Cancels(ticket: nat)
    | Stores(ticket: nat, came: Came)
    | Lands(ticket: nat)
    | Forgets(ids: seq<string>, keys: seq<string>)
    | ForgetsAll(ids: seq<string>, keys: seq<string>)

  ghost predicate May(s: Pages, e: Event) {
    match e
    case Asks(_) => true
    case Cancels(_) => true
    case Stores(t, _) => t in s.flights && s.flights[t].Fetching?
    case Lands(t) => t in s.flights && s.flights[t].Fetched?
    case Forgets(ids, keys) => Lists(s, ids, keys)
    case ForgetsAll(ids, keys) => ListsAll(s, ids) && Lists(s, ids, keys)
  }

  ghost function Next(s: Pages, e: Event): Pages
    requires May(s, e)
  {
    match e
    case Asks(key) => Ask(s, key)
    case Cancels(t) => Cancel(s, t)
    case Stores(t, came) => Store(s, t, came)
    case Lands(t) => Land(s, t)
    case Forgets(_, keys) => ForgetEach(s, keys)
    case ForgetsAll(_, keys) => ForgetAll(s, keys)
  }

  ghost predicate Run(s: Pages, events: seq<Event>, t: Pages)
    decreases |events|
  {
    if events == [] then s == t
    else May(s, events[0]) && Run(Next(s, events[0]), events[1..], t)
  }

  // ------------------------------------------------------------- what every run keeps

  /** The flights begun in the current era. */
  function Current(s: Pages): set<nat> {
    set t | t in s.flights && s.flights[t].from == s.era
  }

  predicate Counted(s: Pages) {
    s.running == |Current(s)| && s.running <= PAGES_AT_ONCE
  }

  /** While anything waits, as many are on their way as may be. */
  predicate Busy(s: Pages) {
    s.queue != [] ==> s.running == PAGES_AT_ONCE
  }

  predicate InQueue(s: Pages, t: nat) {
    exists i :: 0 <= i < |s.queue| && s.queue[i].ticket == t
  }

  predicate IsSettled(s: Pages, t: nat) {
    exists i :: 0 <= i < |s.settled| && s.settled[i].ticket == t
  }

  /** Each ticket given out is in one place only: waiting once, on its way, or settled once. */
  ghost predicate OncePerTicket(s: Pages) {
    && (forall i, j :: 0 <= i < j < |s.queue| ==> s.queue[i].ticket != s.queue[j].ticket)
    && (forall i, j :: 0 <= i < j < |s.settled| ==> s.settled[i].ticket != s.settled[j].ticket)
    && (forall t: nat :: InQueue(s, t) ==> t < s.tickets && t !in s.flights && !IsSettled(s, t))
    && (forall t :: t in s.flights ==> t < s.tickets && !IsSettled(s, t))
    && (forall t: nat :: IsSettled(s, t) ==> t < s.tickets)
  }

  ghost predicate NoneLost(s: Pages) {
    forall t: nat :: t < s.tickets ==> InQueue(s, t) || t in s.flights || IsSettled(s, t)
  }

  /** Every URL held is of this era, not revoked, and held once. */
  predicate HeldWell(s: Pages) {
    && (forall k :: k in s.held ==> s.held[k] < |s.born| && s.held[k] !in s.revoked && s.born[s.held[k]] == s.era)
    && (forall k, k' :: k in s.held && k' in s.held && s.held[k] == s.held[k'] ==> k == k')
    && (forall u :: u in s.revoked ==> u < |s.born|)
  }

  /** Nothing is handed out in an era but what was fetched for it. */
  predicate HandedWell(s: Pages) {
    && (forall t :: t in s.flights ==> s.flights[t].from <= s.era)
    && (forall t :: t in s.flights && s.flights[t].Fetched? && s.flights[t].url.Some? ==>
          s.flights[t].url.value < |s.born| && s.born[s.flights[t].url.value] == s.flights[t].from)
    && (forall i :: 0 <= i < |s.settled| && s.settled[i].url.Some? ==>
          s.settled[i].url.value < |s.born| && s.born[s.settled[i].url.value] == s.settled[i].era)
  }

  ghost predicate Sound(s: Pages) {
    Counted(s) && Busy(s) && OncePerTicket(s) && NoneLost(s) && HeldWell(s) && HandedWell(s)
  }

  // ------------------------------------------------------------- pumping

  lemma StartNextTickets(s: Pages)
    requires OncePerTicket(s) && NoneLost(s) && s.queue != []
    ensures OncePerTicket(StartNext(s)) && NoneLost(StartNext(s))
  {
    var t := StartNext(s);
    var first := s.queue[0].ticket;
    forall x: nat
      ensures InQueue(t, x) <==> InQueue(s, x) && x != first
      ensures IsSettled(t, x) <==> IsSettled(s, x)
    {
      if InQueue(t, x) {
        var i :| 0 <= i < |t.queue| && t.queue[i].ticket == x;
        assert s.queue[i + 1].ticket == x;
      }
      if InQueue(s, x) && x != first {
        var i :| 0 <= i < |s.queue| && s.queue[i].ticket == x;
        assert t.queue[i - 1].ticket == x;
      }
    }
    assert s.queue[0].ticket == first;
    assert InQueue(s, first);
  }

  lemma StartNextSound(s: Pages)
    requires Counted(s) && OncePerTicket(s) && NoneLost(s) && HeldWell(s) && HandedWell(s)
    requires s.running < PAGES_AT_ONCE && s.queue != []
    ensures var t := StartNext(s);
      Counted(t) && OncePerTicket(t) && NoneLost(t) && HeldWell(t) && HandedWell(t)
  {
    var t := StartNext(s);
    var first := s.queue[0].ticket;
    StartNextTickets(s);
    assert s.queue[0].ticket == first;
    assert InQueue(s, first) && first !in s.flights;
    hide NoneLost;
    assert Current(t) == Current(s) + {first};
  }

  lemma {:induction false} PumpedSound(s: Pages)
    requires Counted(s) && OncePerTicket(s) && NoneLost(s) && HeldWell(s) && HandedWell(s)
    ensures Sound(Pumped(s))
    ensures Pumped(s).era == s.era && Pumped(s).held == s.held && Pumped(s).settled == s.settled
    ensures Pumped(s).born == s.born && Pumped(s).revoked == s.revoked && Pumped(s).tickets == s.tickets
    decreases |s.queue|
  {
    hide OncePerTicket, NoneLost, HeldWell, HandedWell;
    if s.running < PAGES_AT_ONCE && s.queue != [] {
      StartNextSound(s);
      PumpedSound(StartNext(s));
    }
  }

  // ------------------------------------------------------------- each step

  lemma QueuedTickets(s: Pages, key: string)
    requires OncePerTicket(s) && NoneLost(s)
    ensures OncePerTicket(Queued(s, key)) && NoneLost(Queued(s, key))
  {
    var t := Queued(s, key);
    forall x: nat
      ensures InQueue(t, x) <==> InQueue(s, x) || x == s.tickets
      ensures IsSettled(t, x) <==> IsSettled(s, x)
    {
      if InQueue(s, x) {
        var i :| 0 <= i < |s.queue| && s.queue[i].ticket == x;
        assert t.queue[i].ticket == x;
      }
      if InQueue(t, x) {
        var i :| 0 <= i < |t.queue| && t.queue[i].ticket == x;
        assert i < |s.queue| ==> s.queue[i].ticket == x;
      }
      assert t.queue[|s.queue|].ticket == s.tickets;
    }
    assert forall i :: 0 <= i < |s.queue| ==> InQueue(s, s.queue[i].ticket);
  }

  lemma AskSound(s: Pages, key: string)
    requires Sound(s)
    ensures Sound(Ask(s, key))
  {
    if key !in s.held && key !in s.asked {
      var t := Queued(s, key);
      QueuedTickets(s, key);
      hide OncePerTicket, NoneLost;
      assert Current(t) == Current(s);
      PumpedSound(t);
    }
  }

  /** One waiting taken out of the queue, and its promise settled with nothing. */
  lemma TakenOut(s: Pages, at: nat, t: Pages)
    requires OncePerTicket(s) && NoneLost(s) && HandedWell(s) && at < |s.queue|
    requires t.queue == s.queue[..at] + s.queue[at + 1..]
    requires t.settled == s.settled + [Settled(s.queue[at].ticket, None, s.era)]
    requires t.flights == s.flights && t.tickets == s.tickets && t.born == s.born && t.era == s.era
    ensures OncePerTicket(t) && NoneLost(t) && HandedWell(t)
  {
    var gone := s.queue[at].ticket;
    assert InQueue(s, gone);
    forall x: nat
      ensures InQueue(t, x) <==> InQueue(s, x) && x != gone
    {
      if InQueue(t, x) {
        var i :| 0 <= i < |t.queue| && t.queue[i].ticket == x;
        assert s.queue[if i < at then i else i + 1].ticket == x;
      }
      if InQueue(s, x) && x != gone {
        var i :| 0 <= i < |s.queue| && s.queue[i].ticket == x;
        assert t.queue[if i < at then i else i - 1].ticket == x;
      }
    }
    SettledMore(s, t);
  }

  lemma SettledMore(s: Pages, t: Pages)
    requires |t.settled| == |s.settled| + 1 && t.settled[..|s.settled|] == s.settled
    ensures forall x: nat :: IsSettled(t, x) <==> IsSettled(s, x) || x == t.settled[|s.settled|].ticket
  {
    forall x: nat
      ensures IsSettled(t, x) <==> IsSettled(s, x) || x == t.settled[|s.settled|].ticket
    {
      if IsSettled(s, x) {
        var i :| 0 <= i < |s.settled| && s.settled[i].ticket == x;
        assert t.settled[i].ticket == x;
      }
      if IsSettled(t, x) {
        var i :| 0 <= i < |t.settled| && t.settled[i].ticket == x;
        assert i < |s.settled| ==> s.settled[i].ticket == x;
      }
    }
  }

  lemma CancelSound(s: Pages, ticket: nat)
    requires Sound(s)
    ensures Sound(Cancel(s, ticket))
  {
    var at := IndexOf(s.queue, ticket);
    if at < |s.queue| {
      var t := Cancel(s, ticket);
      hide OncePerTicket, NoneLost, HandedWell;
      TakenOut(s, at, t);
      assert Current(t) == Current(s);
    }
  }

  lemma StoreTickets(s: Pages, ticket: nat, came: Came)
    requires OncePerTicket(s) && NoneLost(s) && ticket in s.flights && s.flights[ticket].Fetching?
    ensures OncePerTicket(Store(s, ticket, came)) && NoneLost(Store(s, ticket, came))
  {
    var t := Store(s, ticket, came);
    assert forall x: nat :: InQueue(t, x) == InQueue(s, x) && IsSettled(t, x) == IsSettled(s, x) && (x in t.flights <==> x in s.flights);
  }

  lemma StoreHeld(s: Pages, ticket: nat, came: Came)
    requires HeldWell(s) && HandedWell(s) && ticket in s.flights && s.flights[ticket].Fetching?
    ensures HeldWell(Store(s, ticket, came)) && HandedWell(Store(s, ticket, came))
  {
  }

  lemma StoreSound(s: Pages, ticket: nat, came: Came)
    requires Sound(s) && ticket in s.flights && s.flights[ticket].Fetching?
    ensures Sound(Store(s, ticket, came))
  {
    hide OncePerTicket, NoneLost, HeldWell, HandedWell;
    StoreTickets(s, ticket, came);
    StoreHeld(s, ticket, came);
    assert Current(Store(s, ticket, came)) == Current(s);
  }

  lemma LandTickets(s: Pages, ticket: nat, url: Option<nat>)
    requires OncePerTicket(s) && NoneLost(s) && ticket in s.flights
    ensures var t := Settle(s.(flights := s.flights - {ticket}), ticket, url); OncePerTicket(t) && NoneLost(t)
  {
    var t := Settle(s.(flights := s.flights - {ticket}), ticket, url);
    SettledMore(s, t);
    assert forall x: nat :: InQueue(t, x) == InQueue(s, x);
    assert forall i :: 0 <= i < |s.settled| ==> IsSettled(s, s.settled[i].ticket);
  }

  lemma LandedHandsWell(s: Pages, ticket: nat)
    requires HandedWell(s) && HeldWell(s) && ticket in s.flights && s.flights[ticket].Fetched?
    ensures HandedWell(Landed(s, ticket)) && HeldWell(Landed(s, ticket))
  {
  }

  lemma LandedCounted(s: Pages, ticket: nat)
    requires Counted(s) && ticket in s.flights && s.flights[ticket].Fetched?
    ensures Counted(Landed(s, ticket))
  {
    var f, t := s.flights[ticket], Landed(s, ticket);
    if f.from == s.era {
      assert ticket in Current(s);
      assert Current(t) == Current(s) - {ticket};
    } else {
      assert Current(t) == Current(s);
    }
  }

  lemma LandedTickets(s: Pages, ticket: nat)
    requires OncePerTicket(s) && NoneLost(s) && ticket in s.flights && s.flights[ticket].Fetched?
    ensures OncePerTicket(Landed(s, ticket)) && NoneLost(Landed(s, ticket))
  {
    var f := s.flights[ticket];
    var url := if f.from == s.era then f.url else None;
    LandTickets(s, ticket, url);
    hide OncePerTicket, NoneLost;
    SameTickets(Settle(s.(flights := s.flights - {ticket}), ticket, url), Landed(s, ticket));
  }

  lemma LandSound(s: Pages, ticket: nat)
    requires Sound(s) && ticket in s.flights && s.flights[ticket].Fetched?
    ensures Sound(Land(s, ticket))
  {
    hide OncePerTicket, NoneLost, HandedWell, HeldWell, Counted;
    LandedHandsWell(s, ticket);
    LandedCounted(s, ticket);
    LandedTickets(s, ticket);
    if s.flights[ticket].from == s.era {
      PumpedSound(Landed(s, ticket));
    }
  }

  /** Forgetting a key keeps all but what only sign-in and counting say of the era. */
  ghost predicate SoundButEra(s: Pages) {
    OncePerTicket(s) && NoneLost(s) && HandedWell(s)
    && (forall k :: k in s.held ==> s.held[k] < |s.born| && s.held[k] !in s.revoked)
    && (forall k, k' :: k in s.held && k' in s.held && s.held[k] == s.held[k'] ==> k == k')
    && (forall u :: u in s.revoked ==> u < |s.born|)
  }

  lemma ForgetOneKeeps(s: Pages, key: string)
    requires SoundButEra(s)
    ensures SoundButEra(ForgetOne(s, key))
    ensures var t := ForgetOne(s, key);
      && t.era == s.era && t.flights == s.flights && t.running == s.running && t.born == s.born && t.tickets == s.tickets
      && (forall k :: k in t.held <==> k in s.held && k != key)
      && (forall k :: k in t.held ==> t.held[k] == s.held[k])
      && (t.queue == [] || s.queue != [])
  {
    var at := IndexOfKey(s.queue, key);
    var t := ForgetOne(s, key);
    if at < |s.queue| {
      hide OncePerTicket, NoneLost, HandedWell;
      TakenOut(s, at, t);
    } else {
      assert forall x: nat :: InQueue(t, x) == InQueue(s, x) && IsSettled(t, x) == IsSettled(s, x);
    }
  }

  lemma {:induction false} ForgetEachKeeps(s: Pages, keys: seq<string>)
    requires SoundButEra(s)
    ensures SoundButEra(ForgetEach(s, keys))
    ensures var t := ForgetEach(s, keys);
      && t.era == s.era && t.flights == s.flights && t.running == s.running && t.born == s.born && t.tickets == s.tickets
      && (forall k :: k in t.held <==> k in s.held && k !in keys)
      && (forall k :: k in t.held ==> t.held[k] == s.held[k])
      && (t.queue == [] || s.queue != [])
    decreases |keys|
  {
    hide SoundButEra, ForgetOne;
    if keys != [] {
      ForgetOneKeeps(s, keys[0]);
      ForgetEachKeeps(ForgetOne(s, keys[0]), keys[1..]);
    }
  }

  lemma ForgetSound(s: Pages, keys: seq<string>)
    requires Sound(s)
    ensures Sound(ForgetEach(s, keys))
  {
    hide OncePerTicket, NoneLost, HandedWell;
    ForgetEachKeeps(s, keys);
    var t := ForgetEach(s, keys);
    assert Current(t) == Current(s);
  }

  lemma OneFewer(all: seq<string>, at: nat)
    requires at < |all|
    ensures multiset(all[..at] + all[at + 1..]) == multiset(all) - multiset{all[at]}
  {
    assert all == all[..at] + [all[at]] + all[at + 1..];
  }

  lemma QueueKeysWithout(queue: seq<Waiting>, at: nat)
    requires at < |queue|
    ensures QueueKeys(queue[..at] + queue[at + 1..]) == QueueKeys(queue)[..at] + QueueKeys(queue)[at + 1..]
  {
    var less, keys := queue[..at] + queue[at + 1..], QueueKeys(queue);
    var a, b := QueueKeys(less), keys[..at] + keys[at + 1..];
    assert |a| == |b|;
    forall i | 0 <= i < |a|
      ensures a[i] == b[i]
    {
      if i < at {
        assert less[i] == queue[i];
      } else {
        assert less[i] == queue[i + 1];
      }
    }
  }

  lemma NotAmong(all: seq<string>, key: string)
    requires forall i :: 0 <= i < |all| ==> all[i] != key
    ensures multiset(all) - multiset{key} == multiset(all)
  {
    assert key !in all;
  }

  lemma OneFewerQueued(s: Pages, key: string)
    ensures multiset(QueueKeys(ForgetOne(s, key).queue)) == multiset(QueueKeys(s.queue)) - multiset{key}
  {
    hide QueueKeys, IndexOfKey;
    var at := IndexOfKey(s.queue, key);
    if at < |s.queue| {
      QueueKeysWithout(s.queue, at);
      OneFewer(QueueKeys(s.queue), at);
    } else {
      NotAmong(QueueKeys(s.queue), key);
    }
  }

  lemma StillListed(queued: multiset<string>, keys: seq<string>)
    requires keys != [] && queued <= multiset(keys)
    ensures queued - multiset{keys[0]} <= multiset(keys[1..])
  {
    assert keys == [keys[0]] + keys[1..];
  }

  lemma NothingListed(queued: seq<string>)
    requires multiset(queued) <= multiset([])
    ensures queued == []
  {
    var none: seq<string> := [];
    assert multiset(none) == multiset{};
    assert multiset(queued) == multiset{};
    assert |multiset(queued)| == |queued|;
  }

  /** Every queued key listed as often as it is queued, the queue is emptied, one twice in it included. */
  lemma {:induction false} QueueEmptied(s: Pages, keys: seq<string>)
    requires multiset(QueueKeys(s.queue)) <= multiset(keys)
    ensures ForgetEach(s, keys).queue == []
    decreases |keys|
  {
    hide ForgetOne;
    if keys == [] {
      assert QueueKeys(s.queue) == [] by {
        NothingListed(QueueKeys(s.queue));
      }
    } else {
      hide QueueKeys;
      OneFewerQueued(s, keys[0]);
      StillListed(multiset(QueueKeys(s.queue)), keys);
      QueueEmptied(ForgetOne(s, keys[0]), keys[1..]);
    }
  }

  lemma ForgetAllEmpties(s: Pages, ids: seq<string>, keys: seq<string>)
    requires ListsAll(s, ids) && Lists(s, ids, keys)
    ensures ForgetAll(s, keys).queue == []
    ensures forall k :: k in s.held ==> k in keys
  {
    hide QueueKeys, ForgetEach;
    var e := s.(era := s.era + 1);
    assert keys == ids + keys[|ids|..];
    QueueEmptied(e, keys);
  }

  lemma NewEra(s: Pages)
    requires Sound(s)
    ensures SoundButEra(s.(era := s.era + 1))
    ensures forall t :: t in s.flights ==> s.flights[t].from < s.era + 1
  {
    SameTickets(s, s.(era := s.era + 1));
    hide OncePerTicket, NoneLost;
  }

  lemma AllForgotten(u: Pages)
    requires SoundButEra(u) && u.queue == [] && u.held == map[] && forall t :: t in u.flights ==> u.flights[t].from < u.era
    ensures Sound(u.(asked := map[], running := 0))
  {
    var t := u.(asked := map[], running := 0);
    SameTickets(u, t);
    hide OncePerTicket, NoneLost;
    assert Current(t) == {};
  }

  lemma ForgetAllSound(s: Pages, ids: seq<string>, keys: seq<string>)
    requires Sound(s) && ListsAll(s, ids) && Lists(s, ids, keys)
    ensures Sound(ForgetAll(s, keys))
    ensures ForgetAll(s, keys).queue == [] && ForgetAll(s, keys).held == map[]
  {
    hide Sound, SoundButEra, Lists, ListsAll, ForgetEach;
    ForgetAllEmpties(s, ids, keys);
    NewEra(s);
    var e := s.(era := s.era + 1);
    ForgetEachKeeps(e, keys);
    var u := ForgetEach(e, keys);
    assert u.held == map[] by {
      assert forall k :: k in u.held ==> k in s.held && k in keys;
    }
    AllForgotten(u);
  }

  lemma SameTickets(s: Pages, t: Pages)
    requires t.queue == s.queue && t.settled == s.settled && t.flights == s.flights && t.tickets == s.tickets
    ensures OncePerTicket(s) == OncePerTicket(t) && NoneLost(s) == NoneLost(t)
  {
    assert forall x: nat :: InQueue(t, x) == InQueue(s, x) && IsSettled(t, x) == IsSettled(s, x);
  }

  lemma NextSound(s: Pages, e: Event)
    requires Sound(s) && May(s, e)
    ensures Sound(Next(s, e))
  {
    hide Sound, Ask, Cancel, Store, Land, ForgetEach, ForgetAll, Lists, ListsAll;
    match e
    case Asks(key) => AskSound(s, key);
    case Cancels(t) => CancelSound(s, t);
    case Stores(t, came) => StoreSound(s, t, came);
    case Lands(t) => LandSound(s, t);
    case Forgets(_, keys) => ForgetSound(s, keys);
    case ForgetsAll(ids, keys) => ForgetAllSound(s, ids, keys);
  }

  /**
   * In every run from the start: `running` counts the current era's flights, never over
   * PAGES_AT_ONCE and exactly that while anything waits; each ticket is waiting, on its
   * way or settled, once; and every URL held is unrevoked and of this era.
   */
  lemma {:induction false} RunSound(s: Pages, events: seq<Event>, t: Pages)
    requires Sound(s) && Run(s, events, t)
    ensures Sound(t)
    decreases |events|
  {
    hide Sound, Next, May;
    if events != [] {
      NextSound(s, events[0]);
      RunSound(Next(s, events[0]), events[1..], t);
    }
  }

  lemma EmptySound()
    ensures Sound(EMPTY)
  {
    assert Current(EMPTY) == {};
  }

  /** With nothing waiting and nothing on its way, every promise was settled, and only once. */
  lemma AllSettledOnce(events: seq<Event>, t: Pages)
    requires Run(EMPTY, events, t) && t.queue == [] && t.flights == map[]
    ensures forall x: nat :: x < t.tickets ==> IsSettled(t, x)
    ensures forall i, j :: 0 <= i < j < |t.settled| ==> t.settled[i].ticket != t.settled[j].ticket
  {
    hide Run;
    EmptySound();
    RunSound(EMPTY, events, t);
    forall x: nat | x < t.tickets
      ensures IsSettled(t, x)
    {
      assert !InQueue(t, x);
    }
  }

  // ------------------------------------------------------------- and every fetch answered gets there

  function Away(s: Pages): set<nat> {
    set t | t in s.flights && s.flights[t].Fetching?
  }

  function Back(s: Pages): set<nat> {
    set t | t in s.flights && s.flights[t].Fetched?
  }

  /** How much is still to happen: a start, an answer and a landing for each waiting, and so on. */
  function Waits(s: Pages): nat {
    3 * |s.queue| + 2 * |Away(s)| + |Back(s)|
  }

  lemma StartNextWaits(s: Pages)
    requires s.queue != [] && s.queue[0].ticket !in s.flights
    ensures Waits(StartNext(s)) == Waits(s) - 1
  {
    var t := StartNext(s);
    var first := s.queue[0].ticket;
    StartNextFlights(s);
    hide StartNext;
    assert Away(t) == Away(s) + {first} && first !in Away(s);
    assert Back(t) == Back(s);
  }

  lemma StartNextFlights(s: Pages)
    requires s.queue != []
    ensures var t, first := StartNext(s), s.queue[0].ticket;
      |t.queue| == |s.queue| - 1 && first in t.flights && t.flights[first].Fetching? && t.flights == s.flights[first := t.flights[first]]
  {
  }

  lemma {:induction false} PumpedWaits(s: Pages)
    requires OncePerTicket(s) && NoneLost(s)
    ensures Waits(Pumped(s)) <= Waits(s)
    decreases |s.queue|
  {
    if s.running < PAGES_AT_ONCE && s.queue != [] {
      assert InQueue(s, s.queue[0].ticket);
      assert s.queue[0].ticket !in s.flights;
      hide OncePerTicket, NoneLost, Waits;
      StartNextTickets(s);
      StartNextWaits(s);
      PumpedWaits(StartNext(s));
    }
  }

  lemma LandedWaits(s: Pages, ticket: nat)
    requires ticket in s.flights && s.flights[ticket].Fetched?
    ensures Waits(Landed(s, ticket)) == Waits(s) - 1
  {
    var t := Landed(s, ticket);
    assert Away(t) == Away(s);
    assert ticket in Back(s) && Back(t) == Back(s) - {ticket};
  }

  lemma StoredWaits(s: Pages, ticket: nat, came: Came)
    requires ticket in s.flights && s.flights[ticket].Fetching?
    ensures Waits(Store(s, ticket, came)) == Waits(s) - 1
  {
    var t := Store(s, ticket, came);
    StoredFlights(s, ticket, came);
    hide Store;
    assert ticket in Away(s) && Away(t) == Away(s) - {ticket};
    assert ticket !in Back(s) && Back(t) == Back(s) + {ticket};
  }

  lemma StoredFlights(s: Pages, ticket: nat, came: Came)
    requires ticket in s.flights && s.flights[ticket].Fetching?
    ensures var t := Store(s, ticket, came);
      && t.queue == s.queue && ticket in t.flights && t.flights[ticket].Fetched? && t.flights == s.flights[ticket := t.flights[ticket]]
  {
  }

  /** A fetch coming back, and one landing, each bring the end nearer. */
  lemma AnswersBringItNearer(s: Pages, e: Event)
    requires Sound(s) && May(s, e) && (e.Stores? || e.Lands?)
    ensures Waits(Next(s, e)) < Waits(s)
  {
    hide OncePerTicket, NoneLost, HandedWell, HeldWell, Waits;
    if e.Stores? {
      StoredWaits(s, e.ticket, e.came);
    } else {
      LandedWaits(s, e.ticket);
      LandedTickets(s, e.ticket);
      PumpedWaits(Landed(s, e.ticket));
    }
  }

  /** And until all is settled there is always a fetch on its way to be answered: nothing waits for ever. */
  lemma NeverStuck(s: Pages)
    requires Sound(s) && Waits(s) > 0
    ensures exists x :: x in s.flights
  {
    if s.queue != [] {
      assert |Current(s)| > 0;
      var x :| x in Current(s);
      assert x in s.flights;
    } else if Away(s) != {} {
      var x :| x in Away(s);
      assert x in s.flights;
    } else {
      assert |Back(s)| > 0;
      var x :| x in Back(s);
      assert x in s.flights;
    }
  }

  // ------------------------------------------------------------- forgetting

  /** Forgotten, an item keeps no page: none held, none asked for; and nobody else's is touched. */
  lemma ForgottenIsGone(s: Pages, ids: seq<string>, keys: seq<string>)
    requires Sound(s) && Lists(s, ids, keys)
    ensures var t := ForgetEach(s, keys);
      && (forall k :: k in ids || (exists id :: id in ids && PageOf(id, k)) ==> k !in t.held && k !in t.asked)
      && (forall k :: k !in ids && !(exists id :: id in ids && PageOf(id, k)) ==>
            (k in t.held <==> k in s.held) && (k in t.asked <==> k in s.asked))
  {
    ForgetEachKeeps(s, keys);
    ForgetEachAsked(s, keys);
    hide Sound, ForgetEach;
    assert keys == ids + keys[|ids|..];
    forall k | k !in ids && !(exists id :: id in ids && PageOf(id, k))
      ensures k !in keys
    {
    }
  }

  lemma {:induction false} ForgetEachAsked(s: Pages, keys: seq<string>)
    ensures forall k :: k in ForgetEach(s, keys).asked <==> k in s.asked && k !in keys
    decreases |keys|
  {
    if keys != [] {
      ForgetEachAsked(ForgetOne(s, keys[0]), keys[1..]);
    }
  }

  // ------------------------------------------------------------- URLs let go

  /** URLs made, neither held any more nor revoked. */
  function Leaked(s: Pages): set<nat> {
    set u | 0 <= u < |s.born| && u !in s.revoked && u !in s.held.Values
  }

  lemma ForgetOneLeaks(s: Pages, key: string)
    requires SoundButEra(s)
    ensures Leaked(ForgetOne(s, key)) == Leaked(s)
  {
    var t := ForgetOne(s, key);
    hide OncePerTicket, NoneLost, HandedWell;
    forall u | 0 <= u < |s.born|
      ensures u in Leaked(t) <==> u in Leaked(s)
    {
      if u in s.held.Values {
        var k :| k in s.held && s.held[k] == u;
        if k != key {
          assert k in t.held && t.held[k] == u;
        }
      }
      if u in t.held.Values {
        var k :| k in t.held && t.held[k] == u;
        assert k in s.held && s.held[k] == u;
      }
    }
  }

  lemma {:induction false} ForgetEachLeaks(s: Pages, keys: seq<string>)
    requires SoundButEra(s)
    ensures Leaked(ForgetEach(s, keys)) == Leaked(s)
    decreases |keys|
  {
    hide SoundButEra, ForgetOne, Leaked;
    if keys != [] {
      ForgetOneLeaks(s, keys[0]);
      ForgetOneKeeps(s, keys[0]);
      ForgetEachLeaks(ForgetOne(s, keys[0]), keys[1..]);
    }
  }

  /** Whether storing this page puts its URL over one still held: two fetches of one page. */
  predicate StoresOver(s: Pages, e: Event) {
    e.Stores? && e.ticket in s.flights && e.came == Page && s.flights[e.ticket].from == s.era
    && s.flights[e.ticket].key in s.asked && s.flights[e.ticket].key in s.held
  }

  /**
   * Conservation of URLs: each one made is held, revoked or leaked, and one is leaked
   * exactly when a second fetch of a page still held comes back.
   */
  lemma LeaksExactlyWhenStoredOver(s: Pages, e: Event)
    requires Sound(s) && May(s, e)
    ensures Leaked(Next(s, e)) == Leaked(s) + (if StoresOver(s, e) then {s.held[s.flights[e.ticket].key]} else {})
    ensures StoresOver(s, e) ==> s.held[s.flights[e.ticket].key] !in Leaked(s)
  {
    hide OncePerTicket, NoneLost, HandedWell, Lists, ListsAll, ForgetEach, Store, Pumped, ForgetAll;
    match e
    case Asks(key) =>
      if key !in s.held && key !in s.asked {
        PumpedKeepsUrls(Queued(s, key));
      }
    case Cancels(t) =>
    case Stores(x, came) => StoreLeaks(s, x, came);
    case Lands(x) =>
      PumpedKeepsUrls(Landed(s, x));
    case Forgets(_, keys) =>
      ForgetEachLeaks(s, keys);
    case ForgetsAll(ids, keys) =>
      ForgetAllLeaks(s, keys);
  }

  lemma ForgetAllLeaks(s: Pages, keys: seq<string>)
    requires Sound(s)
    ensures Leaked(ForgetAll(s, keys)) == Leaked(s)
  {
    var n := s.(era := s.era + 1);
    SameTickets(s, n);
    hide OncePerTicket, NoneLost, ForgetEach, HandedWell;
    assert Leaked(n) == Leaked(s);
    ForgetEachLeaks(n, keys);
    assert Leaked(ForgetAll(s, keys)) == Leaked(ForgetEach(n, keys));
  }

  lemma {:induction false} PumpedKeepsUrls(s: Pages)
    ensures Pumped(s).held == s.held && Pumped(s).revoked == s.revoked && Pumped(s).born == s.born
    decreases |s.queue|
  {
    if s.running < PAGES_AT_ONCE && s.queue != [] {
      PumpedKeepsUrls(StartNext(s));
    }
  }

  lemma StoreLeaks(s: Pages, x: nat, came: Came)
    requires Sound(s) && x in s.flights && s.flights[x].Fetching?
    ensures Leaked(Store(s, x, came))
         == Leaked(s) + (if StoresOver(s, Stores(x, came)) then {s.held[s.flights[x].key]} else {})
    ensures StoresOver(s, Stores(x, came)) ==> s.held[s.flights[x].key] !in Leaked(s)
  {
    hide OncePerTicket, NoneLost, HandedWell, Counted, Busy;
    var t := Store(s, x, came);
    var f := s.flights[x];
    if came == NoPage || f.from != s.era || f.key !in s.asked {
      assert Leaked(t) == Leaked(s);
    } else {
      var key, n := f.key, |s.born|;
      assert t.held[key] == n;
      assert n in t.held.Values;
      if key in s.held {
        assert s.held[key] in s.held.Values;
      }
      forall u | 0 <= u < n
        ensures u in t.held.Values <==> u in s.held.Values && !(key in s.held && s.held[key] == u)
      {
        if u in t.held.Values {
          var k :| k in t.held && t.held[k] == u;
          assert k in s.held && s.held[k] == u;
        }
        if u in s.held.Values && !(key in s.held && s.held[key] == u) {
          var k :| k in s.held && s.held[k] == u;
          assert k in t.held && t.held[k] == u;
        }
      }
    }
  }

  lemma {:induction false} PumpedKeepsFlights(s: Pages)
    requires OncePerTicket(s) && NoneLost(s)
    ensures forall x :: x in s.flights ==> x in Pumped(s).flights && Pumped(s).flights[x] == s.flights[x]
    decreases |s.queue|
  {
    if s.running < PAGES_AT_ONCE && s.queue != [] {
      assert InQueue(s, s.queue[0].ticket);
      StartNextTickets(s);
      hide OncePerTicket, NoneLost;
      PumpedKeepsFlights(StartNext(s));
    }
  }

  lemma {:induction false} ForgetEachRevoked(s: Pages, keys: seq<string>)
    ensures s.revoked <= ForgetEach(s, keys).revoked
    ensures forall k :: k in s.held && k in keys ==> s.held[k] in ForgetEach(s, keys).revoked
    decreases |keys|
  {
    if keys != [] {
      var t := ForgetOne(s, keys[0]);
      assert s.revoked <= t.revoked && forall k :: k in s.held && k != keys[0] ==> k in t.held && t.held[k] == s.held[k];
      ForgetEachRevoked(t, keys[1..]);
      hide ForgetOne;
    }
  }

  predicate ForgetsKey(e: Event, key: string) {
    (e.Forgets? || e.ForgetsAll?) && key in e.keys
  }

  predicate StoresOverKey(s: Pages, e: Event, key: string) {
    StoresOver(s, e) && s.flights[e.ticket].key == key
  }

  /** A page fetched, on its way to being handed out, and not landed yet: its fetch is as it was, in the same era. */
  lemma FlightStays(s: Pages, e: Event, x: nat)
    requires Sound(s) && May(s, e) && x in s.flights && s.flights[x].Fetched? && e != Lands(x) && Next(s, e).era == s.era
    ensures x in Next(s, e).flights && Next(s, e).flights[x] == s.flights[x] && !e.ForgetsAll?
    ensures Next(s, e).revoked >= s.revoked
  {
    hide HandedWell, HeldWell, Counted, Lists, ListsAll, Busy;
    match e
    case Asks(key) =>
      if key !in s.held && key !in s.asked {
        QueuedTickets(s, key);
        PumpedKeepsFlights(Queued(s, key));
        PumpedKeepsUrls(Queued(s, key));
      }
    case Cancels(t) =>
    case Stores(t, came) =>
    case Lands(t) =>
      LandedTickets(s, t);
      PumpedKeepsFlights(Landed(s, t));
      PumpedKeepsUrls(Landed(s, t));
    case Forgets(_, keys) =>
      SoundForgets(s, keys);
      ForgetEachRevoked(s, keys);
    case ForgetsAll(ids, keys) => ErasForward(s, keys);
  }

  lemma SoundForgets(s: Pages, keys: seq<string>)
    requires Sound(s)
    ensures var t := ForgetEach(s, keys);
      && t.flights == s.flights && (forall k :: k in t.held <==> k in s.held && k !in keys)
      && (forall k :: k in t.held ==> t.held[k] == s.held[k])
  {
    ForgetEachKeeps(s, keys);
  }

  lemma ErasForward(s: Pages, keys: seq<string>)
    requires Sound(s)
    ensures ForgetAll(s, keys).era == s.era + 1
  {
    hide Sound, SoundButEra, ForgetEach;
    NewEra(s);
    ForgetEachKeeps(s.(era := s.era + 1), keys);
  }

  /** What becomes of a URL held, at each step: forgotten and revoked; stored over, and leaked; or held still. */
  lemma HeldThen(s: Pages, e: Event, key: string)
    requires Sound(s) && May(s, e) && key in s.held && Next(s, e).era == s.era
    ensures var t := Next(s, e);
      var u := s.held[key];
      if ForgetsKey(e, key) then u in t.revoked
      else if StoresOverKey(s, e, key) then u in Leaked(t)
      else key in t.held && t.held[key] == u
  {
    hide OncePerTicket, NoneLost, HandedWell, Counted, Busy, Lists, ListsAll, Leaked;
    match e
    case Asks(k) =>
      if k !in s.held && k !in s.asked {
        PumpedKeepsUrls(Queued(s, k));
      }
    case Cancels(t) =>
    case Stores(t, came) => LeaksExactlyWhenStoredOver(s, e);
    case Lands(t) => PumpedKeepsUrls(Landed(s, t));
    case Forgets(_, keys) =>
      SoundForgets(s, keys);
      ForgetEachRevoked(s, keys);
    case ForgetsAll(ids, keys) => ErasForward(s, keys);
  }

  /** Forgotten, in a run, before another fetch of it is stored over it. */
  ghost predicate ForgottenFirst(s: Pages, events: seq<Event>, key: string)
    decreases |events|
  {
    events != [] && May(s, events[0]) &&
    (ForgetsKey(events[0], key) || (!StoresOverKey(s, events[0], key) && ForgottenFirst(Next(s, events[0]), events[1..], key)))
  }

  lemma ErasOnly(s: Pages, e: Event)
    requires Sound(s) && May(s, e)
    ensures Next(s, e).era >= s.era
  {
    hide HandedWell, HeldWell, Counted, Lists, ListsAll, Busy, OncePerTicket, NoneLost;
    match e
    case Asks(key) => PumpedEra(Queued(s, key));
    case Lands(t) => PumpedEra(Landed(s, t));
    case Forgets(_, keys) => SameEra(s, keys);
    case ForgetsAll(ids, keys) => ErasForward(s, keys);
    case _ =>
  }

  lemma SameEra(s: Pages, keys: seq<string>)
    requires Sound(s)
    ensures ForgetEach(s, keys).era == s.era
  {
    ForgetEachKeeps(s, keys);
  }

  lemma {:induction false} PumpedEra(s: Pages)
    ensures Pumped(s).era == s.era
    decreases |s.queue|
  {
    if s.running < PAGES_AT_ONCE && s.queue != [] {
      PumpedEra(StartNext(s));
    }
  }

  lemma {:induction false} RunEras(s: Pages, events: seq<Event>, t: Pages)
    requires Sound(s) && Run(s, events, t)
    ensures t.era >= s.era
    decreases |events|
  {
    hide Sound, Next, May;
    if events != [] {
      ErasOnly(s, events[0]);
      NextSound(s, events[0]);
      RunEras(Next(s, events[0]), events[1..], t);
    }
  }

  /** A URL revoked stays so, and one leaked is never revoked. */
  lemma {:induction false} GoneStays(s: Pages, events: seq<Event>, t: Pages, u: nat)
    requires Sound(s) && Run(s, events, t) && t.era == s.era && (u in s.revoked || u in Leaked(s))
    ensures u in s.revoked ==> u in t.revoked
    ensures u in Leaked(s) ==> u in Leaked(t)
    decreases |events|
  {
    hide Sound, Next, May, Leaked;
    if events != [] {
      var n := Next(s, events[0]);
      NextSound(s, events[0]);
      LeaksExactlyWhenStoredOver(s, events[0]);
      RunEras(n, events[1..], t);
      ErasOnly(s, events[0]);
      RevokedStays(s, events[0]);
      GoneStays(n, events[1..], t, u);
    }
  }

  lemma RevokedStays(s: Pages, e: Event)
    requires Sound(s) && May(s, e)
    ensures s.revoked <= Next(s, e).revoked
  {
    hide HandedWell, HeldWell, Counted, Lists, ListsAll, Busy, OncePerTicket, NoneLost;
    match e
    case Asks(key) => PumpedKeepsUrls(Queued(s, key));
    case Lands(t) => PumpedKeepsUrls(Landed(s, t));
    case Forgets(_, keys) => ForgetEachRevoked(s, keys);
    case ForgetsAll(ids, keys) => ForgetEachRevoked(s.(era := s.era + 1), keys);
    case _ =>
  }

  lemma {:induction false} HeldOrGone(s: Pages, events: seq<Event>, t: Pages, x: nat, key: string)
    requires Sound(s) && Run(s, events, t) && t.era == s.era && Lands(x) !in events
    requires x in s.flights && s.flights[x].Fetched? && key in s.held
    ensures x in t.flights && t.flights[x] == s.flights[x]
    ensures s.held[key] in t.revoked <==> ForgottenFirst(s, events, key)
    decreases |events|
  {
    hide Sound, Next, May, Leaked, ForgetsKey, StoresOverKey;
    if events == [] {
      HeldIsNotRevoked(s, key);
    } else {
      var e, n := events[0], Next(s, events[0]);
      NextSound(s, e);
      ErasOnly(s, e);
      RunEras(n, events[1..], t);
      FlightStays(s, e, x);
      HeldThen(s, e, key);
      assert Lands(x) !in events[1..];
      if ForgetsKey(e, key) || StoresOverKey(s, e, key) {
        FlightStaysOn(n, events[1..], t, x);
        GoneStays(n, events[1..], t, s.held[key]);
        LeakedIsNotRevoked(t, s.held[key]);
      } else {
        HeldOrGone(n, events[1..], t, x, key);
      }
    }
  }

  lemma {:induction false} FlightStaysOn(s: Pages, events: seq<Event>, t: Pages, x: nat)
    requires Sound(s) && Run(s, events, t) && t.era == s.era && Lands(x) !in events && x in s.flights && s.flights[x].Fetched?
    ensures x in t.flights && t.flights[x] == s.flights[x]
    decreases |events|
  {
    hide Sound, Next, May;
    if events != [] {
      NextSound(s, events[0]);
      ErasOnly(s, events[0]);
      RunEras(Next(s, events[0]), events[1..], t);
      FlightStays(s, events[0], x);
      FlightStaysOn(Next(s, events[0]), events[1..], t, x);
    }
  }

  lemma HeldIsNotRevoked(s: Pages, key: string)
    requires Sound(s) && key in s.held
    ensures s.held[key] !in s.revoked
  {
    hide OncePerTicket, NoneLost, HandedWell;
  }

  lemma LeakedIsNotRevoked(s: Pages, u: nat)
    ensures u in Leaked(s) ==> u !in s.revoked
  {
  }

  /**
   * A page stored, and landed in the same era, whatever happens between: it is handed out,
   * and its URL is revoked by then if and only if it was forgotten in between, before any
   * other fetch of it was stored over it.
   */
  lemma HandedOutRevoked(s: Pages, events: seq<Event>, t: Pages, x: nat)
    requires Sound(s) && x in s.flights && s.flights[x].Fetched? && s.flights[x].url.Some? && s.flights[x].from == s.era
    requires s.flights[x].key in s.held && s.held[s.flights[x].key] == s.flights[x].url.value
    requires Run(s, events, t) && t.era == s.era && Lands(x) !in events
    ensures x in t.flights && t.flights[x] == s.flights[x]
    ensures var n := |t.settled|; |Land(t, x).settled| > n && Land(t, x).settled[n] == Settled(x, s.flights[x].url, s.era)
    ensures s.flights[x].url.value in Land(t, x).revoked <==> ForgottenFirst(s, events, s.flights[x].key)
  {
    hide Run, Sound, ForgottenFirst;
    HeldOrGone(s, events, t, x, s.flights[x].key);
    PumpedKeepsUrls(Landed(t, x));
    PumpedKeepsSettled(Landed(t, x));
  }

  // ------------------------------------------------------------- runs that end there

  lemma {:induction false} RunMore(s: Pages, events: seq<Event>, t: Pages, e: Event)
    requires Run(s, events, t) && May(t, e)
    ensures Run(s, events + [e], Next(t, e))
    decreases |events|
  {
    hide May, Next;
    if events == [] {
      assert ([] + [e])[1..] == [];
    } else {
      assert (events + [e])[1..] == events[1..] + [e];
      RunMore(Next(s, events[0]), events[1..], t, e);
    }
  }

  lemma NoRun(s: Pages)
    ensures Run(s, [], s)
  {
  }

  /** The only page there is, forgotten. */
  lemma OnlyOneListed(s: Pages, key: string)
    requires s.held.Keys <= {key} && s.asked.Keys <= {key} && s.queue == []
    ensures Lists(s, [key], [key])
  {
    assert !PageOf(key, key) by {
      assert |key + "#"| > |key|;
    }
    assert forall k :: k in QueueKeys(s.queue) ==> false;
  }

  /** Found: from the start, a page asked for, stored, forgotten and landed is handed out with its URL revoked. */
  lemma RevokedIsReached(key: string) returns (events: seq<Event>, t: Pages)
    ensures Run(EMPTY, events, t) && 0 in t.flights && t.flights[0] == Fetched(key, 0, Some(0)) && t.era == 0
    ensures Land(t, 0).settled == [Settled(0, Some(0), 0)] && 0 in Land(t, 0).revoked
  {
    hide Run, Lists;
    var a := Next(EMPTY, Asks(key));
    PumpedOne(Queued(EMPTY, key));
    NoRun(EMPTY);
    RunMore(EMPTY, [], EMPTY, Asks(key));
    var b := Next(a, Stores(0, Page));
    RunMore(EMPTY, [] + [Asks(key)], a, Stores(0, Page));
    OnlyOneListed(b, key);
    var e := Forgets([key], [key]);
    t := Next(b, e);
    RunMore(EMPTY, [] + [Asks(key)] + [Stores(0, Page)], b, e);
    events := [] + [Asks(key)] + [Stores(0, Page)] + [e];
    assert t == ForgetEach(ForgetOne(b, key), [key][1..]) && [key][1..] == [];
    PumpedKeepsUrls(Landed(t, 0));
    PumpedKeepsSettled(Landed(t, 0));
  }

  lemma PumpedOne(s: Pages)
    requires |s.queue| == 1 && s.running < PAGES_AT_ONCE
    ensures Pumped(s) == StartNext(s)
  {
    assert StartNext(s).queue == [];
  }

  /** Found: and one asked for, forgotten while it is fetched, and asked for again is leaked when both fetches come back. */
  lemma LeakIsReached(key: string) returns (events: seq<Event>, t: Pages)
    ensures Run(EMPTY, events, t) && May(t, Stores(1, Page)) && StoresOver(t, Stores(1, Page))
  {
    hide Run, Lists;
    var a := Next(EMPTY, Asks(key));
    PumpedOne(Queued(EMPTY, key));
    NoRun(EMPTY);
    RunMore(EMPTY, [], EMPTY, Asks(key));
    OnlyOneListed(a, key);
    var e := Forgets([key], [key]);
    var b := Next(a, e);
    RunMore(EMPTY, [] + [Asks(key)], a, e);
    assert b == ForgetEach(ForgetOne(a, key), [key][1..]) && [key][1..] == [];
    var c := Next(b, Asks(key));
    PumpedOne(Queued(b, key));
    RunMore(EMPTY, [] + [Asks(key)] + [e], b, Asks(key));
    t := Next(c, Stores(0, Page));
    RunMore(EMPTY, [] + [Asks(key)] + [e] + [Asks(key)], c, Stores(0, Page));
    events := [] + [Asks(key)] + [e] + [Asks(key)] + [Stores(0, Page)];
  }

  lemma {:induction false} PumpedKeepsSettled(s: Pages)
    ensures Pumped(s).settled == s.settled
    decreases |s.queue|
  {
    if s.running < PAGES_AT_ONCE && s.queue != [] {
      PumpedKeepsSettled(StartNext(s));
    }
  }
}
