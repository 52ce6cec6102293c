/** The page loader itself: its maps, its queue spliced in place, and its counters. */
module PageLoaders {
  import opened Text
  import opened BatchPages

  /** What asking for a page gives: its URL at once, a promise asked for before, or a new one. */
  datatype Asked = Held(url: nat) | Promised(ticket: nat)

  class PageLoader {
    var held: map<string, nat>
    var asked: map<string, nat>
    var queue: seq<Waiting>
    var running: int
    var era: nat
    var flights: map<nat, Flight>
    var settled: seq<Settled>
    var tickets: nat
    var born: seq<nat>
    var revoked: set<nat>

    function State(): Pages
      reads this
    {
      Pages(held, asked, queue, running, era, flights, settled, tickets, born, revoked)
    }

    constructor ()
      ensures State() == EMPTY
    {
      held, asked, queue, running, era := map[], map[], [], 0, 0;
      flights, settled, tickets, born, revoked := map[], [], 0, [], {};
    }

    method AskPage(key: string) returns (r: Asked)
      modifies this
      ensures State() == Ask(old(State()), key)
      ensures r == if key in old(held) then Held(old(held)[key])
                   else if key in old(asked) then Promised(old(asked)[key]) else Promised(old(tickets))
    {
      if key in held {
        return Held(held[key]);
      }
      if key in asked {
        return Promised(asked[key]);
      }
      queue := queue + [Waiting(key, tickets)];
      asked := asked[key := tickets];
      r := Promised(tickets);
      tickets := tickets + 1;
      Pump();
    }

    method Pump()
      modifies this
      ensures State() == Pumped(old(State()))
    {
      while running < PAGES_AT_ONCE && |queue| > 0
        invariant Pumped(State()) == Pumped(old(State()))
        decreases |queue|
      {
        var next := queue[0];
        queue := queue[1..];
        running := running + 1;
        flights := flights[next.ticket := Fetching(next.key, era)];
      }
    }

    method SettleWith(ticket: nat, url: Option<nat>)
      modifies this`settled
      ensures State() == Settle(old(State()), ticket, url)
    {
      settled := settled + [Settled(ticket, url, era)];
    }

    method CancelAsk(ticket: nat)
      modifies this
      ensures State() == Cancel(old(State()), ticket)
    {
      var at := IndexOf(queue, ticket);
      if at == |queue| {
        return;
      }
      var key := queue[at].key;
      queue := queue[..at] + queue[at + 1..];
      asked := asked - {key};
      SettleWith(ticket, None);
    }

    method CameBack(ticket: nat, came: Came)
      requires ticket in flights && flights[ticket].Fetching?
      modifies this
      ensures State() == Store(old(State()), ticket, came)
    {
      var f := flights[ticket];
      if came == NoPage || f.from != era || f.key !in asked {
        flights := flights[ticket := Fetched(f.key, f.from, None)];
        return;
      }
      var url := |born|;
      born := born + [f.from];
      held := held[f.key := url];
      flights := flights[ticket := Fetched(f.key, f.from, Some(url))];
    }

    method Lands(ticket: nat)
      requires ticket in flights && flights[ticket].Fetched?
      modifies this
      ensures State() == Land(old(State()), ticket)
    {
      var f := flights[ticket];
      flights := flights - {ticket};
      SettleWith(ticket, if f.from == era then f.url else None);
      if f.from != era {
        return;
      }
      asked := asked - {f.key};
      running := running - 1;
      Pump();
    }

    /** Keys of a map, each once, in the order the map gives them. */
    static method KeysOf(m: map<string, nat>) returns (keys: seq<string>)
      ensures forall k :: k in keys <==> k in m
    {
      keys := [];
      var rest := m.Keys;
      while rest != {}
        invariant rest <= m.Keys && forall k :: k in keys <==> k in m && k !in rest
        decreases rest
      {
        var k :| k in rest;
        keys := keys + [k];
        rest := rest - {k};
      }
    }

    static method PagesOf(id: string, all: seq<string>) returns (pages: seq<string>)
      ensures forall k :: k in pages <==> k in all && PageOf(id, k)
    {
      pages := [];
      for i := 0 to |all|
        invariant forall k :: k in pages <==> k in all[..i] && PageOf(id, k)
      {
        if PageOf(id, all[i]) {
          pages := pages + [all[i]];
        }
      }
    }

    /** The items, and every page of each that is held, asked for or queued. */
    method ListPages(ids: seq<string>) returns (keys: seq<string>)
      ensures Lists(State(), ids, keys)
    {
      hide QueueKeys, PageOf;
      var heldKeys := KeysOf(held);
      var askedKeys := KeysOf(asked);
      var all := heldKeys + askedKeys + QueueKeys(queue);
      keys := ids;
      for i := 0 to |ids|
        invariant |ids| <= |keys| && keys[..|ids|] == ids
        invariant forall k :: k in keys[|ids|..] ==> exists id :: id in ids && PageOf(id, k)
        invariant forall j, k :: 0 <= j < i && k in all && PageOf(ids[j], k) ==> k in keys
      {
        var pages := PagesOf(ids[i], all);
        assert forall k :: k in pages ==> ids[i] in ids && PageOf(ids[i], k);
        assert (keys + pages)[|ids|..] == keys[|ids|..] + pages;
        keys := keys + pages;
      }
      forall id, k | id in ids && PageOf(id, k) && (k in held || k in asked || k in QueueKeys(queue))
        ensures k in keys
      {
        var j :| 0 <= j < |ids| && ids[j] == id;
        assert k in heldKeys || k in askedKeys || k in QueueKeys(queue);
        assert k in all && PageOf(ids[j], k);
      }
    }

    method ForgetPages(ids: seq<string>) returns (keys: seq<string>)
      modifies this
      ensures Lists(old(State()), ids, keys)
      ensures State() == ForgetEach(old(State()), keys)
    {
      keys := ListPages(ids);
      ForgetListed(keys);
    }

    method ForgetListed(keys: seq<string>)
      modifies this
      ensures State() == ForgetEach(old(State()), keys)
    {
      for i := 0 to |keys|
        invariant ForgetEach(State(), keys[i..]) == ForgetEach(old(State()), keys)
      {
        assert keys[i..][0] == keys[i] && keys[i..][1..] == keys[i + 1..];
        Forget(keys[i]);
      }
    }

    method Forget(key: string)
      modifies this
      ensures State() == ForgetOne(old(State()), key)
    {
      if key in held {
        revoked := revoked + {held[key]};
      }
      held := held - {key};
      asked := asked - {key};
      var at := IndexOfKey(queue, key);
      if at < |queue| {
        var ticket := queue[at].ticket;
        queue := queue[..at] + queue[at + 1..];
        SettleWith(ticket, None);
      }
    }

    method ForgetAllPages() returns (ids: seq<string>, keys: seq<string>)
      modifies this
      ensures ListsAll(old(State()), ids) && Lists(old(State()), ids, keys)
      ensures State() == ForgetAll(old(State()), keys)
    {
      hide ForgetEach, QueueKeys;
      ghost var was := State();
      era := era + 1;
      assert State() == was.(era := was.era + 1);
      var heldKeys := KeysOf(held);
      ids := heldKeys + QueueKeys(queue);
      assert multiset(ids) == multiset(heldKeys) + multiset(QueueKeys(queue));
      keys := ForgetPages(ids);
      asked := map[];
      running := 0;
    }
  }
}
