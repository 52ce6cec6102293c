/**
 * What each step of an upload does, by what the page and the vault can tell apart: which files
 * change and how, what an error means for them, where the call waits next, and what is sent.
 */
module BatchUploadsSteps {
  import opened Text
  import opened BatchUploads
  import opened BatchUploadsRuns

  predicate Waits(c: Chosen) {
    c.state == Ready || c.state == Failed
  }

  predicate AnyWaits(chosen: seq<Chosen>) {
    exists c :: c in chosen && Waits(c)
  }

  /** The file of this key put in a state, and no other touched. */
  predicate Only(a: seq<Chosen>, b: seq<Chosen>, key: string, state: FileState) {
    |b| == |a| && forall i :: 0 <= i < |a| ==> b[i] == if a[i].key == key then a[i].(state := state) else a[i]
  }

  /** That file refused, and with it all that wait; no other touched. */
  predicate AllRefused(a: seq<Chosen>, b: seq<Chosen>, key: string) {
    |b| == |a| && forall i :: 0 <= i < |a| ==> b[i] == if a[i].key == key || Waits(a[i]) then a[i].(state := Refused) else a[i]
  }

  /** Nothing chosen, in no batch, nothing asked: as the page began, whatever was on its way. */
  predicate Fresh(t: Store) {
    && t.chosen == [] && t.phase == Choosing && t.batch.None? && !t.carryOn && t.problem.None? && !t.stopping && t.seen
  }

  predicate Forgot(s: Store, t: Store) {
    && Fresh(t) && !t.aborted && !t.stopAsked && t.current.None? && t.gen == s.gen + 1 && t.changed == s.changed + 1
    && t == s.(chosen := t.chosen, phase := t.phase, batch := t.batch, carryOn := t.carryOn, problem := t.problem, stopping := t.stopping,
               seen := t.seen, changed := t.changed, current := t.current, stopAsked := t.stopAsked, aborted := t.aborted,
               threads := t.threads, gen := t.gen, busy := t.busy)
  }

  /** The call has ended: with an abort asked all is forgotten; else done if and only if nothing waits, nothing stopped it and no Stop was asked. */
  predicate Ended(s: Store, t: Store, problem: Option<Outcome>) {
    && t.threads == [Returning]
    && if s.aborted then Forgot(s, t) && t.busy == s.busy
       else
         && (t.phase == Stopped || t.phase == Done)
         && (t.phase == Done <==> !AnyWaits(t.chosen) && problem.None? && !s.stopAsked)
         && t == s.(threads := t.threads, chosen := t.chosen, phase := t.phase, problem := problem, stopping := false, stopAsked := false,
                    seen := s.watching > 0, changed := s.changed + 1, current := None)
  }

  predicate SizeThere(l: Loop)
    requires l.at < |l.todo|
  {
    exists x :: x in l.there && x.size == l.todo[l.at].size
  }

  /** Its token asked for, and it is marked: the file the loop is at, unless a Stop or an abort came first. */
  predicate GoesNext(s: Store, chosen: seq<Chosen>, t: Store, l: Loop) {
    if s.stopAsked || s.aborted then Ended(s, t, None) && (!s.aborted ==> t.chosen == chosen)
    else
      && l.at < |l.todo| && t.threads == [AwaitingToken(l)] && Only(chosen, t.chosen, l.todo[l.at].key, Sending)
      && t == s.(threads := t.threads, chosen := t.chosen, current := None)
  }

  /** At the loop's head: ended when no file is left, else the next one hashed first if one of its size is there. */
  predicate AtHead(s: Store, chosen: seq<Chosen>, t: Store, l: Loop) {
    if l.at == |l.todo| || s.stopAsked || s.aborted then Ended(s, t, None) && (!s.aborted ==> t.chosen == chosen)
    else if l.at < |l.todo| && SizeThere(l) then t == s.(threads := [Hashing(l)], chosen := chosen, current := None)
    else GoesNext(s, chosen, t, l)
  }

  predicate Within(some: seq<Chosen>, all: seq<Chosen>) {
    some == [] ||
    (all != [] && if some[0] == all[0] then Within(some[1..], all[1..]) else Within(some, all[1..]))
  }

  /** The loop begun: what waits, in the order chosen, into this batch. */
  ghost predicate Begun(s: Store, t: Store, batch: nat, there: seq<Item>) {
    if s.aborted then Forgot(s, t) && t.threads == [Returning] && t.busy == s.busy
    else
      exists todo: seq<Chosen> {:trigger Within(todo, s.chosen)} ::
        && Within(todo, s.chosen) && (forall c :: c in todo <==> c in s.chosen && Waits(c))
        && AtHead(s.(stopAsked := false, phase := InBatch, stopping := false, problem := None), s.chosen, t, Loop(batch, there, todo, 0))
  }

  // ------------------------------------------------------------- what an error means

  /** The vault was busy, or there was no answer at all: it can be sent again. */
  predicate Passing(e: Error) {
    e.Network? || e.OtherError?
    || (e.Api? && (e.status == 408 || e.status == 429 || e.status >= 500 || e.code == "upload_in_progress"))
  }

  /** The batch takes no more: it is gone, ended or full, or the uploader adds no more to it. */
  predicate OfTheBatch(e: Error) {
    && e.Api? && !Passing(e)
    && (e.status == 404 || e.status == 403 || e.code == "batch_ended" || e.code == "batch_full")
  }

  /** What sending the file the loop is at comes to, when it throws. */
  ghost predicate Threw(s: Store, t: Store, l: Loop, e: Error)
    requires l.at < |l.todo|
  {
    var key := l.todo[l.at].key;
    if e.Cut? then Ended(s, t, None) && (!s.aborted ==> Only(s.chosen, t.chosen, key, Ready))
    else if Passing(e) then Ended(s, t, Some(OAgain)) && (!s.aborted ==> Only(s.chosen, t.chosen, key, Failed))
    else if OfTheBatch(e) then Ended(s, t, Some(OBatch)) && (!s.aborted ==> AllRefused(s.chosen, t.chosen, key))
    else
      exists chosen {:trigger Only(s.chosen, chosen, key, Refused)} ::
        Only(s.chosen, chosen, key, Refused) && AtHead(s, chosen, t, l.(at := l.at + 1))
  }

  // ------------------------------------------------------------- each step

  ghost predicate CallDoes(s: Store, e: Event, t: Store)
    requires May(s, e) && |s.threads| == 1
  {
    match e
    case EMade(_, Made(batch)) =>
      if s.aborted then Forgot(s, t) && t.threads == [] && !t.busy
      else Begun(s.(batch := Some(batch), carryOn := false), t, batch, [])
    case EMade(_, answer) =>
      if s.aborted then Fresh(t) && t.threads == [] && !t.busy && !t.aborted && t.gen > s.gen && t.requests == s.requests
      else t == s.(busy := false, threads := [], phase := Choosing, problem := if answer.MakeFailed? then Some(OAgain) else s.problem)
    case EAsked(_, there) => s.threads[0].AskingBatch? && Begun(s, t, s.threads[0].batch, there)
    case EHashed(_, hash) =>
      s.threads[0].Hashing? &&
      var l := s.threads[0].loop;
      if hash.Some? && exists x :: x in l.there && x.content == hash.value then
        exists chosen {:trigger Only(s.chosen, chosen, l.todo[l.at].key, Skipped)} ::
          Only(s.chosen, chosen, l.todo[l.at].key, Skipped) && AtHead(s, chosen, t, l.(at := l.at + 1))
      else GoesNext(s, s.chosen, t, l)
    case EToken(_, token) =>
      s.threads[0].AwaitingToken? &&
      var l := s.threads[0].loop;
      var c := l.todo[l.at];
      (match token
       case Token =>
         t == s.(threads := [AwaitingAnswer(l, |s.requests|)], current := Some(|s.requests|),
                 requests := s.requests + [Request(l.batch, c.idem, c.content, c.size, s.gen, c.key)])
       case NoToken => Ended(s, t, None) && (!s.aborted ==> Only(s.chosen, t.chosen, c.key, Ready))
       case TokenFailed(err) => Threw(s, t, l, err))
    case EAnswered(_, answer) =>
      s.threads[0].AwaitingAnswer? &&
      var l := s.threads[0].loop;
      (match answer
       case ItemMade =>
         exists chosen {:trigger Only(s.chosen, chosen, l.todo[l.at].key, Sent)} ::
           Only(s.chosen, chosen, l.todo[l.at].key, Sent) && AtHead(s, chosen, t, l.(at := l.at + 1))
       case SessionOver => Ended(s, t, None) && (!s.aborted ==> Only(s.chosen, t.chosen, l.todo[l.at].key, Ready))
       case Fails(err) => Threw(s, t, l, err))
    case EReturned(_) =>
      if s.aborted then Forgot(s, t) && t.threads == [] && !t.busy else t == s.(busy := false, threads := [])
    case _ => true
  }

  lemma {:induction false} CountWaits(chosen: seq<Chosen>)
    ensures CountState(chosen, {Ready, Failed}) > 0 <==> AnyWaits(chosen)
  {
    if chosen != [] {
      CountWaits(chosen[1..]);
      assert forall c :: c in chosen <==> c == chosen[0] || c in chosen[1..];
      assert Waits(chosen[0]) ==> AnyWaits(chosen);
      assert AnyWaits(chosen) <==> Waits(chosen[0]) || AnyWaits(chosen[1..]);
    }
  }

  lemma EndedIs(s: Store, problem: Option<Outcome>)
    requires |s.threads| == 1 && s.current.None?
    ensures Ended(s, EndRun(s, 0, problem), problem) && (!s.aborted ==> EndRun(s, 0, problem).chosen == s.chosen)
  {
    CountWaits(s.chosen);
    hide CountState, AnyWaits;
  }

  lemma HeadIs(s: Store, l: Loop)
    requires |s.threads| == 1 && s.current.None? && l.at <= |l.todo|
    ensures AtHead(s, s.chosen, LoopHead(s, 0, l), l)
    ensures l.at < |l.todo| ==> GoesNext(s, s.chosen, MarkSending(s, 0, l), l)
  {
    EndedIs(s, None);
    hide EndRun, Ended;
  }

  /** Settled as this, the loop goes on from its head: said of where it was before. */
  lemma NextIs(s: Store, l: Loop, state: FileState)
    requires |s.threads| == 1 && l.at < |l.todo|
    ensures var u := Settled(s, l, state);
      Only(s.chosen, u.chosen, l.todo[l.at].key, state) && AtHead(s, u.chosen, LoopHead(u, 0, l.(at := l.at + 1)), l.(at := l.at + 1))
  {
    var u := Settled(s, l, state);
    HeadIs(u, l.(at := l.at + 1));
    HeadAlike(s, u, LoopHead(u, 0, l.(at := l.at + 1)), l.(at := l.at + 1));
  }

  lemma HeadAlike(s: Store, u: Store, t: Store, l: Loop)
    requires u == s.(chosen := u.chosen, current := None) && AtHead(u, u.chosen, t, l)
    ensures AtHead(s, u.chosen, t, l)
  {
    hide AnyWaits, SizeThere;
  }

  lemma SettledIs(s: Store, l: Loop, state: FileState, problem: Option<Outcome>)
    requires |s.threads| == 1 && l.at < |l.todo|
    ensures var t := EndRun(Settled(s, l, state), 0, problem);
      Ended(s, t, problem) && (!s.aborted ==> Only(s.chosen, t.chosen, l.todo[l.at].key, state))
  {
    var u := Settled(s, l, state);
    EndedIs(u, problem);
    hide EndRun, AnyWaits;
  }

  lemma RefusedIs(s: Store, l: Loop)
    requires |s.threads| == 1 && l.at < |l.todo|
    ensures var u := Settled(s, l, Refused); var t := EndRun(u.(chosen := RefuseWaiting(u.chosen)), 0, Some(OBatch));
      Ended(s, t, Some(OBatch)) && (!s.aborted ==> AllRefused(s.chosen, t.chosen, l.todo[l.at].key))
  {
    var u := Settled(s, l, Refused);
    EndedIs(u.(chosen := RefuseWaiting(u.chosen)), Some(OBatch));
    hide EndRun, AnyWaits;
  }

  lemma OutcomeIs(e: Error)
    ensures OutcomeOf(e) == if e.Cut? then OStopped else if Passing(e) then OAgain else if OfTheBatch(e) then OBatch else OFile
  {
  }

  lemma ThrewIs(s: Store, l: Loop, e: Error)
    requires |s.threads| == 1 && l.at < |l.todo|
    ensures Threw(s, SendFailed(s, 0, l, e), l, e)
  {
    hide EndRun, Ended, AtHead, Only, AllRefused, LoopHead, Settled, RefuseWaiting, SendFailed, OutcomeOf, Passing, OfTheBatch;
    OutcomeIs(e);
    FailsAs(s, l, e);
    if e.Cut? {
      SettledIs(s, l, Ready, None);
    } else if Passing(e) {
      SettledIs(s, l, Failed, Some(OAgain));
    } else if OfTheBatch(e) {
      RefusedIs(s, l);
    } else {
      NextIs(s, l, Refused);
    }
  }

  /** By its error: what is left of the files, and how the call ends or goes on. */
  ghost predicate Means(s: Store, t: Store, l: Loop, e: Error)
    requires l.at < |l.todo|
  {
    var file := l.todo[l.at];
    && t.requests == s.requests && t.items == s.items
    && (s.aborted ==> Forgot(s, t) && t.threads == [Returning])
    && (!s.aborted && !e.Cut? && Passing(e) ==>
          && t.threads == [Returning] && t.phase == Stopped && t.problem.Some? && t.batch == s.batch
          && Only(s.chosen, t.chosen, file.key, Failed))
    && (!s.aborted && OfTheBatch(e) ==>
          && t.threads == [Returning] && t.phase == Stopped && t.problem.Some? && AllRefused(s.chosen, t.chosen, file.key))
    && (!s.aborted && e.Cut? ==>
          && t.threads == [Returning] && t.phase == Stopped && t.problem.None? && Only(s.chosen, t.chosen, file.key, Ready))
    && (!s.aborted && e.Api? && !Passing(e) && !OfTheBatch(e) ==>
          exists chosen {:trigger Only(s.chosen, chosen, file.key, Refused)} ::
            Only(s.chosen, chosen, file.key, Refused) && AtHead(s, chosen, t, l.(at := l.at + 1)))
  }

  lemma EndedOnly(s: Store, t: Store, problem: Option<Outcome>)
    requires Ended(s, t, problem)
    ensures t.requests == s.requests && t.items == s.items && t.threads == [Returning]
    ensures s.aborted ==> Forgot(s, t)
    ensures !s.aborted ==> t.problem == problem && t.batch == s.batch && (problem.Some? || AnyWaits(t.chosen) ==> t.phase == Stopped)
  {
    hide AnyWaits;
  }

  lemma HeadOnly(s: Store, chosen: seq<Chosen>, t: Store, l: Loop)
    requires AtHead(s, chosen, t, l)
    ensures t.requests == s.requests && t.items == s.items
    ensures s.aborted ==> Forgot(s, t) && t.threads == [Returning]
  {
    hide Ended, Forgot, Only, AnyWaits, SizeThere;
    if l.at == |l.todo| || s.stopAsked || s.aborted {
      EndedOnly(s, t, None);
    }
  }

  lemma ThrewMeans(s: Store, t: Store, l: Loop, e: Error)
    requires l.at < |l.todo| && Threw(s, t, l, e) && OnlyThere(s, l)
    ensures Means(s, t, l, e)
  {
    hide Ended, Forgot, Only, AllRefused, AnyWaits, AtHead, OnlyThere;
    if e.Cut? {
      EndedOnly(s, t, None);
      if !s.aborted {
        StillWaits(s, t, l, Ready);
      }
    } else if Passing(e) {
      EndedOnly(s, t, Some(OAgain));
    } else if OfTheBatch(e) {
      EndedOnly(s, t, Some(OBatch));
    } else {
      var chosen :| Only(s.chosen, chosen, l.todo[l.at].key, Refused) && AtHead(s, chosen, t, l.(at := l.at + 1));
      HeadOnly(s, chosen, t, l.(at := l.at + 1));
    }
  }

  /**
   * What an error means. No answer, or the vault busy: that file has failed, no other changes and
   * the call ends stopped. Else the batch takes no more: that file and all that wait are refused,
   * and it ends stopped. Cut short, the file is ready again. Any other refusal is of that file
   * alone, and the loop goes on to the next.
   */
  lemma ErrorMeans(s: Store, e: Error, viaToken: bool)
    requires Sound(s) && s.threads != [] && May(s, if viaToken then EToken(0, TokenFailed(e)) else EAnswered(0, Fails(e)))
    ensures Means(s, Next(s, if viaToken then EToken(0, TokenFailed(e)) else EAnswered(0, Fails(e))), s.threads[0].loop, e)
  {
    hide Sound, SendFailed, OnlyThere, Means, Threw;
    var l := s.threads[0].loop;
    OneFileGoing(s, l);
    ThrewIs(s, l, e);
    ThrewMeans(s, SendFailed(s, 0, l, e), l, e);
  }

  /** The file going is one of those chosen. */
  lemma OneFileGoing(s: Store, l: Loop)
    requires Sound(s) && s.threads != [] && (s.threads[0].AwaitingToken? || s.threads[0].AwaitingAnswer?) && s.threads[0].loop == l
    ensures |s.threads| == 1 && l.at < |l.todo| && OnlyThere(s, l)
  {
    hide Core;
  }

  predicate OnlyThere(s: Store, l: Loop)
    requires l.at < |l.todo|
  {
    l.todo[l.at].(state := Sending) in s.chosen
  }

  lemma StillWaits(s: Store, t: Store, l: Loop, state: FileState)
    requires l.at < |l.todo| && OnlyThere(s, l) && Only(s.chosen, t.chosen, l.todo[l.at].key, state) && (state == Ready || state == Failed)
    ensures AnyWaits(t.chosen)
  {
    var c := l.todo[l.at];
    var i :| 0 <= i < |s.chosen| && s.chosen[i] == c.(state := Sending);
    assert t.chosen[i] in t.chosen && Waits(t.chosen[i]);
  }

  // ------------------------------------------------------------- the page's steps

  lemma {:induction false} WaitingWithin(chosen: seq<Chosen>)
    ensures Within(WaitingOf(chosen), chosen)
  {
    if chosen != [] {
      var w := WaitingOf(chosen[1..]);
      WaitingWithin(chosen[1..]);
      assert ([chosen[0]] + w)[1..] == w && [] + w == w;
      assert w != [] ==> w[0] in w;
    }
  }

  lemma BegunIs(s: Store, batch: nat, there: seq<Item>)
    requires |s.threads| == 1 && s.current.None?
    ensures Begun(s, BeginRun(s, 0, batch, there), batch, there)
  {
    WaitingWithin(s.chosen);
    if !s.aborted {
      var u := s.(stopAsked := false, phase := InBatch, stopping := false, problem := None);
      HeadIs(u, Loop(batch, there, WaitingOf(s.chosen), 0));
    }
    hide LoopHead, AtHead, Within;
  }

  /** Begun afresh, unless a call is under way: nothing chosen. */
  predicate Afresh(s: Store, t: Store) {
    if s.busy || s.phase == Making || s.phase == InBatch then t == s
    else
      Fresh(t) && t == s.(chosen := [], phase := Choosing, batch := None, carryOn := false, problem := None, stopping := false, seen := true,
                          gen := s.gen + 1)
  }

  /** A new visit: an upload on its way, or one that ended unseen, is shown as it is; else the page starts afresh. */
  predicate Visited(s: Store, visit: string, t: Store) {
    var u := s.(watching := s.watching + 1, lastVisit := Some(visit));
    if s.lastVisit == Some(visit) || s.phase == Making || s.phase == InBatch then t == u
    else if s.phase != Choosing && !s.seen then t == u.(seen := true)
    else Afresh(u, t)
  }

  /** What the page itself does, and what starts a call. */
  ghost predicate PageDoes(s: Store, e: Event, t: Store)
    requires May(s, e)
  {
    match e
    case ETakeOff(key) =>
      if s.phase != Choosing then t == s
      else t == s.(chosen := t.chosen) && Within(t.chosen, s.chosen) && forall c :: c in t.chosen <==> c in s.chosen && c.key != key
    case ETakeAllOff => t == if s.phase == Choosing then s.(chosen := []) else s
    case EOpened(visit) => Visited(s, visit, t)
    case EReset => Afresh(s, t)
    case EStop => t == if s.phase == Making || s.phase == InBatch then s.(stopAsked := true, stopping := true) else s
    case EAbort =>
      if s.busy then
        t == s.(aborted := true, stopAsked := true, cut := t.cut) && forall r: nat :: r in t.cut <==> r in s.cut || s.current == Some(r)
      else Forgot(s, t) && t.threads == s.threads && !t.busy
    case EStartMake =>
      if s.busy || s.phase != Choosing then t == s
      else t == s.(busy := true, phase := Making, problem := None, threads := [MakingBatch])
    case EStartCarry(batch, there) =>
      if s.busy || s.phase != Choosing then t == s
      else
        Begun(s.(busy := true, batch := Some(batch), carryOn := true, problem := None, threads := [MakingBatch]), t, batch, there)
    case ESendRest =>
      if s.busy || s.phase == Making || s.phase == InBatch || s.batch.None? then t == s
      else t == s.(busy := true, phase := InBatch, problem := None, threads := [AskingBatch(s.batch.value)])
    case EArrive(r, kept) =>
      var q := s.requests[r];
      && s.items <= t.items && t == s.(items := t.items)
      && (if kept && !HasItem(s.items, q.batch, q.idem) then
            |t.items| == |s.items| + 1 && t.items[|s.items|] == Item(q.batch, q.idem, q.content, q.size, Some((q.gen, q.key)))
          else t == s)
    case EOtherItem(batch, content, size) =>
      t == s.(items := s.items + [Item(batch, s.minted, content, size, None)], minted := s.minted + 1)
    case EClosed => t == s.(watching := s.watching - 1)
    case _ => true
  }

  lemma {:induction false} WithoutWithin(chosen: seq<Chosen>, key: string)
    ensures Within(Without(chosen, key), chosen)
  {
    if chosen != [] {
      var w := Without(chosen[1..], key);
      WithoutWithin(chosen[1..], key);
      assert ([chosen[0]] + w)[1..] == w && [] + w == w;
      assert w != [] ==> w[0] in w;
    }
  }

  lemma PageStep(s: Store, e: Event)
    requires Sound(s) && May(s, e)
    ensures PageDoes(s, e, Next(s, e))
  {
    AtRest(s);
    hide Sound, May, Next, PageDoes;
    match e
    case ETakeOff(key) => TakenOffIs(s, e);
    case ETakeAllOff => TakenOffIs(s, e);
    case EOpened(visit) => OpenedIs(s, e);
    case EReset => OpenedIs(s, e);
    case EStop => StopIs(s, e);
    case EAbort => StopIs(s, e);
    case EStartCarry(batch, there) => CarryIs(s, batch, there);
    case _ => OtherIs(s, e);
  }

  lemma TakenOffIs(s: Store, e: Event)
    requires May(s, e) && (e.ETakeOff? || e.ETakeAllOff?)
    ensures PageDoes(s, e, Next(s, e))
  {
    if e.ETakeOff? {
      WithoutWithin(s.chosen, e.key);
    }
    hide Within;
  }

  lemma OpenedIs(s: Store, e: Event)
    requires May(s, e) && (e.EOpened? || e.EReset?)
    ensures PageDoes(s, e, Next(s, e))
  {
    hide Afresh, Visited;
    AfreshIs(s);
    if e.EOpened? {
      VisitedIs(s, e.visit);
    }
  }

  lemma AfreshIs(s: Store)
    ensures Afresh(s, Reset(s))
  {
  }

  lemma VisitedIs(s: Store, visit: string)
    ensures Visited(s, visit, Opened(s, visit))
  {
  }

  lemma StopIs(s: Store, e: Event)
    requires May(s, e) && (e.EStop? || e.EAbort?) && (!s.busy ==> s.current.None?)
    ensures PageDoes(s, e, Next(s, e))
  {
  }

  lemma CarryIs(s: Store, batch: nat, there: seq<Item>)
    requires May(s, EStartCarry(batch, there)) && (!s.busy ==> s.threads == [] && s.current.None?)
    ensures PageDoes(s, EStartCarry(batch, there), Next(s, EStartCarry(batch, there)))
  {
    hide BeginRun, Begun;
    if !s.busy && s.phase == Choosing {
      assert s.threads + [MakingBatch] == [MakingBatch];
      BegunIs(s.(busy := true, batch := Some(batch), carryOn := true, problem := None, threads := [MakingBatch]), batch, there);
    }
  }

  lemma OtherIs(s: Store, e: Event)
    requires May(s, e) && (!s.busy ==> s.threads == [])
    requires !e.ETakeOff? && !e.ETakeAllOff? && !e.EOpened? && !e.EReset? && !e.EStop? && !e.EAbort? && !e.EStartCarry?
    ensures PageDoes(s, e, Next(s, e))
  {
    hide Choose, BatchMade, BeginRun, Hashed, GotToken, Answered, Finish, HasItem;
  }

  lemma AtRest(s: Store)
    requires Sound(s)
    ensures !s.busy ==> s.threads == [] && s.current.None? && !s.aborted
    ensures |s.threads| <= 1
    ensures s.threads != [] ==> s.busy && (s.threads[0].AwaitingAnswer? || s.current.None?)
    ensures s.threads != [] && s.threads[0].Hashing? ==> s.threads[0].loop.at < |s.threads[0].loop.todo|
  {
    hide Core, AtSending, RequestOf, TodoThere, LoopOk, NoneSending;
  }

  lemma CallStep(s: Store, e: Event)
    requires Sound(s) && May(s, e) && s.threads != []
    ensures |s.threads| == 1 && CallDoes(s, e, Next(s, e))
  {
    hide Sound, Next, CallDoes, May;
    AtRest(s);
    CallOf(s, e);
    match e
    case EMade(_, answer) => MadeIs(s, answer);
    case EAsked(_, there) => AskedIs(s, there);
    case EHashed(_, hash) => HashedIs(s, hash);
    case EToken(_, token) => TokenIs(s, token);
    case EAnswered(_, answer) => AnsweredIs(s, answer);
    case EReturned(_) => ReturnedIs(s);
    case _ => NoCall(s, e);
  }

  /** A call's own step is of the one call there is. */
  lemma CallOf(s: Store, e: Event)
    requires |s.threads| <= 1 && s.threads != [] && May(s, e) && (s.threads[0].AwaitingAnswer? || s.current.None?)
    ensures match e
            case EMade(i, _) => i == 0 && s.current.None?
            case EAsked(i, _) => i == 0 && s.current.None?
            case EHashed(i, _) => i == 0 && s.current.None?
            case EToken(i, _) => i == 0
            case EAnswered(i, _) => i == 0
            case EReturned(i) => i == 0
            case _ => true
  {
    hide AllIn, HasItem;
  }

  lemma NoCall(s: Store, e: Event)
    requires |s.threads| == 1 && May(s, e)
    requires !e.EMade? && !e.EAsked? && !e.EHashed? && !e.EToken? && !e.EAnswered? && !e.EReturned?
    ensures CallDoes(s, e, Next(s, e))
  {
    hide Next;
  }

  lemma ReturnedIs(s: Store)
    requires |s.threads| == 1 && May(s, EReturned(0))
    ensures CallDoes(s, EReturned(0), Next(s, EReturned(0)))
  {
    assert s.threads[..0] + s.threads[1..] == [];
  }

  lemma AskedIs(s: Store, there: seq<Item>)
    requires |s.threads| == 1 && May(s, EAsked(0, there)) && s.current.None?
    ensures CallDoes(s, EAsked(0, there), Next(s, EAsked(0, there)))
  {
    BegunIs(s, s.threads[0].batch, there);
    hide BeginRun, Begun;
  }

  lemma MadeIs(s: Store, answer: MakeAnswer)
    requires |s.threads| == 1 && May(s, EMade(0, answer)) && s.current.None?
    ensures CallDoes(s, EMade(0, answer), Next(s, EMade(0, answer)))
  {
    assert s.threads[..0] + s.threads[1..] == [];
    if answer.Made? && !s.aborted {
      BegunIs(s.(batch := Some(answer.batch), carryOn := false), answer.batch, []);
    }
    hide BeginRun, Begun;
  }

  lemma HashedIs(s: Store, hash: Option<int>)
    requires |s.threads| == 1 && May(s, EHashed(0, hash)) && s.current.None?
    ensures CallDoes(s, EHashed(0, hash), Next(s, EHashed(0, hash)))
  {
    hide AtHead, GoesNext, LoopHead, MarkSending, Only, Settled;
    var l := s.threads[0].loop;
    HeadIs(s, l);
    NextIs(s, l, Skipped);
    SkippedSame(s, l);
  }

  lemma SkippedSame(s: Store, l: Loop)
    requires l.at < |l.todo| && s.current.None?
    ensures s.(chosen := Update(s.chosen, l.todo[l.at].key, Skipped)) == Settled(s, l, Skipped)
  {
  }

  lemma TokenIs(s: Store, token: TokenAnswer)
    requires |s.threads| == 1 && May(s, EToken(0, token))
    ensures CallDoes(s, EToken(0, token), Next(s, EToken(0, token)))
  {
    var l := s.threads[0].loop;
    SettledIs(s, l, Ready, None);
    ThrewIs(s, l, if token.TokenFailed? then token.error else Cut);
    hide EndRun, Ended, Threw, SendFailed, Only, Settled;
  }

  lemma AnsweredIs(s: Store, answer: SendAnswer)
    requires |s.threads| == 1 && May(s, EAnswered(0, answer))
    ensures CallDoes(s, EAnswered(0, answer), Next(s, EAnswered(0, answer)))
  {
    var l := s.threads[0].loop;
    SettledIs(s, l, Ready, None);
    NextIs(s, l, Sent);
    ThrewIs(s, l, if answer.Fails? then answer.error else Cut);
    hide EndRun, Ended, Threw, SendFailed, Only, AtHead, LoopHead, Settled;
  }

  /** Every step of every run does to the files, the call, the requests and the batch's items what it is to do, and nothing else. */
  lemma EveryStep(events: seq<Event>, s: Store, e: Event)
    requires Run(START, events, s) && May(s, e)
    ensures PageDoes(s, e, Next(s, e)) && |s.threads| <= 1 && (|s.threads| == 1 ==> CallDoes(s, e, Next(s, e)))
  {
    hide Run, Sound, Next, PageDoes, CallDoes;
    StartSound();
    RunSound(START, events, s);
    PageStep(s, e);
    AtRest(s);
    if s.threads != [] {
      CallStep(s, e);
    }
  }

  // ------------------------------------------------------------- what is there is not sent again

  /** The file going is not one of those listed: none there has both its size and its bytes. */
  predicate GoingIsNew(s: Store) {
    s.threads != [] && (s.threads[0].AwaitingToken? || s.threads[0].AwaitingAnswer?) ==>
      var l := s.threads[0].loop;
      l.at < |l.todo| && forall x :: x in l.there ==> !(x.size == l.todo[l.at].size && x.content == l.todo[l.at].content)
  }

  lemma HeadIsNew(s: Store, chosen: seq<Chosen>, t: Store, l: Loop)
    requires AtHead(s, chosen, t, l)
    ensures GoingIsNew(t)
  {
    hide Only, AnyWaits, Forgot;
  }

  lemma BegunIsNew(s: Store, t: Store, batch: nat, there: seq<Item>)
    requires Begun(s, t, batch, there)
    ensures GoingIsNew(t)
  {
    hide AtHead, Forgot, GoingIsNew;
    if s.aborted {
      assert GoingIsNew(t) by {
        ReturningIsNew(t);
      }
    } else {
      var todo: seq<Chosen> :| Within(todo, s.chosen) &&
        AtHead(s.(stopAsked := false, phase := InBatch, stopping := false, problem := None), s.chosen, t, Loop(batch, there, todo, 0));
      HeadIsNew(s.(stopAsked := false, phase := InBatch, stopping := false, problem := None), s.chosen, t, Loop(batch, there, todo, 0));
    }
  }

  lemma ReturningIsNew(t: Store)
    requires t.threads == [Returning] || t.threads == []
    ensures GoingIsNew(t)
  {
  }

  lemma ThrewIsNew(s: Store, t: Store, l: Loop, e: Error)
    requires l.at < |l.todo| && Threw(s, t, l, e)
    ensures GoingIsNew(t)
  {
    hide AtHead, Only, AllRefused, AnyWaits, Forgot;
    if !e.Cut? && !Passing(e) && !OfTheBatch(e) {
      var chosen :| Only(s.chosen, chosen, l.todo[l.at].key, Refused) && AtHead(s, chosen, t, l.(at := l.at + 1));
      HeadIsNew(s, chosen, t, l.(at := l.at + 1));
    }
  }

  lemma CallIsNew(s: Store, e: Event)
    requires Sound(s) && May(s, e) && s.threads != [] && GoingIsNew(s) && (e.EHashed? ==> e.hash.Some?)
    ensures GoingIsNew(Next(s, e))
  {
    CallStep(s, e);
    AtRest(s);
    hide Sound, Next, CallDoes, GoingIsNew;
    match e
    case EMade(_, Made(batch)) => MadeIsNew(s, e, Next(s, e));
    case EAsked(_, there) => MadeIsNew(s, e, Next(s, e));
    case EHashed(_, hash) => HashedIsNew(s, e, Next(s, e));
    case EToken(_, TokenFailed(err)) => FailedIsNew(s, e, Next(s, e));
    case EAnswered(_, Fails(err)) => FailedIsNew(s, e, Next(s, e));
    case EAnswered(_, ItemMade) => SentIsNew(s, e, Next(s, e));
    case _ => OthersAreNew(s, e);
  }

  lemma MadeIsNew(s: Store, e: Event, t: Store)
    requires May(s, e) && |s.threads| == 1 && CallDoes(s, e, t) && (e.EAsked? || (e.EMade? && e.made.Made?))
    ensures GoingIsNew(t)
  {
    hide Begun, Forgot, GoingIsNew;
    if e.EAsked? {
      BegunIsNew(s, t, s.threads[0].batch, e.there);
    } else if !s.aborted {
      BegunIsNew(s.(batch := Some(e.made.batch), carryOn := false), t, e.made.batch, []);
    } else {
      ReturningIsNew(t);
    }
  }

  lemma HashedIsNew(s: Store, e: Event, t: Store)
    requires May(s, e) && |s.threads| == 1 && CallDoes(s, e, t) && e.EHashed? && e.hash.Some?
    ensures GoingIsNew(t)
  {
    hide AtHead, Only, Forgot, AnyWaits;
    var l := s.threads[0].loop;
    if exists x :: x in l.there && x.content == e.hash.value {
      var chosen :| Only(s.chosen, chosen, l.todo[l.at].key, Skipped) && AtHead(s, chosen, t, l.(at := l.at + 1));
      HeadIsNew(s, chosen, t, l.(at := l.at + 1));
    }
  }

  lemma FailedIsNew(s: Store, e: Event, t: Store)
    requires May(s, e) && |s.threads| == 1 && CallDoes(s, e, t)
    requires (e.EToken? && e.token.TokenFailed?) || (e.EAnswered? && e.answer.Fails?)
    ensures GoingIsNew(t)
  {
    hide Threw, GoingIsNew;
    ThrewIsNew(s, t, s.threads[0].loop, if e.EToken? then e.token.error else e.answer.error);
  }

  lemma SentIsNew(s: Store, e: Event, t: Store)
    requires May(s, e) && |s.threads| == 1 && CallDoes(s, e, t) && e.EAnswered? && e.answer.ItemMade?
    ensures GoingIsNew(t)
  {
    hide AtHead, Only, GoingIsNew;
    var l := s.threads[0].loop;
    var chosen :| Only(s.chosen, chosen, l.todo[l.at].key, Sent) && AtHead(s, chosen, t, l.(at := l.at + 1));
    HeadIsNew(s, chosen, t, l.(at := l.at + 1));
  }

  predicate GoesOn(e: Event) {
    e.EMade? || e.EAsked? || e.EHashed? || e.EToken? || e.EAnswered? || e.EReturned?
  }

  lemma OthersAreNew(s: Store, e: Event)
    requires Sound(s) && May(s, e) && s.threads != [] && GoingIsNew(s)
    requires !GoesOn(e) || e.EReturned? || (e.EMade? && !e.made.Made?) || (e.EToken? && !e.token.TokenFailed?)
      || (e.EAnswered? && e.answer.SessionOver?)
    ensures GoingIsNew(Next(s, e))
  {
    hide Sound, Next, CallDoes, PageDoes, GoingIsNew, May;
    AtRest(s);
    if GoesOn(e) {
      CallStep(s, e);
      CallStaysNew(s, e, Next(s, e));
    } else {
      PageStep(s, e);
      PageStaysNew(s, e, Next(s, e));
    }
  }

  lemma CallStaysNew(s: Store, e: Event, t: Store)
    requires May(s, e) && |s.threads| == 1 && GoingIsNew(s) && CallDoes(s, e, t)
    requires e.EReturned? || (e.EMade? && !e.made.Made?) || (e.EToken? && !e.token.TokenFailed?) || (e.EAnswered? && e.answer.SessionOver?)
    ensures GoingIsNew(t)
  {
    hide Begun, AtHead, Threw, Only, AnyWaits, Forgot;
  }

  lemma PageStaysNew(s: Store, e: Event, t: Store)
    requires May(s, e) && |s.threads| == 1 && s.busy && GoingIsNew(s) && PageDoes(s, e, t) && !GoesOn(e) && t == Next(s, e)
    ensures GoingIsNew(t)
  {
    hide Begun, Within, Next, HasItem;
    if e.EChoose? {
      ChooseKeeps(s, e.files, e.limit, e.already);
    }
  }

  lemma {:induction false} ChooseKeeps(s: Store, files: seq<Picked>, limit: nat, already: nat)
    ensures var t := Choose(s, files, limit, already); s.chosen <= t.chosen && t == s.(chosen := t.chosen, minted := t.minted)
    ensures Next(s, EChoose(files, limit, already)) == Choose(s, files, limit, already)
    decreases |files|
  {
    hide CountState;
    if files != [] {
      ChooseOn(s, files, limit, already);
      var t := if HasKey(s.chosen, files[0].key) then s else ChosenMore(s, files[0], limit, already);
      ChooseKeeps(t, files[1..], limit, already);
    }
  }

  /** Files to send. */
  function ToSend(chosen: seq<Chosen>): nat {
    if chosen == [] then 0 else (if chosen[0].state != Refused then 1 else 0) + ToSend(chosen[1..])
  }

  function ChosenMore(s: Store, f: Picked, limit: nat, already: nat): Store {
    var ok := f.taken && f.size <= limit && already + ToSend(s.chosen) < BATCH_MAX_FILES;
    s.(chosen := s.chosen + [Chosen(f.key, f.content, f.size, if ok then Ready else Refused, s.minted)], minted := s.minted + 1)
  }

  lemma {:induction false} ToSendCounts(chosen: seq<Chosen>)
    ensures ToSend(chosen) == CountState(chosen, {Ready, Sending, Sent, Skipped, Failed})
  {
    if chosen != [] {
      ToSendCounts(chosen[1..]);
      var at := chosen[0].state;
      assert at == Ready || at == Refused || at == Sending || at == Sent || at == Skipped || at == Failed;
    }
  }

  lemma ChooseOn(s: Store, files: seq<Picked>, limit: nat, already: nat)
    requires files != []
    ensures Choose(s, files, limit, already)
            == Choose(if HasKey(s.chosen, files[0].key) then s else ChosenMore(s, files[0], limit, already), files[1..], limit, already)
  {
    ToSendCounts(s.chosen);
    hide CountState, ToSend, HasKey;
  }

  /** Of each choosing's runs, in which every hash asked for was had: the call never has a file going that is listed there. */
  lemma {:induction false} RunIsNew(s: Store, events: seq<Event>, t: Store)
    requires Sound(s) && GoingIsNew(s) && Run(s, events, t) && forall e :: e in events && e.EHashed? ==> e.hash.Some?
    ensures Sound(t) && GoingIsNew(t)
    decreases |events|
  {
    hide Sound, Next, May, GoingIsNew;
    if events != [] {
      NextSound(s, events[0]);
      StepIsNew(s, events[0]);
      RunIsNew(Next(s, events[0]), events[1..], t);
    }
  }

  lemma StepIsNew(s: Store, e: Event)
    requires Sound(s) && GoingIsNew(s) && May(s, e) && (e.EHashed? ==> e.hash.Some?)
    ensures GoingIsNew(Next(s, e))
  {
    hide Sound, GoingIsNew;
    if s.threads == [] {
      StartIsNew(s, e);
    } else {
      CallIsNew(s, e);
    }
  }

  lemma StartIsNew(s: Store, e: Event)
    requires Sound(s) && May(s, e) && s.threads == []
    ensures GoingIsNew(Next(s, e))
  {
    PageStep(s, e);
    AtRest(s);
    hide Sound, Next, Begun, GoingIsNew;
    match e
    case EStartCarry(batch, there) =>
      if !s.busy && s.phase == Choosing {
        BegunIsNew(s.(busy := true, batch := Some(batch), carryOn := true, problem := None, threads := [MakingBatch]), Next(s, e), batch, there);
      } else {
        ReturningIsNew(Next(s, e));
      }
    case _ => NoneGoing(s, e);
  }

  lemma NoneGoing(s: Store, e: Event)
    requires Sound(s) && May(s, e) && s.threads == [] && PageDoes(s, e, Next(s, e)) && !e.EStartCarry?
    ensures GoingIsNew(Next(s, e))
  {
    hide Sound, Next, Within;
    if e.EChoose? {
      ChooseKeeps(s, e.files, e.limit, e.already);
    }
  }

  /**
   * What is there is not sent again: in every run in which a hash asked for was had, a file that
   * goes, as its token comes, has not both the size and the bytes of anything listed in its batch.
   */
  lemma ThereIsNotSentAgain(events: seq<Event>, s: Store)
    requires Run(START, events, s) && May(s, EToken(0, Token)) && forall e :: e in events && e.EHashed? ==> e.hash.Some?
    ensures var t := Next(s, EToken(0, Token));
      && |t.requests| == |s.requests| + 1 && t.requests[..|s.requests|] == s.requests
      && var q := t.requests[|s.requests|];
         forall x :: x in s.threads[0].loop.there ==> x.batch == q.batch && !(x.size == q.size && x.content == q.content)
  {
    hide Run, Sound;
    StartSound();
    assert GoingIsNew(START);
    RunIsNew(START, events, s);
    ListedIn(s);
  }

  lemma ListedIn(s: Store)
    requires Sound(s) && s.threads != [] && s.threads[0].AwaitingToken?
    ensures AllIn(s.threads[0].loop.there, s.items, s.threads[0].loop.batch)
  {
    hide Core;
  }

  // ------------------------------------------------------------- which files are taken

  /** The first of these files of that key. */
  function FirstOf(files: seq<Picked>, key: string): (f: Option<Picked>)
    ensures f.Some? ==> f.value in files && f.value.key == key
    ensures f.None? ==> forall x :: x in files ==> x.key != key
  {
    if files == [] then None else if files[0].key == key then Some(files[0]) else FirstOf(files[1..], key)
  }

  /** A file added by choosing: the first picked of its key, ready exactly if it is taken, not too big, and the batch had room for it then. */
  predicate AddedRight(chosen: seq<Chosen>, i: nat, files: seq<Picked>, limit: nat, already: nat)
    requires i < |chosen|
  {
    var c := chosen[i];
    var f := FirstOf(files, c.key);
    && f.Some? && c.content == f.value.content && c.size == f.value.size
    && (c.state == Ready || c.state == Refused)
    && (c.state == Ready <==> f.value.taken && f.value.size <= limit && already + ToSend(chosen[..i]) < 200)
  }

  lemma {:induction false} ChooseIs(s: Store, files: seq<Picked>, limit: nat, already: nat)
    ensures var t := Choose(s, files, limit, already);
      && s.chosen <= t.chosen
      && forall i: nat :: |s.chosen| <= i < |t.chosen| ==>
           AddedRight(t.chosen, i, files, limit, already) && !HasKey(s.chosen, t.chosen[i].key)
    decreases |files|
  {
    ChooseKeeps(s, files, limit, already);
    NoneChosen(s, limit, already);
    hide ToSend, Choose, HasKey;
    if files != [] {
      var f := files[0];
      var u := if HasKey(s.chosen, f.key) then s else ChosenMore(s, f, limit, already);
      ChooseOn(s, files, limit, already);
      ChooseIs(u, files[1..], limit, already);
      var t := Choose(s, files, limit, already);
      assert t == Choose(u, files[1..], limit, already);
      forall i: nat | |s.chosen| <= i < |t.chosen|
        ensures AddedRight(t.chosen, i, files, limit, already) && !HasKey(s.chosen, t.chosen[i].key)
      {
        if i < |u.chosen| {
          assert t.chosen[i] == u.chosen[i] && t.chosen[..i] == s.chosen;
        } else {
          LaterKey(s, u, f, t.chosen[i].key);
        }
      }
    }
  }

  lemma NoneChosen(s: Store, limit: nat, already: nat)
    ensures Choose(s, [], limit, already) == s
  {
  }

  lemma LaterKey(s: Store, u: Store, f: Picked, key: string)
    requires u.chosen == s.chosen || (|u.chosen| == |s.chosen| + 1 && u.chosen[..|s.chosen|] == s.chosen && u.chosen[|s.chosen|].key == f.key)
    requires u.chosen == s.chosen ==> HasKey(s.chosen, f.key)
    requires !HasKey(u.chosen, key)
    ensures !HasKey(s.chosen, key) && f.key != key
  {
    assert forall c :: c in s.chosen ==> c in u.chosen by {
      assert s.chosen == u.chosen[..|s.chosen|];
    }
    if u.chosen != s.chosen {
      assert u.chosen[|s.chosen|] in u.chosen;
    }
  }
}
