/**
 * Leaving with something unsaved (apps/web/src/leave-guard.tsx): the browser's history with
 * the guard's own entry on it, its Backs made one at a time after they are asked for, and
 * what waits for the guard's entry to be taken off.
 */
module LeaveGuard {
  import opened Text

  /** An entry of the history: which page, and whether it is the guard's copy of it. */
  datatype Entry = Entry(page: nat, guard: bool)

  /** What was asked about: a link followed, or a Back. */
  datatype Go = Link(page: nat) | BackAgain

  /** What waits for a release: a guard put on again by the effect of that number, or a leave. */
  datatype Wait = Arm(effect: nat) | Leave(go: Go)

  /**
   * The page guarded is `here`, at `home` on the history while it is shown. `backs`: Backs asked of the browser,
   * by the person or the guard, and not yet made.
   */
  datatype Guard = Guard(
    hist: seq<Entry>, pos: nat, here: nat, home: nat, shown: bool, backs: nat, on: bool, effect: nat, asker: bool, listening: bool,
    releasing: bool, waiters: seq<Wait>, leaving: bool, pending: Option<Go>)

  predicate OnSentinel(s: Guard) {
    s.pos < |s.hist| && s.hist[s.pos].guard
  }

  /** An entry pushed: whatever was ahead is gone. */
  function Push(s: Guard, e: Entry): (t: Guard)
    requires s.pos < |s.hist|
    ensures t.pos < |t.hist|
  {
    s.(hist := s.hist[..s.pos + 1] + [e], pos := s.pos + 1)
  }

  function PutSentinel(s: Guard): (t: Guard)
    requires s.pos < |s.hist|
    ensures t.pos < |t.hist|
  {
    Push(s, Entry(s.hist[s.pos].page, true))
  }

  /** The guard's entry taken off, if the page is on it: a Back asked for, and waited for. */
  function Release(s: Guard): (t: Guard) {
    if s.releasing || !OnSentinel(s) then s else s.(releasing := true, backs := s.backs + 1)
  }

  /** The effect undone: nothing asks, nothing listens, and the guard's entry is on its way off. */
  function Disarmed(s: Guard): (t: Guard) {
    Release(s.(on := false, asker := false, listening := false))
  }

  /** The page gone: the effect undone with it. */
  function Unmounted(s: Guard): (t: Guard) {
    var t := s.(shown := false, pending := None);
    if t.on then Disarmed(t) else t
  }

  function Armed(s: Guard, effect: nat): (t: Guard)
    requires s.pos < |s.hist|
    ensures t.pos < |t.hist|
  {
    if !s.on || s.effect != effect || s.hist[s.pos].page != s.here then s
    else (if OnSentinel(s) then s else PutSentinel(s)).(listening := true)
  }

  /** Something is unsaved: the effect set up; its guard put on once no release is on its way. */
  function Dirtied(s: Guard): (t: Guard)
    requires s.pos < |s.hist|
  {
    var t := s.(on := true, effect := s.effect + 1, asker := true);
    if t.releasing then t.(waiters := t.waiters + [Arm(t.effect)]) else Armed(t, t.effect)
  }

  function Navigated(s: Guard, page: nat): (t: Guard)
    requires s.pos < |s.hist|
    ensures t.pos < |t.hist|
  {
    var t := Push(s, Entry(page, false));
    if t.shown then Unmounted(t) else t
  }

  /** A leave, its wait over: away by the link, or back to before the page. */
  function Gone(s: Guard, go: Go): (t: Guard)
    requires s.pos < |s.hist|
    ensures t.pos < |t.hist|
  {
    match go
    case Link(page) => Navigated(s, page)
    case BackAgain => s.(leaving := true, backs := s.backs + 1)
  }

  /** Whatever waited for the release, in turn. */
  function Resumed(s: Guard, waiters: seq<Wait>): (t: Guard)
    requires s.pos < |s.hist|
    ensures t.pos < |t.hist|
    decreases |waiters|
  {
    if waiters == [] then s
    else
      var t := match waiters[0]
        case Arm(effect) => Armed(s, effect)
        case Leave(go) => Gone(s, go);
      Resumed(t, waiters[1..])
  }

  /** The guard's own listener, when a Back has been made. */
  function OnPop(s: Guard): (t: Guard)
    requires s.pos < |s.hist|
    ensures t.pos < |t.hist|
  {
    if !s.listening || s.releasing then s
    else if s.leaving then s.(leaving := false)
    else if OnSentinel(s) then s
    else PutSentinel(s).(pending := Some(BackAgain))
  }

  /** The release's listener, after it: done with, at the first Back made, whosever it was. */
  function OffPop(s: Guard): (t: Guard)
    requires s.pos < |s.hist|
    ensures t.pos < |t.hist|
  {
    if !s.releasing then s else Resumed(s.(releasing := false, waiters := []), s.waiters)
  }

  /** A Back made: one entry, or nothing where there is none behind; then its listeners, then the page it shows. */
  function Traversed(s: Guard): Guard
    requires s.backs > 0 && s.pos < |s.hist|
  {
    var t := s.(backs := s.backs - 1);
    if t.pos == 0 then t
    else
      var u := OffPop(OnPop(t.(pos := t.pos - 1)));
      if u.shown && u.hist[u.pos].page != u.here then Unmounted(u) else u
  }

  /** A link pressed: asked about, while something is unsaved; else followed. */
  function Clicked(s: Guard, page: nat): Guard
    requires s.pos < |s.hist|
  {
    if s.shown && s.on then s.(pending := Some(Link(page))) else Navigated(s, page)
  }

  /** What the app does without a link, a search or signing out (`leaveThen`): asked about, while there is anybody to ask. */
  function LeftThen(s: Guard, page: nat): Guard
    requires s.pos < |s.hist|
  {
    if s.asker then s.(pending := Some(Link(page))) else Navigated(s, page)
  }

  /** "Leave without saving": the guard's entry off first, then away. */
  function Confirmed(s: Guard): Guard
    requires s.pos < |s.hist|
  {
    if s.pending.None? then s
    else
      var t := Release(s.(pending := None, asker := false));
      if t.releasing then t.(waiters := t.waiters + [Leave(s.pending.value)]) else Gone(t, s.pending.value)
  }

  function Stayed(s: Guard): Guard
    requires s.pos < |s.hist|
  {
    if s.pending.None? then s
    else
      var t := s.(pending := None);
      if !OnSentinel(t) && !t.releasing then PutSentinel(t) else t
  }

  // ------------------------------------------------------------- runs

  datatype Event =
    | EDirty
    | EClean
    | EClick(page: nat)
    | ELeaveThen(page: nat)
    | EBack
    | ETraverse
    | EConfirm
    | EStay

  predicate May(s: Guard, e: Event) {
    && s.pos < |s.hist|
    && match e
       case EDirty => s.shown && !s.on
       case EClean => s.shown && s.on
       case EClick(page) => s.shown ==> page != s.here
       case ELeaveThen(page) => s.shown ==> page != s.here
       case EBack => true
       case ETraverse => s.backs > 0
       case EConfirm => s.shown
       case EStay => s.shown
  }

  function Next(s: Guard, e: Event): Guard
    requires May(s, e)
  {
    match e
    case EDirty => Dirtied(s)
    case EClean => Disarmed(s)
    case EClick(page) => Clicked(s, page)
    case ELeaveThen(page) => LeftThen(s, page)
    case EBack => s.(backs := s.backs + 1)
    case ETraverse => Traversed(s)
    case EConfirm => Confirmed(s)
    case EStay => Stayed(s)
  }

  predicate LeaveWaits(s: Guard) {
    exists w :: w in s.waiters && w.Leave?
  }

  predicate IsLink(w: Wait) {
    w.Leave? && w.go.Link?
  }

  predicate LinkWaits(s: Guard) {
    exists w :: w in s.waiters && IsLink(w)
  }

  predicate LeaveUnderWay(s: Guard) {
    LeaveWaits(s) || s.leaving
  }

  predicate ArmWaits(s: Guard) {
    s.on && Arm(s.effect) in s.waiters
  }

  /**
   * What the page keeps to: it is not left while the guard's entry is being taken off, nor
   * by a leave that comes after the guard is put on again; nor is it written in again with
   * a Back to leave it on its way, or waiting with no link to leave it by; and nothing is
   * asked that needs no answer any more.
   */
  predicate Orderly(s: Guard, e: Event) {
    match e
    case EDirty => !s.leaving && (LeaveWaits(s) ==> LinkWaits(s))
    case EClick(_) => s.on || !s.releasing
    case ELeaveThen(_) => s.asker || !s.releasing
    case EConfirm => s.pending.None? || !ArmWaits(s) || LeaveWaits(s)
    case EStay => s.pending.None? || OnSentinel(s) || s.releasing
    case _ => true
  }

  ghost predicate Run(s: Guard, events: seq<Event>, t: Guard)
    decreases |events|
  {
    if events == [] then s == t
    else May(s, events[0]) && Orderly(s, events[0]) && Run(Next(s, events[0]), events[1..], t)
  }

  // ------------------------------------------------------------- what is kept

  predicate NoGuards(entries: seq<Entry>) {
    forall i :: 0 <= i < |entries| ==> !entries[i].guard
  }

  /** The page on its own entry, no guard at or behind it, and another page behind. */
  predicate HomeOk(s: Guard) {
    && s.home < |s.hist| && s.hist[s.home].page == s.here && NoGuards(s.hist[..s.home + 1])
    && (s.home > 0 ==> s.hist[s.home - 1].page != s.here)
  }

  /** A page just shown: nothing unsaved, and nothing under way. */
  predicate Begins(s: Guard) {
    && s.shown && s.pos == s.home && HomeOk(s)
    && !s.on && !s.asker && !s.listening && !s.releasing && s.waiters == [] && !s.leaving && s.pending.None? && s.backs == 0
  }

  /** On the guard's entry, on top of the page. */
  predicate Guarded(s: Guard) {
    s.pos == s.home + 1 < |s.hist| && s.hist[s.pos] == Entry(s.here, true)
  }

  /**
   * While the page is shown: it stands on its one guard entry just while something is
   * unsaved and not being left, or that entry is on its way off; else on itself.
   */
  predicate Stands(s: Guard) {
    && HomeOk(s)
    && (if (s.on && !s.leaving) || s.releasing then Guarded(s) else s.pos == s.home)
  }

  predicate Listens(s: Guard) {
    && (s.on ==> s.listening || ArmWaits(s)) && (s.listening ==> s.on)
    && (s.releasing && s.on ==> ArmWaits(s) || LeaveWaits(s))
  }

  predicate NoLeave(waiters: seq<Wait>) {
    forall w :: w in waiters ==> !w.Leave?
  }

  /** A link is followed before the guard of this effect would be put on again: the page is gone by then. */
  predicate LinkBeforeArm(waiters: seq<Wait>, effect: nat) {
    exists i :: 0 <= i < |waiters| && IsLink(waiters[i]) && Arm(effect) !in waiters[..i]
  }

  /** Somebody asks while something is unsaved, unless it is being left. */
  predicate Asks(s: Guard) {
    (s.asker ==> s.on) && (s.on ==> s.asker || LeaveUnderWay(s))
  }

  predicate Waits(s: Guard) {
    && (s.waiters != [] ==> s.releasing) && (s.releasing ==> s.backs > 0 && !s.leaving)
    && (ArmWaits(s) ==> NoLeave(s.waiters) || LinkBeforeArm(s.waiters, s.effect))
    && (forall w :: w in s.waiters && w.Arm? ==> w.effect <= s.effect)
  }

  predicate Sound(s: Guard) {
    && s.pos < |s.hist|
    && (if s.shown then Stands(s) else NoGuards(s.hist[..s.pos + 1]) && !s.on && !s.releasing)
    && Waits(s) && Listens(s) && Asks(s)
  }

  lemma BeginsSound(s: Guard)
    requires Begins(s)
    ensures Sound(s)
  {
  }

  lemma DirtiedSound(s: Guard)
    requires Sound(s) && s.shown && !s.on && Orderly(s, EDirty)
    ensures Sound(Dirtied(s))
  {
    if s.releasing {
      var t := Dirtied(s);
      assert t.waiters == s.waiters + [Arm(t.effect)];
      assert forall w :: w in t.waiters <==> w in s.waiters || w == Arm(t.effect);
      if LeaveWaits(s) {
        var w :| w in s.waiters && IsLink(w);
        LinkThenArm(s.waiters, t.effect, w);
      }
      assert Arm(t.effect) in t.waiters;
      hide NoGuards;
    }
  }

  lemma LinkThenArm(waiters: seq<Wait>, effect: nat, w: Wait)
    requires w in waiters && IsLink(w) && forall x :: x in waiters && x.Arm? ==> x.effect < effect
    ensures LinkBeforeArm(waiters + [Arm(effect)], effect)
  {
    var i :| 0 <= i < |waiters| && waiters[i] == w;
    var more := waiters + [Arm(effect)];
    assert more[i] == w && more[..i] == waiters[..i];
    assert forall x :: x in waiters[..i] ==> x in waiters;
  }

  lemma DisarmedSound(s: Guard)
    requires Sound(s) && s.shown && s.on
    ensures Sound(Disarmed(s))
  {
  }

  lemma ClickedSound(s: Guard, page: nat)
    requires Sound(s) && (s.shown ==> page != s.here) && (s.on || !s.releasing)
    ensures Sound(Clicked(s, page))
  {
  }

  lemma LeftThenSound(s: Guard, page: nat)
    requires Sound(s) && (s.shown ==> page != s.here) && (s.asker || !s.releasing)
    ensures Sound(LeftThen(s, page))
  {
    if !s.asker {
      if s.shown {
        OffIsHome(s);
      }
      NavigatedPlain(s, page);
      hide NoGuards, HomeOk;
    }
  }

  lemma LinkStillBefore(waiters: seq<Wait>, effect: nat, w: Wait)
    requires LinkBeforeArm(waiters, effect)
    ensures LinkBeforeArm(waiters + [w], effect)
  {
    var i :| 0 <= i < |waiters| && IsLink(waiters[i]) && Arm(effect) !in waiters[..i];
    assert (waiters + [w])[i] == waiters[i] && (waiters + [w])[..i] == waiters[..i];
  }

  /** One more leave to wait for the release; `s` but that nobody asks any more. */
  lemma LeaveWaitsToo(s: Guard, t: Guard, go: Go)
    requires Sound(s) && s.shown && s.releasing && (!ArmWaits(s) || LeaveWaits(s))
    requires t == s.(pending := None, asker := false, waiters := s.waiters + [Leave(go)])
    ensures Sound(t)
  {
    var w := Leave(go);
    assert forall x :: x in t.waiters <==> x in s.waiters || x == w;
    assert w in t.waiters && LeaveWaits(t);
    if ArmWaits(s) {
      LinkStillBefore(s.waiters, s.effect, w);
    }
    hide HomeOk, NoGuards, LinkBeforeArm;
  }

  /** The guard's entry on its way off, with a leave to follow. */
  lemma ReleasedToLeave(s: Guard, t: Guard, go: Go)
    requires Sound(s) && s.shown && !s.releasing && OnSentinel(s)
    requires t == Release(s).(pending := None, asker := false, waiters := [Leave(go)])
    ensures Sound(t)
  {
    assert s.waiters == [] && Leave(go) in t.waiters && LeaveWaits(t) && !ArmWaits(t);
    GuardedOnly(s);
    hide NoGuards;
  }

  lemma GuardedOnly(s: Guard)
    requires Sound(s) && s.shown && OnSentinel(s)
    ensures Guarded(s) && !s.leaving
  {
  }

  lemma GoneSound(s: Guard, go: Go)
    requires Sound(s) && s.shown && !s.releasing && !OnSentinel(s)
    ensures Sound(Gone(s.(pending := None, asker := false), go))
  {
    assert s.waiters == [];
    OffIsHome(s);
    if go.Link? {
      NavigatedPlain(s.(pending := None, asker := false), go.page);
      hide NoGuards, HomeOk;
    } else {
      hide NoGuards;
    }
  }

  lemma OffIsHome(s: Guard)
    requires Sound(s) && s.shown && (!OnSentinel(s) || (!s.asker && !s.releasing))
    ensures s.pos == s.home && NoGuards(s.hist[..s.pos + 1]) && !(s.on && !s.leaving)
  {
  }

  lemma ConfirmedSound(s: Guard)
    requires Sound(s) && s.shown && Orderly(s, EConfirm)
    ensures Sound(Confirmed(s))
  {
    if s.pending.Some? {
      hide Sound, Gone, ArmWaits, LeaveWaits;
      if s.releasing {
        LeaveWaitsToo(s, Confirmed(s), s.pending.value);
      } else if OnSentinel(s) {
        NothingWaited(s);
        ReleasedToLeave(s, Confirmed(s), s.pending.value);
      } else {
        GoneSound(s, s.pending.value);
      }
    }
  }

  lemma NothingWaited(s: Guard)
    requires Sound(s) && !s.releasing
    ensures s.waiters == []
  {
  }

  lemma StayedSound(s: Guard)
    requires Sound(s) && s.shown && (s.pending.None? || OnSentinel(s) || s.releasing)
    ensures Sound(Stayed(s))
  {
  }

  lemma NavigatedPlain(s: Guard, page: nat)
    requires s.pos < |s.hist| && NoGuards(s.hist[..s.pos + 1])
    ensures NoGuards(Navigated(s, page).hist[..Navigated(s, page).pos + 1])
  {
    var t := Navigated(s, page);
    assert t.hist == s.hist[..s.pos + 1] + [Entry(page, false)] && t.pos == s.pos + 1;
  }

  /** With these still to go on: nothing else waits, and no guard is put on again to be left. */
  predicate ResumeOk(s: Guard, waiters: seq<Wait>) {
    && s.pos < |s.hist| && s.waiters == [] && !s.releasing
    && (s.on && Arm(s.effect) in waiters ==> LinkBeforeArm(waiters, s.effect) || (!s.leaving && NoLeave(waiters)))
    && (forall w :: w in waiters && w.Arm? ==> w.effect <= s.effect)
    && (s.asker ==> s.on) && (s.on ==> s.asker || s.leaving || !NoLeave(waiters))
    && (if s.shown then HomeOk(s) && (s.listening ==> s.on) && Between(s, waiters)
        else NoGuards(s.hist[..s.pos + 1]) && !s.on && !s.listening)
  }

  lemma LinkAmongTheRest(waiters: seq<Wait>, effect: nat)
    requires waiters != [] && !IsLink(waiters[0]) && LinkBeforeArm(waiters, effect)
    ensures waiters[0] != Arm(effect) && LinkBeforeArm(waiters[1..], effect)
  {
    var i :| 0 <= i < |waiters| && IsLink(waiters[i]) && Arm(effect) !in waiters[..i];
    assert waiters[1..][i - 1] == waiters[i] && waiters[1..][..i - 1] == waiters[..i][1..];
    assert waiters[0] in waiters[..i];
    assert forall w :: w in waiters[..i][1..] ==> w in waiters[..i];
  }

  lemma ArmedOk(s: Guard, waiters: seq<Wait>)
    requires ResumeOk(s, waiters) && waiters != [] && waiters[0].Arm?
    ensures ResumeOk(Armed(s, waiters[0].effect), waiters[1..])
  {
    assert forall w :: w in waiters <==> w == waiters[0] || w in waiters[1..];
    var t := Armed(s, waiters[0].effect);
    if LinkBeforeArm(waiters, s.effect) {
      LinkAmongTheRest(waiters, s.effect);
    }
    hide LinkBeforeArm;
    if s.shown {
      assert t.hist[..t.home + 1] == s.hist[..s.home + 1];
    }
  }

  lemma GoneOk(s: Guard, waiters: seq<Wait>)
    requires ResumeOk(s, waiters) && waiters != [] && waiters[0].Leave?
    ensures ResumeOk(Gone(s, waiters[0].go), waiters[1..])
  {
    assert forall w :: w in waiters <==> w == waiters[0] || w in waiters[1..];
    if waiters[0].go.Link? {
      NavigatedPlain(s, waiters[0].go.page);
      hide NoGuards, HomeOk;
    } else {
      if LinkBeforeArm(waiters, s.effect) {
        LinkAmongTheRest(waiters, s.effect);
      }
      hide LinkBeforeArm, NoGuards, HomeOk;
    }
  }

  /** What waited, in turn: once off its entry the page stands on itself, or is left, or is guarded again. */
  lemma {:induction false} ResumedSound(s: Guard, waiters: seq<Wait>)
    requires ResumeOk(s, waiters)
    ensures Sound(Resumed(s, waiters))
    decreases |waiters|
  {
    if waiters == [] {
      ResumedAll(s);
    } else {
      hide Sound, Armed, Gone;
      var t := match waiters[0]
        case Arm(effect) => Armed(s, effect)
        case Leave(go) => Gone(s, go);
      if waiters[0].Arm? {
        ArmedOk(s, waiters);
      } else {
        GoneOk(s, waiters);
      }
      hide ResumeOk;
      ResumedSound(t, waiters[1..]);
    }
  }

  lemma ResumedAll(s: Guard)
    requires ResumeOk(s, [])
    ensures Sound(s)
  {
  }

  /** Between what waited: guarded again; or on the page itself, and to be guarded or left yet, or with nothing unsaved. */
  predicate Between(s: Guard, waiters: seq<Wait>) {
    if s.on && !s.leaving && Guarded(s) then s.listening && forall w :: w in waiters ==> !w.Leave?
    else
      && s.pos == s.home
      && (s.on && !s.leaving ==> Arm(s.effect) in waiters || exists w :: w in waiters && w.Leave?)
      && (s.on ==> s.listening || Arm(s.effect) in waiters)
  }

  /** A Back made while a release waits for one: the release is done with, whosever the Back was. */
  lemma BackReleases(s: Guard)
    requires Sound(s) && s.backs > 0 && s.releasing
    ensures Sound(Traversed(s))
    ensures var t := s.(backs := s.backs - 1, pos := s.pos - 1, releasing := false, waiters := []);
      s.pos > 0 && ResumeOk(t, s.waiters)
      && Traversed(s) == (var u := Resumed(t, s.waiters); if u.shown && u.hist[u.pos].page != u.here then Unmounted(u) else u)
  {
    var t := s.(backs := s.backs - 1, pos := s.pos - 1, releasing := false, waiters := []);
    assert ResumeOk(t, s.waiters);
    ResumedSound(t, s.waiters);
    hide Resumed, ResumeOk;
    OnItsPage(Resumed(t, s.waiters));
  }

  lemma OnItsPage(s: Guard)
    requires Sound(s)
    ensures s.shown ==> s.hist[s.pos].page == s.here
  {
  }

  lemma TraversedSound(s: Guard)
    requires Sound(s) && s.backs > 0
    ensures Sound(Traversed(s))
  {
    if s.releasing {
      BackReleases(s);
    } else {
      PlainBack(s);
    }
  }

  /** No release on its way: asked about and guarded again, or gone behind the page. */
  lemma PlainBack(s: Guard)
    requires Sound(s) && s.backs > 0 && !s.releasing
    ensures Sound(Traversed(s))
  {
    if s.pos > 0 {
      if s.shown && s.on && !s.leaving {
        CaughtBack(s);
      } else {
        LetGoBack(s);
      }
    } else {
      hide NoGuards, HomeOk;
    }
  }

  lemma CaughtBack(s: Guard)
    requires Sound(s) && s.backs > 0 && !s.releasing && s.shown && s.on && !s.leaving
    ensures Sound(Traversed(s))
  {
    var t := PutSentinel(s.(backs := s.backs - 1, pos := s.pos - 1)).(pending := Some(BackAgain));
    assert t.hist[..t.home + 1] == s.hist[..s.home + 1];
    assert Traversed(s) == t;
  }

  lemma LetGoBack(s: Guard)
    requires Sound(s) && s.backs > 0 && s.pos > 0 && !s.releasing && !(s.shown && s.on && !s.leaving)
    ensures Sound(Traversed(s))
  {
    var t := s.(backs := s.backs - 1, pos := s.pos - 1);
    FewerGuards(s.hist, s.pos);
    hide NoGuards;
  }

  lemma FewerGuards(hist: seq<Entry>, pos: nat)
    requires 0 < pos < |hist|
    ensures NoGuards(hist[..pos + 1]) ==> NoGuards(hist[..pos]) && !hist[pos - 1].guard
  {
    if NoGuards(hist[..pos + 1]) {
      assert forall i :: 0 <= i < pos ==> hist[..pos][i] == hist[..pos + 1][i];
      assert hist[..pos + 1][pos - 1] == hist[pos - 1];
    }
  }

  lemma NextSound(s: Guard, e: Event)
    requires Sound(s) && May(s, e) && Orderly(s, e)
    ensures Sound(Next(s, e))
  {
    hide Sound, Dirtied, Disarmed, Clicked, LeftThen, Confirmed, Stayed, Traversed, ArmWaits, LeaveWaits, LinkWaits;
    match e
    case EDirty => DirtiedSound(s);
    case EClean => DisarmedSound(s);
    case EClick(page) => ClickedSound(s, page);
    case ELeaveThen(page) => LeftThenSound(s, page);
    case EBack => AskedSound(s);
    case ETraverse => TraversedSound(s);
    case EConfirm => ConfirmedSound(s);
    case EStay => StayedSound(s);
  }

  lemma AskedSound(s: Guard)
    requires Sound(s)
    ensures Sound(s.(backs := s.backs + 1))
  {
  }

  lemma {:induction false} RunSound(s: Guard, events: seq<Event>, t: Guard)
    requires Sound(s) && Run(s, events, t)
    ensures Sound(t)
    decreases |events|
  {
    hide Sound, Next, May, Orderly;
    if events != [] {
      NextSound(s, events[0]);
      RunSound(Next(s, events[0]), events[1..], t);
    }
  }

  // ------------------------------------------------------------- what the guard promises

  /**
   * While something is unsaved and is not being left, the page stands on exactly one guard
   * entry, its own, and listens; and with no release on its way, and nothing unsaved or the
   * page being left, none is at or behind it.
   */
  predicate Promised(s: Guard) {
    && s.pos < |s.hist|
    && (s.shown && s.on && !s.leaving ==> Guarded(s) && NoGuards(s.hist[..s.pos]) && (s.listening || s.releasing))
    && (!s.releasing && (!s.on || s.leaving) ==> NoGuards(s.hist[..s.pos + 1]))
  }

  lemma SoundIsPromised(s: Guard)
    requires Sound(s)
    ensures Promised(s)
  {
  }

  /** So it is in every run. */
  lemma OneGuardWhileUnsaved(s: Guard, events: seq<Event>, t: Guard)
    requires Begins(s) && Run(s, events, t)
    ensures Promised(t)
  {
    hide Run, Sound, Promised;
    BeginsSound(s);
    RunSound(s, events, t);
    SoundIsPromised(t);
  }

  /** Nothing but the person going Back, and Backs being made. */
  predicate OnlyBacks(events: seq<Event>) {
    forall e :: e in events ==> e == EBack || e == ETraverse
  }

  lemma {:induction false} BacksKeep(s: Guard, events: seq<Event>, t: Guard)
    requires Sound(s) && OnlyBacks(events) && Run(s, events, t)
    ensures Promised(t)
    decreases |events|
  {
    hide Sound, Promised;
    RunSound(s, events, t);
    SoundIsPromised(t);
  }

  /** Waiting guards alone: the present one is put on, and the rest are of effects undone. */
  lemma {:induction false} ArmsAlone(s: Guard, waiters: seq<Wait>)
    requires s.pos < |s.hist| && s.hist[s.pos].page == s.here && forall w :: w in waiters ==> w.Arm?
    ensures Resumed(s, waiters) == if s.on && Arm(s.effect) in waiters then Armed(s, s.effect) else s
    decreases |waiters|
  {
    hide Armed, Resumed;
    if waiters == [] {
      ResumedNone(s);
    } else {
      assert forall w :: w in waiters <==> w == waiters[0] || w in waiters[1..];
      var t := Armed(s, waiters[0].effect);
      ResumedFirst(s, waiters);
      ArmedIs(s, waiters[0].effect);
      ArmsAlone(t, waiters[1..]);
      ArmedIs(t, t.effect);
    }
  }

  lemma ResumedNone(s: Guard)
    requires s.pos < |s.hist|
    ensures Resumed(s, []) == s
  {
  }

  lemma ResumedFirst(s: Guard, waiters: seq<Wait>)
    requires s.pos < |s.hist| && waiters != [] && waiters[0].Arm?
    ensures Resumed(s, waiters) == Resumed(Armed(s, waiters[0].effect), waiters[1..])
  {
    hide Armed;
  }

  /** Of an effect undone, nothing; of the present one, on the page, the guard: once. */
  lemma ArmedIs(s: Guard, effect: nat)
    requires s.pos < |s.hist| && s.hist[s.pos].page == s.here
    ensures !s.on || s.effect != effect ==> Armed(s, effect) == s
    ensures var t := Armed(s, effect); t.hist[t.pos].page == t.here && t.on == s.on && t.effect == s.effect
    ensures Armed(Armed(s, effect), effect) == Armed(s, effect)
  {
  }

  /** Waiting Backs, and guards of effects undone: the Backs are asked for. */
  lemma {:induction false} BacksAlone(s: Guard, waiters: seq<Wait>)
    requires s.pos < |s.hist| && Arm(s.effect) !in waiters && forall w :: w in waiters ==> !IsLink(w)
    ensures var t := Resumed(s, waiters); t == s.(leaving := s.leaving || !NoLeave(waiters), backs := t.backs)
    decreases |waiters|
  {
    if waiters != [] {
      assert forall w :: w in waiters <==> w == waiters[0] || w in waiters[1..];
      if waiters[0].Arm? {
        assert Armed(s, waiters[0].effect) == s && NoLeave(waiters) == NoLeave(waiters[1..]);
        BacksAlone(s, waiters[1..]);
      } else {
        assert waiters[0] in waiters;
        assert !IsLink(waiters[0]) && waiters[0].go == BackAgain;
        assert !NoLeave(waiters);
        BacksAlone(Gone(s, BackAgain), waiters[1..]);
      }
    }
  }

  /** A guard's entry at `g`, at or behind where the page was left: nothing that waits takes it off. */
  lemma {:induction false} AstrayStays(s: Guard, waiters: seq<Wait>, g: nat)
    requires g <= s.pos < |s.hist| && s.hist[g].guard && !s.on && !s.shown && !s.releasing
    ensures var t := Resumed(s, waiters); g <= t.pos && t.hist[g].guard && !t.on && !t.shown && !t.releasing
    decreases |waiters|
  {
    if waiters != [] {
      AstrayStays(if waiters[0].Arm? then s else Gone(s, waiters[0].go), waiters[1..], g);
    }
  }

  lemma Astray(s: Guard, g: nat)
    requires g <= s.pos < |s.hist| && s.hist[g].guard && !s.releasing && (!s.on || s.leaving)
    ensures !Promised(s)
  {
    assert s.hist[..s.pos + 1][g].guard;
  }

  /** One more Back made. */
  lemma OneTraversal(s: Guard)
    requires May(s, ETraverse)
    ensures OnlyBacks([ETraverse]) && Run(s, [ETraverse], Traversed(s))
  {
    hide Traversed;
    assert Run(Traversed(s), [ETraverse][1..], Traversed(s));
  }

  lemma NoTraversal(s: Guard)
    ensures OnlyBacks([]) && Run(s, [], s)
  {
  }

  /** Where the release of a guarded page is done with: back on the page, nothing waiting. */
  function Off(s: Guard): Guard
    requires s.backs > 0 && s.pos > 0
  {
    s.(backs := s.backs - 1, pos := s.pos - 1, releasing := false, waiters := [])
  }

  lemma TraversedOff(s: Guard)
    requires s.releasing && s.backs > 0 && 0 < s.pos < |s.hist|
    ensures Traversed(s) ==
      var u := Resumed(Off(s), s.waiters); if u.shown && u.hist[u.pos].page != u.here then Unmounted(u) else u
  {
    hide Resumed;
  }

  lemma DirtyWhileLeaving(s: Guard) returns (t: Guard)
    requires Sound(s) && May(s, EDirty) && !Orderly(s, EDirty)
    ensures exists events :: OnlyBacks(events) && Run(Next(s, EDirty), events, t) && !Promised(t)
  {
    var d := Dirtied(s);
    if s.leaving {
      t := d;
      NoTraversal(d);
      Astray(d, d.pos);
    } else {
      var w := Arm(d.effect);
      TraversedOff(d);
      BacksAlone(Off(d), s.waiters);
      ResumedLast(Off(d), s.waiters, w);
      var u := Resumed(Off(d), s.waiters);
      ResumedOne(u, w);
      t := Traversed(d);
      OneTraversal(d);
      hide Resumed;
      assert t == Armed(u, d.effect);
      Astray(t, t.pos);
    }
  }

  lemma ResumedOne(s: Guard, w: Wait)
    requires s.pos < |s.hist|
    ensures Resumed(s, [w]) == if w.Arm? then Armed(s, w.effect) else Gone(s, w.go)
  {
    assert [w][1..] == [];
  }

  lemma LeftWhileReleasing(s: Guard, page: nat) returns (t: Guard)
    requires Sound(s) && s.shown && s.releasing && page != s.here
    ensures exists events :: OnlyBacks(events) && Run(Navigated(s, page), events, t) && !Promised(t)
  {
    var c := Navigated(s, page);
    var g := s.home + 1;
    assert c.hist[g] == s.hist[g] && c.pos == g + 1;
    TraversedOff(c);
    AstrayStays(Off(c), c.waiters, g);
    OneTraversal(c);
    t := Traversed(c);
    hide Resumed;
    Astray(t, g);
  }

  lemma ConfirmedAfterArm(s: Guard) returns (t: Guard)
    requires Sound(s) && May(s, EConfirm) && !Orderly(s, EConfirm)
    ensures exists events :: OnlyBacks(events) && Run(Next(s, EConfirm), events, t) && !Promised(t)
  {
    hide Resumed, Armed, Gone, Promised, Run, OnlyBacks;
    var c := Confirmed(s);
    var go := s.pending.value;
    ArmIsWaiting(s);
    assert c == s.(pending := None, asker := false, waiters := s.waiters + [Leave(go)]);
    var off := Off(c);
    TraversedOff(c);
    ArmsAlone(off, s.waiters);
    ResumedLast(off, s.waiters, Leave(go));
    var u := Armed(off, off.effect);
    ResumedOne(u, Leave(go));
    OneTraversal(c);
    t := Traversed(c);
    ArmedThere(off);
    GoneFromGuard(u, go, s.home + 1);
    Astray(t, s.home + 1);
  }

  lemma ArmIsWaiting(s: Guard)
    requires Sound(s) && s.shown && ArmWaits(s) && !LeaveWaits(s)
    ensures s.releasing && s.backs > 0 && s.pos == s.home + 1 < |s.hist| && s.hist[s.home].page == s.here && !s.leaving
    ensures s.on && Arm(s.effect) in s.waiters && forall w :: w in s.waiters ==> w.Arm?
  {
    OnlyArms(s);
  }

  /** Put on, the guard is on an entry of its own. */
  lemma ArmedThere(s: Guard)
    requires s.pos < |s.hist| && s.on && s.hist[s.pos].page == s.here && !s.releasing && s.pos == s.home && s.shown
    ensures var t := Armed(s, s.effect); !OnSentinel(s) ==>
      t.pos == s.home + 1 < |t.hist| && t.hist[t.pos] == Entry(t.here, true) && t.on && !t.releasing && t.shown
    ensures OnSentinel(s) ==> Armed(s, s.effect).pos == s.pos
  {
  }

  /** Left from there, the entry stays behind, or under a page being left. */
  lemma GoneFromGuard(s: Guard, go: Go, g: nat)
    requires s.pos == g < |s.hist| && s.hist[g] == Entry(s.here, true) && !s.releasing && s.shown
    ensures var t := Gone(s, go); g <= t.pos < |t.hist| && t.hist[g].guard && !t.releasing && (!t.on || t.leaving)
    ensures var t := Gone(s, go); t.shown ==> t.hist[t.pos].page == t.here
  {
  }

  lemma StayedUnasked(s: Guard) returns (t: Guard)
    requires Sound(s) && May(s, EStay) && !Orderly(s, EStay)
    ensures exists events :: OnlyBacks(events) && Run(Next(s, EStay), events, t) && !Promised(t)
  {
    t := Stayed(s);
    NoTraversal(t);
    Astray(t, t.pos);
  }

  /** A step out of order: after no more than one Back, an entry of the guard's is astray. */
  lemma OutOfOrderBreaks(s: Guard, e: Event) returns (t: Guard)
    requires Sound(s) && May(s, e) && !Orderly(s, e)
    ensures exists events :: OnlyBacks(events) && Run(Next(s, e), events, t) && !Promised(t)
  {
    hide Promised, Dirtied, Confirmed, Stayed, Navigated, Run;
    match e
    case EDirty => t := DirtyWhileLeaving(s);
    case EClick(page) => t := LeftWhileReleasing(s, page);
    case ELeaveThen(page) => t := LeftWhileReleasing(s, page);
    case EConfirm => t := ConfirmedAfterArm(s);
    case EStay => t := StayedUnasked(s);
    case _ => t := s;
  }

  /**
   * From any state the page may be in, a step leaves what the guard promises kept, however
   * many Backs follow it, if and only if it is in order.
   */
  lemma PromisedExactlyInOrder(s: Guard, e: Event)
    requires Sound(s) && May(s, e)
    ensures (forall events: seq<Event>, t: Guard :: OnlyBacks(events) && Run(Next(s, e), events, t) ==> Promised(t)) <==> Orderly(s, e)
  {
    hide Sound, May, Orderly, Next, Run, Promised, OnlyBacks;
    if Orderly(s, e) {
      NextSound(s, e);
      forall events: seq<Event>, t: Guard | OnlyBacks(events) && Run(Next(s, e), events, t)
        ensures Promised(t)
      {
        BacksKeep(Next(s, e), events, t);
      }
    } else {
      var t := OutOfOrderBreaks(s, e);
    }
  }

  /** And so is what every run keeps. */
  lemma KeptExactlyInOrder(s: Guard, e: Event)
    requires Sound(s) && May(s, e)
    ensures Sound(Next(s, e)) <==> Orderly(s, e)
  {
    hide Sound, May, Orderly, Next, Run, Promised, OnlyBacks;
    if Orderly(s, e) {
      NextSound(s, e);
    } else {
      var t := OutOfOrderBreaks(s, e);
      var events :| OnlyBacks(events) && Run(Next(s, e), events, t) && !Promised(t);
      if Sound(Next(s, e)) {
        BacksKeep(Next(s, e), events, t);
      }
    }
  }

  /** A Back then is asked about, and never leaves: however many are made. */
  lemma BackIsAsked(s: Guard)
    requires Sound(s) && s.shown && s.on && !s.releasing && !s.leaving && s.backs > 0
    ensures var t := Traversed(s); t.shown && t.on && Guarded(t) && t.pending == Some(BackAgain) && t.hist == s.hist[..s.home + 2]
  {
  }

  /** What is unsaved is left only once leaving it was said. */
  lemma LeftOnlyWhenSaid(s: Guard, e: Event)
    requires Sound(s) && May(s, e) && Orderly(s, e) && s.shown && s.on && !Next(s, e).shown
    ensures LeaveUnderWay(s) || (e == EConfirm && s.pending.Some?)
  {
    if e == ETraverse && !LeaveUnderWay(s) {
      if s.releasing {
        BackReleases(s);
        ArmedKeeps(s.(backs := s.backs - 1, pos := s.pos - 1, releasing := false, waiters := []), s.waiters);
        hide Resumed, ResumeOk;
        OnItsPage(Resumed(s.(backs := s.backs - 1, pos := s.pos - 1, releasing := false, waiters := []), s.waiters));
      } else {
        BackIsAsked(s);
      }
    }
  }

  lemma {:induction false} ArmedKeeps(s: Guard, waiters: seq<Wait>)
    requires ResumeOk(s, waiters) && s.shown && forall w :: w in waiters ==> w.Arm?
    ensures Resumed(s, waiters).shown && Sound(Resumed(s, waiters))
    decreases |waiters|
  {
    ResumedSound(s, waiters);
    if waiters != [] {
      ArmedOk(s, waiters);
      hide Sound, ResumeOk;
      assert Resumed(s, waiters) == Resumed(Armed(s, waiters[0].effect), waiters[1..]);
      assert forall w :: w in waiters[1..] ==> w in waiters;
      assert Armed(s, waiters[0].effect).shown;
      ArmedKeeps(Armed(s, waiters[0].effect), waiters[1..]);
    }
  }

  /** A leave said while guarded: the guard's entry off, then the link followed, or the page behind shown; and nothing of the page's guard left. */
  lemma LeaveLeaves(s: Guard)
    requires Sound(s) && s.shown && s.on && !s.releasing && !s.leaving && s.backs == 0 && s.pending.Some?
    ensures var t := Traversed(Confirmed(s));
      match s.pending.value
      case Link(page) => !t.shown && t.hist == s.hist[..s.home + 1] + [Entry(page, false)] && t.pos == s.home + 1 && t.backs == 0
      case BackAgain => t.backs == 1 && (s.home > 0 ==> var u := Traversed(t); !u.shown && u.pos == s.home - 1 && u.hist == s.hist && u.backs == 0)
  {
    var c := Confirmed(s);
    var t := c.(backs := 0, pos := s.home, releasing := false, waiters := []);
    assert c.waiters == [Leave(s.pending.value)];
    assert Resumed(t, c.waiters) == Gone(t, s.pending.value);
    BackReleases(c) by {
      ConfirmedSound(s);
    }
    hide Resumed;
  }

  // ------------------------------------------------------------- what it does not, out of order

  lemma {:induction false} RunMore(s: Guard, events: seq<Event>, t: Guard, e: Event)
    requires Run(s, events, t) && May(t, e) && Orderly(t, e)
    ensures Run(s, events + [e], Next(t, e))
    decreases |events|
  {
    hide May, Next, Orderly;
    if events == [] {
      assert ([] + [e])[1..] == [];
    } else {
      assert (events + [e])[1..] == events[1..] + [e];
      RunMore(Next(s, events[0]), events[1..], t, e);
    }
  }

  /**
   * Saved while it was being asked about, and then "Keep writing": an entry is put on that
   * nothing takes off; a link followed leaves it behind. From any beginning.
   */
  lemma KeptWritingAfterASave(s: Guard, page: nat) returns (events: seq<Event>, t: Guard)
    requires Begins(s) && page != s.here
    ensures Run(s, events, t) && May(t, EStay) && !Orderly(t, EStay)
    ensures var u := Stayed(t); Guarded(u) && !u.on && !u.listening && !u.releasing
    ensures var u := Clicked(Stayed(t), page); !u.shown && u.pos == s.home + 2 && u.hist[u.pos - 1] == Entry(s.here, true)
  {
    hide Run;
    NoTraversal(s);
    var a := DirtyIs(s);
    RunMore(s, [], s, EDirty);
    var b := Next(a, EClick(page));
    RunMore(s, [] + [EDirty], a, EClick(page));
    var c := Next(b, EClean);
    RunMore(s, [] + [EDirty] + [EClick(page)], b, EClean);
    t := Next(c, ETraverse);
    RunMore(s, [] + [EDirty] + [EClick(page)] + [EClean], c, ETraverse);
    events := [] + [EDirty] + [EClick(page)] + [EClean] + [ETraverse];
    assert t == s.(hist := a.hist, effect := a.effect, pending := Some(Link(page)));
  }

  /** Something unsaved, at the beginning: the guard is put on. */
  lemma DirtyIs(s: Guard) returns (t: Guard)
    requires Begins(s)
    ensures t == Next(s, EDirty) && May(s, EDirty) && Orderly(s, EDirty)
    ensures t == s.(on := true, effect := s.effect + 1, asker := true, listening := true, pos := s.home + 1,
                    hist := s.hist[..s.home + 1] + [Entry(s.here, true)])
    ensures OnSentinel(t)
  {
    assert !LeaveWaits(s);
    t := Next(s, EDirty);
  }

  /** A link followed while the guard's entry is on its way off: the Back comes back from it, onto the guard's entry. */
  lemma FollowedWhileReleasing(s: Guard, page: nat) returns (events: seq<Event>, t: Guard)
    requires Begins(s) && page != s.here
    ensures Run(s, events, t) && May(t, EClick(page)) && !Orderly(t, EClick(page))
    ensures Clicked(t, page).backs > 0
    ensures var u := Traversed(Clicked(t, page)); !u.shown && u.backs == 0 && u.pos < |u.hist| && u.hist[u.pos] == Entry(s.here, true)
  {
    hide Run;
    NoTraversal(s);
    var a := DirtyIs(s);
    RunMore(s, [], s, EDirty);
    t := Next(a, EClean);
    RunMore(s, [] + [EDirty], a, EClean);
    events := [] + [EDirty] + [EClean];
    assert t == a.(on := false, asker := false, listening := false, releasing := true, backs := 1);
  }

  /** And a search, once leaving was said and its Back is on its way: nobody asks any more. */
  lemma SearchedWhileReleasing(s: Guard, page: nat, other: nat) returns (events: seq<Event>, t: Guard)
    requires Begins(s) && page != s.here && other != s.here
    ensures Run(s, events, t) && t.on && May(t, ELeaveThen(other)) && !Orderly(t, ELeaveThen(other)) && Orderly(t, EClick(other))
  {
    hide Run;
    NoTraversal(s);
    var a := DirtyIs(s);
    RunMore(s, [], s, EDirty);
    var b := Next(a, EClick(page));
    RunMore(s, [] + [EDirty], a, EClick(page));
    t := Next(b, EConfirm);
    RunMore(s, [] + [EDirty] + [EClick(page)], b, EConfirm);
    events := [] + [EDirty] + [EClick(page)] + [EConfirm];
    assert t == a.(asker := false, releasing := true, backs := 1, waiters := [Leave(Link(page))]);
  }

  /** Written in again while the Back of a leave is on its way: that Back takes the new guard off unasked, and the next leaves. */
  lemma WrittenWhileLeaving(s: Guard) returns (events: seq<Event>, t: Guard)
    requires Begins(s) && s.home > 0
    ensures Run(s, events, t) && May(t, EDirty) && !Orderly(t, EDirty)
    ensures t.backs > 0
    ensures var u := Traversed(Dirtied(t)); u.shown && u.on && !u.leaving && !u.releasing && u.pos == s.home
    ensures var u := Traversed(Dirtied(t)); u.pos < |u.hist| && !Traversed(u.(backs := u.backs + 1)).shown
  {
    hide Run;
    NoTraversal(s);
    var a := DirtyIs(s);
    RunMore(s, [], s, EDirty);
    var b := Next(a, EBack);
    RunMore(s, [] + [EDirty], a, EBack);
    var c := Next(b, ETraverse);
    RunMore(s, [] + [EDirty] + [EBack], b, ETraverse);
    assert c == a.(pending := Some(BackAgain)) by {
      assert a.hist[..s.home + 1] + [Entry(s.here, true)] == a.hist;
    }
    var d := Next(c, EConfirm);
    RunMore(s, [] + [EDirty] + [EBack] + [ETraverse], c, EConfirm);
    var e := Next(d, ETraverse);
    RunMore(s, [] + [EDirty] + [EBack] + [ETraverse] + [EConfirm], d, ETraverse);
    assert d == c.(asker := false, pending := None, releasing := true, backs := 1, waiters := [Leave(BackAgain)]);
    TraversedOff(d);
    ResumedOne(Off(d), Leave(BackAgain));
    assert e == a.(asker := false, pos := s.home, leaving := true, backs := 1);
    t := Next(e, EClean);
    RunMore(s, [] + [EDirty] + [EBack] + [ETraverse] + [EConfirm] + [ETraverse], e, EClean);
    events := [] + [EDirty] + [EBack] + [ETraverse] + [EConfirm] + [ETraverse] + [EClean];
    assert t == e.(on := false, listening := false);
  }

  /** Left while the guard waits to be put on again: put on first, then left, it stays behind. */
  lemma LeftBehindTheGuard(s: Guard, page: nat) returns (events: seq<Event>, t: Guard)
    requires Begins(s) && page != s.here
    ensures Run(s, events, t) && May(t, EConfirm) && !Orderly(t, EConfirm)
    ensures t.backs > 0 && var u := Traversed(Confirmed(t)); !u.shown && u.pos == s.home + 2 && u.hist[u.pos - 1] == Entry(s.here, true)
  {
    hide Run;
    NoTraversal(s);
    var a := DirtyIs(s);
    RunMore(s, [], s, EDirty);
    var b := Next(a, EClean);
    RunMore(s, [] + [EDirty], a, EClean);
    assert b == a.(on := false, asker := false, listening := false, releasing := true, backs := 1);
    var c := Next(b, EDirty);
    RunMore(s, [] + [EDirty] + [EClean], b, EDirty);
    assert c == b.(on := true, asker := true, effect := b.effect + 1, waiters := [Arm(b.effect + 1)]);
    t := Next(c, EClick(page));
    RunMore(s, [] + [EDirty] + [EClean] + [EDirty], c, EClick(page));
    events := [] + [EDirty] + [EClean] + [EDirty] + [EClick(page)];
    LeftBehind(s, t, page);
  }

  lemma LeftBehind(s: Guard, t: Guard, page: nat)
    requires s.pos == s.home && HomeOk(s) && page != s.here && s.shown
    requires t == s.(hist := s.hist[..s.home + 1] + [Entry(s.here, true)], pos := s.home + 1, on := true, asker := true, effect := t.effect,
                     listening := false, releasing := true, backs := 1, waiters := [Arm(t.effect)], leaving := false, pending := Some(Link(page)))
    ensures ArmWaits(t) && !LeaveWaits(t)
    ensures var u := Traversed(Confirmed(t)); !u.shown && u.pos == s.home + 2 && u.hist[u.pos - 1] == Entry(s.here, true)
  {
    var c := Confirmed(t);
    assert Arm(t.effect) in t.waiters;
    assert c.waiters == [Arm(t.effect)] + [Leave(Link(page))];
    TraversedOff(c);
    var off := Off(c);
    ResumedLast(off, [Arm(t.effect)], Leave(Link(page)));
    ResumedOne(off, Arm(t.effect));
    var g := Armed(off, t.effect);
    ResumedOne(g, Leave(Link(page)));
    hide Resumed;
    assert g.pos == s.home + 1 && g.hist[g.pos] == Entry(s.here, true);
  }

  lemma OnlyArms(s: Guard)
    requires Sound(s) && ArmWaits(s) && !LeaveWaits(s)
    ensures forall w :: w in s.waiters ==> w.Arm?
  {
  }

  lemma {:induction false} ResumedLast(s: Guard, waiters: seq<Wait>, last: Wait)
    requires s.pos < |s.hist|
    ensures Resumed(s, waiters + [last]) == Resumed(Resumed(s, waiters), [last])
    decreases |waiters|
  {
    if waiters == [] {
      assert waiters + [last] == [last];
    } else {
      var t := match waiters[0]
        case Arm(effect) => Armed(s, effect)
        case Leave(go) => Gone(s, go);
      assert (waiters + [last])[1..] == waiters[1..] + [last];
      hide Armed, Gone;
      ResumedLast(t, waiters[1..], last);
    }
  }
}
