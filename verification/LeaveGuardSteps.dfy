/** What each thing done at a guarded page does at once: what is asked about, what is followed, and what becomes of the history. */
module LeaveGuardSteps {
  import opened Text
  import opened LeaveGuard

  /** One more entry, on top of where the page stands; what was ahead is gone. */
  predicate OneMore(s: Guard, t: Guard, e: Entry) {
    && s.pos < |s.hist| && t.pos == s.pos + 1 && |t.hist| == t.pos + 1 && t.hist[t.pos] == e
    && forall i :: 0 <= i <= s.pos ==> t.hist[i] == s.hist[i]
  }

  predicate SameHistory(s: Guard, t: Guard) {
    t.hist == s.hist && t.pos == s.pos
  }

  /** Asked for once, and only where the guard's own entry is on top. */
  predicate Releases(s: Guard, t: Guard) {
    && SameHistory(s, t)
    && (if s.releasing || s.pos >= |s.hist| || !s.hist[s.pos].guard then t.releasing == s.releasing && t.backs == s.backs
        else t.releasing && t.backs == s.backs + 1)
  }

  /** Away to another page: this one is no longer shown, nothing of it is asked, and its guard is undone. */
  predicate Away(s: Guard, t: Guard, page: nat) {
    && OneMore(s, t, Entry(page, false)) && !t.shown
    && t.leaving == s.leaving && t.waiters == s.waiters && t.releasing == s.releasing && t.backs == s.backs
    && (if s.shown then t.pending.None? && !t.on && (s.on ==> !t.asker && !t.listening)
        else t.pending == s.pending && t.on == s.on && t.asker == s.asker && t.listening == s.listening)
  }

  predicate AsksAbout(s: Guard, t: Guard, go: Go) {
    t == s.(pending := Some(go))
  }

  /**
   * A Back made, no release on its way: with the guard listening it is asked about, and the
   * guard's entry put back on, unless the page is being left or is on such an entry still.
   */
  predicate WentBack(s: Guard, t: Guard)
    requires s.backs > 0 && s.pos < |s.hist|
  {
    if s.pos == 0 then t == s.(backs := s.backs - 1)
    else
      var below := s.hist[s.pos - 1];
      var asked := s.listening && !s.leaving && !below.guard;
      && (if asked then OneMore(s.(pos := s.pos - 1), t, Entry(below.page, true)) else t.pos == s.pos - 1 && t.hist == s.hist)
      && (if s.shown && below.page != s.here then !t.shown && t.pending.None? && !t.on
          else
            t == s.(hist := t.hist, pos := t.pos, backs := s.backs - 1, leaving := s.leaving && !s.listening,
                    pending := if asked then Some(BackAgain) else s.pending))
  }

  predicate Wrote(s: Guard, t: Guard)
    requires s.pos < |s.hist|
  {
    && t.on && t.asker && t.effect == s.effect + 1
    && t == s.(on := true, asker := true, effect := t.effect, hist := t.hist, pos := t.pos, listening := t.listening, waiters := t.waiters)
    && (if s.releasing then SameHistory(s, t) && t.listening == s.listening && t.waiters == s.waiters + [Arm(t.effect)]
        else
          && t.waiters == s.waiters
          && (if s.hist[s.pos].page != s.here then SameHistory(s, t) && t.listening == s.listening
              else t.listening && if s.hist[s.pos].guard then SameHistory(s, t) else OneMore(s, t, Entry(s.here, true))))
  }

  predicate Leaves(s: Guard, t: Guard)
    requires s.pos < |s.hist|
  {
    if s.pending.None? then t == s
    else if s.releasing || s.hist[s.pos].guard then
      && Releases(s, t)
      && t == s.(asker := false, pending := None, waiters := s.waiters + [Leave(s.pending.value)], releasing := t.releasing, backs := t.backs)
    else if s.pending.value.BackAgain? then t == s.(asker := false, pending := None, leaving := true, backs := s.backs + 1)
    else Away(s.(asker := false, pending := None), t, s.pending.value.page)
  }

  predicate Stays(s: Guard, t: Guard)
    requires s.pos < |s.hist|
  {
    if s.pending.None? then t == s
    else
      && t == s.(pending := None, hist := t.hist, pos := t.pos)
      && (if s.hist[s.pos].guard || s.releasing then SameHistory(s, t) else OneMore(s, t, Entry(s.hist[s.pos].page, true)))
  }

  predicate StepDoes(s: Guard, e: Event, t: Guard)
    requires May(s, e)
  {
    match e
    case EDirty => Wrote(s, t)
    case EClean =>
      && !t.on && !t.asker && !t.listening && Releases(s, t)
      && t == s.(on := false, asker := false, listening := false, releasing := t.releasing, backs := t.backs)
    case EClick(page) => if s.shown && s.on then AsksAbout(s, t, Link(page)) else Away(s, t, page)
    case ELeaveThen(page) => if s.asker then AsksAbout(s, t, Link(page)) else Away(s, t, page)
    case EBack => t == s.(backs := s.backs + 1)
    case ETraverse => !s.releasing ==> WentBack(s, t)
    case EConfirm => Leaves(s, t)
    case EStay => Stays(s, t)
  }

  /** Each thing done does at once what it is to do, and leaves the rest as it was. */
  lemma EveryStep(s: Guard, e: Event)
    requires May(s, e)
    ensures StepDoes(s, e, Next(s, e))
  {
    hide Dirtied, Wrote, Disarmed, Clicked, LeftThen, Navigated, Traversed, WentBack, Confirmed, Leaves, Stayed, Stays, Away;
    match e
    case EDirty => DirtyDoes(s);
    case EClean => CleanDoes(s);
    case EClick(page) => ClickDoes(s, page);
    case ELeaveThen(page) => ClickDoes(s, page);
    case ETraverse => BackDoes(s);
    case EConfirm => ConfirmDoes(s);
    case EStay => StayDoes(s);
    case _ =>
  }

  lemma DirtyDoes(s: Guard)
    requires s.pos < |s.hist|
    ensures Wrote(s, Dirtied(s))
  {
  }

  lemma CleanDoes(s: Guard)
    requires s.pos < |s.hist|
    ensures var t := Disarmed(s);
      && !t.on && !t.asker && !t.listening && Releases(s, t)
      && t == s.(on := false, asker := false, listening := false, releasing := t.releasing, backs := t.backs)
  {
  }

  lemma AwayDoes(s: Guard, page: nat)
    requires s.pos < |s.hist|
    ensures Away(s, Navigated(s, page), page)
  {
  }

  lemma ClickDoes(s: Guard, page: nat)
    requires s.pos < |s.hist|
    ensures if s.shown && s.on then AsksAbout(s, Clicked(s, page), Link(page)) else Away(s, Clicked(s, page), page)
    ensures if s.asker then AsksAbout(s, LeftThen(s, page), Link(page)) else Away(s, LeftThen(s, page), page)
  {
    hide Navigated, Away;
    AwayDoes(s, page);
  }

  lemma BackDoes(s: Guard)
    requires s.backs > 0 && s.pos < |s.hist|
    ensures !s.releasing ==> WentBack(s, Traversed(s))
  {
  }

  lemma ConfirmDoes(s: Guard)
    requires s.pos < |s.hist|
    ensures Leaves(s, Confirmed(s))
  {
    hide Navigated, Away;
    if s.pending.Some? && s.pending.value.Link? {
      AwayDoes(s.(asker := false, pending := None), s.pending.value.page);
    }
  }

  lemma StayDoes(s: Guard)
    requires s.pos < |s.hist|
    ensures Stays(s, Stayed(s))
  {
  }
}
