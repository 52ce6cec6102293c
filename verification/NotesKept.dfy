/**
 * What was typed in a note: brought back after a reload, sent again when the note is still the
 * one it began from, and saved as typed.
 */
module NotesKept {
  import opened Text
  import opened NoteDrafts
  import opened Notes

  // ------------------------------------------------------------- brought back

  /** No more is typed, nothing is closed or saved, and the document the page knows stays for everyone. */
  ghost predicate LeavesDraft(s: Section, events: seq<Event>)
    decreases |events|
  {
    events == [] ||
    (&& May(s, events[0]) && !events[0].EWrite? && !events[0].EClose? && events[0] != EAnswer(Saved)
     && var t := Next(s, events[0]);
        t.doc < |t.held| && t.held[t.doc].forEveryone && LeavesDraft(t, events[1..]))
  }

  lemma StepLeavesDraft(s: Section, e: Event)
    requires Sound(s) && May(s, e) && !e.EWrite? && !e.EClose? && e != EAnswer(Saved)
    requires var t := Next(s, e); t.doc < |t.held| && t.held[t.doc].forEveryone
    ensures Next(s, e).draft == s.draft && Next(s, e).own == s.own
  {
    hide Sound, ChangedMeanwhile, FromDraft;
  }

  lemma {:induction false} RunLeavesDraft(s: Section, events: seq<Event>, t: Section)
    requires Sound(s) && Run(s, events, t) && LeavesDraft(s, events)
    ensures Sound(t) && t.draft == s.draft && t.own == s.own
    decreases |events|
  {
    hide Sound, Next, May;
    if events != [] {
      NextSound(s, events[0]);
      StepLeavesDraft(s, events[0]);
      RunLeavesDraft(Next(s, events[0]), events[1..], t);
    }
  }

  /** What was typed, as the edit then is: its words and title those typed, all it began from as it was. */
  lemma TypedIsKept(s: Section, text: string, title: Option<string>)
    requires Sound(s) && s.editing.Some? && s.held[s.doc].forEveryone
    ensures var was := s.editing.value.draft;
      var t := Next(s, EWrite(Some(text), title, true));
      && t.draft.Some? && t.editing.Some? && t.draft == Some(t.editing.value.draft) && t.held == s.held && t.own == s.own
      && SameBase(t.draft.value, was) && t.draft.value.text == text
      && t.draft.value.title == (if s.own && title.Some? then title else was.title)
  {
    hide WriteOk, PressesOk, SavingOk, Trim;
  }

  /**
   * What was typed comes back: over any run, typed, then after anything else that neither types,
   * closes nor saves it, the page loaded anew with the document for everyone. The edit reads as
   * typed, from the document it began from, and shows theirs exactly if that document's note is
   * no longer the one it began from; Save then sends it, with the document's own ETag.
   */
  lemma TypedComesBack(
    s: Section, events: seq<Event>, t: Section, text: string, title: Option<string>, later: seq<Event>, u: Section, doc: nat)
    requires Begins(s) && Run(s, events, t) && t.editing.Some? && t.doc < |t.held| && t.held[t.doc].forEveryone
    requires May(t, EWrite(Some(text), title, true))
    requires var typed := Next(t, EWrite(Some(text), title, true)); LeavesDraft(typed, later) && Run(typed, later, u)
    requires doc < |u.held| && u.held[doc].forEveryone
    ensures var was := t.editing.value.draft;
      var back := Next(u, EReload(doc));
      var newTitle := if t.own && title.Some? then title else was.title;
      && back.editing.Some?
      && var e := back.editing.value;
         && e.draft.text == text && e.draft.title == newTitle && SameBase(e.draft, was)
         && e.restored && e.changed && e.sendEtag == doc
         && (e.theirs == Some(doc) <==> doc != was.baseEtag && NoteIsOther(u.held[doc], e.draft))
         && (e.theirs.Some? ==> e.theirs == Some(doc))
         && var sent := Next(back, ESave).writes;
            && |sent| == |u.writes| + 1 && sent[..|u.writes|] == u.writes
            && sent[|u.writes|].words == Trim(text) && sent[|u.writes|].etag == doc && sent[|u.writes|].outcome == Pending
            && sent[|u.writes|].title == (if t.own && e.draft.title.Some? && Trim(e.draft.title.value) != Trim(BaseTitle(e.draft))
                                          then Some(Trim(e.draft.title.value)) else None)
  {
    hide Run, Sound, LeavesDraft, Trim;
    BeginsSound(s);
    RunSound(s, events, t);
    TypedIsKept(t, text, title);
    NextSound(t, EWrite(Some(text), title, true));
    RunLeavesDraft(Next(t, EWrite(Some(text), title, true)), later, u);
    DraftIsOk(u);
  }

  lemma DraftIsOk(s: Section)
    requires Sound(s) && s.draft.Some?
    ensures s.own <==> s.draft.value.title.Some?
  {
    hide WriteOk, PressesOk, SavingOk, EditOk;
  }

  /** A document's note, not the one an edit began from: its words; or its title, if the edit has another. */
  predicate NoteIsOther(v: Version, d: NoteDraft) {
    v.words != d.baseText || (d.title.Some? && Trim(d.title.value) != Trim(BaseTitle(d)) && v.title != BaseTitle(d))
  }

  // ------------------------------------------------------------- sent again

  /**
   * A save refused is sent again, once, exactly if the note is still the one its edit began from:
   * the same words and title, with the newer document's ETag. Else nothing is sent, and theirs is
   * shown, or it is said that the note changed again.
   */
  lemma SentAgainExactly(s: Section)
    requires Sound(s) && MayAnswer(s, Conflict(true))
    ensures var w := s.writes[s.saving.value.write];
      var now, t := w.outcome.now, Answered(s, Conflict(true));
      && t.doc == now && t.editing.Some? && t.editing.value.sendEtag == now && t.editing.value.draft == s.editing.value.draft
      && (if NoteIsOther(s.held[now], w.began.draft) then
            t.writes == s.writes && t.saving.None? && t.editing.value.theirs == Some(now)
          else if WritesOf(s.writes, s.presses) == 1 then
            && t.writes == s.writes + [w.(etag := now, outcome := Pending)]
            && t.saving.Some? && t.saving.value.write == |s.writes| && t.editing.value.theirs == s.editing.value.theirs
          else t.writes == s.writes && t.saving.None? && t.problem == ChangedAgain)
  {
    hide Trim;
    LastWrite(s);
    OneOrTwo(s);
    assert s.writes[|s.writes| - 1] in s.writes;
    hide PressesOk, WritesOf;
  }

  lemma OneOrTwo(s: Section)
    requires Sound(s) && s.saving.Some?
    ensures WritesOf(s.writes, s.presses) == 1 <==> s.saving.value.tries == 0
  {
    hide WriteOk, PressesOk, EditOk, DraftOk;
    var n := |s.writes|;
    assert s.writes == s.writes[..n - 1] + [s.writes[n - 1]];
    WritesAdd(s.writes[..n - 1], [s.writes[n - 1]], s.presses);
    if s.saving.value.tries == 0 {
      NoneOf(s.writes[..n - 1], s.presses);
    } else {
      assert s.writes[..n - 1] == s.writes[..n - 2] + [s.writes[n - 2]];
      WritesAdd(s.writes[..n - 2], [s.writes[n - 2]], s.presses);
    }
  }

  lemma {:induction false} WritesAdd(a: seq<Write>, b: seq<Write>, press: nat)
    ensures WritesOf(a + b, press) == WritesOf(a, press) + WritesOf(b, press)
  {
    if a == [] {
      assert a + b == b;
    } else {
      assert (a + b)[1..] == a[1..] + b;
      WritesAdd(a[1..], b, press);
    }
  }

  // ------------------------------------------------------------- saved as typed

  /** The last words typed, or those there were. */
  function LastText(typed: seq<Event>, was: string): string {
    if typed == [] then was
    else
      var last := typed[|typed| - 1];
      if last.EWrite? && last.text.Some? then last.text.value else LastText(typed[..|typed| - 1], was)
  }

  function LastTitle(typed: seq<Event>, was: string): string {
    if typed == [] then was
    else
      var last := typed[|typed| - 1];
      if last.EWrite? && last.title.Some? then last.title.value else LastTitle(typed[..|typed| - 1], was)
  }

  /** An edit of this document, so far: with these words and title. */
  predicate Reads(s: Section, of: Section, text: string, title: string) {
    && s.held == of.held && s.own == of.own && s.doc == of.doc && s.known == of.known && s.saving.None? && s.writes == of.writes
    && s.presses == of.presses && of.doc < |of.held|
    && s.editing.Some?
    && var e, v := s.editing.value, of.held[of.doc];
       && e.sendEtag == of.doc && e.theirs.None?
       && e.draft == NoteDraft(text, v.words, of.doc, if of.own then Some(title) else None, if of.own then Some(v.title) else None)
  }

  lemma {:induction false} TypedReads(of: Section, s: Section, typed: seq<Event>, t: Section)
    requires Run(s, typed, t) && forall e :: e in typed ==> e.EWrite?
    requires of.doc < |of.held| && Reads(s, of, of.held[of.doc].words, of.held[of.doc].title)
    ensures Reads(t, of, LastText(typed, of.held[of.doc].words), LastTitle(typed, of.held[of.doc].title))
    decreases |typed|
  {
    if typed != [] {
      var rest, last := typed[..|typed| - 1], typed[|typed| - 1];
      var before := RunLess(s, typed, t);
      TypedReads(of, s, rest, before);
      assert last in typed;
    }
  }

  lemma {:induction false} RunLess(s: Section, events: seq<Event>, t: Section) returns (before: Section)
    requires Run(s, events, t) && events != []
    ensures Run(s, events[..|events| - 1], before) && May(before, events[|events| - 1]) && t == Next(before, events[|events| - 1])
    decreases |events|
  {
    hide May, Next;
    if |events| == 1 {
      before := s;
    } else {
      before := RunLess(Next(s, events[0]), events[1..], t);
      assert events[..|events| - 1][1..] == events[1..][..|events| - 2];
    }
  }

  /**
   * An edit begun, anything typed in it and saved, nobody else writing meanwhile: the document then
   * is the one there was, with the last words typed, trimmed, and the last title typed, trimmed,
   * if that is another; and neither an edit nor a draft is left.
   */
  lemma SavedAsTyped(s: Section, typed: seq<Event>, t: Section)
    requires Sound(s) && s.editing.None? && s.saving.None? && s.doc == |s.held| - 1 && forall e :: e in typed ==> e.EWrite?
    requires May(s, EStart) && Run(Next(s, EStart), typed, t)
    ensures var v := s.held[s.doc];
      var text, title := LastText(typed, v.words), LastTitle(typed, v.title);
      var pressed := Next(t, ESave);
      && May(pressed, EReach(|s.writes|))
      && var made := Next(pressed, EReach(|s.writes|));
         && May(made, EAnswer(Saved))
         && var u := Next(made, EAnswer(Saved));
            && u.held == s.held + [Version(Trim(text), if s.own && Trim(title) != Trim(v.title) then Trim(title) else v.title, v.forEveryone)]
            && u.doc == |s.held| && u.editing.None? && u.draft.None? && u.saving.None?
  {
    hide Run, Sound, Trim, LastText, LastTitle;
    KnownIsDoc(s);
    TypedReads(s, Next(s, EStart), typed, t);
  }

  lemma KnownIsDoc(s: Section)
    requires Sound(s)
    ensures s.known == s.doc < |s.held|
  {
  }

  // ------------------------------------------------------------- each step, by what can be seen of it

  /** The draft kept of what is typed: none of a narrower document; as typed, if it could be stored; else the one there was. */
  predicate DraftAfter(s: Section, typed: NoteDraft, stored: bool, draft: Option<NoteDraft>) {
    if s.known < |s.held| && !s.held[s.known].forEveryone then draft.None?
    else if !stored then draft == s.draft
    else
      && draft.Some? && draft.value.text == typed.text && draft.value.title == typed.title
      && draft.value.baseText == typed.baseText && draft.value.baseEtag == typed.baseEtag
      && (typed.title.None? ==> draft.value.baseTitle.None?)
      && (typed.title.Some? ==> draft.value.baseTitle == Some(BaseTitle(typed)))
  }

  /** The page shows this document, and keeps no draft of a narrower one. */
  predicate Shows(s: Section, t: Section, doc: nat) {
    && t.doc == doc && t.known == doc && doc < |s.held|
    && t.draft == (if s.held[doc].forEveryone then s.draft else None)
  }

  /** What each thing that may happen does, and what it leaves. */
  ghost predicate StepDoes(s: Section, e: Event, t: Section)
    requires May(s, e)
  {
    match e
    case EStart =>
      if s.editing.Some? then t == s
      else
        && t == s.(problem := NoProblem, editing := t.editing) && t.editing.Some?
        && var d := t.editing.value.draft;
           && t.editing.value == Editing(d, s.doc, false, None, false)
           && d.text == d.baseText == s.held[s.doc].words && d.baseEtag == s.doc
           && d.title == d.baseTitle == if s.own then Some(s.held[s.doc].title) else None
    case EWrite(text, title, stored) =>
      if s.editing.None? then t == s
      else
        && t == s.(editing := t.editing, draft := t.draft) && t.editing.Some?
        && var was, now := s.editing.value, t.editing.value;
           && now == was.(draft := now.draft, changed := true) && SameBase(now.draft, was.draft)
           && now.draft.text == (if text.Some? then text.value else was.draft.text)
           && now.draft.title == (if title.Some? && s.own then title else was.draft.title)
           && DraftAfter(s, now.draft, stored, t.draft)
    case EClose => t == s.(draft := None, editing := None, problem := NoProblem)
    case ERefresh(doc) =>
      && t == s.(doc := t.doc, known := t.known, draft := t.draft, editing := t.editing) && Shows(s, t, doc)
      && (if s.editing.None? || s.editing.value.sendEtag == doc then t.editing == s.editing
          else
            t.editing == Some(s.editing.value.(
              sendEtag := doc, theirs := if NoteIsOther(s.held[doc], s.editing.value.draft) then Some(doc) else s.editing.value.theirs)))
    case ESave =>
      if s.editing.None? || s.saving.Some? then t == s
      else
        var began := s.editing.value;
        && t == s.(presses := s.presses + 1, problem := NoProblem, writes := t.writes, saving := Some(Saving(began, |s.writes|, 0)))
        && |t.writes| == |s.writes| + 1 && t.writes[..|s.writes|] == s.writes
        && SentOf(s, began, t.writes[|s.writes|]) && t.writes[|s.writes|].press == s.presses + 1
    case EReach(w) =>
      var x := s.writes[w];
      if x.outcome != Pending then t == s
      else
        && t == s.(held := t.held, writes := t.writes) && |t.writes| == |s.writes|
        && (forall i :: 0 <= i < |s.writes| && i != w ==> t.writes[i] == s.writes[i])
        && (if x.etag == |s.held| - 1 then
              && |t.held| == |s.held| + 1 && t.held[..|s.held|] == s.held && t.writes[w] == x.(outcome := Made(|s.held|))
              && t.held[|s.held|].words == x.words && t.held[|s.held|].forEveryone == s.held[x.etag].forEveryone
              && t.held[|s.held|].title == (if x.title.Some? then x.title.value else s.held[x.etag].title)
            else t.held == s.held && t.writes[w] == x.(outcome := Refused(|s.held| - 1)))
    case EAnswer(Saved) =>
      var etag := s.writes[s.saving.value.write].outcome.etag;
      t == s.(draft := None, editing := None, problem := NoProblem, saving := None, doc := etag, known := etag)
    case EAnswer(Nothing) => t == s.(saving := None)
    case EAnswer(Conflict(false)) => t == s.(saving := None, problem := Unreadable)
    case EAnswer(Other) => t == s.(saving := None, problem := Failed)
    case EAnswer(Conflict(true)) =>
      && t == s.(doc := t.doc, known := t.known, draft := t.draft, editing := t.editing, saving := t.saving, problem := t.problem,
                 writes := t.writes)
      && Shows(s, t, s.writes[s.saving.value.write].outcome.now)
    case EOther(v) => |t.held| == |s.held| + 1 && t.held[..|s.held|] == s.held && t.held[|s.held|] == v && t == s.(held := t.held)
    case EReload(doc) =>
      && t == s.(doc := t.doc, known := t.known, draft := t.draft, editing := t.editing, saving := None, problem := NoProblem)
      && Shows(s, t, doc)
      && (if t.draft.None? then t.editing.None?
          else
            var d := t.draft.value;
            t.editing == Some(Editing(d, doc, true, if doc != d.baseEtag && NoteIsOther(s.held[doc], d) then Some(doc) else None, true)))
  }

  /** A write of this edit: of its words, trimmed, and its title, trimmed, if that is another than it began from. */
  predicate SentOf(s: Section, began: Editing, w: Write) {
    && w.etag == began.sendEtag && w.words == Trim(began.draft.text) && w.began == began && w.outcome == Pending
    && w.title == (if s.own && began.draft.title.Some? && Trim(began.draft.title.value) != Trim(BaseTitle(began.draft))
                   then Some(Trim(began.draft.title.value)) else None)
  }

  lemma EveryStep(s: Section, e: Event)
    requires May(s, e)
    ensures StepDoes(s, e, Next(s, e))
  {
    hide Trim, Sound;
    match e
    case EAnswer(a) => AnswerDoes(s, a);
    case _ =>
  }

  lemma AnswerDoes(s: Section, a: Answer)
    requires MayAnswer(s, a)
    ensures StepDoes(s, EAnswer(a), Next(s, EAnswer(a)))
  {
    hide ChangedMeanwhile;
  }
}
