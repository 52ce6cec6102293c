/**
 * A note written against somebody else's change (apps/web/src/notes.tsx): the section's
 * state, the vault's document as its versions one after another, the writes on their way,
 * and one step at a time of whatever may happen to them.
 */
module Notes {
  import opened Text
  import opened NoteDrafts

  /** A document as the vault held it: its note's words and title ('' for none), and who sees it. Its ETag is its place. */
  datatype Version = Version(words: string, title: string, forEveryone: bool)

  datatype Editing = Editing(
    draft: NoteDraft, sendEtag: nat, restored: bool, theirs: Option<nat>, changed: bool)

  datatype Outcome = Pending | Made(etag: nat) | Refused(now: nat)

  /** A write sent: with which ETag, what of, from which edit as it was when Save was pressed. */
  datatype Write = Write(etag: nat, words: string, title: Option<string>, began: Editing, press: nat, outcome: Outcome)

  /** A save under way: the write it waits for, and how many were refused before it. */
  datatype Saving = Saving(began: Editing, write: nat, tries: nat)

  datatype Problem = NoProblem | Unreadable | ChangedAgain | Failed

  /**
   * The vault's versions, the page's document and what it knows is newest, the section's
   * state, this person's draft of this note, and the writes sent.
   */
  datatype Section = Section(
    held: seq<Version>, own: bool, doc: nat, known: nat, editing: Option<Editing>, saving: Option<Saving>,
    problem: Problem, draft: Option<NoteDraft>, writes: seq<Write>, presses: nat)

  predicate TitleChanged(d: NoteDraft) {
    d.title.Some? && Trim(d.title.value) != Trim(if d.baseTitle.Some? then d.baseTitle.value else "")
  }

  /** Whether the document differs from what the edit began from in anything the edit would save over. */
  predicate ChangedMeanwhile(v: Version, d: NoteDraft) {
    v.words != d.baseText || (TitleChanged(d) && v.title != (if d.baseTitle.Some? then d.baseTitle.value else ""))
  }

  /** A kept draft taken up again: if the page's document differs in what the draft would save over, that one is shown. */
  function FromDraft(held: seq<Version>, doc: nat, kept: NoteDraft): Editing
    requires doc < |held|
  {
    var same := doc == kept.baseEtag || !ChangedMeanwhile(held[doc], kept);
    Editing(kept, doc, true, if same then None else Some(doc), true)
  }

  // ------------------------------------------------------------- writing

  function Started(s: Section): Section
    requires s.doc < |s.held|
  {
    var v := s.held[s.doc];
    if s.editing.Some? then s
    else
      s.(problem := NoProblem,
         editing := Some(Editing(NoteDraft(v.words, v.words, s.doc, if s.own then Some(v.title) else None,
                                           if s.own then Some(v.title) else None), s.doc, false, None, false)))
  }

  /** A draft is kept for a document everyone sees; else the one kept is forgotten. The storage may be full. */
  function Persisted(s: Section, d: NoteDraft, stored: bool): Section
    requires s.known < |s.held|
  {
    if !s.held[s.known].forEveryone then s.(draft := None)
    else if stored then s.(draft := Some(d.(baseTitle := if d.title.None? then None else if d.baseTitle.None? then Some("") else d.baseTitle)))
    else s
  }

  function Wrote(s: Section, text: Option<string>, title: Option<string>, stored: bool): Section
    requires s.known < |s.held|
  {
    if s.editing.None? then s
    else
      var e := s.editing.value;
      var d := e.draft.(text := if text.Some? then text.value else e.draft.text,
                        title := if title.Some? && s.own then title else e.draft.title);
      Persisted(s.(editing := Some(e.(draft := d, changed := true))), d, stored)
  }

  function Closed(s: Section): Section {
    s.(draft := None, editing := None, problem := NoProblem)
  }

  /** The page was given the document anew: the edit carries on from it, and somebody else's note is shown. */
  function Refreshed(s: Section, doc: nat): Section
    requires doc < |s.held|
  {
    var t := s.(doc := doc, known := doc, draft := if s.held[doc].forEveryone then s.draft else None);
    if s.editing.None? || s.editing.value.sendEtag == doc then t
    else
      var e := s.editing.value;
      t.(editing := Some(e.(sendEtag := doc, theirs := if ChangedMeanwhile(s.held[doc], e.draft) then Some(doc) else e.theirs)))
  }

  // ------------------------------------------------------------- saving

  function WordsSent(d: NoteDraft): string {
    Trim(d.text)
  }

  /** The title only when this edit changed it. */
  function TitleSent(own: bool, d: NoteDraft): Option<string> {
    if own && TitleChanged(d) then Some(Trim(d.title.value)) else None
  }

  function Sends(s: Section, began: Editing, etag: nat, tries: nat): Section {
    s.(writes := s.writes + [Write(etag, WordsSent(began.draft), TitleSent(s.own, began.draft), began, s.presses, Pending)],
       saving := Some(Saving(began, |s.writes|, tries)))
  }

  function Pressed(s: Section): Section {
    if s.editing.None? || s.saving.Some? then s
    else Sends(s.(presses := s.presses + 1, problem := NoProblem), s.editing.value, s.editing.value.sendEtag, 0)
  }

  /** A write reaches the vault: made of the document it was sent with, if that is the document still. */
  function Reached(s: Section, w: nat): Section
    requires w < |s.writes| && |s.held| > 0
  {
    var x := s.writes[w];
    if x.outcome != Pending then s
    else if x.etag != |s.held| - 1 then s.(writes := s.writes[w := x.(outcome := Refused(|s.held| - 1))])
    else
      var v := s.held[x.etag];
      s.(held := s.held + [Version(x.words, if x.title.Some? then x.title.value else v.title, v.forEveryone)],
         writes := s.writes[w := x.(outcome := Made(|s.held|))])
  }

  /** What comes back of a write. */
  datatype Answer = Saved | Nothing | Conflict(readable: bool) | Other

  /** A save refused, and the document as it is now: looked at, and saved again from it once, if the note is still the one. */
  function Conflicted(s: Section, now: nat): Section
    requires now < |s.held| && s.saving.Some?
  {
    var sv := s.saving.value;
    var shown := s.(doc := now, known := now, draft := if s.held[now].forEveryone then s.draft else None);
    if ChangedMeanwhile(s.held[now], sv.began.draft) then
      shown.(saving := None,
             editing := if s.editing.None? then None else Some(s.editing.value.(sendEtag := now, theirs := Some(now))))
    else
      var t := shown.(editing := if s.editing.None? then None else Some(s.editing.value.(sendEtag := now)));
      if sv.tries == 0 then Sends(t, sv.began, now, 1)
      else t.(saving := None, problem := ChangedAgain)
  }

  function Answered(s: Section, a: Answer): Section
    requires MayAnswer(s, a)
  {
    match a
    case Saved =>
      var etag := s.writes[s.saving.value.write].outcome.etag;
      var t := Closed(s).(saving := None, doc := etag, known := etag);
      t
    case Nothing => s.(saving := None)
    case Conflict(readable) =>
      if readable then Conflicted(s, s.writes[s.saving.value.write].outcome.now)
      else s.(saving := None, problem := Unreadable)
    case Other => s.(saving := None, problem := Failed)
  }

  /** An answer of the vault's is of what it did; a connection may drop whatever it did. */
  predicate MayAnswer(s: Section, a: Answer) {
    && s.saving.Some? && s.saving.value.write < |s.writes|
    && var o := s.writes[s.saving.value.write].outcome;
       match a
       case Saved => o.Made? && o.etag < |s.held|
       case Conflict(_) => o.Refused? && o.now < |s.held|
       case _ => true
  }

  // ------------------------------------------------------------- runs

  datatype Event =
    | EStart
    | EWrite(text: Option<string>, title: Option<string>, stored: bool)
    | EClose
    | ERefresh(doc: nat)
    | ESave
    | EReach(write: nat)
    | EAnswer(answer: Answer)
    | EOther(version: Version)
    | EReload(doc: nat)

  predicate May(s: Section, e: Event) {
    match e
    case EStart => s.doc < |s.held|
    case EWrite(_, _, _) => s.known < |s.held|
    case EClose => s.saving.None?
    case ERefresh(doc) => doc < |s.held|
    case ESave => true
    case EReach(w) => w < |s.writes| && |s.held| > 0
    case EAnswer(a) => MayAnswer(s, a)
    case EOther(_) => true
    case EReload(doc) => doc < |s.held|
  }

  /** The page loaded anew: the draft kept, if any, brought back; an answer on its way is nobody's. */
  function Reloaded(s: Section, doc: nat): Section
    requires doc < |s.held|
  {
    var draft := if s.held[doc].forEveryone then s.draft else None;
    s.(doc := doc, known := doc, saving := None, problem := NoProblem, draft := draft,
       editing := if draft.Some? then Some(FromDraft(s.held, doc, draft.value)) else None)
  }

  function Next(s: Section, e: Event): Section
    requires May(s, e)
  {
    match e
    case EStart => Started(s)
    case EWrite(text, title, stored) => Wrote(s, text, title, stored)
    case EClose => Closed(s)
    case ERefresh(doc) => Refreshed(s, doc)
    case ESave => Pressed(s)
    case EReach(w) => Reached(s, w)
    case EAnswer(a) => Answered(s, a)
    case EOther(v) => s.(held := s.held + [v])
    case EReload(doc) => Reloaded(s, doc)
  }

  ghost predicate Run(s: Section, events: seq<Event>, t: Section)
    decreases |events|
  {
    if events == [] then s == t
    else May(s, events[0]) && Run(Next(s, events[0]), events[1..], t)
  }

  predicate Begins(s: Section) {
    && |s.held| > 0 && s.doc == s.known < |s.held| && s.editing.None? && s.saving.None? && s.draft.None?
    && s.writes == [] && s.presses == 0
  }

  // ------------------------------------------------------------- what is kept

  /** What an edit began from is a document there was: its words, and its title if it is a note kept on its own. */
  predicate DraftOk(held: seq<Version>, own: bool, d: NoteDraft) {
    && d.baseEtag < |held| && d.baseText == held[d.baseEtag].words
    && (own <==> d.title.Some?) && d.baseTitle == (if own then Some(held[d.baseEtag].title) else None)
  }

  /** What a save would replace is the note the edit began from, or one now shown as theirs. */
  predicate EditOk(held: seq<Version>, own: bool, e: Editing) {
    && DraftOk(held, own, e.draft) && e.sendEtag < |held| && (e.theirs.Some? ==> e.theirs.value < |held|)
    && (held[e.sendEtag].words == e.draft.baseText || e.theirs == Some(e.sendEtag))
  }

  /** A write's words and title are those of the edit it began from, whose note it replaces, or theirs shown first. */
  predicate WriteOk(held: seq<Version>, own: bool, w: Write) {
    && DraftOk(held, own, w.began.draft) && w.etag < |held|
    && w.words == Trim(w.began.draft.text) && w.title == TitleSent(own, w.began.draft)
    && (held[w.etag].words == w.began.draft.baseText || w.began.theirs == Some(w.etag))
    && (w.outcome.Made? ==> MadeOk(held, w))
    && (w.outcome.Refused? ==> w.outcome.now < |held|)
  }

  /** A write made is the next version of the document it was sent with. */
  predicate MadeOk(held: seq<Version>, w: Write)
    requires w.outcome.Made? && w.etag < |held|
  {
    && w.outcome.etag == w.etag + 1 < |held|
    && held[w.etag + 1] ==
       Version(w.words, if w.title.Some? then w.title.value else held[w.etag].title, held[w.etag].forEveryone)
  }

  /** Of one press: at most two writes, the first refused before the second. */
  predicate PressesOk(writes: seq<Write>) {
    && (forall i, j :: 0 <= i < j < |writes| && writes[i].press == writes[j].press ==> j == i + 1 && writes[i].outcome.Refused?)
    && (forall i, j :: 0 <= i < j < |writes| ==> writes[i].press <= writes[j].press)
  }

  predicate SameBase(d: NoteDraft, e: NoteDraft) {
    d.baseText == e.baseText && d.baseEtag == e.baseEtag && d.baseTitle == e.baseTitle
  }

  predicate SavingOk(s: Section) {
    s.saving.Some? ==>
      && s.editing.Some? && s.saving.value.write == |s.writes| - 1 && s.saving.value.tries <= 1
      && SameBase(s.saving.value.began.draft, s.editing.value.draft)
      && s.writes[|s.writes| - 1].press == s.presses && s.writes[|s.writes| - 1].began == s.saving.value.began
      && (s.saving.value.tries == 0 ==> forall i :: 0 <= i < |s.writes| - 1 ==> s.writes[i].press < s.presses)
      && (s.saving.value.tries == 1 ==> |s.writes| >= 2 && s.writes[|s.writes| - 2].press == s.presses)
  }

  predicate Sound(s: Section) {
    && s.doc < |s.held| && s.known == s.doc
    && (s.editing.Some? ==> EditOk(s.held, s.own, s.editing.value))
    && (s.draft.Some? ==> DraftOk(s.held, s.own, s.draft.value) && s.held[s.doc].forEveryone)
    && (forall w :: w in s.writes ==> WriteOk(s.held, s.own, w) && w.press <= s.presses)
    && PressesOk(s.writes) && SavingOk(s)
  }

  lemma MoreVersions(held: seq<Version>, own: bool, v: Version)
    ensures forall d: NoteDraft :: DraftOk(held, own, d) ==> DraftOk(held + [v], own, d)
    ensures forall e :: EditOk(held, own, e) ==> EditOk(held + [v], own, e)
    ensures forall w :: WriteOk(held, own, w) ==> WriteOk(held + [v], own, w)
  {
  }

  lemma BeginsSound(s: Section)
    requires Begins(s)
    ensures Sound(s)
  {
  }

  lemma PressCounted(s: Section, u: Section)
    requires Sound(s) && s.editing.Some? && s.saving.None? && u == s.(presses := s.presses + 1, problem := NoProblem)
    ensures Sound(u) && Sound(u.(saving := None)) && forall i :: 0 <= i < |s.writes| ==> s.writes[i].press < u.presses
    ensures EditOk(u.held, u.own, u.editing.value) && DraftOk(u.held, u.own, u.editing.value.draft)
    ensures var e := u.editing.value;
      e.sendEtag < |u.held| && (u.held[e.sendEtag].words == e.draft.baseText || e.theirs == Some(e.sendEtag))
  {
    assert forall i :: 0 <= i < |s.writes| ==> s.writes[i] in s.writes;
    hide WriteOk, PressesOk, DraftOk;
  }

  lemma PressedSound(s: Section)
    requires Sound(s)
    ensures Sound(Pressed(s))
  {
    hide Sound, WriteOk, Sends, SavingOk, PressesOk, EditOk, DraftOk;
    if s.editing.Some? && s.saving.None? {
      var u := s.(presses := s.presses + 1, problem := NoProblem);
      PressCounted(s, u);
      SendsSound(u, s.editing.value, s.editing.value.sendEtag, 0);
    }
  }

  lemma ReachedWrites(s: Section, w: nat)
    requires Sound(s) && w < |s.writes|
    ensures var t := Reached(s, w); forall y :: y in t.writes ==> WriteOk(t.held, t.own, y) && y.press <= t.presses
  {
    hide PressesOk, SavingOk, DraftOk, TitleSent, Trim, EditOk;
    var x := s.writes[w];
    assert x in s.writes;
    var t := Reached(s, w);
    if x.outcome == Pending {
      if x.etag == |s.held| - 1 {
        MoreVersions(s.held, s.own, t.held[|s.held|]);
      }
      forall y | y in t.writes
        ensures WriteOk(t.held, t.own, y) && y.press <= t.presses
      {
        var i :| 0 <= i < |t.writes| && t.writes[i] == y;
        assert s.writes[i] in s.writes;
      }
    }
  }

  lemma ReachedPresses(s: Section, w: nat)
    requires PressesOk(s.writes) && SavingOk(s) && w < |s.writes| && |s.held| > 0
    ensures PressesOk(Reached(s, w).writes) && SavingOk(Reached(s, w))
  {
    var x, t := s.writes[w], Reached(s, w);
    if x.outcome == Pending {
      SamePress(s.writes, w, t.writes[w]);
    }
    hide PressesOk;
  }

  /** A write not yet answered is the last of its press: answered, the presses are as they were. */
  lemma SamePress(writes: seq<Write>, w: nat, x: Write)
    requires PressesOk(writes) && w < |writes| && writes[w].outcome == Pending && x.press == writes[w].press
    ensures PressesOk(writes[w := x])
  {
  }

  lemma ReachedSound(s: Section, w: nat)
    requires Sound(s) && w < |s.writes|
    ensures Sound(Reached(s, w))
  {
    hide WriteOk, DraftOk, EditOk, PressesOk, SavingOk;
    ReachedWrites(s, w);
    ReachedPresses(s, w);
    var x := s.writes[w];
    var t := Reached(s, w);
    if x.outcome == Pending && x.etag == |s.held| - 1 {
      MoreVersions(s.held, s.own, t.held[|s.held|]);
    }
  }

  /** Another write of the same press, the last one refused; or the first of a new one. */
  lemma SendsSound(s: Section, began: Editing, etag: nat, tries: nat)
    requires Sound(s.(saving := None)) && tries <= 1 && s.editing.Some?
    requires DraftOk(s.held, s.own, began.draft) && etag < |s.held|
    requires s.held[etag].words == began.draft.baseText || began.theirs == Some(etag)
    requires forall i :: 0 <= i < |s.writes| ==> s.writes[i].press <= s.presses
    requires tries == 0 ==> forall i :: 0 <= i < |s.writes| ==> s.writes[i].press < s.presses
    requires tries == 1 ==>
      |s.writes| > 0 && s.writes[|s.writes| - 1].outcome.Refused? && s.writes[|s.writes| - 1].press == s.presses
    requires forall i :: 0 <= i < |s.writes| - 1 ==> s.writes[i].press < s.presses
    requires SameBase(began.draft, s.editing.value.draft)
    ensures Sound(Sends(s, began, etag, tries))
  {
    var t := Sends(s, began, etag, tries);
    var w := t.writes[|s.writes|];
    assert t.writes == s.writes + [w];
    assert forall x :: x in t.writes <==> x in s.writes || x == w;
    assert WriteOk(t.held, t.own, w);
    hide WriteOk, EditOk, DraftOk, TitleSent, WordsSent, PressesOk;
    MorePresses(s.writes, w);
  }

  lemma MorePresses(writes: seq<Write>, w: Write)
    requires PressesOk(writes) && forall i :: 0 <= i < |writes| ==> writes[i].press <= w.press
    requires forall i :: 0 <= i < |writes| - 1 ==> writes[i].press < w.press
    requires writes != [] && writes[|writes| - 1].press == w.press ==> writes[|writes| - 1].outcome.Refused?
    ensures PressesOk(writes + [w])
  {
  }

  /** The document as it is now shown, and the save not under way: as sound, whatever is shown. */
  lemma ShownSound(s: Section, now: nat, theirs: Option<nat>, problem: Problem)
    requires Sound(s) && now < |s.held| && s.editing.Some? && (theirs.Some? ==> theirs.value < |s.held|)
    requires s.held[now].words == s.editing.value.draft.baseText || theirs == Some(now)
    ensures Sound(s.(doc := now, known := now, draft := if s.held[now].forEveryone then s.draft else None, saving := None,
                     problem := problem, editing := Some(s.editing.value.(sendEtag := now, theirs := theirs))))
  {
    hide WriteOk, DraftOk, PressesOk;
  }

  lemma ConflictedSound(s: Section)
    requires Sound(s) && MayAnswer(s, Conflict(true))
    ensures Sound(Conflicted(s, s.writes[s.saving.value.write].outcome.now))
  {
    var sv := s.saving.value;
    var now := s.writes[sv.write].outcome.now;
    var e := s.editing.value;
    var shown := s.(doc := now, known := now, draft := if s.held[now].forEveryone then s.draft else None);
    if ChangedMeanwhile(s.held[now], sv.began.draft) {
      ShownSound(s, now, Some(now), s.problem);
      hide Sound;
    } else {
      ShownSound(s, now, e.theirs, s.problem);
      ShownSound(s, now, e.theirs, ChangedAgain);
      if sv.tries == 0 {
        LastWrite(s);
        SendsSound(shown.(editing := Some(e.(sendEtag := now))), sv.began, now, 1);
      }
      hide Sound, Sends;
    }
  }

  lemma LastWrite(s: Section)
    requires Sound(s) && s.saving.Some?
    ensures s.saving.value.write == |s.writes| - 1 && SameBase(s.saving.value.began.draft, s.editing.value.draft)
    ensures forall i :: 0 <= i < |s.writes| ==> s.writes[i].press <= s.presses
    ensures s.writes[|s.writes| - 1].press == s.presses
    ensures s.saving.value.tries == 0 ==> forall i :: 0 <= i < |s.writes| - 1 ==> s.writes[i].press < s.presses
    ensures DraftOk(s.held, s.own, s.saving.value.began.draft)
  {
    assert s.writes[|s.writes| - 1] in s.writes;
    assert forall i :: 0 <= i < |s.writes| ==> s.writes[i] in s.writes;
    hide DraftOk, EditOk, PressesOk;
  }

  lemma WroteSound(s: Section, text: Option<string>, title: Option<string>, stored: bool)
    requires Sound(s)
    ensures Sound(Wrote(s, text, title, stored))
  {
    hide WriteOk, PressesOk;
  }

  lemma PageSound(s: Section, e: Event)
    requires Sound(s) && May(s, e) && (e.EStart? || e.EClose? || e.ERefresh? || e.EReload?)
    ensures Sound(Next(s, e))
  {
    hide WriteOk, PressesOk, TitleChanged;
    match e
    case ERefresh(doc) => RefreshedSound(s, doc);
    case _ =>
  }

  lemma RefreshedSound(s: Section, doc: nat)
    requires Sound(s) && doc < |s.held|
    ensures Sound(Refreshed(s, doc))
  {
    hide WriteOk, PressesOk, TitleChanged, DraftOk;
  }

  lemma OtherSound(s: Section, v: Version)
    requires Sound(s)
    ensures Sound(Next(s, EOther(v)))
  {
    MoreVersions(s.held, s.own, v);
    hide WriteOk, PressesOk, DraftOk, EditOk;
  }

  lemma AnsweredSound(s: Section, a: Answer)
    requires Sound(s) && MayAnswer(s, a)
    ensures Sound(Answered(s, a))
  {
    if a == Conflict(true) {
      ConflictedSound(s);
      hide Sound, Conflicted;
    } else {
      hide WriteOk, PressesOk, DraftOk;
    }
  }

  lemma NextSound(s: Section, e: Event)
    requires Sound(s) && May(s, e)
    ensures Sound(Next(s, e))
  {
    hide Sound, Wrote, Pressed, Reached, Answered, Started, Closed, Refreshed, Reloaded, MayAnswer;
    match e
    case EWrite(text, title, stored) => WroteSound(s, text, title, stored);
    case ESave => PressedSound(s);
    case EReach(w) => ReachedSound(s, w);
    case EAnswer(a) => AnsweredSound(s, a);
    case EOther(v) => OtherSound(s, v);
    case _ => PageSound(s, e);
  }

  lemma {:induction false} RunSound(s: Section, events: seq<Event>, t: Section)
    requires Sound(s) && Run(s, events, t)
    ensures Sound(t)
    decreases |events|
  {
    hide Sound, Next, May;
    if events != [] {
      NextSound(s, events[0]);
      RunSound(Next(s, events[0]), events[1..], t);
    }
  }

  // ------------------------------------------------------------- what a save promises

  /**
   * Whenever a save is made: the words it replaced are those the edit began from, or a note
   * shown as theirs when Save was pressed; it left the words as written, and a title the
   * edit did not change as it was.
   */
  lemma NothingReplacedUnseen(s: Section, events: seq<Event>, t: Section, i: nat)
    requires Begins(s) && Run(s, events, t) && i < |t.writes| && t.writes[i].outcome.Made?
    ensures var w := t.writes[i];
      && 0 < w.outcome.etag < |t.held| && w.began.draft.baseEtag < |t.held|
      && w.began.draft.baseText == t.held[w.began.draft.baseEtag].words
      && (t.held[w.outcome.etag - 1].words == w.began.draft.baseText || w.began.theirs == Some(w.outcome.etag - 1))
      && t.held[w.outcome.etag].words == Trim(w.began.draft.text)
      && (!TitleChanged(w.began.draft) || !t.own ==> t.held[w.outcome.etag].title == t.held[w.outcome.etag - 1].title)
      && (TitleChanged(w.began.draft) && t.own ==> t.held[w.outcome.etag].title == Trim(w.began.draft.title.value))
  {
    hide Run;
    BeginsSound(s);
    RunSound(s, events, t);
    assert t.writes[i] in t.writes;
  }

  function WritesOf(writes: seq<Write>, press: nat): nat {
    if writes == [] then 0
    else (if writes[0].press == press then 1 else 0) + WritesOf(writes[1..], press)
  }

  function MadeOf(writes: seq<Write>, press: nat): nat {
    if writes == [] then 0
    else (if writes[0].press == press && writes[0].outcome.Made? then 1 else 0) + MadeOf(writes[1..], press)
  }

  lemma {:induction false} NoneOf(writes: seq<Write>, press: nat)
    requires forall w :: w in writes ==> w.press != press
    ensures WritesOf(writes, press) == MadeOf(writes, press) == 0
  {
    if writes != [] {
      NoneOf(writes[1..], press);
    }
  }

  lemma {:induction false} TwoOfAPress(writes: seq<Write>, press: nat)
    requires PressesOk(writes)
    ensures WritesOf(writes, press) <= 2 && MadeOf(writes, press) <= 1
    decreases |writes|
  {
    if writes != [] {
      assert PressesOk(writes[1..]);
      if writes[0].press != press {
        TwoOfAPress(writes[1..], press);
      } else if |writes| > 1 {
        var rest := writes[1..][1..];
        forall w | w in rest
          ensures w.press != press
        {
          var i :| 0 <= i < |rest| && rest[i] == w;
          assert writes[i + 2] == w;
        }
        NoneOf(rest, press);
      }
    }
  }

  /** One press of Save is at most two writes, and at most one of them is made. */
  lemma OneSaveTwoWrites(s: Section, events: seq<Event>, t: Section, press: nat)
    requires Begins(s) && Run(s, events, t)
    ensures WritesOf(t.writes, press) <= 2 && MadeOf(t.writes, press) <= 1
  {
    hide Run, PressesOk;
    BeginsSound(s);
    RunSound(s, events, t);
    assert PressesOk(t.writes) by {
      hide WriteOk, SavingOk, EditOk, DraftOk;
    }
    TwoOfAPress(t.writes, press);
  }

  /** No draft is kept of a note on a document the page knows is not for everyone. */
  lemma NoDraftOfAPrivateNote(s: Section, events: seq<Event>, t: Section)
    requires Begins(s) && Run(s, events, t) && t.doc < |t.held| && !t.held[t.doc].forEveryone
    ensures t.draft.None?
  {
    hide Run;
    BeginsSound(s);
    RunSound(s, events, t);
  }

  /** Their note found meanwhile is shown before anything is saved over it: Save then is of a choice of its own. */
  lemma TheirsIsShownFirst(s: Section, doc: nat)
    requires Sound(s) && s.editing.Some? && doc < |s.held| && s.editing.value.sendEtag != doc
    ensures var t := Refreshed(s, doc).editing.value;
      t.sendEtag == doc && (s.held[doc].words != s.editing.value.draft.baseText ==> t.theirs == Some(doc))
      && t.draft == s.editing.value.draft
  {
  }

  // ------------------------------------------------------------- titles

  function BaseTitle(d: NoteDraft): string {
    if d.baseTitle.Some? then d.baseTitle.value else ""
  }

  /** Before an edit's title is sent: the one it would replace is the one the edit began from, or is shown as theirs. */
  predicate TitleHeld(held: seq<Version>, e: Editing) {
    e.sendEtag < |held| && TitleChanged(e.draft) ==> held[e.sendEtag].title == BaseTitle(e.draft) || e.theirs == Some(e.sendEtag)
  }

  predicate TitleWriteOk(held: seq<Version>, w: Write) {
    w.etag < |held| && w.title.Some? ==> held[w.etag].title == BaseTitle(w.began.draft) || w.began.theirs == Some(w.etag)
  }

  predicate TitlesOk(s: Section) {
    && (s.editing.Some? ==> TitleHeld(s.held, s.editing.value))
    && forall w :: w in s.writes ==> TitleWriteOk(s.held, w)
  }

  function Typed(own: bool, d: NoteDraft, text: Option<string>, title: Option<string>): NoteDraft {
    d.(text := if text.Some? then text.value else d.text, title := if title.Some? && own then title else d.title)
  }

  /** A title not the one the edit began from, on the document it would be saved over, and not shown. */
  predicate TitleUnseen(held: seq<Version>, d: NoteDraft, etag: nat, theirs: Option<nat>) {
    etag < |held| && TitleChanged(d) && held[etag].title != BaseTitle(d) && theirs != Some(etag)
  }

  /**
   * A step that leaves a title unseen: a title typed once the document has another; or, typed
   * while a save was on its way, its write refused, and the note's words still those it began from.
   */
  predicate LeavesTitleUnseen(s: Section, e: Event) {
    match e
    case EWrite(text, title, _) =>
      s.editing.Some? &&
      TitleUnseen(s.held, Typed(s.own, s.editing.value.draft, text, title), s.editing.value.sendEtag, s.editing.value.theirs)
    case EAnswer(Conflict(true)) =>
      s.saving.Some? && s.saving.value.write < |s.writes| && s.writes[s.saving.value.write].outcome.Refused? && s.editing.Some? &&
      var now := s.writes[s.saving.value.write].outcome.now;
      now < |s.held| && !ChangedMeanwhile(s.held[now], s.saving.value.began.draft)
      && TitleUnseen(s.held, s.editing.value.draft, now, s.editing.value.theirs)
    case _ => false
  }

  lemma HeldMore(held: seq<Version>, v: Version)
    ensures forall e: Editing :: e.sendEtag < |held| ==> TitleHeld(held + [v], e) == TitleHeld(held, e)
    ensures forall w: Write :: w.etag < |held| ==> TitleWriteOk(held + [v], w) == TitleWriteOk(held, w)
  {
  }

  lemma EditAndWritesThere(s: Section)
    requires Sound(s)
    ensures s.editing.Some? ==> s.editing.value.sendEtag < |s.held|
    ensures forall w :: w in s.writes ==> w.etag < |s.held|
  {
  }

  lemma WroteTitles(s: Section, text: Option<string>, title: Option<string>, stored: bool)
    requires Sound(s) && TitlesOk(s)
    ensures TitlesOk(Wrote(s, text, title, stored)) <==> !LeavesTitleUnseen(s, EWrite(text, title, stored))
  {
    EditAndWritesThere(s);
    hide Sound, TitleChanged;
  }

  lemma SendsTitles(s: Section, began: Editing, etag: nat, tries: nat)
    requires TitlesOk(s) && etag < |s.held|
    requires s.own && TitleChanged(began.draft) ==> s.held[etag].title == BaseTitle(began.draft) || began.theirs == Some(etag)
    ensures TitlesOk(Sends(s, began, etag, tries))
  {
    hide TitleChanged, TitleHeld;
    var t := Sends(s, began, etag, tries);
    assert forall w :: w in t.writes ==> w in s.writes || w == t.writes[|s.writes|];
  }

  /** Pressed, a save sends a title unseen exactly if the edit has one. */
  lemma PressedTitles(s: Section)
    requires Sound(s) && TitlesOk(s)
    ensures TitlesOk(Pressed(s))
  {
    EditAndWritesThere(s);
    hide Sound, TitleChanged;
    if s.editing.Some? && s.saving.None? {
      SendsTitles(s.(presses := s.presses + 1, problem := NoProblem), s.editing.value, s.editing.value.sendEtag, 0);
    }
  }

  lemma ReachedTitles(s: Section, w: nat)
    requires Sound(s) && TitlesOk(s) && w < |s.writes|
    ensures TitlesOk(Reached(s, w))
  {
    EditAndWritesThere(s);
    hide Sound, TitleChanged, TitleHeld;
    var x, t := s.writes[w], Reached(s, w);
    assert x in s.writes;
    if x.outcome == Pending && x.etag == |s.held| - 1 {
      HeldMore(s.held, t.held[|s.held|]);
    }
    forall y | y in t.writes
      ensures TitleWriteOk(t.held, y)
    {
      var i :| 0 <= i < |t.writes| && t.writes[i] == y;
      assert s.writes[i] in s.writes;
    }
  }

  lemma ConflictedTitles(s: Section)
    requires Sound(s) && TitlesOk(s) && MayAnswer(s, Conflict(true))
    ensures TitlesOk(Answered(s, Conflict(true))) <==> !LeavesTitleUnseen(s, EAnswer(Conflict(true)))
  {
    var sv := s.saving.value;
    var now := s.writes[sv.write].outcome.now;
    SavingIsOfTheEdit(s);
    EditAndWritesThere(s);
    hide Sound, TitleChanged, Sends;
    var e := s.editing.value;
    if !ChangedMeanwhile(s.held[now], sv.began.draft) {
      var shown := s.(doc := now, known := now, draft := if s.held[now].forEveryone then s.draft else None,
                      editing := Some(e.(sendEtag := now)));
      SendsSame(shown, sv.began, now, 1);
      if TitleHeld(s.held, e.(sendEtag := now)) {
        SendsTitles(shown, sv.began, now, 1);
      }
    }
  }

  lemma SendsSame(s: Section, began: Editing, etag: nat, tries: nat)
    ensures Sends(s, began, etag, tries).editing == s.editing && Sends(s, began, etag, tries).held == s.held
  {
  }

  lemma SavingIsOfTheEdit(s: Section)
    requires Sound(s) && s.saving.Some?
    ensures s.editing.Some?
  {
  }

  lemma PageTitles(s: Section, e: Event)
    requires Sound(s) && TitlesOk(s) && May(s, e) && (e.EStart? || e.EClose? || e.ERefresh? || e.EReload? || e.EOther?)
    ensures TitlesOk(Next(s, e))
  {
    EditAndWritesThere(s);
    match e
    case EStart => StartedTitle(s);
    case ERefresh(doc) => RefreshedTitle(s, doc);
    case EReload(doc) => ReloadedTitle(s, doc);
    case EOther(v) =>
      HeldMore(s.held, v);
      hide Sound, TitleHeld, TitleWriteOk;
    case _ =>
  }

  lemma StartedTitle(s: Section)
    requires TitlesOk(s) && s.doc < |s.held|
    ensures TitlesOk(Started(s))
  {
  }

  lemma RefreshedTitle(s: Section, doc: nat)
    requires TitlesOk(s) && doc < |s.held|
    ensures TitlesOk(Refreshed(s, doc))
  {
    hide TitleChanged;
  }

  lemma ReloadedTitle(s: Section, doc: nat)
    requires Sound(s) && TitlesOk(s) && doc < |s.held|
    ensures TitlesOk(Reloaded(s, doc))
  {
    hide Trim, WriteOk, PressesOk, SavingOk, EditOk;
  }

  lemma AnsweredTitles(s: Section, a: Answer)
    requires Sound(s) && TitlesOk(s) && MayAnswer(s, a) && a != Conflict(true)
    ensures TitlesOk(Answered(s, a))
  {
    hide Sound, TitleHeld, TitleWriteOk;
  }

  /** A step keeps every title seen before it is saved over, if and only if it is not one that leaves one unseen. */
  lemma TitlesKeptExactly(s: Section, e: Event)
    requires Sound(s) && TitlesOk(s) && May(s, e)
    ensures TitlesOk(Next(s, e)) <==> !LeavesTitleUnseen(s, e)
  {
    hide Sound, Wrote, Pressed, Reached, Answered, Started, Closed, Refreshed, Reloaded, MayAnswer, TitlesOk, TitleUnseen, ChangedMeanwhile;
    match e
    case EWrite(text, title, stored) => WroteTitles(s, text, title, stored);
    case ESave => PressedTitles(s);
    case EReach(w) => ReachedTitles(s, w);
    case EAnswer(a) =>
      if a == Conflict(true) {
        ConflictedTitles(s);
      } else {
        AnsweredTitles(s, a);
      }
    case _ => PageTitles(s, e);
  }

  /** A run no step of which leaves a title unseen. */
  ghost predicate TitlesSeen(s: Section, events: seq<Event>)
    decreases |events|
  {
    events == [] || (May(s, events[0]) && !LeavesTitleUnseen(s, events[0]) && TitlesSeen(Next(s, events[0]), events[1..]))
  }

  lemma {:induction false} TitlesRun(s: Section, events: seq<Event>, t: Section)
    requires Sound(s) && TitlesOk(s) && Run(s, events, t) && TitlesSeen(s, events)
    ensures Sound(t) && TitlesOk(t)
    decreases |events|
  {
    hide Sound, Next, May, TitlesOk, LeavesTitleUnseen;
    if events != [] {
      NextSound(s, events[0]);
      TitlesKeptExactly(s, events[0]);
      TitlesRun(Next(s, events[0]), events[1..], t);
    }
  }

  /**
   * Over every run none of whose steps leaves a title unseen: whenever a save is made that
   * changes the title, the one it replaced is the one the edit began from, or of a document
   * shown as theirs when Save was pressed.
   */
  lemma NoTitleReplacedUnseen(s: Section, events: seq<Event>, t: Section, i: nat)
    requires Begins(s) && Run(s, events, t) && TitlesSeen(s, events) && i < |t.writes| && t.writes[i].outcome.Made?
    ensures var w := t.writes[i];
      && 0 < w.outcome.etag < |t.held|
      && (w.title.Some? ==>
            t.held[w.outcome.etag - 1].title == BaseTitle(w.began.draft) || w.began.theirs == Some(w.outcome.etag - 1))
  {
    hide Run, TitlesSeen;
    BeginsSound(s);
    TitlesRun(s, events, t);
    assert t.writes[i] in t.writes;
  }

  // ------------------------------------------------------------- what it does not

  lemma {:induction false} RunMore(s: Section, events: seq<Event>, t: Section, e: Event)
    requires Run(s, events, t) && May(t, e)
    ensures Run(s, events + [e], Next(t, e))
    decreases |events|
  {
    hide May, Next;
    if events == [] {
      assert ([] + [e])[1..] == [];
    } else {
      assert (events + [e])[1..] == events[1..] + [e];
      RunMore(Next(s, events[0]), events[1..], t, e);
    }
  }

  /**
   * Found: a title typed after the page was refreshed is not held to the document again. From
   * any beginning: an edit started, the title changed by somebody else, the page refreshed,
   * a title typed and saved: theirs is replaced, neither begun from nor shown.
   */
  lemma TitleTypedAfterARefresh(s: Section, theirs: string, title: string) returns (events: seq<Event>, t: Section)
    requires Begins(s) && s.own && s.doc == |s.held| - 1
    requires theirs != s.held[s.doc].title && Trim(title) != Trim(s.held[s.doc].title)
    ensures Run(s, events, t) && |t.writes| == 1 && t.writes[0].outcome == Made(|s.held| + 1) && |t.held| == |s.held| + 2
    ensures t.held[|s.held|].title == theirs && t.held[|s.held| + 1].title == Trim(title)
    ensures t.writes[0].began.theirs.None? && BaseTitle(t.writes[0].began.draft) == s.held[s.doc].title
  {
    hide Trim, Begins, Run, Sound, TitlesOk, Next, TitleChanged;
    var before;
    events, before := RetitledMeanwhile(s, theirs);
    var e := EWrite(None, Some(title), true);
    BeginsIs(s);
    BaseTitled(before, title);
    t := TitledAndSaved(before, title);
    var c := Next(before, e);
    var f := Next(c, ESave);
    RunMore(s, events, before, e);
    RunMore(s, events + [e], c, ESave);
    RunMore(s, events + [e] + [ESave], f, EReach(0));
    events := events + [e] + [ESave] + [EReach(0)];
  }

  /** It is the title typed that is left unseen there: nothing before it was. */
  lemma ThereItIsUnseen(s: Section, theirs: string, title: string) returns (events: seq<Event>, t: Section)
    requires Begins(s) && s.own && s.doc == |s.held| - 1
    requires theirs != s.held[s.doc].title && Trim(title) != Trim(s.held[s.doc].title)
    ensures Run(s, events, t) && TitlesOk(t)
    ensures LeavesTitleUnseen(t, EWrite(None, Some(title), true))
  {
    hide Trim, Begins, Run, Sound, TitlesOk, Next, TitleChanged;
    events, t := RetitledMeanwhile(s, theirs);
    BeginsIs(s);
    BeforeIt(s, events, t);
    BaseTitled(t, title);
  }

  lemma BeginsIs(s: Section)
    requires Begins(s)
    ensures s.doc < |s.held| && s.writes == []
  {
  }

  /** An edit just started, and the page refreshed to a document with another title. */
  predicate JustRefreshed(s: Section, v: Version, theirs: string) {
    && |s.held| >= 2 && s.own && s.saving.None? && s.writes == [] && s.known == s.doc == |s.held| - 1
    && s.held[|s.held| - 1] == v.(title := theirs) && s.held[|s.held| - 2] == v
    && s.editing == Some(Editing(NoteDraft(v.words, v.words, |s.held| - 2, Some(v.title), Some(v.title)), |s.held| - 1, false, None, false))
  }

  lemma RetitledMeanwhile(s: Section, theirs: string) returns (events: seq<Event>, t: Section)
    requires Begins(s) && s.own && s.doc == |s.held| - 1
    ensures |events| == 3 && events[0] == EStart && events[1].EOther? && events[2].ERefresh? && Run(s, events, t)
    ensures JustRefreshed(t, s.held[s.doc], theirs) && |t.held| == |s.held| + 1
  {
    hide Trim, Run;
    var v := s.held[s.doc];
    var e := EOther(v.(title := theirs));
    var a := Next(s, EStart);
    var b := Next(a, e);
    t := Next(b, ERefresh(|s.held|));
    NoRun(s);
    RunMore(s, [], s, EStart);
    RunMore(s, [] + [EStart], a, e);
    RunMore(s, [] + [EStart] + [e], b, ERefresh(|s.held|));
    events := [] + [EStart] + [e] + [ERefresh(|s.held|)];
  }

  lemma NoRun(s: Section)
    ensures Run(s, [], s)
  {
  }

  lemma BaseTitled(s: Section, title: string)
    requires s.editing.Some? && s.editing.value.draft.baseTitle.Some? && s.own
    requires Trim(title) != Trim(s.editing.value.draft.baseTitle.value)
    ensures TitleChanged(Typed(s.own, s.editing.value.draft, None, Some(title)))
  {
  }

  /** The title typed, Save pressed, and its write made. */
  lemma TitledAndSaved(s: Section, title: string) returns (t: Section)
    requires s.editing.Some? && s.own && s.saving.None? && s.writes == [] && |s.held| > 0 && s.known < |s.held|
    requires s.editing.value.sendEtag == |s.held| - 1 && TitleChanged(Typed(s.own, s.editing.value.draft, None, Some(title)))
    ensures var e := EWrite(None, Some(title), true);
      && May(s, e) && May(Next(s, e), ESave) && May(Next(Next(s, e), ESave), EReach(0))
      && t == Next(Next(Next(s, e), ESave), EReach(0))
    ensures |t.writes| == 1 && t.writes[0].outcome == Made(|s.held|) && |t.held| == |s.held| + 1
    ensures t.held[..|s.held|] == s.held && t.held[|s.held|].title == Trim(title)
    ensures t.writes[0].began.theirs == s.editing.value.theirs && t.writes[0].began.draft.baseTitle == s.editing.value.draft.baseTitle
  {
    hide Trim, TitleChanged;
    t := Next(Next(Next(s, EWrite(None, Some(title), true)), ESave), EReach(0));
  }

  /** Up to there no title was left unseen. */
  lemma BeforeIt(s: Section, events: seq<Event>, t: Section)
    requires Begins(s) && Run(s, events, t) && |events| == 3 && events[0] == EStart && events[1].EOther? && events[2].ERefresh?
    ensures Sound(t) && TitlesOk(t)
  {
    BeginsSound(s);
    assert TitlesOk(s);
    var a := Next(s, events[0]);
    var b := Next(a, events[1]);
    assert Run(a, events[1..], t) && Run(b, events[1..][1..], t) && events[1..][1..][1..] == [];
    assert events[1..][0] == events[1] && events[1..][1..][0] == events[2];
    hide Sound, Next, LeavesTitleUnseen, TitlesOk;
    KeptBy(s, events[0]);
    KeptBy(a, events[1]);
    KeptBy(b, events[2]);
    assert t == Next(b, events[2]);
  }

  lemma KeptBy(s: Section, e: Event)
    requires Sound(s) && TitlesOk(s) && May(s, e) && (e.EStart? || e.EOther? || e.ERefresh?)
    ensures Sound(Next(s, e)) && TitlesOk(Next(s, e))
  {
    hide Sound, Next, TitlesOk, May;
    NextSound(s, e);
    TitlesKeptExactly(s, e);
  }

  /**
   * The editor closes on the save it made: what was typed while it was on its way, of the
   * note's words or its title, is neither saved nor kept. The document is what pressing Save
   * again would make it, if and only if nothing typed meanwhile would have been sent.
   */
  lemma TypedWhileSavingIsDropped(s: Section)
    requires Sound(s) && MayAnswer(s, Saved)
    ensures var t := Answered(s, Saved);
      var w := s.writes[s.saving.value.write];
      && t.editing.None? && t.draft.None? && 0 < t.doc < |t.held| && w.etag == t.doc - 1
      && (t.held[t.doc] == SavedAs(t.held[t.doc - 1], s.own, s.editing.value.draft)
          <==> && WordsSent(s.editing.value.draft) == WordsSent(w.began.draft)
               && TitleAfter(t.held[t.doc - 1], s.own, s.editing.value.draft) == TitleAfter(t.held[t.doc - 1], s.own, w.began.draft))
  {
    hide PressesOk, Trim, TitleChanged;
    assert s.writes[s.saving.value.write] in s.writes;
  }

  /** Reached from any beginning: one thing written and Save pressed, and another written before its answer. */
  lemma TypedWhileSavingIsReached(s: Section, first: string, second: string) returns (events: seq<Event>, t: Section)
    requires Begins(s) && s.doc == |s.held| - 1
    ensures Run(s, events, t) && MayAnswer(t, Saved) && t.editing.Some? && t.editing.value.draft.text == second
    ensures var u := Answered(t, Saved); u.editing.None? && |u.held| == |s.held| + 1 && u.held[|s.held|].words == Trim(first)
  {
    hide Trim, Run, TitleChanged;
    var w, x := EWrite(Some(first), None, true), EWrite(Some(second), None, true);
    var a := Next(s, EStart);
    var b := Next(a, w);
    var c := Next(b, ESave);
    var d := Next(c, EReach(0));
    t := Next(d, x);
    NoRun(s);
    RunMore(s, [], s, EStart);
    RunMore(s, [] + [EStart], a, w);
    RunMore(s, [] + [EStart] + [w], b, ESave);
    RunMore(s, [] + [EStart] + [w] + [ESave], c, EReach(0));
    RunMore(s, [] + [EStart] + [w] + [ESave] + [EReach(0)], d, x);
    events := [] + [EStart] + [w] + [ESave] + [EReach(0)] + [x];
  }

  function TitleAfter(was: Version, own: bool, d: NoteDraft): string {
    if TitleSent(own, d).Some? then TitleSent(own, d).value else was.title
  }

  /** A document saved over with this. */
  function SavedAs(was: Version, own: bool, d: NoteDraft): Version {
    Version(WordsSent(d), TitleAfter(was, own, d), was.forEveryone)
  }
}
