/**
 * The note's section itself: its state updated in place, a method for each thing done to it
 * and for each answer to a save, each proved to be its step.
 */
module NotesSection {
  import opened Text
  import opened NoteDrafts
  import opened Notes

  /** This person's draft of the note, the vault's document, and the writes sent to it. */
  datatype World = World(draft: Option<NoteDraft>, held: seq<Version>, writes: seq<Write>, presses: nat)

  class NotesSection {
    const own: bool
    var doc: nat
    var known: nat
    var editing: Option<Editing>
    var saving: Option<Saving>
    var problem: Problem
    var world: World

    function State(): Section
      reads this
    {
      Section(world.held, own, doc, known, editing, saving, problem, world.draft, world.writes, world.presses)
    }

    /** The section shown: a draft from before a reload opens the editor with it. */
    constructor (before: Section, doc: nat)
      requires Sound(before) && doc < |before.held|
      ensures State() == Reloaded(before, doc) && Sound(State())
      ensures before.draft.Some? && before.held[doc].forEveryone
        ==> editing.Some? && editing.value.draft == before.draft.value && editing.value.sendEtag == doc
      ensures before.draft.None? || !before.held[doc].forEveryone ==> editing.None? && world.draft.None?
    {
      own := before.own;
      this.doc, known := doc, doc;
      saving, problem := None, NoProblem;
      var draft := if before.held[doc].forEveryone then before.draft else None;
      editing := if draft.Some? then Some(FromDraft(before.held, doc, draft.value)) else None;
      world := World(draft, before.held, before.writes, before.presses);
      new;
      PageSound(before, EReload(doc));
    }

    method Start()
      requires Sound(State())
      modifies this`problem, this`editing
      ensures State() == Started(old(State())) && Sound(State())
    {
      PageSound(State(), EStart);
      if editing.Some? {
        return;
      }
      problem := NoProblem;
      var text := world.held[doc].words;
      var title := if own then Some(world.held[doc].title) else None;
      editing := Some(Editing(NoteDraft(text, text, doc, title, title), doc, false, None, false));
    }

    method Persist(d: NoteDraft, stored: bool)
      requires known < |world.held|
      modifies this`world
      ensures State() == Persisted(old(State()), d, stored)
    {
      if !world.held[known].forEveryone {
        world := world.(draft := None);
      } else if stored {
        var baseTitle := if d.title.None? then None else if d.baseTitle.None? then Some("") else d.baseTitle;
        world := world.(draft := Some(d.(baseTitle := baseTitle)));
      }
    }

    method Write(text: Option<string>, title: Option<string>, stored: bool)
      requires Sound(State())
      modifies this`editing, this`world
      ensures State() == Wrote(old(State()), text, title, stored) && Sound(State())
    {
      WroteSound(State(), text, title, stored);
      hide Sound, Persisted;
      assert known < |world.held| by {
        KnownHeld(State());
      }
      if editing.None? {
        return;
      }
      var d := editing.value.draft;
      if text.Some? {
        d := d.(text := text.value);
      }
      if title.Some? && own {
        d := d.(title := title);
      }
      editing := Some(editing.value.(draft := d, changed := true));
      Persist(d, stored);
    }

    static lemma KnownHeld(s: Section)
      requires Sound(s)
      ensures s.known < |s.held|
    {
    }

    method Close()
      modifies this`editing, this`problem, this`world
      ensures State() == Closed(old(State()))
    {
      world := world.(draft := None);
      editing := None;
      problem := NoProblem;
    }

    /** The page shows the document as it is now; no draft is kept of one no longer for everyone. */
    method Show(now: nat)
      requires now < |world.held|
      modifies this`doc, this`known, this`world
      ensures State() == old(State()).(doc := now, known := now,
                                       draft := if old(State()).held[now].forEveryone then old(State()).draft else None)
    {
      doc, known := now, now;
      if !world.held[now].forEveryone {
        world := world.(draft := None);
      }
    }

    method Refresh(now: nat)
      requires now < |world.held|
      modifies this`doc, this`known, this`editing, this`world
      ensures State() == Refreshed(old(State()), now)
    {
      Show(now);
      if editing.Some? && editing.value.sendEtag != now {
        var theirs := if ChangedMeanwhile(world.held[now], editing.value.draft) then Some(now) else editing.value.theirs;
        editing := Some(editing.value.(sendEtag := now, theirs := theirs));
      }
    }

    method Send(began: Editing, etag: nat, tries: nat)
      modifies this`world, this`saving
      ensures State() == Sends(old(State()), began, etag, tries)
    {
      var notes := Trim(began.draft.text);
      var title := if own && TitleChanged(began.draft) then Some(Trim(began.draft.title.value)) else None;
      saving := Some(Saving(began, |world.writes|, tries));
      world := world.(writes := world.writes + [Notes.Write(etag, notes, title, began, world.presses, Pending)]);
    }

    method Save()
      requires Sound(State())
      modifies this`world, this`saving, this`problem
      ensures State() == Pressed(old(State())) && Sound(State())
    {
      PressedSound(State());
      hide Sound, Sends;
      if editing.None? || saving.Some? {
        return;
      }
      problem := NoProblem;
      world := world.(presses := world.presses + 1);
      Send(editing.value, editing.value.sendEtag, 0);
    }

    /** A save refused: their note shown, or the save sent again, once, from the document as it is now. */
    method Conflict(now: nat)
      requires now < |world.held| && saving.Some?
      modifies this
      ensures State() == Conflicted(old(State()), now)
    {
      hide ChangedMeanwhile, Sends;
      var began, tries := saving.value.began, saving.value.tries;
      Show(now);
      if ChangedMeanwhile(world.held[now], began.draft) {
        if editing.Some? {
          editing := Some(editing.value.(sendEtag := now, theirs := Some(now)));
        }
        saving := None;
        return;
      }
      if editing.Some? {
        editing := Some(editing.value.(sendEtag := now));
      }
      if tries == 0 {
        Send(began, now, 1);
      } else {
        saving := None;
        problem := ChangedAgain;
      }
    }

    method Answer(a: Notes.Answer)
      requires Sound(State()) && MayAnswer(State(), a)
      modifies this
      ensures State() == Answered(old(State()), a) && Sound(State())
    {
      AnsweredSound(State(), a);
      hide Sound, Conflicted;
      var outcome := world.writes[saving.value.write].outcome;
      match a
      case Saved =>
        Close();
        saving := None;
        doc, known := outcome.etag, outcome.etag;
      case Nothing => saving := None;
      case Conflict(readable) =>
        if readable {
          Conflict(outcome.now);
        } else {
          saving, problem := None, Unreadable;
        }
      case Other => saving, problem := None, Failed;
    }
  }
}
