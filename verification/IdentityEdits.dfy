/**
 * What is done in the form, in the vault once it is saved: what an entry's fields, its mark of
 * hidden and its document are stored as, and just which entries are stored at all.
 */
module IdentityEdits {
  import opened Text
  import opened IdentityVault
  import opened IdentityDraft
  import opened IdentityParts
  import opened IdentityReading
  import opened IdentitySave
  import opened IdentityWhole
  import opened IdentityStopped
  import opened IdentityValues
  import opened IdentityFrame
  import opened IdentityForm

  // ------------------------------------------------------------- its fields

  predicate Says(e: DraftEntry, k: string) {
    k in e.f && Some(k) != SecretKey(e.list) && Trim(e.f[k]) != ""
  }

  /**
   * A stored entry's fields, from those of the form: each that says anything, trimmed, a country
   * in capitals; and an ID's kind and a custom field's label, when there are none, as they go by.
   */
  ghost predicate FieldsAsTyped(e: DraftEntry, f: map<string, string>) {
    && (forall k :: Says(e, k) ==> k in f && f[k] == if k == "country" then Upper(Trim(e.f[k])) else Trim(e.f[k]))
    && (forall k :: k in f && !Says(e, k) ==>
          (e.list == Ids && k == "kind" && f[k] == "other") || (e.list == Custom && k == "label" && f[k] == "Detail"))
    && (e.list == Ids ==> "kind" in f) && (e.list == Custom ==> "label" in f)
  }

  lemma SentFieldsAre(e: DraftEntry, p: PartName)
    requires EntryOut(e, p).Some?
    ensures FieldsAsTyped(e, EntryOut(e, p).value.f)
  {
    hide SecretOut, DocOut, Trim, Upper;
  }

  // ------------------------------------------------------------- hidden, and its document

  /** Its value left as the part has it: not sent; or cleared, in a part that is not written. */
  predicate KeepsOld(m: Made, d: Draft, e: DraftEntry)
    requires EntryOut(e, PartFor(e.onlyMe)).Some?
  {
    var s := EntryOut(e, PartFor(e.onlyMe)).value.secret;
    s.Left? || (s.Cleared? && !PartSent(m, d, PartFor(e.onlyMe)))
  }

  /** Stored hidden: as the form has it, or with a value left that is hidden there. */
  predicate HiddenRight(m: Made, d: Draft, e: DraftEntry, hidden: bool)
    requires EntryOut(e, PartFor(e.onlyMe)).Some?
  {
    var was := At(m.vault, PartFor(e.onlyMe), e.list, e.id);
    hidden <==> e.list == Custom && (e.hidden || (KeepsOld(m, d, e) && was.Some? && IsMasked(Custom, was.value)))
  }

  /**
   * An ID's document: one its part has that the editor may not see stays; else it is the one the
   * form links it to; with none there, it goes if the form had one, in a part written and not
   * moved to, and else is what the part has.
   */
  predicate DocRight(m: Made, d: Draft, visible: set<string>, e: DraftEntry, doc: Option<string>) {
    var q := PartFor(e.onlyMe);
    var there := At(m.vault, q, e.list, e.id);
    var was := if there.Some? then there.value.doc else None;
    if was.Some? && was.value !in visible then doc == was
    else if e.docId.Some? then doc == e.docId
    else if e.linkedBefore.Some? && (e.from == None || e.from == Some(q)) && PartSent(m, d, q) then doc == None
    else doc == was
  }

  lemma MergedHidden(m: Made, d: Draft, visible: set<string>, e: DraftEntry)
    requires EntryOut(e, PartFor(e.onlyMe)).Some? && PartSent(m, d, PartFor(e.onlyMe))
    ensures var q := PartFor(e.onlyMe);
      HiddenRight(m, d, e, MergeEntry(e.list, At(m.vault, q, e.list, e.id), EntryOut(e, q).value, visible).hidden)
  {
    hide PartSent, FieldsOut, SecretOut, DocOut, Find;
  }

  lemma MergedDocument(m: Made, d: Draft, visible: set<string>, e: DraftEntry)
    requires EntryOut(e, PartFor(e.onlyMe)).Some? && PartSent(m, d, PartFor(e.onlyMe)) && e.list == Ids
    ensures var q := PartFor(e.onlyMe);
      DocRight(m, d, visible, e, MergeEntry(e.list, At(m.vault, q, e.list, e.id), EntryOut(e, q).value, visible).doc)
  {
    hide PartSent, FieldsOut, SecretOut, Find;
  }

  /** A part not written: what it has is what was last written there, which this sends again, by canon. */
  lemma UnsentIs(e: DraftEntry, m: Made, d: Draft, visible: set<string>, st: Entry, last: SentEntry)
    requires EntryOut(e, PartFor(e.onlyMe)).Some? && !PartSent(m, d, PartFor(e.onlyMe))
    requires At(m.vault, PartFor(e.onlyMe), e.list, e.id) == Some(st)
    requires MergeEntry(e.list, Some(st), last, visible) == st && Canon(last) == Canon(EntryOut(e, PartFor(e.onlyMe)).value)
    ensures HiddenRight(m, d, e, st.hidden)
    ensures e.list == Ids ==> DocRight(m, d, visible, e, st.doc)
  {
    hide PartSent, FieldsOut, SecretOut, Find;
  }

  /**
   * Over any state a save may begin in: an entry the form sends is stored, when the save is
   * finished, with the fields it has there, hidden if it is, and with the document it is linked to.
   */
  lemma FormIsStored(m: Made, d: Draft, visible: set<string>, e: DraftEntry)
    requires Apart(d.entries) && Agrees(m, visible) && Ends(d, e)
    ensures var now := At(Saved(m, d, visible), PartFor(e.onlyMe), e.list, e.id);
      && now.Some? && FieldsAsTyped(e, now.value.f) && HiddenRight(m, d, e, now.value.hidden)
      && (e.list == Ids ==> DocRight(m, d, visible, e, now.value.doc))
  {
    hide BuildPart, FindSent, Find, Agrees, Apart, EntryOut, TakenOver, Saved, MergeEntry, PartSent, LastOf, Canon, FieldsAsTyped,
      HiddenRight, DocRight;
    var q := PartFor(e.onlyMe);
    SavedOf(m, d, visible, e);
    SavedFields(m, d, visible, e);
    SentFieldsAre(e, q);
    if PartSent(m, d, q) {
      MergedHidden(m, d, visible, e);
      if e.list == Ids {
        MergedDocument(m, d, visible, e);
      }
    } else {
      LastSent(m, d, e);
      AgreesAt(m, visible, q, e.list, e.id);
      NotSentAgrees(m, d, q, e.list, e.id);
      UnsentIs(e, m, d, visible, At(m.vault, q, e.list, e.id).value, FindSent(m.last.Of(q).lists.Of(e.list), e.id).value);
    }
  }

  // ------------------------------------------------------------- which are stored

  /** Whether an entry holds anything of its own: a field but its kind or label, a value, or a document. */
  ghost predicate Holds(e: DraftEntry) {
    || (exists k :: Says(e, k) && k != "label" && !(e.list == Ids && k == "kind"))
    || (SecretKey(e.list).Some? && Typed(e) != "") || e.docId.Some?
  }

  /** An entry is sent when it holds anything; and an ID or a custom field read from the vault always is. */
  lemma SentWhen(e: DraftEntry, p: PartName)
    requires e.masked ==> e.from.Some? && !IsContact(e.list)
    ensures EntryOut(e, p).Some? <==> Holds(e) || (!IsContact(e.list) && e.from.Some?)
  {
    if !e.masked {
      SecretWhen(e, e.from.Some? && e.from.value != p);
    }
    hide SecretOut, Typed, Trim;
    assert forall k :: k in FieldsOut(e) <==> Says(e, k);
  }

  lemma SecretWhen(e: DraftEntry, moved: bool)
    requires !e.masked
    ensures SecretOut(e, moved).Given? <==> SecretKey(e.list).Some? && Typed(e) != ""
  {
  }

  /** A finished save has an entry in its part just when the form sends it, left over or not. */
  lemma StoredWhenSent(m: Made, d: Draft, visible: set<string>, e: DraftEntry)
    requires Apart(d.entries) && Agrees(m, visible) && e in d.entries && !TakenOver(d, e)
    ensures At(Saved(m, d, visible), PartFor(e.onlyMe), e.list, e.id).Some? <==> EntryOut(e, PartFor(e.onlyMe)).Some?
  {
    hide BuildPart, FindSent, Find, Agrees, Apart, EntryOut, TakenOver, Saved, Holding, NoChange, BothWays;
    SentIsStored(m, d, visible, PartFor(e.onlyMe), e.list, e.id);
    FindBuilt(d, e);
    if e.onlyMe {
      assert InPart(d, OnlyMe, e.list, e.id);
      HeldAgrees(d, e.list, e.id);
    }
  }

  /** What no entry of the draft has, no part has after a finished save; nor the part none of it is in, or was held in. */
  lemma NotInTheForm(m: Made, d: Draft, visible: set<string>, p: PartName, l: ListName, id: string)
    requires Apart(d.entries) && Agrees(m, visible)
    requires forall x :: x in d.entries && x.list == l && x.id == id ==> PartFor(x.onlyMe) != p && !EntryMovesInto(x, Shared)
    ensures At(Saved(m, d, visible), p, l, id).None?
  {
    hide BuildPart, FindSent, Find, Agrees, Apart, Saved, Holding, NoChange, BothWays, EntryMovesInto;
    SentIsStored(m, d, visible, p, l, id);
    FindNotBuilt(d, p, l, id);
    if p == OnlyMe {
      HeldNone(d, l, id);
    }
  }

  // ------------------------------------------------------------- the check before a save

  /** The check refuses just the drafts of which a save would lose a masked value: one moved, and left out of the part it moves to. */
  lemma UnshownIsWhatIsLost(d: Draft)
    requires forall e :: e in d.entries ==> (e.shownInField ==> e.known.Some?) && (e.masked ==> SecretKey(e.list).Some?)
    ensures MovedUnshown(d) <==>
      exists e :: e in d.entries && e.masked && e.from.Some? && e.from.value != PartFor(e.onlyMe)
                  && EntryOut(e, PartFor(e.onlyMe)).Some? && EntryOut(e, PartFor(e.onlyMe)).value.secret.Left? && !IsContact(e.list)
  {
    forall e | e in d.entries && e.masked && e.from.Some? && e.from.value != PartFor(e.onlyMe)
      ensures EntryOut(e, PartFor(e.onlyMe)).Some? && !IsContact(e.list)
      ensures MovedUnshownEntry(e) <==> EntryOut(e, PartFor(e.onlyMe)).value.secret.Left?
    {
      MovedSecret(e);
    }
    hide EntryOut;
  }

  lemma MovedSecret(e: DraftEntry)
    requires e.masked && e.from.Some? && e.from.value != PartFor(e.onlyMe) && SecretKey(e.list).Some? && (e.shownInField ==> e.known.Some?)
    ensures EntryOut(e, PartFor(e.onlyMe)).Some? && !IsContact(e.list)
    ensures MovedUnshownEntry(e) <==> EntryOut(e, PartFor(e.onlyMe)).value.secret.Left?
  {
    hide FieldsOut, Trim;
  }

  // ------------------------------------------------------------- over runs of the form

  /** An entry, as a finished save leaves it in its part: there just when it holds anything, or was read and is no contact; and then as the form has it. */
  ghost predicate StoredAsInForm(m: Made, d: Draft, visible: set<string>, c: DraftEntry) {
    var now := At(Saved(m, d, visible), PartFor(c.onlyMe), c.list, c.id);
    && (now.Some? <==> Holds(c) || (!IsContact(c.list) && c.from.Some?))
    && (now.Some? ==>
          && EntryOut(c, PartFor(c.onlyMe)).Some? && FieldsAsTyped(c, now.value.f) && HiddenRight(m, d, c, now.value.hidden)
          && (c.list == Ids ==> DocRight(m, d, visible, c, now.value.doc)))
  }

  lemma InFormIsStored(s: Session, who: Editor, c: DraftEntry)
    requires Kept(s, who) && c in s.draft.entries && !TakenOver(s.draft, c)
    ensures StoredAsInForm(s.made, s.draft, who.visible, c)
  {
    KeptApart(s, who);
    MaskedWasRead(s, who, c);
    hide Agrees, WellKept, AllKnownAsRead, Start, DraftOk, Find, EntryOut, TakenOver, Saved, Apart, FieldsAsTyped, HiddenRight, DocRight, Holds;
    StoredWhenSent(s.made, s.draft, who.visible, c);
    SentWhen(c, PartFor(c.onlyMe));
    if EntryOut(c, PartFor(c.onlyMe)).Some? {
      FormIsStored(s.made, s.draft, who.visible, c);
    }
  }

  lemma MaskedWasRead(s: Session, who: Editor, c: DraftEntry)
    requires Kept(s, who) && c in s.draft.entries
    ensures c.masked ==> c.from.Some? && !IsContact(c.list)
  {
    hide Agrees, AllKnownAsRead, Start, TextsOk, Apart, WellKept;
    assert EntryOk(s.read, who.visible, c);
  }

  /**
   * Whatever is done in the form, over every run of it, its refused saves with it: only what it
   * is of changes, as it says; and the save then made, finished, stores every entry of the form
   * not taken over by one moved in, with what it has there.
   */
  lemma DoneIsStored(v: Vault, who: Editor, events: seq<Event>, t: Session, op: Op, c: DraftEntry)
    requires WellKept(v) && Run(Opened(v, who), who, events, t) && May(t, Does(op))
    requires var u := Next(t, who, Does(op)); c in u.draft.entries && !TakenOver(u.draft, c)
    ensures var u := Next(t, who, Does(op));
      && u.made == t.made && Leaves(t.draft, op, u.draft) && StoredAsInForm(u.made, u.draft, who.visible, c)
  {
    hide WellKept, Run, Kept, Leaves, Done, StoredAsInForm, MayDo;
    EditKept(v, who, events, t);
    NextKept(t, who, Does(op));
    DoneLeaves(t.draft, op);
    InFormIsStored(Next(t, who, Does(op)), who, c);
  }

  /**
   * A field typed, over every run: its entry reads it, every other field, entry and text is as it
   * was; and if it is not the one that can be masked, the save then made, finished, stores it
   * trimmed, a country in capitals, or has no such field if nothing is left of it.
   */
  lemma TypedFieldIsStored(v: Vault, who: Editor, events: seq<Event>, t: Session, e: DraftEntry, k: string, text: string)
    requires WellKept(v) && Run(Opened(v, who), who, events, t) && e in t.draft.entries
    requires May(t, Does(TypeIn(e.uid, k, text)))
    ensures var c := e.(f := e.f[k := text]);
      var d := Next(t, who, Does(TypeIn(e.uid, k, text))).draft;
      && c in d.entries && d.texts == t.draft.texts && |d.entries| == |t.draft.entries|
      && (forall i :: 0 <= i < |d.entries| && t.draft.entries[i] != e ==> d.entries[i] == t.draft.entries[i])
      && (Some(k) != SecretKey(e.list) && !TakenOver(d, c)
          && (Holds(c) || (!IsContact(e.list) && e.from.Some?)) ==>
            var now := At(Saved(t.made, d, who.visible), PartFor(e.onlyMe), e.list, e.id);
            now.Some? && FieldStored(e.list, now.value.f, k, text))
  {
    var op := TypeIn(e.uid, k, text);
    var c := e.(f := e.f[k := text]);
    DoesOf(t, who, op);
    hide WellKept, Run, Kept, Done, StoredAsInForm, Holds, Apart, TakenOver, EntryOut, Saved, Find, Next, May, FieldStored, Leaves;
    var d := Done(t.draft, op);
    EditKept(v, who, events, t);
    KeptApart(t, who);
    TypedInDraft(t.draft, e, k, text);
    if !TakenOver(d, c) {
      DoneIsStored(v, who, events, t, op, c);
      if Some(k) != SecretKey(e.list) && (Holds(c) || (!IsContact(e.list) && e.from.Some?)) {
        StoredFieldOf(t.made, d, who.visible, c, k);
      }
    }
  }

  lemma DoesOf(t: Session, who: Editor, op: Op)
    ensures op.TypeIn? || op.Remove? || op.Unlink? ==> May(t, Does(op))
    ensures May(t, Does(op)) ==> Next(t, who, Does(op)) == t.(draft := Done(t.draft, op))
  {
    hide Done;
  }

  /** A field typed, stored: trimmed, a country in capitals; or not at all, if nothing is left of it, but for what an ID's kind or a custom field's label goes by then. */
  ghost predicate FieldStored(l: ListName, f: map<string, string>, k: string, text: string) {
    if Trim(text) != "" then k in f && f[k] == if k == "country" then Upper(Trim(text)) else Trim(text)
    else k in f ==> (l == Ids && k == "kind" && f[k] == "other") || (l == Custom && k == "label" && f[k] == "Detail")
  }

  lemma TypedInDraft(d: Draft, e: DraftEntry, k: string, text: string)
    requires Apart(d.entries) && e in d.entries
    ensures var t := Done(d, TypeIn(e.uid, k, text));
      && e.(f := e.f[k := text]) in t.entries && t.texts == d.texts && |t.entries| == |d.entries|
      && (forall i :: 0 <= i < |d.entries| && d.entries[i] != e ==> t.entries[i] == d.entries[i])
  {
    var t := Done(d, TypeIn(e.uid, k, text));
    var i :| 0 <= i < |d.entries| && d.entries[i] == e;
    assert t.entries[i] == e.(f := e.f[k := text]);
    hide ChangeEntry;
    forall j | 0 <= j < |d.entries| && d.entries[j] != e
      ensures t.entries[j] == d.entries[j]
    {
      assert d.entries[j].uid != d.entries[i].uid;
    }
  }

  lemma StoredFieldOf(m: Made, d: Draft, visible: set<string>, c: DraftEntry, k: string)
    requires StoredAsInForm(m, d, visible, c) && k in c.f && Some(k) != SecretKey(c.list)
    requires Holds(c) || (!IsContact(c.list) && c.from.Some?)
    ensures var now := At(Saved(m, d, visible), PartFor(c.onlyMe), c.list, c.id);
      now.Some? && FieldStored(c.list, now.value.f, k, c.f[k])
  {
    hide Saved, Find, EntryOut, Holds, Trim, Upper, HiddenRight, DocRight;
  }

  /**
   * An entry added, over every run: it is last in the form; and the save then made, finished, has
   * it in its part, with what it holds, just when it holds anything, and in the other part never.
   */
  lemma AddedIsStored(v: Vault, who: Editor, events: seq<Event>, t: Session, e: DraftEntry)
    requires WellKept(v) && Run(Opened(v, who), who, events, t) && May(t, Does(Add(e)))
    ensures var d := Next(t, who, Does(Add(e))).draft;
      var now := At(Saved(t.made, d, who.visible), PartFor(e.onlyMe), e.list, e.id);
      && d == t.draft.(entries := t.draft.entries + [e])
      && At(Saved(t.made, d, who.visible), Other(PartFor(e.onlyMe)), e.list, e.id).None?
      && (now.Some? <==> Holds(e))
      && (now.Some? ==>
            && FieldsAsTyped(e, now.value.f) && now.value.doc == e.docId && (now.value.hidden <==> e.list == Custom && e.hidden)
            && now.value.secret == (if SecretKey(e.list).Some? && Typed(e) != "" then Some(Typed(e)) else None))
  {
    hide WellKept, Run, Kept, Agrees, Apart, Saved, Find, EntryOut, Holds, FieldsAsTyped, HiddenRight, DocRight;
    var u := Next(t, who, Does(Add(e)));
    EditKept(v, who, events, t);
    NextKept(t, who, Does(Add(e)));
    KeptApart(u, who);
    KeptAgrees(u, who);
    AddedAlone(t, e);
    InFormIsStored(u, who, e);
    NotInTheForm(u.made, u.draft, who.visible, Other(PartFor(e.onlyMe)), e.list, e.id);
    if EntryOut(e, PartFor(e.onlyMe)).Some? {
      SavedOf(u.made, u.draft, who.visible, e);
      NewEntryMerges(e, who.visible);
    }
  }

  lemma KeptAgrees(s: Session, who: Editor)
    requires Kept(s, who)
    ensures Agrees(s.made, who.visible)
  {
    hide Agrees, WellKept, AllKnownAsRead, Start, DraftOk;
  }

  lemma AddedAlone(t: Session, e: DraftEntry)
    requires NewEntry(t, e)
    ensures var d := t.draft.(entries := t.draft.entries + [e]);
      && e in d.entries && !TakenOver(d, e) && Done(t.draft, Add(e)) == d
      && forall x :: x in d.entries && x.list == e.list && x.id == e.id ==> x == e && !EntryMovesInto(x, Shared)
    ensures forall p: PartName :: At(t.made.vault, p, e.list, e.id).None?
  {
    hide Find;
  }

  /** A new entry is stored as it is sent. */
  lemma NewEntryMerges(e: DraftEntry, visible: set<string>)
    requires e.from.None? && !e.masked && e.linkedBefore.None? && (e.list != Ids ==> e.docId.None?) && EntryOut(e, PartFor(e.onlyMe)).Some?
    ensures var x := MergeEntry(e.list, None, EntryOut(e, PartFor(e.onlyMe)).value, visible);
      && x.doc == e.docId && (x.hidden <==> e.list == Custom && e.hidden)
      && x.secret == (if SecretKey(e.list).Some? && Typed(e) != "" then Some(Typed(e)) else None)
  {
    hide FieldsOut;
  }

  /** An entry removed, the only one of its id, over every run: no other is touched; and the save then made, finished, leaves it in neither part. */
  lemma RemovedIsGone(v: Vault, who: Editor, events: seq<Event>, t: Session, e: DraftEntry)
    requires WellKept(v) && Run(Opened(v, who), who, events, t) && e in t.draft.entries && Alone(t.draft, e)
    requires May(t, Does(Remove(e.uid)))
    ensures var d := Next(t, who, Does(Remove(e.uid))).draft;
      && d.texts == t.draft.texts && (forall x :: x in d.entries <==> x in t.draft.entries && x != e)
      && forall p: PartName :: At(Saved(t.made, d, who.visible), p, e.list, e.id).None?
  {
    var op := Remove(e.uid);
    DoesOf(t, who, op);
    EditKept(v, who, events, t);
    KeptApart(t, who);
    RemovedFromDraft(t.draft, e);
    hide WellKept, Run, Kept, Agrees, Apart, Saved, Find, Next, May, Done, MayDo, Alone;
    assert May(t, Does(op));
    var d := Done(t.draft, op);
    NextKept(t, who, Does(op));
    KeptApart(Next(t, who, Does(op)), who);
    KeptAgrees(t, who);
    forall p: PartName
      ensures At(Saved(t.made, d, who.visible), p, e.list, e.id).None?
    {
      NotInTheForm(t.made, d, who.visible, p, e.list, e.id);
    }
  }

  lemma RemovedFromDraft(d: Draft, e: DraftEntry)
    requires Apart(d.entries) && e in d.entries && Alone(d, e)
    ensures var t := Done(d, Remove(e.uid));
      && t.texts == d.texts && (forall x :: x in t.entries <==> x in d.entries && x != e)
      && forall x :: x in t.entries ==> x.list != e.list || x.id != e.id
  {
    hide Among;
    DoneLeaves(d, Remove(e.uid));
    OneOfUid(d.entries, e);
  }

  lemma OneOfUid(entries: seq<DraftEntry>, e: DraftEntry)
    requires Apart(entries) && e in entries
    ensures forall x :: x in entries ==> (x.uid == e.uid <==> x == e)
  {
  }

  /** An ID linked to a document, over every run: the save then made, finished, stores the link, unless its part has one the editor may not see. */
  lemma LinkIsStored(
    v: Vault, who: Editor, events: seq<Event>, t: Session, e: DraftEntry, doc: string, fills: map<string, string>)
    requires WellKept(v) && Run(Opened(v, who), who, events, t) && e in t.draft.entries && e.list == Ids && e.docId.None?
    requires May(t, Does(Link(e.uid, doc, fills)))
    ensures var c := e.(docId := Some(doc), f := e.f + fills);
      var d := Next(t, who, Does(Link(e.uid, doc, fills))).draft;
      && c in d.entries && (!TakenOver(d, c) ==> LinkedTo(t.made, d, who.visible, c))
  {
    var op := Link(e.uid, doc, fills);
    var c := e.(docId := Some(doc), f := e.f + fills);
    EditKept(v, who, events, t);
    KeptApart(t, who);
    DoesOf(t, who, op);
    LinkedInDraft(t.draft, e, doc, fills);
    hide WellKept, Run, Kept, Agrees, Apart, Saved, Find, TakenOver, EntryOut, Done, Next, May, StoredAsInForm, Leaves, LinkedTo;
    var d := Done(t.draft, op);
    if !TakenOver(d, c) {
      DoneIsStored(v, who, events, t, op, c);
      LinkedDoc(t.made, d, who.visible, c);
    }
  }

  /** Stored with its document, unless its part has a link there the editor may not see. */
  predicate LinkedTo(m: Made, d: Draft, visible: set<string>, c: DraftEntry) {
    var there := At(m.vault, PartFor(c.onlyMe), Ids, c.id);
    var seen := there.None? || there.value.doc.None? || there.value.doc.value in visible;
    var now := At(Saved(m, d, visible), PartFor(c.onlyMe), Ids, c.id);
    now.Some? && now.value.doc == if seen then c.docId else there.value.doc
  }

  lemma LinkedInDraft(d: Draft, e: DraftEntry, doc: string, fills: map<string, string>)
    requires Apart(d.entries) && e in d.entries && e.docId.None?
    ensures e.(docId := Some(doc), f := e.f + fills) in Done(d, Link(e.uid, doc, fills)).entries
  {
    var i :| 0 <= i < |d.entries| && d.entries[i] == e;
    assert Done(d, Link(e.uid, doc, fills)).entries[i] == e.(docId := Some(doc), f := e.f + fills);
  }

  lemma LinkedDoc(m: Made, d: Draft, visible: set<string>, c: DraftEntry)
    requires StoredAsInForm(m, d, visible, c) && c.list == Ids && c.docId.Some?
    ensures LinkedTo(m, d, visible, c)
  {
    hide Saved, Find, EntryOut, FieldsAsTyped, HiddenRight, PartSent;
  }

  /** No longer stored, a link the editor may see, if the form had it there and the part is written; else as the part has it. */
  predicate Unlinked(m: Made, d: Draft, visible: set<string>, e: DraftEntry) {
    var q := PartFor(e.onlyMe);
    var there := At(m.vault, q, Ids, e.id);
    var was := if there.Some? then there.value.doc else None;
    var now := At(Saved(m, d, visible), q, Ids, e.id);
    now.Some? &&
    now.value.doc == (if was.Some? && was.value in visible && e.linkedBefore.Some? && e.from == Some(q) && PartSent(m, d, q) then None else was)
  }

  lemma UnlinkedDoc(m: Made, d: Draft, visible: set<string>, c: DraftEntry)
    requires StoredAsInForm(m, d, visible, c) && c.list == Ids && c.docId.None? && c.from.Some?
    ensures Unlinked(m, d, visible, c)
  {
    hide Saved, Find, EntryOut, FieldsAsTyped, HiddenRight, PartSent, Holds;
  }

  /** A link taken off: a document the editor may see is no longer linked once its part is written, unless the ID is moved. */
  lemma UnlinkIsStored(v: Vault, who: Editor, events: seq<Event>, t: Session, e: DraftEntry)
    requires WellKept(v) && Run(Opened(v, who), who, events, t) && e in t.draft.entries && e.list == Ids && e.from.Some?
    requires May(t, Does(Unlink(e.uid)))
    ensures var c := e.(docId := None);
      var d := Next(t, who, Does(Unlink(e.uid))).draft;
      c in d.entries && (!TakenOver(d, c) ==> Unlinked(t.made, d, who.visible, c))
  {
    var op := Unlink(e.uid);
    var c := e.(docId := None);
    DoesOf(t, who, op);
    EditKept(v, who, events, t);
    KeptApart(t, who);
    UnlinkedInDraft(t.draft, e);
    hide WellKept, Run, Kept, Agrees, Apart, Saved, Find, TakenOver, Next, May, Done, Leaves, StoredAsInForm, Unlinked;
    if !TakenOver(Done(t.draft, op), c) {
      DoneIsStored(v, who, events, t, op, c);
      UnlinkedDoc(t.made, Done(t.draft, op), who.visible, c);
    }
  }

  lemma UnlinkedInDraft(d: Draft, e: DraftEntry)
    requires Apart(d.entries) && e in d.entries
    ensures e.(docId := None) in Done(d, Unlink(e.uid)).entries
  {
    var i :| 0 <= i < |d.entries| && d.entries[i] == e;
    assert Done(d, Unlink(e.uid)).entries[i] == e.(docId := None);
  }

  // ------------------------------------------------------------- texts

  /** What a text is stored as: none, if blank or of no codes; the codes, in capitals; a country in capitals; else trimmed. */
  predicate TextAsTyped(k: TextKey, value: string, now: Option<TextValue>) {
    if Trim(value) == "" then now.None?
    else if k == Nationalities then now == if Codes(value) == [] then None else Some(CodeList(Codes(value)))
    else now == Some(Words(if k == CountryOfBirth then Upper(Trim(value)) else Trim(value)))
  }

  /** A text typed, or moved, over every run: the save then made, finished, stores it so in its part; and in the other nothing, if it is alone of its key and nothing is left over. */
  lemma TextIsStored(v: Vault, who: Editor, events: seq<Event>, t: Session, op: Op, x: DraftText)
    requires WellKept(v) && Run(Opened(v, who), who, events, t) && May(t, Does(op)) && x in Next(t, who, Does(op)).draft.texts
    ensures var d := Next(t, who, Does(op)).draft;
      && TextAsTyped(x.key, x.value, TextAt(Saved(t.made, d, who.visible), PartFor(x.onlyMe), x.key))
      && (AloneText(d, x) && !LeftOver(t.made, d) ==> TextAt(Saved(t.made, d, who.visible), Other(PartFor(x.onlyMe)), x.key).None?)
  {
    hide WellKept, Run, Kept, Agrees, Saved, Done, TextAt, TextOut, Codes, LeftOver, MayDo, TextAsTyped;
    var u := Next(t, who, Does(op));
    EditKept(v, who, events, t);
    NextKept(t, who, Does(op));
    KeptApart(u, who);
    KeptAgrees(u, who);
    TextEnds(u.made, u.draft, who.visible, x);
    TextOutIs(x.key, x.value);
    if AloneText(u.draft, x) && !LeftOver(u.made, u.draft) {
      SavedTexts(u.made, u.draft, who.visible, Other(PartFor(x.onlyMe)), x.key);
      NoTextBuilt(u.draft.texts, Other(PartFor(x.onlyMe)), x.key);
    }
  }

  lemma TextOutIs(k: TextKey, value: string)
    ensures TextAsTyped(k, value, TextOut(k, value))
  {
  }
}
