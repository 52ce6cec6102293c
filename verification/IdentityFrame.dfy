/** What a save leaves alone, what it misses, and that it leaves a record fit to be edited again. */
module IdentityFrame {
  import opened Text
  import opened IdentityVault
  import opened IdentityDraft
  import opened IdentityParts
  import opened IdentityReading
  import opened IdentitySave
  import opened IdentityWhole
  import opened IdentityStopped
  import opened IdentityValues

  // ------------------------------------------------------------- changing one changes no other

  /** An entry the editor left as the vault has it is stored as it was, whatever else the save changes. */
  lemma LeftAloneIsKept(m: Made, d: Draft, visible: set<string>, e: DraftEntry)
    requires Apart(d.entries) && Agrees(m, visible) && e in d.entries && !TakenOver(d, e)
    requires var q := PartFor(e.onlyMe);
      && At(m.vault, q, e.list, e.id).Some? && NormalEntry(e.list, At(m.vault, q, e.list, e.id).value)
      && Unedited(e.list, At(m.vault, q, e.list, e.id).value, q, visible, e)
    ensures At(Saved(m, d, visible), PartFor(e.onlyMe), e.list, e.id) == At(m.vault, PartFor(e.onlyMe), e.list, e.id)
    ensures Alone(d, e) && !LeftOver(m, d) ==> At(Saved(m, d, visible), Other(PartFor(e.onlyMe)), e.list, e.id).None?
  {
    var q := PartFor(e.onlyMe);
    UneditedIsKept(e.list, At(m.vault, q, e.list, e.id).value, q, visible, e);
    hide Saved, Find, EntryOut, MergeEntry, PartSent, NormalEntry, Unedited, Apart, TakenOver, Agrees, LeftOver;
    SavedOf(m, d, visible, e);
    if Alone(d, e) && !LeftOver(m, d) {
      StoredOnce(m, d, visible, e);
    }
  }

  /** And so is a field of one value. */
  lemma TextLeftAloneIsKept(m: Made, d: Draft, visible: set<string>, t: DraftText)
    requires Agrees(m, visible) && TwinsStay(d.texts) && t in d.texts
    requires var was := TextAt(m.vault, PartFor(t.onlyMe), t.key);
      was.Some? && NormalText(t.key, was.value) && t.value == FieldValue(was.value)
    ensures TextAt(Saved(m, d, visible), PartFor(t.onlyMe), t.key) == TextAt(m.vault, PartFor(t.onlyMe), t.key)
  {
    NormalTextOut(t.key, TextAt(m.vault, PartFor(t.onlyMe), t.key).value);
    TextEnds(m, d, visible, t);
  }

  // ------------------------------------------------------------- found: what a save misses

  /** A value not masked, as the form has it: what is typed, or none. */
  function FormValue(e: DraftEntry): Option<string> {
    if Typed(e) == "" then None else Some(Typed(e))
  }

  /**
   * Found: a value that is not masked, emptied in the form, is left out of the write, and
   * the vault keeps a value left out: only Remove takes it away. It ends as the form has it
   * if and only if something is typed, or the part had none.
   */
  lemma VisibleValueEmptiedIsKept(m: Made, d: Draft, visible: set<string>, e: DraftEntry)
    requires Apart(d.entries) && Agrees(m, visible) && Ends(d, e) && SecretKey(e.list).Some? && !e.masked
    ensures At(Saved(m, d, visible), PartFor(e.onlyMe), e.list, e.id).Some?
    ensures At(Saved(m, d, visible), PartFor(e.onlyMe), e.list, e.id).value.secret == FormValue(e)
       <==> Typed(e) != "" || At(m.vault, PartFor(e.onlyMe), e.list, e.id).None?
            || At(m.vault, PartFor(e.onlyMe), e.list, e.id).value.secret.None?
  {
    hide Saved, Find, EntryOut, MergeEntry, PartSent, Apart, Typed, Agrees, TakenOver;
    var q := PartFor(e.onlyMe);
    VisibleSent(e);
    SavedOf(m, d, visible, e);
    MergedSecret(e.list, At(m.vault, q, e.list, e.id), EntryOut(e, q).value, visible);
    if !PartSent(m, d, q) {
      UnsentValue(m, d, visible, e);
    }
  }

  lemma VisibleSent(e: DraftEntry)
    requires SecretKey(e.list).Some? && !e.masked && EntryOut(e, PartFor(e.onlyMe)).Some?
    ensures EntryOut(e, PartFor(e.onlyMe)).value.secret == if Typed(e) == "" then Left else Given(Typed(e))
  {
  }

  predicate Linked(v: Vault, p: PartName, e: DraftEntry, doc: string) {
    At(v, p, e.list, e.id).Some? && At(v, p, e.list, e.id).value.doc == Some(doc)
  }

  /** A link to a document the editor may not see, nor has put there, is kept just where the part has it already. */
  lemma UnseenLinkIsKept(m: Made, d: Draft, visible: set<string>, e: DraftEntry, doc: string)
    requires Apart(d.entries) && Agrees(m, visible) && Ends(d, e) && e.list == Ids && doc !in visible && e.docId != Some(doc)
    ensures Linked(Saved(m, d, visible), PartFor(e.onlyMe), e, doc) <==> Linked(m.vault, PartFor(e.onlyMe), e, doc)
  {
    hide Saved, Find, EntryOut, MergeEntry, PartSent, Apart, Agrees, TakenOver;
    var q := PartFor(e.onlyMe);
    SavedOf(m, d, visible, e);
    DocSent(e, q);
    MergedDoc(At(m.vault, q, e.list, e.id), EntryOut(e, q).value, visible, doc);
  }

  lemma DocSent(e: DraftEntry, p: PartName)
    requires EntryOut(e, p).Some?
    ensures EntryOut(e, p).value.doc.Given? ==> e.docId == Some(EntryOut(e, p).value.doc.value)
  {
    hide FieldsOut, SecretOut;
  }

  lemma MergedDoc(before: Option<Entry>, s: SentEntry, visible: set<string>, doc: string)
    requires doc !in visible && s.doc != Given(doc)
    ensures MergeEntry(Ids, before, s, visible).doc == Some(doc) <==> before.Some? && before.value.doc == Some(doc)
  {
  }

  /**
   * Found: an ID moved to the other part loses its link to a document its editor may not
   * see. A first save keeps such a link if and only if the ID stays in its part.
   */
  lemma UnseenLinkIsLostOnMove(v: Vault, who: Editor, d: Draft, e: DraftEntry, doc: string)
    requires Healthy(v) && DraftOk(v, who, d) && e in d.entries && !TakenOver(d, e) && e.list == Ids && e.from.Some?
    requires Linked(v, e.from.value, e, doc) && doc !in who.visible && e.docId != Some(doc)
    ensures Linked(Saved(Start(v, who), d, who.visible), PartFor(e.onlyMe), e, doc) <==> PartFor(e.onlyMe) == e.from.value
  {
    ReadyApart(v, who, d);
    ReadIsSent(e, PartFor(e.onlyMe));
    StartIs(v, who);
    OnlyOne(v, e);
    hide Saved, Find, EntryOut, PartSent, Apart, Agrees, TakenOver, Healthy, DraftOk, Start;
    UnseenLinkIsKept(Start(v, who), d, who.visible, e, doc);
  }

  lemma OnlyOne(v: Vault, e: DraftEntry)
    requires Healthy(v) && e.from.Some? && At(v, e.from.value, e.list, e.id).Some?
    ensures forall p: PartName :: At(v, p, e.list, e.id).Some? ==> p == e.from.value
  {
  }

  // ------------------------------------------------------------- a record saved is a record to edit

  /** What makes an entry of the draft one the vault takes. */
  predicate Sendable(e: DraftEntry) {
    && (e.list != Ids ==> e.docId.None? && e.linkedBefore.None?)
    && (e.known.Some? ==> e.known.value != "" && Trimmed(e.known.value))
  }

  lemma FieldsOutAreNormal(e: DraftEntry, k: string)
    requires k in FieldsOut(e)
    ensures NormalField(k, FieldsOut(e)[k]) && Some(k) != SecretKey(e.list)
  {
    TrimIsTrimmed(e.f[k]);
    UpperStays(Trim(e.f[k]));
    UpperTrimmed(Trim(e.f[k]));
  }

  lemma SecretOutIsNormal(e: DraftEntry, moved: bool)
    requires Sendable(e)
    ensures var s := SecretOut(e, moved); s.Given? ==> s.value != "" && Trimmed(s.value)
    ensures IsContact(e.list) ==> SecretOut(e, moved).Left?
  {
    if SecretKey(e.list).Some? && SecretKey(e.list).value in e.f {
      TrimIsTrimmed(e.f[SecretKey(e.list).value]);
    }
  }

  /** What is sent of an entry, as the vault's own checks would have it. */
  ghost predicate NormalSent(l: ListName, s: SentEntry) {
    && (forall k :: k in s.f ==> NormalField(k, s.f[k]) && Some(k) != SecretKey(l))
    && (s.secret.Given? ==> s.secret.value != "" && Trimmed(s.secret.value))
    && (IsContact(l) ==> s.secret.Left? && exists k :: k in s.f && k !in Skipped(l))
    && (l != Custom ==> !s.hidden) && (l != Ids ==> !s.doc.Given?)
    && (l == Ids ==> "kind" in s.f) && (l == Custom ==> "label" in s.f)
  }

  lemma SentIsNormal(e: DraftEntry, p: PartName)
    requires Sendable(e) && EntryOut(e, p).Some?
    ensures NormalSent(e.list, EntryOut(e, p).value)
  {
    var s := EntryOut(e, p).value;
    SecretOutIsNormal(e, e.from.Some? && e.from.value != p);
    hide SecretOut, FieldsOut, Trimmed, NormalField;
    forall k | k in s.f
      ensures NormalField(k, s.f[k]) && Some(k) != SecretKey(e.list)
    {
      if k in FieldsOut(e) {
        FieldsOutAreNormal(e, k);
      } else {
        FilledInAreNormal();
      }
    }
  }

  lemma FilledInAreNormal()
    ensures NormalField("kind", "other") && NormalField("label", "Detail")
  {
    assert !IsSpace('o') && !IsSpace('r') && !IsSpace('D') && !IsSpace('l');
  }

  lemma MergedIsNormal(e: DraftEntry, p: PartName, before: Option<Entry>, visible: set<string>)
    requires Sendable(e) && EntryOut(e, p).Some?
    requires before.Some? ==> NormalEntry(e.list, before.value)
    ensures NormalEntry(e.list, MergeEntry(e.list, before, EntryOut(e, p).value, visible))
  {
    SentIsNormal(e, p);
    hide EntryOut, NormalField, Trimmed, Sendable;
  }

  predicate SendableTexts(texts: map<TextKey, TextValue>) {
    forall k :: k in texts ==> NormalText(k, texts[k])
  }

  lemma TextOutIsNormal(k: TextKey, value: string)
    ensures TextOut(k, value).Some? ==> NormalText(k, TextOut(k, value).value)
  {
    if !Blank(value) {
      TrimIsTrimmed(value);
      UpperStays(Trim(value));
      UpperTrimmed(Trim(value));
      CodesAreCodes(value);
    }
  }

  lemma {:induction false} BuiltTextsNormal(texts: seq<DraftText>, part: PartName)
    ensures SendableTexts(BuildTexts(texts, part))
    decreases |texts|
  {
    if texts != [] {
      BuiltTextsNormal(texts[..|texts| - 1], part);
      TextOutIsNormal(texts[|texts| - 1].key, texts[|texts| - 1].value);
    }
  }

  lemma {:induction false} ItemsFrom(entries: seq<DraftEntry>, chosen: map<string, DraftEntry>, part: PartName, s: SentEntry) returns (e: DraftEntry)
    requires s in Items(entries, chosen, part)
    ensures e in entries && EntryOut(e, part) == Some(s)
    decreases |entries|
  {
    hide EntryOut;
    if EntryOut(entries[0], part) == Some(s) {
      e := entries[0];
    } else {
      e := ItemsFrom(entries[1..], chosen, part, s);
    }
  }

  /** A well-kept part, written by the form, is well kept. */
  lemma PutListNormal(d: Draft, p: PartName, l: ListName, stored: seq<Entry>, visible: set<string>)
    requires DistinctUids(d.entries) && (forall e :: e in d.entries ==> Sendable(e))
    requires NormalList(l, stored)
    ensures NormalList(l, MergeList(l, stored, BuildPart(d, p).lists.Of(l), visible))
  {
    hide EntryOut, NormalEntry, BuildPart, Sendable, MergeEntry, Find, DistinctUids, MergeList;
    var sent := BuildPart(d, p).lists.Of(l);
    NoIdTwice(d, p, l);
    var merged := MergeList(l, stored, sent, visible);
    forall i | 0 <= i < |merged|
      ensures merged[i].id == sent[i].id && NormalEntry(l, merged[i])
    {
      MergeKeepsId(l, Find(stored, sent[i].id), sent[i], visible);
      var e := BuiltFrom(d, p, l, sent[i]);
      FoundIsNormal(l, stored, sent[i].id);
      MergedIsNormal(e, p, Find(stored, sent[i].id), visible);
    }
  }

  lemma MergeKeepsId(l: ListName, before: Option<Entry>, s: SentEntry, visible: set<string>)
    ensures MergeEntry(l, before, s, visible).id == s.id
  {
  }

  lemma FoundIsNormal(l: ListName, stored: seq<Entry>, id: string)
    requires NormalList(l, stored)
    ensures Find(stored, id).Some? ==> NormalEntry(l, Find(stored, id).value)
  {
    FindGives(stored, id);
  }

  lemma BuiltFrom(d: Draft, p: PartName, l: ListName, s: SentEntry) returns (e: DraftEntry)
    requires s in BuildPart(d, p).lists.Of(l)
    ensures e in d.entries && e.list == l && EntryOut(e, p) == Some(s)
  {
    var here := Here(d.entries, l, p);
    hide EntryOut;
    e := ItemsFrom(here, Chosen(here, p), p, s);
  }

  ghost predicate AllSendable(d: Draft) {
    DistinctUids(d.entries) && forall e :: e in d.entries ==> Sendable(e)
  }

  lemma PutNormal(d: Draft, p: PartName, m: Made, visible: set<string>)
    requires AllSendable(d) && WellKept(m.vault)
    ensures WellKept(Do(m, Step(p, BuildPart(d, p)), visible).vault)
  {
    hide NormalText, NormalList, BuildTexts, BuildList, MergeList, Sendable, NoChange, SameStored;
    var stored, sent := m.vault.PartOf(p), BuildPart(d, p);
    BuiltTextsNormal(d.texts, p);
    var next := Merge(stored, sent, visible);
    forall l: ListName
      ensures NormalList(l, next.lists.Of(l))
    {
      assert NormalList(l, stored.lists.Of(l));
      PutListNormal(d, p, l, stored.lists.Of(l), visible);
    }
  }

  lemma ReadyIsSendable(v: Vault, who: Editor, d: Draft)
    requires DraftOk(v, who, d)
    ensures AllSendable(d) && AllSendable(Holding(d))
  {
    ApartUids(d.entries);
    HoldingUids(d);
    forall e | e in d.entries
      ensures Sendable(e)
    {
      assert EntryOk(v, who.visible, e);
    }
    forall h | h in Holding(d).entries
      ensures Sendable(h)
    {
      var e := HeldFrom(d, h);
    }
  }

  lemma HoldingUids(d: Draft)
    requires DistinctUids(d.entries)
    ensures DistinctUids(Holding(d).entries)
  {
  }

  /** A record saved, or saved in part, is as well kept as it was: one the form may read again. */
  lemma SavedIsWellKept(m: Made, d: Draft, visible: set<string>, n: nat)
    requires WellKept(m.vault) && AllSendable(d) && AllSendable(Holding(d)) && n <= |Plan(d)|
    ensures WellKept(Reached(m, d, visible, n).vault)
  {
    hide WellKept, BuildPart, Holding, Plan, AnyMovesInto, Do, Take, AllSendable, Reached;
    PlanShape(d);
    ReachedSteps(m, d, visible);
    var one := Reached(m, d, visible, 1);
    if BothWays(d) {
      PutNormal(Holding(d), OnlyMe, m, visible);
      PutNormal(d, Shared, one, visible);
      PutNormal(d, OnlyMe, Reached(m, d, visible, 2), visible);
    } else {
      PutNormal(d, First(d), m, visible);
      PutNormal(d, Other(First(d)), one, visible);
    }
  }

  lemma StoppedIsWellKept(m: Made, d: Draft, visible: set<string>, k: nat)
    requires WellKept(m.vault) && AllSendable(d) && AllSendable(Holding(d)) && k <= |SaveSteps(m, d)|
    ensures WellKept(After(m, d, visible, k).vault) && WellKept(Saved(m, d, visible))
  {
    hide WellKept, Holding, Plan, Take, AllSendable, Reached, SaveSteps, LeftOver, After, Saved;
    var n := StoppedIsReached(m, d, visible, k);
    ReachedSteps(m, d, visible);
    SavedIsWellKept(m, d, visible, n);
    SavedIsWellKept(m, d, visible, if LeftOver(m, d) then 2 else |Plan(d)|);
  }

  /**
   * A record saved whole, of a draft with no id twice, has no entry in both parts again,
   * if nothing is left over: whatever a save stopped before it had left in both.
   */
  lemma SavedIsHealthy(m: Made, d: Draft, visible: set<string>)
    requires WellKept(m.vault) && Agrees(m, visible) && Apart(d.entries) && AllSendable(d) && AllSendable(Holding(d))
    requires !LeftOver(m, d) && forall e :: e in d.entries ==> Alone(d, e)
    ensures Healthy(Saved(m, d, visible))
  {
    StoppedIsWellKept(m, d, visible, 0);
    SavedAsTheFormSays(m, d, visible);
    hide Saved, WellKept, SentAt, Find, LeftOver, Agrees, AllSendable, Apart;
    forall l: ListName, id: string
      ensures At(Saved(m, d, visible), Shared, l, id).None? || At(Saved(m, d, visible), OnlyMe, l, id).None?
    {
      if InPart(d, Shared, l, id) {
        assert !InPart(d, OnlyMe, l, id);
        FindNotBuilt(d, OnlyMe, l, id);
      } else {
        FindNotBuilt(d, Shared, l, id);
      }
      assert At(Saved(m, d, visible), Shared, l, id).Some? <==> SentAt(d, Shared, l, id).Some?;
      assert At(Saved(m, d, visible), OnlyMe, l, id).Some? <==> SentAt(d, OnlyMe, l, id).Some?;
    }
  }
}
