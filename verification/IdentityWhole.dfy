/** A finished save is as one write of each part, both at once; and just when it leaves something over. */
module IdentityWhole {
  import opened Text
  import opened IdentityVault
  import opened IdentityDraft
  import opened IdentityParts
  import opened IdentityReading
  import opened IdentitySave

  /** What a finished save last writes of a part: as the form has it, but for what it leaves over in Only me. */
  function LastOf(m: Made, d: Draft, p: PartName): SentPart {
    if p == OnlyMe && LeftOver(m, d) then BuildPart(Holding(d), OnlyMe) else BuildPart(d, p)
  }

  /** Whether a save writes a part at all. */
  predicate PartSent(m: Made, d: Draft, p: PartName) {
    !NoChange(m.last.Of(p), LastOf(m, d, p))
  }

  // ------------------------------------------------------------- what Only me holds meanwhile

  function Held(e: DraftEntry): DraftEntry {
    if EntryMovesInto(e, Shared) then e.(onlyMe := true) else e
  }

  lemma HoldingApart(d: Draft)
    requires Apart(d.entries)
    ensures Apart(Holding(d).entries)
  {
  }

  lemma HeldEntry(d: Draft, e: DraftEntry)
    requires e in d.entries
    ensures Held(e) in Holding(d).entries
  {
    var i :| 0 <= i < |d.entries| && d.entries[i] == e;
    assert Holding(d).entries[i] in Holding(d).entries;
  }

  lemma HeldFrom(d: Draft, h: DraftEntry) returns (e: DraftEntry)
    requires h in Holding(d).entries
    ensures e in d.entries && h == Held(e)
  {
    var i :| 0 <= i < |d.entries| && Holding(d).entries[i] == h;
    e := d.entries[i];
  }

  /** One of the same id as this, moved into Only me. */
  predicate TwinIn(d: Draft, e: DraftEntry) {
    exists x :: x in d.entries && x != e && x.list == e.list && x.id == e.id && x.onlyMe
  }

  lemma NotTakenWhileHeld(d: Draft, e: DraftEntry)
    requires Apart(d.entries) && e in d.entries && PartFor(Held(e).onlyMe) == OnlyMe
    requires if e.onlyMe then !TakenOver(d, e) else !TwinIn(d, e)
    ensures !TakenOver(Holding(d), Held(e))
  {
    forall x | x in d.entries && x != e && x.list == e.list && x.id == e.id
      ensures e.from.Some? && x.from.Some? && e.from != x.from
    {
      ApartTwo(d.entries, e, x);
    }
    hide Apart;
  }

  /** The first of three writes holds what Only me is to hold in the end, as it is to. */
  lemma HeldAgrees(d: Draft, l: ListName, id: string)
    requires Apart(d.entries) && InPart(d, OnlyMe, l, id)
    ensures SentAt(Holding(d), OnlyMe, l, id) == SentAt(d, OnlyMe, l, id)
  {
    hide EntryOut, Apart, Holding, TakenOver, SentAt, TwinIn;
    var e := OneIsBuilt(d, OnlyMe, l, id);
    FindBuilt(d, e);
    NotTakenWhileHeld(d, e);
    HoldingApart(d);
    HeldEntry(d, e);
    FindBuilt(Holding(d), e);
  }

  /** And what leaves it for the shared part. */
  lemma HeldAt(d: Draft, e: DraftEntry)
    requires Apart(d.entries) && e in d.entries && EntryMovesInto(e, Shared) && !TwinIn(d, e)
    ensures SentAt(Holding(d), OnlyMe, e.list, e.id) == EntryOut(e.(onlyMe := true), OnlyMe)
  {
    hide EntryOut, Apart, Holding, TakenOver, SentAt, TwinIn;
    NotTakenWhileHeld(d, e);
    HoldingApart(d);
    HeldEntry(d, e);
    FindBuilt(Holding(d), Held(e));
  }

  /** And nothing else. */
  lemma HeldNone(d: Draft, l: ListName, id: string)
    requires forall x :: x in d.entries && x.list == l && x.id == id ==> !x.onlyMe && !EntryMovesInto(x, Shared)
    ensures SentAt(Holding(d), OnlyMe, l, id).None?
  {
    hide Holding, SentAt;
    if InPart(Holding(d), OnlyMe, l, id) {
      var h :| h in Holding(d).entries && h.list == l && h.id == id && PartFor(h.onlyMe) == OnlyMe;
      var e := HeldFrom(d, h);
      assert false;
    }
    FindNotBuilt(Holding(d), OnlyMe, l, id);
  }

  // ------------------------------------------------------------- the whole save

  /** Written in two steps, of a part each. */
  lemma WrittenOnce(m: Made, a: Step, b: Step, visible: set<string>, p: PartName, l: ListName, id: string)
    requires a.part != b.part
    ensures var s := if a.part == p then a else b;
      At(Do(Do(m, a, visible), b, visible).vault, p, l, id)
      == if NoChange(m.last.Of(p), s.fields) then At(m.vault, p, l, id)
         else MergeOpt(l, At(m.vault, p, l, id), FindSent(s.fields.lists.Of(l), id), visible)
  {
    hide NoChange, Do, MergeOpt, FindSent, Find;
    TwoParts(a.part, b.part, p);
    DoAt(m, a, visible, p, l, id);
    DoLast(m, a, visible);
    DoAt(Do(m, a, visible), b, visible, p, l, id);
  }

  lemma MergedTwice(l: ListName, before: Option<Entry>, first: Option<SentEntry>, last: Option<SentEntry>, visible: set<string>)
    requires last.Some? ==> first == last
    ensures MergeOpt(l, MergeOpt(l, before, first, visible), last, visible) == MergeOpt(l, before, last, visible)
  {
    MergeOptTwice(l, before, last, visible);
  }

  /** Three writes come, in Only me, to the last of them that is made. */
  lemma WrittenThrice(m: Made, a: Step, b: Step, c: Step, visible: set<string>, l: ListName, id: string)
    requires a.part == c.part == OnlyMe && b.part == Shared
    requires FindSent(c.fields.lists.Of(l), id).Some? ==> FindSent(a.fields.lists.Of(l), id) == FindSent(c.fields.lists.Of(l), id)
    requires !NoChange(m.last.onlyMe, c.fields)
    ensures At(Do(Do(Do(m, a, visible), b, visible), c, visible).vault, OnlyMe, l, id)
         == MergeOpt(l, At(m.vault, OnlyMe, l, id), FindSent(c.fields.lists.Of(l), id), visible)
  {
    var held, sent := FindSent(a.fields.lists.Of(l), id), FindSent(c.fields.lists.Of(l), id);
    if NoChange(a.fields, c.fields) {
      NoChangeAt(a.fields, c.fields, l, id);
    }
    hide NoChange, Do, MergeOpt, FindSent, Find;
    var m1 := Do(m, a, visible);
    var m2 := Do(m1, b, visible);
    DoAt(m, a, visible, OnlyMe, l, id);
    DoAt(m1, b, visible, OnlyMe, l, id);
    DoAt(m2, c, visible, OnlyMe, l, id);
    DoLast(m, a, visible);
    DoLast(m1, b, visible);
    MergedTwice(l, At(m.vault, OnlyMe, l, id), held, sent, visible);
    MergedNone(l, At(m.vault, OnlyMe, l, id), visible);
  }

  lemma MergedNone(l: ListName, before: Option<Entry>, visible: set<string>)
    ensures MergeOpt(l, before, None, visible).None?
  {
  }

  lemma SharedOfThree(m: Made, a: Step, b: Step, c: Step, visible: set<string>, l: ListName, id: string)
    requires a.part == c.part == OnlyMe && b.part == Shared
    ensures var two := Do(Do(m, a, visible), b, visible);
      && At(two.vault, Shared, l, id)
         == (if NoChange(m.last.shared, b.fields) then At(m.vault, Shared, l, id)
             else MergeOpt(l, At(m.vault, Shared, l, id), FindSent(b.fields.lists.Of(l), id), visible))
      && At(Do(two, c, visible).vault, Shared, l, id) == At(two.vault, Shared, l, id)
      && At(two.vault, OnlyMe, l, id) == At(Do(m, a, visible).vault, OnlyMe, l, id)
  {
    hide NoChange, Do, MergeOpt, FindSent, Find;
    var one := Do(m, a, visible);
    DoAt(m, a, visible, Shared, l, id);
    DoAt(one, b, visible, Shared, l, id);
    DoAt(one, b, visible, OnlyMe, l, id);
    DoAt(Do(one, b, visible), c, visible, Shared, l, id);
    DoLast(m, a, visible);
  }

  /** What Only me has once the last of three writes changes nothing as it was, nor the first. */
  lemma NeitherChanges(m: Made, a: Step, b: Step, c: Step, visible: set<string>, l: ListName, id: string)
    requires a.part == c.part == OnlyMe && b.part == Shared
    requires NoChange(m.last.onlyMe, c.fields) && NoChange(m.last.onlyMe, a.fields)
    ensures At(Do(Do(Do(m, a, visible), b, visible), c, visible).vault, OnlyMe, l, id) == At(m.vault, OnlyMe, l, id)
  {
    hide NoChange, Put, Find;
    var one := Do(m, a, visible);
    DoAt(one, b, visible, OnlyMe, l, id);
    DoLast(one, b, visible);
  }

  /**
   * Refinement: the two or three writes of a save, whatever was written before it, leave
   * each entry as if every part that changes had been written once, both together.
   */
  lemma SavedIsOneWrite(m: Made, d: Draft, visible: set<string>, p: PartName, l: ListName, id: string)
    requires Apart(d.entries)
    ensures At(Saved(m, d, visible), p, l, id)
         == if PartSent(m, d, p) then MergeOpt(l, At(m.vault, p, l, id), FindSent(LastOf(m, d, p).lists.Of(l), id), visible)
            else At(m.vault, p, l, id)
  {
    hide AnyMovesInto, BuildPart, Holding, Do, Plan, NoChange, MergeOpt, FindSent, Find, Reached, Apart;
    var n := StoppedIsReached(m, d, visible, 0);
    PlanShape(d);
    ReachedSteps(m, d, visible);
    if BothWays(d) {
      var a, b, c := HoldStep(d), StepOf(d, Shared), StepOf(d, OnlyMe);
      SharedOfThree(m, a, b, c, visible, l, id);
      if p == OnlyMe {
        DoAt(m, a, visible, OnlyMe, l, id);
        LastOfThree(d, l, id);
        if !NoChange(m.last.onlyMe, c.fields) {
          WrittenThrice(m, a, b, c, visible, l, id);
        } else if NoChange(m.last.onlyMe, a.fields) {
          NeitherChanges(m, a, b, c, visible, l, id);
        }
      }
    } else {
      TwoParts(First(d), Other(First(d)), p);
      WrittenOnce(m, StepOf(d, First(d)), StepOf(d, Other(First(d))), visible, p, l, id);
    }
  }

  lemma LastOfThree(d: Draft, l: ListName, id: string)
    requires Apart(d.entries)
    ensures SentAt(d, OnlyMe, l, id).Some? ==> SentAt(Holding(d), OnlyMe, l, id) == SentAt(d, OnlyMe, l, id)
  {
    hide Apart, SentAt, Holding;
    if InPart(d, OnlyMe, l, id) {
      HeldAgrees(d, l, id);
    } else {
      FindNotBuilt(d, OnlyMe, l, id);
    }
  }

  // ------------------------------------------------------------- texts

  lemma StepTexts(m: Made, s: Step, visible: set<string>, p: PartName, k: TextKey)
    ensures TextOf(m.last.Of(p).texts, k) == TextAt(m.vault, p, k) ==>
      && TextOf(Do(m, s, visible).last.Of(p).texts, k) == TextAt(Do(m, s, visible).vault, p, k)
      && TextAt(Do(m, s, visible).vault, p, k) == if s.part == p then TextOf(s.fields.texts, k) else TextAt(m.vault, p, k)
  {
    DoTextAt(m, s, visible, p, k);
  }

  /** And each field of one value is, in the end, what the last write of its part says it is. */
  lemma SavedTexts(m: Made, d: Draft, visible: set<string>, p: PartName, k: TextKey)
    requires Agrees(m, visible)
    ensures TextAt(Saved(m, d, visible), p, k) == TextOf(LastOf(m, d, p).texts, k)
  {
    AgreesText(m, visible, p, k);
    hide AnyMovesInto, BuildPart, Holding, Do, Plan, Reached, Agrees, TextOf, TextAt;
    var n := StoppedIsReached(m, d, visible, 0);
    PlanShape(d);
    ReachedSteps(m, d, visible);
    var a, b := Plan(d)[0], Plan(d)[1];
    StepTexts(m, a, visible, p, k);
    StepTexts(Do(m, a, visible), b, visible, p, k);
    if BothWays(d) {
      StepTexts(Do(Do(m, a, visible), b, visible), Plan(d)[2], visible, p, k);
    }
  }

  // ------------------------------------------------------------- what is left over

  lemma SentIsStored(m: Made, d: Draft, visible: set<string>, p: PartName, l: ListName, id: string)
    requires Apart(d.entries) && Agrees(m, visible)
    ensures At(Saved(m, d, visible), p, l, id).Some? <==> FindSent(LastOf(m, d, p).lists.Of(l), id).Some?
  {
    hide LastOf, FindSent, Find, NoChange, Agrees, Apart;
    SavedIsOneWrite(m, d, visible, p, l, id);
    AgreesAt(m, visible, p, l, id);
    if !PartSent(m, d, p) {
      NoChangeAt(m.last.Of(p), LastOf(m, d, p), l, id);
    }
  }

  /** Each part has just what the form sends there. */
  ghost predicate AsTheFormSays(v: Vault, d: Draft) {
    && (forall p: PartName, l: ListName, id: string :: At(v, p, l, id).Some? <==> SentAt(d, p, l, id).Some?)
    && (forall p: PartName, k: TextKey :: TextAt(v, p, k) == TextOf(BuildPart(d, p).texts, k))
  }

  /**
   * A finished save leaves in each part just what the form sends there, if and only if it
   * leaves nothing over: if the last of three writes was not passed over beforehand.
   */
  lemma SavedAsTheFormSays(m: Made, d: Draft, visible: set<string>)
    requires Apart(d.entries) && Agrees(m, visible)
    ensures AsTheFormSays(Saved(m, d, visible), d) <==> !LeftOver(m, d)
  {
    var v := Saved(m, d, visible);
    hide Find, FindSent, NoChange, Agrees, Apart, BuildPart, Holding, BothWays, Saved, TextAt, TextOf;
    forall p: PartName, l: ListName, id: string
      ensures At(v, p, l, id).Some? <==> FindSent(LastOf(m, d, p).lists.Of(l), id).Some?
    {
      SentIsStored(m, d, visible, p, l, id);
    }
    forall p: PartName, k: TextKey
      ensures TextAt(v, p, k) == TextOf(LastOf(m, d, p).texts, k)
    {
      SavedTexts(m, d, visible, p, k);
    }
    if LeftOver(m, d) && AsTheFormSays(v, d) {
      SameAsHeld(m.last.onlyMe, d, v);
    }
  }

  /** Were nothing left over, the first write would change nothing either. */
  lemma SameAsHeld(last: SentPart, d: Draft, v: Vault)
    requires Apart(d.entries) && NoChange(last, BuildPart(d, OnlyMe)) && AsTheFormSays(v, d)
    requires forall l: ListName, id: string :: At(v, OnlyMe, l, id).Some? <==> SentAt(Holding(d), OnlyMe, l, id).Some?
    requires forall k: TextKey :: TextAt(v, OnlyMe, k) == TextOf(BuildPart(Holding(d), OnlyMe).texts, k)
    ensures NoChange(last, BuildPart(Holding(d), OnlyMe))
  {
    hide Find, FindSent, Apart, BuildPart, Holding, BothWays, TextAt, NoChange;
    forall l: ListName, id: string
      ensures SentAt(Holding(d), OnlyMe, l, id) == SentAt(d, OnlyMe, l, id)
    {
      LastOfThree(d, l, id);
      assert At(v, OnlyMe, l, id).Some? <==> SentAt(d, OnlyMe, l, id).Some?;
    }
    forall k: TextKey
      ensures TextOf(BuildPart(Holding(d), OnlyMe).texts, k) == TextOf(BuildPart(d, OnlyMe).texts, k)
    {
      assert TextAt(v, OnlyMe, k) == TextOf(BuildPart(d, OnlyMe).texts, k);
    }
    SameTexts(BuildPart(Holding(d), OnlyMe).texts, BuildPart(d, OnlyMe).texts);
    SameSentSameChange(last, d);
  }

  lemma SameSentSameChange(last: SentPart, d: Draft)
    requires BuildPart(Holding(d), OnlyMe).texts == BuildPart(d, OnlyMe).texts
    requires forall l: ListName, id: string :: SentAt(Holding(d), OnlyMe, l, id) == SentAt(d, OnlyMe, l, id)
    requires NoChange(last, BuildPart(d, OnlyMe))
    ensures NoChange(last, BuildPart(Holding(d), OnlyMe))
  {
    hide BuildPart, Holding, NoChange, FindSent;
    forall l: ListName, id: string
      ensures CanonOpt(FindSent(last.lists.Of(l), id)) == CanonOpt(SentAt(Holding(d), OnlyMe, l, id))
    {
      NoChangeAt(last, BuildPart(d, OnlyMe), l, id);
      assert SentAt(Holding(d), OnlyMe, l, id) == SentAt(d, OnlyMe, l, id);
    }
    NoChangeTexts(last, BuildPart(d, OnlyMe));
    NoChangeIf(last, BuildPart(Holding(d), OnlyMe));
  }

  lemma NoChangeTexts(was: SentPart, now: SentPart)
    requires NoChange(was, now)
    ensures was.texts == now.texts
  {
  }

  lemma SameListIf(was: seq<SentEntry>, now: seq<SentEntry>)
    requires forall id: string :: CanonOpt(FindSent(was, id)) == CanonOpt(FindSent(now, id))
    ensures SameList(was, now)
  {
    hide FindSent, CanonOpt;
    forall s: SentEntry | s in was + now
      ensures CanonOpt(FindSent(was, s.id)) == CanonOpt(FindSent(now, s.id))
    {
    }
    assert forall s :: s in was ==> s in was + now;
    assert forall s :: s in now ==> s in was + now;
  }

  /** The same texts, and the same of every entry but for what canon cannot see: no change. */
  lemma NoChangeIf(was: SentPart, now: SentPart)
    requires was.texts == now.texts
    requires forall l: ListName, id: string :: CanonOpt(FindSent(was.lists.Of(l), id)) == CanonOpt(FindSent(now.lists.Of(l), id))
    ensures NoChange(was, now)
  {
    hide FindSent, CanonOpt, SameList;
    forall l: ListName
      ensures SameList(was.lists.Of(l), now.lists.Of(l))
    {
      SameListIf(was.lists.Of(l), now.lists.Of(l));
    }
    assert SameList(was.lists.Of(Emails), now.lists.Of(Emails)) && SameList(was.lists.Of(Phones), now.lists.Of(Phones));
    assert SameList(was.lists.Of(Addresses), now.lists.Of(Addresses)) && SameList(was.lists.Of(Ids), now.lists.Of(Ids));
    assert SameList(was.lists.Of(Custom), now.lists.Of(Custom));
  }

  // ------------------------------------------------------------- a draft made of a record

  /** A draft made of a record, and whoever is editing it. */
  ghost predicate Ready(v: Vault, who: Editor, d: Draft) {
    WellKept(v) && DraftOk(v, who, d)
  }

  lemma AloneInPart(v: Vault, texts: seq<DraftText>, t: DraftText)
    requires TextsOk(v, texts) && t in texts && t.from.Some? && t.from.value != PartFor(t.onlyMe)
    ensures forall x :: x in texts && x.key == t.key ==> x == t
  {
    var j :| 0 <= j < |texts| && texts[j] == t;
    assert forall i :: 0 <= i < |texts| && i != j ==> texts[i].key != texts[j].key;
  }

  lemma TextGoneIsChange(v: Vault, who: Editor, d: Draft, t: DraftText)
    requires Ready(v, who, d) && t in d.texts && TextMovesInto(t, Shared)
    ensures !NoChange(Start(v, who).last.onlyMe, BuildPart(d, OnlyMe))
  {
    assert TextOk(v, t);
    AloneInPart(v, d.texts, t);
    NoTextBuilt(d.texts, OnlyMe, t.key);
    FirstBuiltText(v, who, OnlyMe, t.key);
    hide DraftFrom, Ready, DraftOk, TextsOk, Apart, BuildTexts, BuildList, SameList;
  }

  lemma EntryGoneIsChange(v: Vault, who: Editor, d: Draft, e: DraftEntry)
    requires Ready(v, who, d) && e in d.entries && EntryMovesInto(e, Shared) && !TwinIn(d, e)
    ensures !NoChange(Start(v, who).last.onlyMe, BuildPart(d, OnlyMe))
  {
    assert EntryOk(v, who.visible, e);
    FirstBuilt(v, who, OnlyMe, e.list, e.id);
    hide BuildPart, DraftFrom, Ready, DraftOk, Apart, NoChange, Find, FindSent, EntryOut, MergeEntry;
    assert !InPart(d, OnlyMe, e.list, e.id);
    FindNotBuilt(d, OnlyMe, e.list, e.id);
    if NoChange(Start(v, who).last.onlyMe, BuildPart(d, OnlyMe)) {
      NoChangeAt(Start(v, who).last.onlyMe, BuildPart(d, OnlyMe), e.list, e.id);
    }
  }

  /** Of an entry whose id is in Only me too, or that does not leave it, the first of three writes is as the last. */
  lemma HeldAsBuilt(d: Draft, l: ListName, id: string)
    requires Apart(d.entries)
    requires forall e :: e in d.entries && EntryMovesInto(e, Shared) ==> TwinIn(d, e)
    ensures SentAt(Holding(d), OnlyMe, l, id) == SentAt(d, OnlyMe, l, id)
  {
    hide Apart, SentAt, Holding, EntryMovesInto;
    if InPart(d, OnlyMe, l, id) {
      HeldAgrees(d, l, id);
    } else {
      FindNotBuilt(d, OnlyMe, l, id);
      forall x | x in d.entries && x.list == l && x.id == id
        ensures !x.onlyMe && !EntryMovesInto(x, Shared)
      {
        assert x.onlyMe ==> InPart(d, OnlyMe, l, id);
      }
      HeldNone(d, l, id);
    }
  }

  lemma {:induction false} HeldTextsAsBuilt(texts: seq<DraftText>)
    requires forall t :: t in texts ==> !TextMovesInto(t, Shared)
    ensures HoldTexts(texts) == texts
    decreases |texts|
  {
    if texts != [] {
      assert texts == [texts[0]] + texts[1..] && texts[0] in texts;
      HeldTextsAsBuilt(texts[1..]);
    }
  }

  /** A first save leaves nothing over: what leaves Only me was read there. */
  lemma FirstLeavesNothingOver(v: Vault, who: Editor, d: Draft)
    requires Ready(v, who, d)
    ensures !LeftOver(Start(v, who), d)
  {
    hide Ready, NoChange, BuildPart, DraftFrom, TwinIn, AnyMovesInto;
    if e :| e in d.entries && EntryMovesInto(e, Shared) && !TwinIn(d, e) {
      EntryGoneIsChange(v, who, d, e);
    } else if t :| t in d.texts && TextMovesInto(t, Shared) {
      TextGoneIsChange(v, who, d, t);
    } else if LeftOver(Start(v, who), d) {
      assert Apart(d.entries) by {
        ReadyApart(v, who, d);
      }
      forall l: ListName, id: string
        ensures SentAt(Holding(d), OnlyMe, l, id) == SentAt(d, OnlyMe, l, id)
      {
        HeldAsBuilt(d, l, id);
      }
      HeldTextsAsBuilt(d.texts);
      SameBuiltTexts(d);
      SameSentSameChange(Start(v, who).last.onlyMe, d);
      assert false;
    }
  }

  lemma SameBuiltTexts(d: Draft)
    requires HoldTexts(d.texts) == d.texts
    ensures BuildPart(Holding(d), OnlyMe).texts == BuildPart(d, OnlyMe).texts
  {
    hide BuildTexts, BuildList, HoldTexts, HoldEntries;
  }

  lemma ReadyApart(v: Vault, who: Editor, d: Draft)
    requires Ready(v, who, d)
    ensures Apart(d.entries) && Agrees(Start(v, who), who.visible)
  {
    StartAgrees(v, who);
  }
}
