/**
 * A save stopped on the way, the first of an edit or one after others that were refused:
 * just when every entry and text is still stored, in one part or the other.
 */
module IdentityStopped {
  import opened Text
  import opened IdentityVault
  import opened IdentityDraft
  import opened IdentityParts
  import opened IdentityReading
  import opened IdentitySave
  import opened IdentityWhole

  // ------------------------------------------------------------- an entry a finished save holds

  /** An entry the form sends: not taken over by one moved in, and not left out. */
  predicate Ends(d: Draft, e: DraftEntry) {
    e in d.entries && !TakenOver(d, e) && EntryOut(e, PartFor(e.onlyMe)).Some?
  }

  lemma LastSent(m: Made, d: Draft, e: DraftEntry)
    requires Apart(d.entries) && Ends(d, e)
    ensures FindSent(LastOf(m, d, PartFor(e.onlyMe)).lists.Of(e.list), e.id) == EntryOut(e, PartFor(e.onlyMe))
    ensures SentAt(d, PartFor(e.onlyMe), e.list, e.id) == EntryOut(e, PartFor(e.onlyMe))
    ensures e.onlyMe ==> SentAt(Holding(d), OnlyMe, e.list, e.id) == EntryOut(e, OnlyMe)
  {
    hide EntryOut, Apart, Holding, TakenOver, BuildPart, FindSent, LeftOver;
    FindBuilt(d, e);
    if e.onlyMe {
      assert InPart(d, OnlyMe, e.list, e.id);
      HeldAgrees(d, e.list, e.id);
    }
  }

  /** What a finished save leaves of it, in the part it is in. */
  lemma SavedOf(m: Made, d: Draft, visible: set<string>, e: DraftEntry)
    requires Apart(d.entries) && Agrees(m, visible) && Ends(d, e)
    ensures var q := PartFor(e.onlyMe);
      var now := At(Saved(m, d, visible), q, e.list, e.id);
      && now.Some?
      && now == (if PartSent(m, d, q) then Some(MergeEntry(e.list, At(m.vault, q, e.list, e.id), EntryOut(e, q).value, visible))
                 else At(m.vault, q, e.list, e.id))
  {
    LastSent(m, d, e);
    hide EntryOut, Apart, TakenOver, FindSent, Find, Agrees, Saved, LastOf, MergeEntry, NoChange, BuildPart;
    SavedIsOneWrite(m, d, visible, PartFor(e.onlyMe), e.list, e.id);
    SentIsStored(m, d, visible, PartFor(e.onlyMe), e.list, e.id);
  }

  /** An entry a part did not have is a change of that part. */
  lemma ComingIsSent(m: Made, visible: set<string>, p: PartName, sent: SentPart, l: ListName, id: string)
    requires Agrees(m, visible) && At(m.vault, p, l, id).Some? != FindSent(sent.lists.Of(l), id).Some?
    ensures !NoChange(m.last.Of(p), sent)
  {
    hide Find, FindSent, Agrees, NoChange;
    AgreesAt(m, visible, p, l, id);
    if NoChange(m.last.Of(p), sent) {
      NoChangeAt(m.last.Of(p), sent, l, id);
    }
  }

  // ------------------------------------------------------------- what is kept of it

  /**
   * Whole as it was or as it will be; or with its fields as they will be, its value as it
   * was or will be, and hidden as it will be, but for an old value on its way to be dropped.
   */
  predicate KeptAs(x: Entry, before: Entry, after: Entry) {
    || x == before || x == after
    || (&& x.f == after.f && (x.secret == after.secret || x.secret == before.secret)
        && (x.hidden == after.hidden || (after.secret.None? && x.secret == before.secret)))
  }

  /** A masked value shown, and cleared on purpose. */
  predicate Clears(e: DraftEntry) {
    e.masked && Typed(e) == "" && e.shownInField
  }

  /** The same, where another of its id may be in the part it is moving into: its fields, and its value if it is not cleared. */
  predicate KeptOver(e: DraftEntry, x: Entry, before: Entry, after: Entry) {
    || x == before || x == after
    || (x.f == after.f && (Clears(e) || x.secret == after.secret || x.secret == before.secret))
  }

  predicate StoredSomewhere(v: Vault, l: ListName, id: string, before: Entry, after: Entry) {
    exists p: PartName :: At(v, p, l, id).Some? && KeptAs(At(v, p, l, id).value, before, after)
  }

  predicate StoredOver(v: Vault, e: DraftEntry, before: Entry, after: Entry) {
    exists p: PartName :: At(v, p, e.list, e.id).Some? && KeptOver(e, At(v, p, e.list, e.id).value, before, after)
  }

  lemma Somewhere(v: Vault, p: PartName, e: DraftEntry, before: Entry, after: Entry)
    requires At(v, p, e.list, e.id).Some? && KeptAs(At(v, p, e.list, e.id).value, before, after)
    ensures StoredSomewhere(v, e.list, e.id, before, after) && StoredOver(v, e, before, after)
  {
  }

  lemma SomewhereOver(v: Vault, p: PartName, e: DraftEntry, before: Entry, after: Entry)
    requires At(v, p, e.list, e.id).Some? && KeptOver(e, At(v, p, e.list, e.id).value, before, after)
    ensures StoredOver(v, e, before, after)
  {
  }

  // ------------------------------------------------------------- the parts, on the way

  /** What a part has after the first write, and both after the second of three. */
  lemma OnTheWay(m: Made, d: Draft, visible: set<string>, p: PartName, l: ListName, id: string)
    ensures |Plan(d)| == (if BothWays(d) then 3 else 2) && Plan(d)[0].part == First(d)
    ensures At(Reached(m, d, visible, 1).vault, p, l, id)
         == if p == First(d) && !NoChange(m.last.Of(p), Plan(d)[0].fields)
            then MergeOpt(l, At(m.vault, p, l, id), FindSent(Plan(d)[0].fields.lists.Of(l), id), visible)
            else At(m.vault, p, l, id)
    ensures BothWays(d) ==>
      At(Reached(m, d, visible, 2).vault, p, l, id)
      == if p == OnlyMe then At(Reached(m, d, visible, 1).vault, p, l, id) else At(Saved(m, d, visible), p, l, id)
  {
    hide AnyMovesInto, BuildPart, Holding, Do, Plan, NoChange, MergeOpt, FindSent, Find, Reached;
    PlanShape(d);
    ReachedSteps(m, d, visible);
    DoAt(m, Plan(d)[0], visible, p, l, id);
    if BothWays(d) {
      var n := StoppedIsReached(m, d, visible, 0);
      SharedOfThree(m, HoldStep(d), StepOf(d, Shared), StepOf(d, OnlyMe), visible, l, id);
    }
  }

  /** Of an entry it is to hold, a part has what it had or what it will have; after its own write, the last. */
  lemma InItsPart(m: Made, d: Draft, visible: set<string>, e: DraftEntry, n: nat)
    requires Apart(d.entries) && Agrees(m, visible) && Ends(d, e) && 1 <= n < |Plan(d)|
    ensures var q := PartFor(e.onlyMe);
      var x := At(Reached(m, d, visible, n).vault, q, e.list, e.id);
      && (x == At(m.vault, q, e.list, e.id) || x == At(Saved(m, d, visible), q, e.list, e.id))
      && (n == 2 && q == Shared ==> x == At(Saved(m, d, visible), q, e.list, e.id))
      && (q == First(d) && !NoChange(m.last.Of(q), Plan(d)[0].fields) ==> x == At(Saved(m, d, visible), q, e.list, e.id))
      && (q == First(d) && NoChange(m.last.Of(q), Plan(d)[0].fields) ==> x == At(m.vault, q, e.list, e.id))
  {
    hide AnyMovesInto, BuildPart, Holding, Do, Plan, NoChange, MergeEntry, FindSent, Find, Reached, Agrees, Apart, EntryOut, TakenOver, Saved;
    var q := PartFor(e.onlyMe);
    PlanShape(d);
    LastSent(m, d, e);
    SavedOf(m, d, visible, e);
    OnTheWay(m, d, visible, q, e.list, e.id);
  }

  /** What the form must have been shown before an entry may move, or be unhidden. */
  predicate ShownToMove(e: DraftEntry) {
    e.masked && ((e.from.Some? && e.from.value != PartFor(e.onlyMe)) || (e.list == Custom && !e.hidden)) ==> e.known.Some?
  }

  /** An entry held in Only me on its way to the shared part is there as it will be, its value as it was. */
  lemma HeldIsKept(e: DraftEntry, before: Entry, there: Option<Entry>, visible: set<string>)
    requires EntryMovesInto(e, Shared) && EntryOut(e, Shared).Some? && ShownToMove(e)
    ensures EntryOut(e.(onlyMe := true), OnlyMe).Some?
    ensures var x := MergeEntry(e.list, Some(before), EntryOut(e.(onlyMe := true), OnlyMe).value, visible);
      && KeptOver(e, x, before, MergeEntry(e.list, there, EntryOut(e, Shared).value, visible))
      && (there.None? ==> KeptAs(x, before, MergeEntry(e.list, there, EntryOut(e, Shared).value, visible)))
  {
    var h := e.(onlyMe := true);
    HeldIsSent(e);
    var s, t := EntryOut(h, OnlyMe).value, EntryOut(e, Shared).value;
    hide EntryOut, ShownToMove, KeptOver, KeptAs;
    HeldMerges(e, s, t, before, there, visible);
  }

  /** Held, it is sent as it is when moved, but for a value left where it is, known to the form. */
  predicate HeldAs(e: DraftEntry, s: SentEntry, t: SentEntry) {
    && s.f == t.f && s.hidden == t.hidden && (t.secret.Cleared? ==> Clears(e))
    && (s.secret == t.secret || (s.secret.Left? && t.secret.Given? && e.masked))
    && (e.masked && s.secret.Left? && e.list == Custom ==> s.hidden)
    && (!e.masked && s.secret.Left? ==> t.secret.Left?) && (SecretKey(e.list).None? ==> s.secret.Left? && t.secret.Left?)
  }

  lemma HeldIsSent(e: DraftEntry)
    requires EntryMovesInto(e, Shared) && EntryOut(e, Shared).Some? && ShownToMove(e)
    ensures EntryOut(e.(onlyMe := true), OnlyMe).Some?
    ensures HeldAs(e, EntryOut(e.(onlyMe := true), OnlyMe).value, EntryOut(e, Shared).value)
  {
    var h := e.(onlyMe := true);
    assert FieldsOut(h) == FieldsOut(e) && Typed(h) == Typed(e);
    hide FieldsOut, Typed, DocOut;
  }

  lemma HeldMerges(e: DraftEntry, s: SentEntry, t: SentEntry, before: Entry, there: Option<Entry>, visible: set<string>)
    requires HeldAs(e, s, t)
    ensures var x, after := MergeEntry(e.list, Some(before), s, visible), MergeEntry(e.list, there, t, visible);
      KeptOver(e, x, before, after) && (there.None? ==> KeptAs(x, before, after))
  {
    hide Clears;
  }

  lemma ClearedClears(e: DraftEntry, p: PartName)
    requires EntryOut(e, p).Some? && EntryOut(e, p).value.secret.Cleared?
    ensures Clears(e)
  {
    hide FieldsOut;
  }

  /** A part that a write would leave as it is, by canon, has what it is to have but for a value to be cleared. */
  lemma NoChangeIsKept(l: ListName, st: Entry, last: SentEntry, s: SentEntry, visible: set<string>)
    requires MergeEntry(l, Some(st), last, visible) == st && Canon(last) == Canon(s)
    ensures MergeEntry(l, Some(st), s, visible).f == st.f
    ensures !s.secret.Cleared? ==> MergeEntry(l, Some(st), s, visible).secret == st.secret
  {
  }

  lemma KeptByFields(e: DraftEntry, x: Entry, before: Entry, after: Entry)
    requires x.f == after.f && (Clears(e) || x.secret == after.secret)
    ensures KeptOver(e, x, before, after)
  {
  }

  // ------------------------------------------------------------- a copy, on the way

  /**
   * Whether a copy of an entry is safe on the way: it is in the part the entry is to be
   * in, or that part is written first; or the form read it there, so that it is held there
   * till the last write, unless another of its id is being moved in over it.
   */
  predicate SafeCopy(d: Draft, e: DraftEntry, c: PartName) {
    c == PartFor(e.onlyMe) || First(d) == PartFor(e.onlyMe) || (e.from == Some(c) && !TwinIn(d, e))
  }

  lemma CopyOnTheWay(m: Made, d: Draft, visible: set<string>, e: DraftEntry, c: PartName, n: nat)
    requires Apart(d.entries) && Agrees(m, visible) && Ends(d, e) && ShownToMove(e) && 1 <= n < |Plan(d)|
    requires At(m.vault, c, e.list, e.id).Some? && SafeCopy(d, e, c)
    ensures var u := Reached(m, d, visible, n).vault;
      var q := PartFor(e.onlyMe);
      var before := At(m.vault, c, e.list, e.id).value;
      var after := At(Saved(m, d, visible), q, e.list, e.id);
      && after.Some? && StoredOver(u, e, before, after.value)
      && (c == q || At(m.vault, q, e.list, e.id).None? ==> StoredSomewhere(u, e.list, e.id, before, after.value))
  {
    hide AnyMovesInto, BuildPart, Holding, Do, Plan, NoChange, MergeEntry, FindSent, Find, Reached, Agrees, Apart, EntryOut, TakenOver, Saved,
      KeptAs, KeptOver, StoredSomewhere, StoredOver, TwinIn, ShownToMove, PartSent, Canon;
    var q := PartFor(e.onlyMe);
    var u := Reached(m, d, visible, n).vault;
    var before := At(m.vault, c, e.list, e.id).value;
    SavedOf(m, d, visible, e);
    var after := At(Saved(m, d, visible), q, e.list, e.id).value;
    KeptWhole(before, after);
    InItsPart(m, d, visible, e, n);
    if At(u, q, e.list, e.id) == Some(after) || c == q {
      Somewhere(u, q, e, before, after);
    } else if First(d) == q {
      NotYetChanged(m, d, visible, e, c);
      SomewhereOver(u, q, e, before, after);
    } else {
      MovesOut(d, e);
      HeldOnItsWay(m, d, visible, e, n);
    }
  }

  lemma KeptWhole(before: Entry, after: Entry)
    ensures KeptAs(before, before, after) && KeptAs(after, before, after)
  {
  }

  /** The part it moves into written first, and no change to it: it has another of its id, as it will be. */
  lemma NotYetChanged(m: Made, d: Draft, visible: set<string>, e: DraftEntry, c: PartName)
    requires Apart(d.entries) && Agrees(m, visible) && Ends(d, e)
    requires At(m.vault, c, e.list, e.id).Some? && First(d) == PartFor(e.onlyMe)
    requires |Plan(d)| > 0 && NoChange(m.last.Of(First(d)), Plan(d)[0].fields)
    ensures var q := PartFor(e.onlyMe);
      var st := At(m.vault, q, e.list, e.id);
      var after := At(Saved(m, d, visible), q, e.list, e.id);
      && st.Some? && after.Some? && KeptOver(e, st.value, At(m.vault, c, e.list, e.id).value, after.value)
  {
    hide AnyMovesInto, BuildPart, Holding, Plan, NoChange, FindSent, Find, Agrees, Apart, EntryOut, TakenOver, Saved, KeptOver, Canon, MergeEntry,
      PartSent;
    var q := PartFor(e.onlyMe);
    PlanShape(d);
    LastSent(m, d, e);
    SavedOf(m, d, visible, e);
    AgreesAt(m, visible, q, e.list, e.id);
    NoChangeAt(m.last.Of(q), Plan(d)[0].fields, e.list, e.id);
    var st := At(m.vault, q, e.list, e.id).value;
    NoChangeIsKept(e.list, st, FindSent(m.last.Of(q).lists.Of(e.list), e.id).value, EntryOut(e, q).value, visible);
    if EntryOut(e, q).value.secret.Cleared? {
      ClearedClears(e, q);
    }
    KeptByFields(e, st, At(m.vault, c, e.list, e.id).value, At(Saved(m, d, visible), q, e.list, e.id).value);
  }

  /** Read from Only me and on its way out of it: held there meanwhile. */
  lemma HeldOnItsWay(m: Made, d: Draft, visible: set<string>, e: DraftEntry, n: nat)
    requires Apart(d.entries) && Agrees(m, visible) && Ends(d, e) && ShownToMove(e) && 1 <= n < |Plan(d)|
    requires EntryMovesInto(e, Shared) && BothWays(d) && !TwinIn(d, e) && At(m.vault, OnlyMe, e.list, e.id).Some?
    ensures var u := Reached(m, d, visible, n).vault;
      var before := At(m.vault, OnlyMe, e.list, e.id).value;
      var after := At(Saved(m, d, visible), Shared, e.list, e.id);
      && after.Some? && StoredOver(u, e, before, after.value)
      && (At(m.vault, Shared, e.list, e.id).None? ==> StoredSomewhere(u, e.list, e.id, before, after.value))
  {
    hide AnyMovesInto, BothWays, BuildPart, Holding, Do, Plan, NoChange, MergeEntry, FindSent, Find, Reached, Agrees, Apart, EntryOut, TakenOver, Saved,
      KeptAs, KeptOver, StoredSomewhere, StoredOver, TwinIn, ShownToMove, EntryMovesInto;
    var u := Reached(m, d, visible, n).vault;
    var before := At(m.vault, OnlyMe, e.list, e.id).value;
    HeldInOnlyMe(m, d, visible, e);
    HeldWrite(m, d, visible, e);
    var after := At(Saved(m, d, visible), Shared, e.list, e.id).value;
    KeptWhole(before, after);
    OnTheWay(m, d, visible, OnlyMe, e.list, e.id);
    OnTheWay(m, d, visible, Shared, e.list, e.id);
    if n == 2 {
      Somewhere(u, Shared, e, before, after);
    } else if At(u, OnlyMe, e.list, e.id) == Some(before) || At(m.vault, Shared, e.list, e.id).None? {
      Somewhere(u, OnlyMe, e, before, after);
    } else {
      SomewhereOver(u, OnlyMe, e, before, after);
    }
  }

  /** Only me, after the first of three writes: as it had it, or as that write sends it. */
  lemma HeldInOnlyMe(m: Made, d: Draft, visible: set<string>, e: DraftEntry)
    requires Apart(d.entries) && EntryMovesInto(e, Shared) && BothWays(d) && !TwinIn(d, e) && Ends(d, e)
    ensures |Plan(d)| == 3
    ensures var x := At(Reached(m, d, visible, 1).vault, OnlyMe, e.list, e.id);
      || x == At(m.vault, OnlyMe, e.list, e.id)
      || x == MergeOpt(e.list, At(m.vault, OnlyMe, e.list, e.id), EntryOut(e.(onlyMe := true), OnlyMe), visible)
  {
    hide AnyMovesInto, BuildPart, Holding, Do, Plan, NoChange, MergeEntry, FindSent, Find, Reached, Apart, EntryOut, TakenOver, TwinIn;
    PlanShape(d);
    OnTheWay(m, d, visible, OnlyMe, e.list, e.id);
    HeldAt(d, e);
  }

  lemma MovesOut(d: Draft, e: DraftEntry)
    requires e in d.entries && e.from.Some? && e.from.value != PartFor(e.onlyMe)
    ensures AnyMovesInto(d, PartFor(e.onlyMe)) && EntryMovesInto(e, PartFor(e.onlyMe))
    ensures First(d) == e.from.value ==> PartFor(e.onlyMe) == Shared && e.from == Some(OnlyMe) && BothWays(d)
  {
    assert EntryMovesInto(e, PartFor(e.onlyMe));
    TwoParts(Shared, e.from.value, PartFor(e.onlyMe));
  }

  /** What is held against what the shared part will have, whether its write changes it or not. */
  lemma HeldWrite(m: Made, d: Draft, visible: set<string>, e: DraftEntry)
    requires Apart(d.entries) && Agrees(m, visible) && Ends(d, e) && ShownToMove(e) && EntryMovesInto(e, Shared)
    requires At(m.vault, OnlyMe, e.list, e.id).Some?
    ensures var before := At(m.vault, OnlyMe, e.list, e.id).value;
      var after := At(Saved(m, d, visible), Shared, e.list, e.id);
      && EntryOut(e.(onlyMe := true), OnlyMe).Some? && after.Some?
      && var x := MergeEntry(e.list, Some(before), EntryOut(e.(onlyMe := true), OnlyMe).value, visible);
         KeptOver(e, x, before, after.value) && (At(m.vault, Shared, e.list, e.id).None? ==> KeptAs(x, before, after.value))
  {
    hide BuildPart, Holding, NoChange, MergeEntry, FindSent, Find, Agrees, Apart, EntryOut, TakenOver, Saved, Canon,
      KeptAs, KeptOver, ShownToMove, PartSent, LastOf;
    var there := At(m.vault, Shared, e.list, e.id);
    var before := At(m.vault, OnlyMe, e.list, e.id).value;
    SavedOf(m, d, visible, e);
    HeldIsKept(e, before, there, visible);
    if !PartSent(m, d, Shared) {
      LastSent(m, d, e);
      AgreesAt(m, visible, Shared, e.list, e.id);
      NotSentAgrees(m, d, Shared, e.list, e.id);
      var s := EntryOut(e, Shared).value;
      NoChangeIsKept(e.list, there.value, FindSent(m.last.shared.lists.Of(e.list), e.id).value, s, visible);
      if s.secret.Cleared? {
        ClearedClears(e, Shared);
      }
      UnsentIsKept(e, MergeEntry(e.list, Some(before), EntryOut(e.(onlyMe := true), OnlyMe).value, visible), before,
                   MergeEntry(e.list, there, s, visible), there.value);
    }
  }

  lemma NotSentAgrees(m: Made, d: Draft, p: PartName, l: ListName, id: string)
    requires !PartSent(m, d, p)
    ensures CanonOpt(FindSent(m.last.Of(p).lists.Of(l), id)) == CanonOpt(FindSent(LastOf(m, d, p).lists.Of(l), id))
  {
    NoChangeAt(m.last.Of(p), LastOf(m, d, p), l, id);
  }

  /** A part not written has what is kept as it would be written. */
  lemma UnsentIsKept(e: DraftEntry, x: Entry, before: Entry, written: Entry, there: Entry)
    requires KeptOver(e, x, before, written) && written.f == there.f && (Clears(e) || written.secret == there.secret)
    ensures KeptOver(e, x, before, there)
  {
  }

  /** Stopped after any of its writes, a save has a safe copy still stored, or the entry as it is to be. */
  lemma CopySurvives(m: Made, d: Draft, visible: set<string>, e: DraftEntry, c: PartName, k: nat)
    requires Apart(d.entries) && Agrees(m, visible) && Ends(d, e) && ShownToMove(e) && k <= |SaveSteps(m, d)|
    requires At(m.vault, c, e.list, e.id).Some? && SafeCopy(d, e, c)
    ensures var u := After(m, d, visible, k).vault;
      var before := At(m.vault, c, e.list, e.id).value;
      var after := At(Saved(m, d, visible), PartFor(e.onlyMe), e.list, e.id);
      && after.Some? && StoredOver(u, e, before, after.value)
      && (c == PartFor(e.onlyMe) || At(m.vault, PartFor(e.onlyMe), e.list, e.id).None? ==>
            StoredSomewhere(u, e.list, e.id, before, after.value))
  {
    hide BuildPart, Holding, Plan, NoChange, FindSent, Find, Reached, Agrees, Apart, EntryOut, TakenOver, Saved, After, SaveSteps,
      KeptAs, KeptOver, StoredSomewhere, StoredOver, TwinIn, ShownToMove, SafeCopy, MergeEntry, PartSent;
    var n := StoppedIsReached(m, d, visible, k);
    SavedOf(m, d, visible, e);
    var u := After(m, d, visible, k).vault;
    var before := At(m.vault, c, e.list, e.id).value;
    var after := At(Saved(m, d, visible), PartFor(e.onlyMe), e.list, e.id).value;
    KeptWhole(before, after);
    if n == 0 {
      ReachedSteps(m, d, visible);
      Somewhere(u, c, e, before, after);
    } else if n == |Plan(d)| {
      AllIsSaved(m, d, visible, k);
      Somewhere(u, PartFor(e.onlyMe), e, before, after);
    } else {
      CopyOnTheWay(m, d, visible, e, c, n);
    }
  }

  lemma AllIsSaved(m: Made, d: Draft, visible: set<string>, k: nat)
    requires k == |SaveSteps(m, d)|
    ensures After(m, d, visible, k).vault == Saved(m, d, visible)
  {
    hide SaveSteps;
    assert SaveSteps(m, d)[..k] == SaveSteps(m, d);
  }

  // ------------------------------------------------------------- never stored nowhere

  /** The only one of its id in the draft. */
  predicate Alone(d: Draft, e: DraftEntry) {
    forall x :: x in d.entries && x.list == e.list && x.id == e.id ==> x == e
  }

  /** Where an entry is, for one in neither of its own part: the part it is in, or else the other. */
  function CopyIn(m: Made, e: DraftEntry): PartName {
    if At(m.vault, PartFor(e.onlyMe), e.list, e.id).Some? then PartFor(e.onlyMe) else Other(PartFor(e.onlyMe))
  }

  /**
   * What a press of Save can tell beforehand: the part the entry is to be in has it, or is
   * written first, or the form read it from the other.
   */
  predicate SafeOnTheWay(m: Made, d: Draft, e: DraftEntry) {
    var q := PartFor(e.onlyMe);
    At(m.vault, q, e.list, e.id).Some? || First(d) == q || e.from == Some(Other(q))
  }

  /** An entry the first write does not send is, after it, not in that part; and the other is as it was. */
  lemma FirstDropsIt(m: Made, d: Draft, visible: set<string>, l: ListName, id: string)
    requires Agrees(m, visible) && At(m.vault, First(d), l, id).Some?
    requires |Plan(d)| > 0 && FindSent(Plan(d)[0].fields.lists.Of(l), id).None?
    ensures |SaveSteps(m, d)| >= 1
    ensures At(After(m, d, visible, 1).vault, First(d), l, id).None?
    ensures At(After(m, d, visible, 1).vault, Other(First(d)), l, id) == At(m.vault, Other(First(d)), l, id)
  {
    hide BuildPart, Holding, Plan, NoChange, FindSent, Find, Reached, Agrees, After, SaveSteps, AnyMovesInto;
    ComingIsSent(m, visible, First(d), Plan(d)[0].fields, l, id);
    FirstStepTaken(m, d, visible);
    OnTheWay(m, d, visible, First(d), l, id);
    OnTheWay(m, d, visible, Other(First(d)), l, id);
  }

  /** An entry moved back, or added here, and still only where it was first saved: the first write, of that part, does not send it. */
  lemma FirstDoesNotSend(d: Draft, e: DraftEntry)
    requires Apart(d.entries) && e in d.entries && Alone(d, e)
    requires First(d) != PartFor(e.onlyMe) && e.from != Some(Other(PartFor(e.onlyMe)))
    ensures |Plan(d)| > 0 && FindSent(Plan(d)[0].fields.lists.Of(e.list), e.id).None?
  {
    hide BuildPart, Holding, FindSent, Apart;
    PlanShape(d);
    TwoParts(First(d), PartFor(e.onlyMe), Shared);
    if BothWays(d) {
      HeldNone(d, e.list, e.id);
    } else {
      FindNotBuilt(d, First(d), e.list, e.id);
    }
  }

  /**
   * Safety on the way: whatever was written before, an entry that is stored, and that the
   * finished save still holds, is in one of the two parts wherever the save is stopped, as
   * it was or as it will be, if and only if it is safe on the way.
   */
  lemma NeverStoredNowhere(m: Made, d: Draft, visible: set<string>, e: DraftEntry)
    requires Apart(d.entries) && Agrees(m, visible) && Ends(d, e) && ShownToMove(e) && Alone(d, e)
    requires At(m.vault, CopyIn(m, e), e.list, e.id).Some?
    ensures At(Saved(m, d, visible), PartFor(e.onlyMe), e.list, e.id).Some?
    ensures var before := At(m.vault, CopyIn(m, e), e.list, e.id).value;
      var after := At(Saved(m, d, visible), PartFor(e.onlyMe), e.list, e.id).value;
      (forall k: nat :: k <= |SaveSteps(m, d)| ==> StoredSomewhere(After(m, d, visible, k).vault, e.list, e.id, before, after))
      <==> SafeOnTheWay(m, d, e)
  {
    hide BuildPart, Holding, Plan, NoChange, FindSent, Find, Agrees, Apart, EntryOut, TakenOver, Saved, After, SaveSteps,
      KeptAs, StoredSomewhere, ShownToMove, Alone, Ends, First, StoredOver;
    var q, c := PartFor(e.onlyMe), CopyIn(m, e);
    AloneNoTwin(d, e);
    if SafeOnTheWay(m, d, e) {
      forall k: nat | k <= |SaveSteps(m, d)|
        ensures At(Saved(m, d, visible), q, e.list, e.id).Some?
        ensures StoredSomewhere(After(m, d, visible, k).vault, e.list, e.id, At(m.vault, c, e.list, e.id).value,
                                At(Saved(m, d, visible), q, e.list, e.id).value)
      {
        CopySurvives(m, d, visible, e, c, k);
      }
      CopySurvives(m, d, visible, e, c, 0);
    } else {
      TwoParts(q, First(d), c);
      EndsIs(d, e);
      FirstDoesNotSend(d, e);
      FirstDropsIt(m, d, visible, e.list, e.id);
      SavedOf(m, d, visible, e);
      NotThere(After(m, d, visible, 1).vault, e, At(m.vault, c, e.list, e.id).value, At(Saved(m, d, visible), q, e.list, e.id).value);
      assert 1 <= |SaveSteps(m, d)|;
    }
  }

  lemma EndsIs(d: Draft, e: DraftEntry)
    requires Ends(d, e)
    ensures e in d.entries
  {
  }

  lemma AloneNoTwin(d: Draft, e: DraftEntry)
    requires Alone(d, e)
    ensures !TwinIn(d, e)
  {
  }

  lemma NotThere(v: Vault, e: DraftEntry, before: Entry, after: Entry)
    requires forall p: PartName :: At(v, p, e.list, e.id).None?
    ensures !StoredSomewhere(v, e.list, e.id, before, after)
  {
  }

  /** A first save is always safe: what moves was read from the other part. */
  lemma FirstIsSafe(v: Vault, who: Editor, d: Draft, e: DraftEntry)
    requires Ready(v, who, d) && e in d.entries && e.from.Some?
    ensures At(v, e.from.value, e.list, e.id).Some? && SafeOnTheWay(Start(v, who), d, e) && ShownToMove(e)
  {
    assert EntryOk(v, who.visible, e);
    TwoParts(PartFor(e.onlyMe), e.from.value, PartFor(e.onlyMe));
  }

  // ------------------------------------------------------------- one id in both parts

  /** Its entry leaving Only me for the shared part, while another of its id comes the other way. */
  predicate Swapped(d: Draft, e: DraftEntry) {
    EntryMovesInto(e, Shared) && TwinIn(d, e)
  }

  /** Told apart by their fields from what another of the id has, and is sent with. */
  predicate ToldApart(v: Vault, e: DraftEntry, x: DraftEntry)
    requires At(v, OnlyMe, e.list, e.id).Some? && EntryOut(e, Shared).Some? && EntryOut(x, OnlyMe).Some?
  {
    var own := At(v, OnlyMe, e.list, e.id).value.f;
    var out := EntryOut(e, Shared).value.f;
    var twin := EntryOut(x, OnlyMe).value.f;
    && twin != own && twin != out
    && (At(v, Shared, e.list, e.id).Some? ==> At(v, Shared, e.list, e.id).value.f != own && At(v, Shared, e.list, e.id).value.f != out)
  }

  /** The first write puts the one moved in where Only me had the other; the shared part has not got that yet. */
  lemma SwappedIdIsStoredNowhere(m: Made, d: Draft, visible: set<string>, e: DraftEntry, x: DraftEntry)
    requires Apart(d.entries) && Agrees(m, visible) && Ends(d, e) && Ends(d, x) && EntryMovesInto(e, Shared)
    requires x != e && x.list == e.list && x.id == e.id && x.onlyMe
    requires At(m.vault, OnlyMe, e.list, e.id).Some? && ToldApart(m.vault, e, x)
    ensures |SaveSteps(m, d)| >= 1 && At(Saved(m, d, visible), Shared, e.list, e.id).Some?
    ensures var before := At(m.vault, OnlyMe, e.list, e.id).value;
      !StoredOver(After(m, d, visible, 1).vault, e, before, At(Saved(m, d, visible), Shared, e.list, e.id).value)
  {
    hide BuildPart, Holding, Plan, NoChange, FindSent, Find, Agrees, Apart, EntryOut, TakenOver, Saved, After, SaveSteps,
      StoredOver, First, Reached, MergeEntry, PartSent, AnyMovesInto, Ends, EntryMovesInto, BothWays;
    EndsIs(d, e);
    EndsIs(d, x);
    TwinMovesIn(d, e, x);
    SwapSends(m, d, visible, e, x);
    SwapIsAChange(m, d, visible, e, x);
    FirstStepTaken(m, d, visible);
    OnTheWay(m, d, visible, OnlyMe, e.list, e.id);
    OnTheWay(m, d, visible, Shared, e.list, e.id);
    SentFields(e.list, At(m.vault, OnlyMe, e.list, e.id), EntryOut(x, OnlyMe).value, visible);
    SavedFields(m, d, visible, e);
    NoneAsIts(After(m, d, visible, 1).vault, e, At(m.vault, OnlyMe, e.list, e.id).value,
              At(Saved(m, d, visible), Shared, e.list, e.id).value);
  }

  lemma SwapSends(m: Made, d: Draft, visible: set<string>, e: DraftEntry, x: DraftEntry)
    requires Apart(d.entries) && Ends(d, x) && BothWays(d) && x.onlyMe && x.list == e.list && x.id == e.id && EntryMovesInto(e, Shared)
    ensures |Plan(d)| > 0 && FindSent(Plan(d)[0].fields.lists.Of(e.list), e.id) == EntryOut(x, OnlyMe)
    ensures EntryOut(x, OnlyMe).Some? && PartFor(e.onlyMe) == Shared
  {
    hide BuildPart, Holding, Plan, FindSent, Apart, EntryOut, TakenOver, AnyMovesInto, BothWays;
    PlanShape(d);
    LastSent(m, d, x);
  }

  lemma SwapIsAChange(m: Made, d: Draft, visible: set<string>, e: DraftEntry, x: DraftEntry)
    requires Agrees(m, visible) && At(m.vault, OnlyMe, e.list, e.id).Some? && EntryOut(x, OnlyMe).Some?
    requires EntryOut(x, OnlyMe).value.f != At(m.vault, OnlyMe, e.list, e.id).value.f
    requires |Plan(d)| > 0 && FindSent(Plan(d)[0].fields.lists.Of(e.list), e.id) == EntryOut(x, OnlyMe)
    ensures !NoChange(m.last.onlyMe, Plan(d)[0].fields)
  {
    hide Plan, NoChange, FindSent, Find, Agrees, EntryOut, MergeEntry, Canon;
    AgreesAt(m, visible, OnlyMe, e.list, e.id);
    var last := FindSent(m.last.onlyMe.lists.Of(e.list), e.id);
    SentFields(e.list, At(m.vault, OnlyMe, e.list, e.id), last.value, visible);
    if NoChange(m.last.onlyMe, Plan(d)[0].fields) {
      NoChangeAt(m.last.onlyMe, Plan(d)[0].fields, e.list, e.id);
      SameCanonSameFields(last.value, EntryOut(x, OnlyMe).value);
    }
  }

  lemma TwinMovesIn(d: Draft, e: DraftEntry, x: DraftEntry)
    requires Apart(d.entries) && e in d.entries && x in d.entries && EntryMovesInto(e, Shared)
    requires x != e && x.list == e.list && x.id == e.id && x.onlyMe
    ensures First(d) == OnlyMe && BothWays(d) && x.from == Some(Shared)
  {
    ApartTwo(d.entries, e, x);
    TwoParts(OnlyMe, e.from.value, x.from.value);
    assert EntryMovesInto(x, OnlyMe);
  }

  lemma SentFields(l: ListName, before: Option<Entry>, s: SentEntry, visible: set<string>)
    ensures MergeEntry(l, before, s, visible).f == s.f
  {
  }

  lemma SameCanonSameFields(s: SentEntry, t: SentEntry)
    ensures Canon(s) == Canon(t) ==> s.f == t.f
  {
  }

  /** The fields a finished save leaves of an entry are those it is sent with, whether its part is written or not. */
  lemma SavedFields(m: Made, d: Draft, visible: set<string>, e: DraftEntry)
    requires Apart(d.entries) && Agrees(m, visible) && Ends(d, e)
    ensures var now := At(Saved(m, d, visible), PartFor(e.onlyMe), e.list, e.id);
      now.Some? && now.value.f == EntryOut(e, PartFor(e.onlyMe)).value.f
  {
    hide BuildPart, Holding, NoChange, FindSent, Find, Agrees, Apart, EntryOut, TakenOver, Saved, MergeEntry, PartSent, LastOf, Canon;
    var q := PartFor(e.onlyMe);
    SavedOf(m, d, visible, e);
    SentFields(e.list, At(m.vault, q, e.list, e.id), EntryOut(e, q).value, visible);
    if !PartSent(m, d, q) {
      LastSent(m, d, e);
      AgreesAt(m, visible, q, e.list, e.id);
      NotSentAgrees(m, d, q, e.list, e.id);
      var last := FindSent(m.last.Of(q).lists.Of(e.list), e.id).value;
      SameCanonSameFields(last, EntryOut(e, q).value);
      SentFields(e.list, At(m.vault, q, e.list, e.id), last, visible);
    }
  }

  lemma NoneAsIts(v: Vault, e: DraftEntry, before: Entry, after: Entry)
    requires forall p: PartName :: At(v, p, e.list, e.id).Some? ==>
      At(v, p, e.list, e.id).value.f != before.f && At(v, p, e.list, e.id).value.f != after.f
    ensures !StoredOver(v, e, before, after)
  {
  }

  /**
   * A record with one id in both parts, saved: an entry of it, if the two are told apart,
   * survives every stop if and only if it is not swapped with the other.
   */
  lemma SurvivesUnlessSwapped(v: Vault, who: Editor, d: Draft, e: DraftEntry)
    requires Ready(v, who, d) && Ends(d, e) && e.from.Some?
    requires forall x :: x in d.entries && x != e && x.list == e.list && x.id == e.id && x.onlyMe && EntryMovesInto(e, Shared) ==>
      EntryOut(x, OnlyMe).Some? && At(v, OnlyMe, e.list, e.id).Some? && ToldApart(v, e, x)
    ensures At(v, e.from.value, e.list, e.id).Some? && At(Saved(Start(v, who), d, who.visible), PartFor(e.onlyMe), e.list, e.id).Some?
    ensures var m := Start(v, who);
      var before := At(v, e.from.value, e.list, e.id).value;
      var after := At(Saved(m, d, who.visible), PartFor(e.onlyMe), e.list, e.id).value;
      (forall k: nat :: k <= |SaveSteps(m, d)| ==> StoredOver(After(m, d, who.visible, k).vault, e, before, after))
      <==> !Swapped(d, e)
  {
    FirstIsSafe(v, who, d, e);
    ReadyApart(v, who, d);
    hide Plan, NoChange, Find, Agrees, Apart, EntryOut, Saved, After, SaveSteps, StoredOver, First, Ready, Start, ToldApart, StoredSomewhere,
      ShownToMove, SafeCopy;
    var m := Start(v, who);
    assert m.vault == v by {
      StartIs(v, who);
    }
    SavedOf(m, d, who.visible, e);
    if Swapped(d, e) {
      var x :| x in d.entries && x != e && x.list == e.list && x.id == e.id && x.onlyMe;
      TwinEnds(d, e, x);
      SwappedIdIsStoredNowhere(m, d, who.visible, e, x);
    } else {
      NotSwappedIsSafe(d, e);
      forall k: nat | k <= |SaveSteps(m, d)|
        ensures StoredOver(After(m, d, who.visible, k).vault, e, At(v, e.from.value, e.list, e.id).value,
                           At(Saved(m, d, who.visible), PartFor(e.onlyMe), e.list, e.id).value)
      {
        CopySurvives(m, d, who.visible, e, e.from.value, k);
      }
    }
  }

  lemma StartIs(v: Vault, who: Editor)
    ensures Start(v, who).vault == v
  {
  }

  lemma TwinEnds(d: Draft, e: DraftEntry, x: DraftEntry)
    requires Apart(d.entries) && e in d.entries && x in d.entries && EntryMovesInto(e, Shared)
    requires x != e && x.list == e.list && x.id == e.id && x.onlyMe && EntryOut(x, OnlyMe).Some?
    ensures Ends(d, x)
  {
    ApartTwo(d.entries, e, x);
  }

  lemma NotSwappedIsSafe(d: Draft, e: DraftEntry)
    requires Apart(d.entries) && Ends(d, e) && e.from.Some? && !Swapped(d, e)
    ensures SafeCopy(d, e, e.from.value)
  {
    var c, q := e.from.value, PartFor(e.onlyMe);
    if c != q && First(d) != q {
      MovesOut(d, e);
      TwoParts(q, First(d), c);
    }
  }

  // ------------------------------------------------------------- texts

  lemma NoChangeTextAt(was: SentPart, now: SentPart, k: TextKey)
    requires NoChange(was, now)
    ensures TextOf(was.texts, k) == TextOf(now.texts, k)
  {
  }

  /** What a part has of a field after the first write, and both after the second of three. */
  lemma TextsOnTheWay(m: Made, d: Draft, visible: set<string>, p: PartName, k: TextKey)
    requires Agrees(m, visible)
    ensures |Plan(d)| == (if BothWays(d) then 3 else 2) && Plan(d)[0].part == First(d)
    ensures TextAt(Reached(m, d, visible, 1).vault, p, k)
         == if p == First(d) then TextOf(Plan(d)[0].fields.texts, k) else TextAt(m.vault, p, k)
    ensures BothWays(d) ==>
      TextAt(Reached(m, d, visible, 2).vault, p, k)
      == if p == OnlyMe then TextAt(Reached(m, d, visible, 1).vault, p, k) else TextOf(BuildPart(d, Shared).texts, k)
  {
    AgreesText(m, visible, p, k);
    hide AnyMovesInto, BuildPart, Holding, Do, Plan, Reached, Agrees, TextOf, TextAt;
    PlanShape(d);
    ReachedSteps(m, d, visible);
    StepTexts(m, Plan(d)[0], visible, p, k);
    StepTexts(Do(m, Plan(d)[0], visible), Plan(d)[1], visible, p, k);
  }

  /** The only one of its key in the draft. */
  predicate AloneText(d: Draft, t: DraftText) {
    forall x :: x in d.texts && x.key == t.key ==> x == t
  }

  lemma TextSent(d: Draft, t: DraftText)
    requires t in d.texts && OneTextEach(d.texts)
    ensures TextOf(BuildPart(d, PartFor(t.onlyMe)).texts, t.key) == TextOut(t.key, t.value)
  {
    TextBuilt(d.texts, PartFor(t.onlyMe), t);
  }

  function HeldText(t: DraftText): DraftText {
    if TextMovesInto(t, Shared) then t.(onlyMe := true) else t
  }

  lemma HeldTextFrom(d: Draft, h: DraftText) returns (t: DraftText)
    requires h in Holding(d).texts
    ensures t in d.texts && h == HeldText(t)
  {
    var i :| 0 <= i < |d.texts| && Holding(d).texts[i] == h;
    t := d.texts[i];
  }

  /** Two fields of one key stay in the parts they were read from, so Only me holds one of each on the way too. */
  ghost predicate TwinsStay(texts: seq<DraftText>) {
    && OneTextEach(texts)
    && forall i, j :: 0 <= i < |texts| && 0 <= j < |texts| && i != j && texts[i].key == texts[j].key ==>
         texts[i].from == Some(PartFor(texts[i].onlyMe))
  }

  lemma HeldOneEach(d: Draft)
    requires TwinsStay(d.texts)
    ensures OneTextEach(Holding(d).texts)
  {
    var texts, held := d.texts, HoldTexts(d.texts);
    forall i, j | 0 <= i < j < |held|
      ensures held[i].key != held[j].key || held[i].onlyMe != held[j].onlyMe
    {
      if texts[i].key == texts[j].key {
        assert texts[i].from == Some(PartFor(texts[i].onlyMe)) && texts[j].from == Some(PartFor(texts[j].onlyMe));
      }
    }
  }

  lemma TextHeld(d: Draft, t: DraftText)
    requires TwinsStay(d.texts) && t in d.texts && (t.onlyMe || TextMovesInto(t, Shared))
    ensures TextOf(BuildPart(Holding(d), OnlyMe).texts, t.key) == TextOut(t.key, t.value)
  {
    HeldOneEach(d);
    var i :| 0 <= i < |d.texts| && d.texts[i] == t;
    assert Holding(d).texts[i] in Holding(d).texts;
    TextBuilt(Holding(d).texts, OnlyMe, Holding(d).texts[i]);
  }

  /** As it was, where it was; or as it will be. */
  predicate TextKept(v: Vault, before: Vault, t: DraftText, c: PartName) {
    || TextAt(v, c, t.key) == TextAt(before, c, t.key)
    || TextAt(v, Shared, t.key) == TextOut(t.key, t.value)
    || TextAt(v, OnlyMe, t.key) == TextOut(t.key, t.value)
  }

  function TextCopyIn(v: Vault, t: DraftText): PartName {
    if TextAt(v, PartFor(t.onlyMe), t.key).Some? then PartFor(t.onlyMe) else Other(PartFor(t.onlyMe))
  }

  predicate SafeText(m: Made, d: Draft, t: DraftText) {
    var q := PartFor(t.onlyMe);
    TextAt(m.vault, q, t.key).Some? || First(d) == q || t.from == Some(Other(q))
  }

  lemma TextMovesOut(d: Draft, t: DraftText)
    requires t in d.texts && t.from.Some? && t.from.value != PartFor(t.onlyMe) && TextOut(t.key, t.value).Some?
    ensures AnyMovesInto(d, PartFor(t.onlyMe)) && TextMovesInto(t, PartFor(t.onlyMe))
    ensures First(d) == t.from.value ==> PartFor(t.onlyMe) == Shared && t.from == Some(OnlyMe) && BothWays(d)
  {
    assert TextMovesInto(t, PartFor(t.onlyMe));
    TwoParts(Shared, t.from.value, PartFor(t.onlyMe));
  }

  /** In the part it is to be in: as it was or as it will be, the last once that part was written first. */
  lemma TextInItsPart(m: Made, d: Draft, visible: set<string>, t: DraftText, n: nat)
    requires Agrees(m, visible) && TwinsStay(d.texts) && t in d.texts && 1 <= n < |Plan(d)|
    ensures var q := PartFor(t.onlyMe);
      var x := TextAt(Reached(m, d, visible, n).vault, q, t.key);
      && (x == TextAt(m.vault, q, t.key) || x == TextOut(t.key, t.value))
      && (q == First(d) || n == 2 ==> x == TextOut(t.key, t.value))
  {
    hide AnyMovesInto, BuildPart, Holding, Plan, Reached, Agrees, TextOf, TextAt, TextOut, TwinsStay;
    TwinsAreOneEach(d);
    TextSent(d, t);
    PlanShape(d);
    TextsOnTheWay(m, d, visible, PartFor(t.onlyMe), t.key);
    if t.onlyMe {
      TextHeld(d, t);
    }
  }

  lemma TwinsAreOneEach(d: Draft)
    requires TwinsStay(d.texts)
    ensures OneTextEach(d.texts)
  {
  }

  lemma TextOnTheWay(m: Made, d: Draft, visible: set<string>, t: DraftText, n: nat)
    requires Agrees(m, visible) && TwinsStay(d.texts) && t in d.texts && TextOut(t.key, t.value).Some? && SafeText(m, d, t)
    requires 1 <= n < |Plan(d)|
    ensures TextKept(Reached(m, d, visible, n).vault, m.vault, t, TextCopyIn(m.vault, t))
  {
    hide AnyMovesInto, BuildPart, Holding, Plan, Reached, Agrees, TextOf, TextAt, TextOut, TwinsStay, BothWays;
    var q := PartFor(t.onlyMe);
    TextInItsPart(m, d, visible, t, n);
    if TextCopyIn(m.vault, t) != q && First(d) != q {
      TwoParts(q, First(d), t.from.value);
      TextMovesOut(d, t);
      TextsOnTheWay(m, d, visible, OnlyMe, t.key);
      TextHeld(d, t);
      PlanShape(d);
    }
  }

  lemma FirstDoesNotSendText(d: Draft, t: DraftText)
    requires t in d.texts && AloneText(d, t) && First(d) != PartFor(t.onlyMe) && t.from != Some(Other(PartFor(t.onlyMe)))
    ensures |Plan(d)| > 0 && TextOf(Plan(d)[0].fields.texts, t.key).None?
  {
    PlanShape(d);
    TwoParts(First(d), PartFor(t.onlyMe), Shared);
    hide Plan, AnyMovesInto, BuildList;
    if BothWays(d) {
      forall h | h in Holding(d).texts && PartFor(h.onlyMe) == OnlyMe
        ensures h.key != t.key
      {
        var x := HeldTextFrom(d, h);
      }
      hide Holding;
      NoTextBuilt(Holding(d).texts, OnlyMe, t.key);
    } else {
      NoTextBuilt(d.texts, First(d), t.key);
    }
  }

  /** And so with every field of one value: as it was where it was, or as it will be, if and only if it is safe on the way. */
  lemma TextNeverStoredNowhere(m: Made, d: Draft, visible: set<string>, t: DraftText)
    requires Agrees(m, visible) && TwinsStay(d.texts) && t in d.texts && AloneText(d, t) && TextOut(t.key, t.value).Some?
    requires TextAt(m.vault, TextCopyIn(m.vault, t), t.key).Some?
    ensures (forall k: nat :: k <= |SaveSteps(m, d)| ==> TextKept(After(m, d, visible, k).vault, m.vault, t, TextCopyIn(m.vault, t)))
       <==> SafeText(m, d, t)
  {
    hide AnyMovesInto, BuildPart, Holding, Plan, Reached, Agrees, TextOf, TextAt, TextOut, TwinsStay, TextKept, AloneText, After, SaveSteps,
      First, Do, NoChange, Saved;
    var c := TextCopyIn(m.vault, t);
    if SafeText(m, d, t) {
      forall k: nat | k <= |SaveSteps(m, d)|
        ensures TextKept(After(m, d, visible, k).vault, m.vault, t, c)
      {
        TextSurvives(m, d, visible, t, k);
      }
    } else {
      TwoParts(PartFor(t.onlyMe), First(d), c);
      FirstDoesNotSendText(d, t);
      AgreesText(m, visible, c, t.key);
      if NoChange(m.last.Of(c), Plan(d)[0].fields) {
        NoChangeTextAt(m.last.Of(c), Plan(d)[0].fields, t.key);
        assert false;
      }
      FirstStepTaken(m, d, visible);
      forall p: PartName
        ensures TextAt(After(m, d, visible, 1).vault, p, t.key).None?
      {
        TwoParts(c, PartFor(t.onlyMe), p);
        TextsOnTheWay(m, d, visible, p, t.key);
      }
      assert 1 <= |SaveSteps(m, d)|;
      TextGone(After(m, d, visible, 1).vault, m.vault, t, c);
    }
  }

  lemma TextGone(v: Vault, before: Vault, t: DraftText, c: PartName)
    requires forall p: PartName :: TextAt(v, p, t.key).None?
    requires TextAt(before, c, t.key).Some? && TextOut(t.key, t.value).Some?
    ensures !TextKept(v, before, t, c)
  {
  }

  lemma TextSurvives(m: Made, d: Draft, visible: set<string>, t: DraftText, k: nat)
    requires Agrees(m, visible) && TwinsStay(d.texts) && t in d.texts && TextOut(t.key, t.value).Some? && SafeText(m, d, t)
    requires k <= |SaveSteps(m, d)|
    ensures TextKept(After(m, d, visible, k).vault, m.vault, t, TextCopyIn(m.vault, t))
  {
    hide AnyMovesInto, BuildPart, Holding, Plan, Reached, Agrees, TextOf, TextAt, TextOut, TwinsStay, After, SaveSteps, Saved, First;
    var n := StoppedIsReached(m, d, visible, k);
    ReachedSteps(m, d, visible);
    if n == |Plan(d)| {
      AllIsSaved(m, d, visible, k);
      TextEnds(m, d, visible, t);
    } else if n > 0 {
      TextOnTheWay(m, d, visible, t, n);
    }
  }

  /** A finished save leaves it as it is to be, whatever is left over. */
  lemma TextEnds(m: Made, d: Draft, visible: set<string>, t: DraftText)
    requires Agrees(m, visible) && TwinsStay(d.texts) && t in d.texts
    ensures TextAt(Saved(m, d, visible), PartFor(t.onlyMe), t.key) == TextOut(t.key, t.value)
  {
    SavedTexts(m, d, visible, PartFor(t.onlyMe), t.key);
    TextSent(d, t);
    if t.onlyMe {
      TextHeld(d, t);
    }
    hide BuildPart, Holding, Saved, TextOut, TextOf, TextAt, Agrees, TwinsStay, LeftOver;
  }

  lemma ReadyTwinsStay(v: Vault, who: Editor, d: Draft)
    requires Ready(v, who, d)
    ensures TwinsStay(d.texts)
  {
  }

  /** A first save is always safe. */
  lemma FirstTextIsSafe(v: Vault, who: Editor, d: Draft, t: DraftText)
    requires Ready(v, who, d) && t in d.texts && t.from.Some?
    ensures SafeText(Start(v, who), d, t)
  {
    assert TextOk(v, t);
    TwoParts(PartFor(t.onlyMe), t.from.value, PartFor(t.onlyMe));
  }

  // ------------------------------------------------------------- tried again

  lemma NoChangeOfItself(s: SentPart)
    ensures NoChange(s, s)
  {
  }

  lemma DoneAlready(m: Made, s: Step, visible: set<string>)
    ensures NoChange(Do(m, s, visible).last.Of(s.part), s.fields)
  {
    NoChangeOfItself(s.fields);
  }

  lemma DoneIsSkipped(m: Made, s: Step, visible: set<string>)
    requires NoChange(m.last.Of(s.part), s.fields)
    ensures Do(m, s, visible) == m
  {
  }

  lemma RetryOfTwo(a: Step, b: Step, m: Made, visible: set<string>, k: nat)
    requires a.part != b.part && k <= |Changing([a, b], m.last)|
    ensures var t := Take(Changing([a, b], m.last)[..k], m, visible);
      Take(Changing([a, b], t.last), t, visible) == Do(Do(m, a, visible), b, visible)
  {
    var t := Take(Changing([a, b], m.last)[..k], m, visible);
    StatesOfTwo(a, b, m, visible, k);
    hide NoChange, Take, Changing, Do;
    StatesOfTwo(a, b, t, visible, 0);
    if t != m {
      DoneAlready(m, a, visible);
      var one := Do(m, a, visible);
      DoLast(one, b, visible);
      DoneAlready(one, b, visible);
      DoneIsSkipped(t, a, visible);
      if t != one {
        DoneIsSkipped(t, b, visible);
      }
    }
  }

  lemma RetryAfterFirst(a: Step, b: Step, c: Step, t: Made, visible: set<string>)
    requires a.part == c.part == OnlyMe && b.part == Shared
    requires NoChange(t.last.onlyMe, a.fields)
    ensures Take(Changing([a, b, c], t.last), t, visible) == Do(Do(t, b, visible), c, visible)
  {
    hide NoChange, Take, Do;
    ChangingThree(a, b, c, t.last);
    hide Changing;
    StatesOfTwo(b, c, t, visible, 0);
    assert [] + Changing([b, c], t.last) == Changing([b, c], t.last);
  }

  lemma RetryOfThree(a: Step, b: Step, c: Step, m: Made, visible: set<string>, k: nat)
    requires a.part == c.part == OnlyMe && b.part == Shared
    requires k < |Changing([a, b, c], m.last)|
    ensures var t := Take(Changing([a, b, c], m.last)[..k], m, visible);
      Take(Changing([a, b, c], t.last), t, visible)
      == if t == m then Take(Changing([a, b, c], m.last), m, visible) else Do(Do(Do(m, a, visible), b, visible), c, visible)
  {
    var t := Take(Changing([a, b, c], m.last)[..k], m, visible);
    StatesOfThree(a, b, c, m, visible, k);
    hide NoChange, Take, Changing, Do;
    if t != m {
      var one := Do(m, a, visible);
      DoneAlready(m, a, visible);
      DoneAlready(one, b, visible);
      DoLast(one, b, visible);
      if t == one {
        RetryAfterFirst(a, b, c, one, visible);
      } else {
        RetryAfterFirst(a, b, c, t, visible);
        DoneIsSkipped(t, b, visible);
      }
    }
  }

  /**
   * A save refused on the way and made again of the same draft ends where one that was
   * never refused ends, if that leaves nothing over: what was written is no change, and
   * the rest is written.
   */
  lemma TriedAgainFinishes(m: Made, d: Draft, visible: set<string>, k: nat)
    requires k < |SaveSteps(m, d)| && !LeftOver(m, d)
    ensures Saved(After(m, d, visible, k), d, visible) == Saved(m, d, visible)
  {
    hide AnyMovesInto, BuildPart, Holding, Plan, Do, NoChange, Take, Changing, Reached;
    var n := StoppedIsReached(m, d, visible, k);
    PlanShape(d);
    ReachedSteps(m, d, visible);
    if BothWays(d) {
      RetryOfThree(HoldStep(d), StepOf(d, Shared), StepOf(d, OnlyMe), m, visible, k);
    } else {
      RetryOfTwo(StepOf(d, First(d)), StepOf(d, Other(First(d))), m, visible, k);
    }
  }
}
