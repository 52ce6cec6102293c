/**
 * Runs of the form that end where a save loses something: an edit carried on after a save
 * of it was refused part of the way.
 */
module IdentityFound {
  import opened Text
  import opened IdentityVault
  import opened IdentityDraft
  import opened IdentityParts
  import opened IdentityReading
  import opened IdentitySave
  import opened IdentityWhole
  import opened IdentityStopped
  import opened IdentityValues
  import opened IdentityFrame
  import opened IdentityForm

  // ------------------------------------------------------------- one entry moved

  /** The draft with one entry moved: that one as `AfterMove` leaves it, the rest as they were. */
  predicate MovedOnly(d: Draft, e: DraftEntry, c: DraftEntry, t: Draft) {
    && t.texts == d.texts && c in t.entries
    && (forall x :: x in d.entries && x.uid != e.uid ==> x in t.entries)
    && (forall y :: y in t.entries ==> y == c || (y in d.entries && y.uid != e.uid))
  }

  lemma MoveMoves(d: Draft, e: DraftEntry, onlyMe: bool, got: Asked)
    requires DistinctUids(d.entries) && e in d.entries
    ensures MovedOnly(d, e, AfterMove(e, onlyMe, got), Done(d, Move(e.uid, onlyMe, got)))
  {
    hide AfterMove;
    var op := Move(e.uid, onlyMe, got);
    var now := ChangeEntries(d.entries, e.uid, op);
    var i :| 0 <= i < |d.entries| && d.entries[i] == e;
    assert now[i] == AfterMove(e, onlyMe, got);
    forall x | x in d.entries && x.uid != e.uid
      ensures x in now
    {
      var j :| 0 <= j < |d.entries| && d.entries[j] == x;
      assert now[j] == x;
    }
    forall y | y in now
      ensures y == AfterMove(e, onlyMe, got) || (y in d.entries && y.uid != e.uid)
    {
      var j :| 0 <= j < |now| && now[j] == y;
      assert d.entries[j] in d.entries;
      if d.entries[j].uid == e.uid {
        assert j == i;
      }
    }
  }

  lemma MayMove(s: Session, e: DraftEntry, onlyMe: bool, got: Asked)
    requires DistinctUids(s.draft.entries) && e in s.draft.entries && Truthful(s.made.vault, e, got)
    ensures May(s, Does(Move(e.uid, onlyMe, got)))
  {
    forall x | x in s.draft.entries && x.uid == e.uid
      ensures x == e
    {
      var i :| 0 <= i < |s.draft.entries| && s.draft.entries[i] == e;
      var j :| 0 <= j < |s.draft.entries| && s.draft.entries[j] == x;
      assert i == j;
    }
  }

  // ------------------------------------------------------------- an ID read, and moved

  /** What is asked for is answered as the vault has it. */
  function Truly(v: Vault, e: DraftEntry): Asked
    requires e.from.Some?
  {
    Answer(Reveal(v.PartOf(e.from.value), e.list, e.id))
  }

  /** An ID of a record, as its draft first has it. */
  predicate JustRead(v: Vault, visible: set<string>, p: PartName, e: DraftEntry) {
    && e.list == Ids && At(v, p, Ids, e.id).Some?
    && e == EntryFrom(Ids, At(v, p, Ids, e.id).value, p, visible, e.uid)
  }

  lemma MovedId(v: Vault, visible: set<string>, p: PartName, e: DraftEntry, onlyMe: bool)
    requires WellKept(v) && JustRead(v, visible, p, e)
    ensures e.from == Some(p) && e.onlyMe == (p == OnlyMe) && Truthful(v, e, Truly(v, e))
    ensures var c := AfterMove(e, onlyMe, Truly(v, e));
      SameName(c, e) && c.onlyMe == onlyMe && EntryOut(c, PartFor(onlyMe)).Some?
    ensures At(v, p, Ids, e.id).value.secret.Some? ==>
      var c := AfterMove(e, onlyMe, Truly(v, e));
      var value := At(v, p, Ids, e.id).value.secret.value;
      c.masked && c.known == Some(value) && c.shownInField && Typed(c) == value && value != ""
  {
    NormalAt(v, p, Ids, e.id);
    EntryFromNames(Ids, At(v, p, Ids, e.id).value, p, visible, e.uid);
    var c := AfterMove(e, onlyMe, Truly(v, e));
    MoveKeepsName(e, onlyMe, Truly(v, e));
    ReadIsSent(c, PartFor(onlyMe));
    if At(v, p, Ids, e.id).value.secret.Some? {
      TrimmedTrims(At(v, p, Ids, e.id).value.secret.value);
    }
    hide EntryOut, Find, NormalField;
  }

  /** Moved back, its value shown as it was known: it is left out of what is sent. */
  lemma MovedBackLeavesItOut(e: DraftEntry, value: string)
    requires e.list == Ids && e.masked && e.known == Some(value) && Typed(e) == value && value != "" && Trimmed(value) && e.from == Some(Shared)
    ensures var c := AfterMove(e, false, Refused);
      && c == e.(onlyMe := false) && EntryOut(c, Shared).Some? && EntryOut(c, Shared).value.secret.Left?
  {
    TrimmedTrims(value);
    hide FieldsOut;
  }

  // ------------------------------------------------------------- two IDs, each on its way to the other part

  /** A draft in which one ID leaves Only me for the shared part, and another comes the other way. */
  ghost predicate Crossing(v: Vault, d: Draft, a: DraftEntry, b: DraftEntry) {
    && Apart(d.entries) && a in d.entries && b in d.entries && a.list == b.list == Ids && a.id != b.id
    && EntryMovesInto(a, Shared) && EntryMovesInto(b, OnlyMe) && Alone(d, a) && Alone(d, b)
    && EntryOut(a, Shared).Some? && EntryOut(b, OnlyMe).Some?
    && At(v, OnlyMe, Ids, a.id).Some? && At(v, Shared, Ids, a.id).None?
    && At(v, Shared, Ids, b.id).Some? && At(v, OnlyMe, Ids, b.id).None?
  }

  lemma AloneSent(d: Draft, e: DraftEntry)
    requires Apart(d.entries) && e in d.entries && Alone(d, e)
    ensures SentAt(d, PartFor(e.onlyMe), e.list, e.id) == EntryOut(e, PartFor(e.onlyMe))
    ensures SentAt(d, Other(PartFor(e.onlyMe)), e.list, e.id).None?
    ensures e.onlyMe ==> SentAt(Holding(d), OnlyMe, e.list, e.id) == SentAt(d, OnlyMe, e.list, e.id)
  {
    hide EntryOut, SentAt, Holding, Apart;
    assert !TakenOver(d, e);
    FindBuilt(d, e);
    FindNotBuilt(d, Other(PartFor(e.onlyMe)), e.list, e.id);
    if e.onlyMe {
      assert InPart(d, OnlyMe, e.list, e.id);
      HeldAgrees(d, e.list, e.id);
    }
  }

  lemma AllThree(a: Step, b: Step, c: Step, last: Written)
    requires !NoChange(last.Of(a.part), a.fields) && !NoChange(last.Of(b.part), b.fields) && !NoChange(last.Of(c.part), c.fields)
    ensures Changing([a, b, c], last) == [a, b, c]
  {
    hide NoChange;
    ChangingThree(a, b, c, last);
    ChangingTwo(b, c, last);
  }

  /** What the writes send of the two. */
  lemma CrossingSends(v: Vault, d: Draft, a: DraftEntry, b: DraftEntry)
    requires Crossing(v, d, a, b)
    ensures BothWays(d)
    ensures SentAt(Holding(d), OnlyMe, Ids, b.id) == EntryOut(b, OnlyMe) && EntryOut(b, OnlyMe).Some?
    ensures SentAt(d, Shared, Ids, a.id).Some? && SentAt(d, OnlyMe, Ids, a.id).None? && SentAt(d, Shared, Ids, b.id).None?
  {
    hide SentAt, Holding, EntryOut, Find, Apart, Alone, BothWays, AnyMovesInto;
    AloneSent(d, a);
    AloneSent(d, b);
    BothMove(d, a, b);
  }

  lemma BothMove(d: Draft, a: DraftEntry, b: DraftEntry)
    requires a in d.entries && b in d.entries && EntryMovesInto(a, Shared) && EntryMovesInto(b, OnlyMe)
    ensures BothWays(d)
  {
  }

  /** All three writes are changes; the third refused, the second ID is in Only me alone, with its value. */
  lemma ThirdRefused(m: Made, d: Draft, visible: set<string>, a: DraftEntry, b: DraftEntry)
    requires Agrees(m, visible) && Crossing(m.vault, d, a, b)
    ensures |SaveSteps(m, d)| == 3
    ensures At(After(m, d, visible, 2).vault, Shared, Ids, b.id).None?
    ensures At(After(m, d, visible, 2).vault, OnlyMe, Ids, b.id) == Some(MergeEntry(Ids, None, EntryOut(b, OnlyMe).value, visible))
  {
    CrossingSends(m.vault, d, a, b);
    CrossingThere(m.vault, d, a, b);
    hide BuildPart, Holding, EntryOut, NoChange, Find, FindSent, Agrees, Apart, Plan, After, SaveSteps, Reached, Saved, LeftOver, MergeEntry,
      Crossing, BothWays;
    PlanShape(d);
    ComingIsSent(m, visible, OnlyMe, BuildPart(Holding(d), OnlyMe), Ids, b.id);
    ComingIsSent(m, visible, Shared, BuildPart(d, Shared), Ids, a.id);
    ComingIsSent(m, visible, OnlyMe, BuildPart(d, OnlyMe), Ids, a.id);
    AllSteps(m, d, visible);
    OnTheWay(m, d, visible, Shared, Ids, b.id);
    OnTheWay(m, d, visible, OnlyMe, Ids, b.id);
    SentIsStored(m, d, visible, Shared, Ids, b.id);
  }

  lemma CrossingThere(v: Vault, d: Draft, a: DraftEntry, b: DraftEntry)
    requires Crossing(v, d, a, b)
    ensures Apart(d.entries)
    ensures At(v, OnlyMe, Ids, a.id).Some? && At(v, Shared, Ids, a.id).None?
    ensures At(v, Shared, Ids, b.id).Some? && At(v, OnlyMe, Ids, b.id).None?
  {
    hide Find, Apart, Alone, EntryOut;
  }

  lemma AllSteps(m: Made, d: Draft, visible: set<string>)
    requires BothWays(d) && !NoChange(m.last.onlyMe, BuildPart(Holding(d), OnlyMe))
    requires !NoChange(m.last.shared, BuildPart(d, Shared)) && !NoChange(m.last.onlyMe, BuildPart(d, OnlyMe))
    ensures SaveSteps(m, d) == Plan(d) && |Plan(d)| == 3 && After(m, d, visible, 2) == Reached(m, d, visible, 2)
  {
    hide BuildPart, Holding, NoChange, AnyMovesInto, Plan, Take;
    PlanShape(d);
    AllThree(HoldStep(d), StepOf(d, Shared), StepOf(d, OnlyMe), m.last);
  }

  // ------------------------------------------------------------- the run

  lemma {:induction false} RunMore(s: Session, who: Editor, events: seq<Event>, t: Session, e: Event)
    requires Run(s, who, events, t) && May(t, e)
    ensures Run(s, who, events + [e], Next(t, who, e))
    decreases |events|
  {
    hide May, Next;
    if events == [] {
      assert ([] + [e])[1..] == [];
    } else {
      assert (events + [e])[1..] == events[1..] + [e];
      RunMore(Next(s, who, events[0]), who, events[1..], t, e);
    }
  }

  lemma NoRun(s: Session, who: Editor)
    ensures Run(s, who, [], s)
  {
  }

  /** An ID that was being moved into Only me when a save was refused, and was then put back: it is in Only me alone. */
  predicate PutBack(s: Session, e: DraftEntry, value: string) {
    && e in s.draft.entries && e.list == Ids && e.from == Some(Shared) && !e.onlyMe && e.masked && Typed(e) == value && value != ""
    && EntryOut(e, Shared).Some? && EntryOut(e, Shared).value.secret.Left?
    && At(s.made.vault, Shared, Ids, e.id).None?
    && At(s.made.vault, OnlyMe, Ids, e.id).Some? && At(s.made.vault, OnlyMe, Ids, e.id).value.secret == Some(value)
  }

  lemma ReadAlone(v: Vault, who: Editor, e: DraftEntry)
    requires Healthy(v) && e in DraftFrom(v, who).entries
    ensures Alone(DraftFrom(v, who), e)
  {
    hide DraftFrom, WellKept, Find;
    DraftFromOk(v, who);
    assert Apart(DraftFrom(v, who).entries) by {
      ReadyApart(v, who, DraftFrom(v, who));
    }
    forall x | x in DraftFrom(v, who).entries && x.list == e.list && x.id == e.id
      ensures x == e
    {
      ReadIsStoredInRecord(v, who, x);
      ReadIsStoredInRecord(v, who, e);
      if x != e {
        ApartTwo(DraftFrom(v, who).entries, e, x);
      }
    }
  }

  lemma ReadId(v: Vault, who: Editor, p: PartName, id: string) returns (e: DraftEntry)
    requires At(v, p, Ids, id).Some?
    ensures e in DraftFrom(v, who).entries && e.id == id && JustRead(v, who.visible, p, e)
  {
    hide DraftFrom, EntryFrom, Find;
    e := StoredIsInDraft(v, who, p, Ids, id);
  }

  lemma MovedAlone(d: Draft, e: DraftEntry, c: DraftEntry, t: Draft, x: DraftEntry, y: DraftEntry)
    requires MovedOnly(d, e, c, t) && SameName(c, e) && e in d.entries && x in d.entries && Alone(d, x)
    requires y in t.entries && y.list == x.list && y.id == x.id
    ensures Alone(t, y) && (x == e ==> y == c) && (x.uid != e.uid ==> y == x)
  {
  }

  /** The two on their way: each moved in turn, in the draft just read. */
  lemma Cross(v: Vault, who: Editor, a: string, b: string) returns (events: seq<Event>, t: Session, x: DraftEntry, y: DraftEntry)
    requires Healthy(v) && a != b && At(v, OnlyMe, Ids, a).Some? && At(v, Shared, Ids, b).Some? && At(v, Shared, Ids, b).value.secret.Some?
    ensures Run(Opened(v, who), who, events, t) && t.made == Start(v, who)
    ensures Crossing(v, t.draft, x, y) && x.id == a && y.id == b && y.from == Some(Shared)
    ensures var value := At(v, Shared, Ids, b).value.secret.value;
      y.masked && y.known == Some(value) && y.shownInField && Typed(y) == value && value != "" && Trimmed(value)
    ensures forall z :: z in DraftFrom(v, who).entries && (z.list != Ids || (z.id != a && z.id != b)) ==> z in t.draft.entries
  {
    hide DraftFrom, Start, Find, AfterMove, EntryOut, Done, Alone, Apart, MovedOnly, WellKept, May, EntryFrom, Truthful;
    var s := Opened(v, who);
    var x0 := ReadId(v, who, OnlyMe, a);
    var y0 := ReadId(v, who, Shared, b);
    MovedId(v, who.visible, OnlyMe, x0, false);
    MovedId(v, who.visible, Shared, y0, true);
    StartIs(v, who);
    OpenedUids(v, who);
    ReadAlone(v, who, x0);
    ReadAlone(v, who, y0);
    MayMove(s, x0, false, Truly(v, x0));
    MoveMoves(s.draft, x0, false, Truly(v, x0));
    x := AfterMove(x0, false, Truly(v, x0));
    var s1 := Next(s, who, Does(Move(x0.uid, false, Truly(v, x0))));
    RunMore(s, who, [], s, Does(Move(x0.uid, false, Truly(v, x0))));
    events := [] + [Does(Move(x0.uid, false, Truly(v, x0)))];
    RunUids(v, who, events, s1);
    OthersUids(s.draft, x0, y0);
    StillThere(s.draft, x0, x, s1.draft, y0);
    MovedAlone(s.draft, x0, x, s1.draft, x0, x);
    MovedAlone(s.draft, x0, x, s1.draft, y0, y0);
    MayMove(s1, y0, true, Truly(v, y0));
    MoveMoves(s1.draft, y0, true, Truly(v, y0));
    y := AfterMove(y0, true, Truly(v, y0));
    t := Next(s1, who, Does(Move(y0.uid, true, Truly(v, y0))));
    RunMore(s, who, events, s1, Does(Move(y0.uid, true, Truly(v, y0))));
    events := events + [Does(Move(y0.uid, true, Truly(v, y0)))];
    RunUids(v, who, events, t);
    OthersUids(s1.draft, y0, x);
    StillThere(s1.draft, y0, y, t.draft, x);
    MovedAlone(s1.draft, y0, y, t.draft, x, x);
    MovedAlone(s1.draft, y0, y, t.draft, y0, y);
    OnlyThere(v, a, b);
    forall z | z in DraftFrom(v, who).entries && (z.list != Ids || (z.id != a && z.id != b))
      ensures z in t.draft.entries
    {
      OthersUids(s.draft, x0, z);
      StillThere(s.draft, x0, x, s1.draft, z);
      OthersUids(s1.draft, y0, z);
      StillThere(s1.draft, y0, y, t.draft, z);
    }
    NormalNumber(v, b);
  }

  lemma NormalNumber(v: Vault, b: string)
    requires WellKept(v) && At(v, Shared, Ids, b).Some? && At(v, Shared, Ids, b).value.secret.Some?
    ensures Trimmed(At(v, Shared, Ids, b).value.secret.value)
  {
    NormalAt(v, Shared, Ids, b);
  }

  lemma OnlyThere(v: Vault, a: string, b: string)
    requires Healthy(v) && At(v, OnlyMe, Ids, a).Some? && At(v, Shared, Ids, b).Some?
    ensures At(v, Shared, Ids, a).None? && At(v, OnlyMe, Ids, b).None?
  {
    hide WellKept, Find;
  }

  lemma StillThere(d: Draft, e: DraftEntry, c: DraftEntry, t: Draft, x: DraftEntry)
    requires MovedOnly(d, e, c, t) && x in d.entries && x.uid != e.uid
    ensures x in t.entries && c in t.entries
  {
  }

  lemma OthersUids(d: Draft, e: DraftEntry, x: DraftEntry)
    requires DistinctUids(d.entries) && e in d.entries && x in d.entries && x != e
    ensures x.uid != e.uid
  {
  }

  lemma OpenedUids(v: Vault, who: Editor)
    requires WellKept(v)
    ensures DistinctUids(DraftFrom(v, who).entries)
  {
    ReadyApart(v, who, DraftFrom(v, who)) by {
      DraftFromOk(v, who);
    }
    ApartUids(DraftFrom(v, who).entries);
  }

  lemma RunUids(v: Vault, who: Editor, events: seq<Event>, t: Session)
    requires WellKept(v) && Run(Opened(v, who), who, events, t)
    ensures DistinctUids(t.draft.entries) && Apart(t.draft.entries) && Agrees(t.made, who.visible)
  {
    hide Run, WellKept, Opened;
    EditKept(v, who, events, t);
    KeptApart(t, who);
    ApartUids(t.draft.entries);
  }

  /**
   * Reached from any well-kept record with an ID in Only me and a masked one in the shared
   * part: both moved, the third of the save's writes refused, and the second put back.
   */
  lemma PutBackIsReached(v: Vault, who: Editor, a: string, b: string) returns (events: seq<Event>, t: Session, e: DraftEntry)
    requires Healthy(v) && a != b && At(v, OnlyMe, Ids, a).Some? && At(v, Shared, Ids, b).Some? && At(v, Shared, Ids, b).value.secret.Some?
    ensures Run(Opened(v, who), who, events, t) && e.id == b && PutBack(t, e, At(v, Shared, Ids, b).value.secret.value) && Alone(t.draft, e)
    ensures forall z :: z in DraftFrom(v, who).entries && (z.list != Ids || (z.id != a && z.id != b)) ==> z in t.draft.entries
  {
    hide DraftFrom, Start, Find, AfterMove, EntryOut, Done, Alone, Apart, MovedOnly, WellKept, EntryFrom, SaveSteps, After, MayDo, MergeEntry,
      Typed, Healthy, Opened, Agrees, Run;
    var s := Opened(v, who);
    var x, y;
    events, t, x, y := Cross(v, who, a, b);
    var value := At(v, Shared, Ids, b).value.secret.value;
    IsWellKept(v);
    StartIs(v, who);
    RunUids(v, who, events, t);
    ThirdRefused(t.made, t.draft, who.visible, x, y);
    SentWhole(y, value, who.visible);
    var s1 := Next(t, who, SaveRefusedAfter(2));
    RunMore(s, who, events, t, SaveRefusedAfter(2));
    events := events + [SaveRefusedAfter(2)];
    MayMove(s1, y, false, Refused);
    MoveMoves(s1.draft, y, false, Refused);
    MovedBackLeavesItOut(y, value);
    e := AfterMove(y, false, Refused);
    var u := Next(s1, who, Does(Move(y.uid, false, Refused)));
    RunMore(s, who, events, s1, Does(Move(y.uid, false, Refused)));
    events := events + [Does(Move(y.uid, false, Refused))];
    MovedIn(s1.draft, y, e, u.draft);
    MovedAlone(s1.draft, y, e, u.draft, y, e);
    SameTyped(y);
    forall z | z in DraftFrom(v, who).entries && (z.list != Ids || (z.id != a && z.id != b))
      ensures z in u.draft.entries
    {
      OthersUids(s1.draft, y, z);
      StillThere(s1.draft, y, e, u.draft, z);
    }
    t := u;
  }

  lemma MovedIn(d: Draft, e: DraftEntry, c: DraftEntry, t: Draft)
    requires MovedOnly(d, e, c, t)
    ensures c in t.entries
  {
  }

  lemma SameTyped(e: DraftEntry)
    ensures Typed(e.(onlyMe := false)) == Typed(e)
  {
  }

  lemma IsWellKept(v: Vault)
    requires Healthy(v)
    ensures WellKept(v)
  {
  }

  lemma SentWhole(e: DraftEntry, value: string, visible: set<string>)
    requires e.list == Ids && e.masked && e.from == Some(Shared) && e.onlyMe && Typed(e) == value && value != ""
    ensures EntryOut(e, OnlyMe).Some?
    ensures MergeEntry(Ids, None, EntryOut(e, OnlyMe).value, visible).secret == Some(value)
  {
    hide FieldsOut, Typed;
  }

  /**
   * Found: put back after a save was refused at its third write, and saved again, an ID
   * loses its number: the shared part, which has no copy of it, is sent it with the number
   * left out, and Only me, which has the last, drops it.
   */
  lemma PutBackLosesTheNumber(v: Vault, who: Editor, a: string, b: string) returns (events: seq<Event>, t: Session)
    requires Healthy(v) && a != b && At(v, OnlyMe, Ids, a).Some? && At(v, Shared, Ids, b).Some? && At(v, Shared, Ids, b).value.secret.Some?
    ensures Run(Opened(v, who), who, events, t)
    ensures At(t.made.vault, OnlyMe, Ids, b).Some? && At(t.made.vault, OnlyMe, Ids, b).value.secret == At(v, Shared, Ids, b).value.secret
    ensures var done := Saved(t.made, t.draft, who.visible);
      At(done, Shared, Ids, b).Some? && At(done, Shared, Ids, b).value.secret == None && At(done, OnlyMe, Ids, b).None?
  {
    hide Start, Find, EntryOut, Alone, Apart, WellKept, Run, Opened, Saved, Agrees, MergeEntry, PartSent, DraftFrom, Healthy, LastOf, FindSent,
      LeftOver, BuildPart, Holding;
    var e;
    events, t, e := PutBackIsReached(v, who, a, b);
    IsWellKept(v);
    RunUids(v, who, events, t);
    AloneNotTaken(t.draft, e);
    SavedOf(t.made, t.draft, who.visible, e);
    MergedSecret(Ids, None, EntryOut(e, Shared).value, who.visible);
    SentIsStored(t.made, t.draft, who.visible, OnlyMe, Ids, b);
    NotSentToOnlyMe(t.made, t.draft, e);
  }

  lemma AloneNotTaken(d: Draft, e: DraftEntry)
    requires Alone(d, e)
    ensures !TakenOver(d, e)
  {
  }

  lemma NotSentToOnlyMe(m: Made, d: Draft, e: DraftEntry)
    requires e in d.entries && Alone(d, e) && !e.onlyMe && e.from == Some(Shared)
    ensures FindSent(LastOf(m, d, OnlyMe).lists.Of(e.list), e.id).None?
  {
    hide BuildPart, Holding, FindSent, LeftOver;
    FindNotBuilt(d, OnlyMe, e.list, e.id);
    HeldNone(d, e.list, e.id);
  }

  /**
   * Found: and with a third ID moved into Only me in that second save, Only me is written
   * first, without the one put back; refused after that, the whole ID is stored nowhere.
   */
  lemma PutBackIsStoredNowhere(v: Vault, who: Editor, a: string, b: string, c: string) returns (events: seq<Event>, t: Session)
    requires Healthy(v) && a != b && c != a && c != b
    requires At(v, OnlyMe, Ids, a).Some? && At(v, Shared, Ids, c).Some?
    requires At(v, Shared, Ids, b).Some? && At(v, Shared, Ids, b).value.secret.Some?
    ensures Run(Opened(v, who), who, events, t)
    ensures At(t.made.vault, OnlyMe, Ids, b).Some? && At(Saved(t.made, t.draft, who.visible), Shared, Ids, b).Some?
    ensures |SaveSteps(t.made, t.draft)| >= 1
    ensures forall p: PartName :: At(After(t.made, t.draft, who.visible, 1).vault, p, Ids, b).None?
  {
    hide Start, Find, EntryOut, Alone, Apart, WellKept, Run, Opened, Saved, Agrees, MergeEntry, PartSent, DraftFrom, Healthy, LastOf, FindSent,
      LeftOver, BuildPart, Holding, AfterMove, Done, MovedOnly, EntryFrom, SaveSteps, After, Plan, Typed, Truthful;
    var e, s;
    events, s, e := PutBackIsReached(v, who, a, b);
    IsWellKept(v);
    var z := ReadId(v, who, Shared, c);
    RunUids(v, who, events, s);
    MovesIn(z);
    var got := AnswerNow(s, z);
    MayMove(s, z, true, got);
    MoveMoves(s.draft, z, true, got);
    var y := AfterMove(z, true, got);
    MoveKeepsName(z, true, got);
    MovedOver(z, v, who.visible, got);
    t := Next(s, who, Does(Move(z.uid, true, got)));
    RunMore(Opened(v, who), who, events, s, Does(Move(z.uid, true, got)));
    events := events + [Does(Move(z.uid, true, got))];
    RunUids(v, who, events, t);
    OthersUids(s.draft, z, e);
    StillThere(s.draft, z, y, t.draft, e);
    MovedAlone(s.draft, z, y, t.draft, e, e);
    FirstIsOnlyMe(t.draft, y);
    FirstDoesNotSend(t.draft, e);
    FirstDropsIt(t.made, t.draft, who.visible, Ids, b);
    forall p: PartName
      ensures At(After(t.made, t.draft, who.visible, 1).vault, p, Ids, b).None?
    {
      TwoParts(OnlyMe, Shared, p);
    }
    AloneNotTaken(t.draft, e);
    SavedOf(t.made, t.draft, who.visible, e);
  }

  /** What asking for its value would be answered now. */
  function AnswerNow(s: Session, e: DraftEntry): (got: Asked)
    requires e.from.Some?
    ensures Truthful(s.made.vault, e, got) && got.Answer?
  {
    Answer(Reveal(s.made.vault.PartOf(e.from.value), e.list, e.id))
  }

  lemma MovesIn(e: DraftEntry)
    requires exists v: Vault, visible: set<string> :: JustRead(v, visible, Shared, e)
    ensures e.from == Some(Shared) && e.list == Ids && !e.onlyMe
  {
    var v: Vault, visible: set<string> :| JustRead(v, visible, Shared, e);
    EntryFromNames(Ids, At(v, Shared, Ids, e.id).value, Shared, visible, e.uid);
  }

  lemma MovedOver(e: DraftEntry, v: Vault, visible: set<string>, got: Asked)
    requires e.list == Ids && e.from == Some(Shared) && got.Answer?
    ensures AfterMove(e, true, got).onlyMe
  {
  }

  lemma FirstIsOnlyMe(d: Draft, y: DraftEntry)
    requires y in d.entries && y.onlyMe && y.from == Some(Shared)
    ensures First(d) == OnlyMe
  {
    assert EntryMovesInto(y, OnlyMe);
  }

  /** And with only its first write made, a record read again has one id in both its parts. */
  lemma OneIdInBothParts(v: Vault, who: Editor, a: string, b: string) returns (events: seq<Event>, t: Session)
    requires Healthy(v) && a != b && At(v, OnlyMe, Ids, a).Some? && At(v, Shared, Ids, b).Some? && At(v, Shared, Ids, b).value.secret.Some?
    ensures Run(Opened(v, who), who, events, t) && !t.wrote && t.draft == DraftFrom(t.read, who)
    ensures forall p: PartName :: At(t.read, p, Ids, b).Some?
  {
    hide DraftFrom, Start, Find, EntryOut, Alone, Apart, WellKept, SaveSteps, After, MergeEntry, Healthy, Opened, Agrees, Run, Holding, BuildPart,
      Crossing, FindSent, NoChange, Plan, Reached, Saved, BothWays;
    var x, y, s;
    events, s, x, y := Cross(v, who, a, b);
    IsWellKept(v);
    StartIs(v, who);
    RunUids(v, who, events, s);
    CrossingSends(v, s.draft, x, y);
    CrossingThere(v, s.draft, x, y);
    ThirdRefused(s.made, s.draft, who.visible, x, y);
    ComingIsSent(s.made, who.visible, OnlyMe, BuildPart(Holding(s.draft), OnlyMe), Ids, b);
    PlanShape(s.draft);
    FirstStepTaken(s.made, s.draft, who.visible) by {
      BothWaysFirst(s.draft);
    }
    OnTheWay(s.made, s.draft, who.visible, Shared, Ids, b);
    OnTheWay(s.made, s.draft, who.visible, OnlyMe, Ids, b);
    BothWaysFirst(s.draft);
    var s1 := Next(s, who, SaveRefusedAfter(1));
    RunMore(Opened(v, who), who, events, s, SaveRefusedAfter(1));
    events := events + [SaveRefusedAfter(1)];
    RunWellKept(v, who, events, s1);
    t := Next(s1, who, Reads(s1.made.vault));
    RunMore(Opened(v, who), who, events, s1, Reads(s1.made.vault));
    events := events + [Reads(s1.made.vault)];
    OpenedIs(s1.made.vault, who);
    forall p: PartName
      ensures At(t.read, p, Ids, b).Some?
    {
      TwoParts(Shared, OnlyMe, p);
    }
  }

  lemma OpenedIs(v: Vault, who: Editor)
    ensures Opened(v, who) == Session(v, Start(v, who), DraftFrom(v, who), false)
  {
    hide Start, DraftFrom;
  }

  lemma BothWaysFirst(d: Draft)
    requires BothWays(d)
    ensures First(d) == OnlyMe
  {
  }

  lemma RunWellKept(v: Vault, who: Editor, events: seq<Event>, t: Session)
    requires WellKept(v) && Run(Opened(v, who), who, events, t)
    ensures WellKept(t.made.vault)
  {
    hide Run, WellKept, Opened;
    EditKept(v, who, events, t);
  }

  // ------------------------------------------------------------- left over

  predicate TextUids(texts: seq<DraftText>, from: nat, till: nat) {
    && (forall i :: 0 <= i < |texts| ==> from <= texts[i].uid < till)
    && forall i, j :: 0 <= i < j < |texts| ==> texts[i].uid != texts[j].uid
  }

  lemma {:induction false} ReadTextUids(texts: map<TextKey, TextValue>, part: PartName, keys: seq<TextKey>, uid: nat)
    ensures TextUids(TextsFrom(texts, part, keys, uid), uid, uid + |keys|)
    decreases |keys|
  {
    if keys != [] {
      ReadTextUids(texts, part, keys[1..], uid + 1);
    }
  }

  lemma {:induction false} MissingTextUids(have: seq<DraftText>, keys: seq<TextKey>, uid: nat)
    ensures TextUids(TextsMissing(have, keys, uid), uid, uid + |keys|)
    decreases |keys|
  {
    hide TextsMissing;
    if keys == [] {
      NoneMissing(have, uid);
    } else {
      MissingTextUids(have, keys[1..], uid + 1);
      NextMissing(have, keys, uid);
    }
  }

  lemma NoneMissing(have: seq<DraftText>, uid: nat)
    ensures TextsMissing(have, [], uid) == []
  {
  }

  lemma TextUidsConcat(a: seq<DraftText>, b: seq<DraftText>, from: nat, mid: nat, till: nat)
    requires TextUids(a, from, mid) && TextUids(b, mid, till) && from <= mid <= till
    ensures TextUids(a + b, from, till)
  {
  }

  lemma DraftTextUids(v: Vault, who: Editor)
    ensures TextUids(DraftFrom(v, who).texts, 0, 3 * |who.texts|)
  {
    hide TextsFrom, TextsMissing, ListsFrom, TextUids;
    var n := |who.texts|;
    var a := TextsFrom(v.shared.texts, Shared, who.texts, 0);
    var b := TextsFrom(v.onlyMe.texts, OnlyMe, who.texts, n);
    ReadTextUids(v.shared.texts, Shared, who.texts, 0);
    ReadTextUids(v.onlyMe.texts, OnlyMe, who.texts, n);
    MissingTextUids(a + b, who.texts, 2 * n);
    TextUidsConcat(a, b, 0, n, 2 * n);
    TextUidsConcat(a + b, TextsMissing(a + b, who.texts, 2 * n), 0, 2 * n, 3 * n);
  }

  /** The texts with the one at `i` replaced. */
  lemma ChangedAt(texts: seq<DraftText>, i: nat, op: Op)
    requires i < |texts| && (op.TypeText? || op.MoveText?) && op.uid == texts[i].uid
    requires forall j :: 0 <= j < |texts| && j != i ==> texts[j].uid != texts[i].uid
    ensures ChangeTexts(texts, op.uid, op) == texts[i := ChangeText(texts[i], op)]
  {
    hide ChangeText;
  }

  /** Neither of two fields is built into a part: put for one another, the part's texts are the same. */
  lemma {:induction false} NotBuiltEither(texts: seq<DraftText>, i: nat, t: DraftText, part: PartName)
    requires i < |texts|
    requires PartFor(t.onlyMe) != part || TextOut(t.key, t.value).None?
    requires PartFor(texts[i].onlyMe) != part || TextOut(texts[i].key, texts[i].value).None?
    ensures BuildTexts(texts[i := t], part) == BuildTexts(texts, part)
    decreases |texts|
  {
    hide TextOut;
    var n := |texts| - 1;
    var now := texts[i := t];
    if i == n {
      assert now[..n] == texts[..n];
    } else {
      assert now[..n] == texts[..n][i := t] && now[n] == texts[n];
      NotBuiltEither(texts[..n], i, t, part);
    }
  }

  lemma ReadTextAlone(v: Vault, who: Editor, k: TextKey) returns (i: nat)
    requires Healthy(v) && TextAt(v, OnlyMe, k).Some? && TextAt(v, Shared, k).None?
    ensures i < |DraftFrom(v, who).texts|
    ensures var t := DraftFrom(v, who).texts[i]; t.key == k && t.onlyMe && t.from == Some(OnlyMe)
    ensures forall j :: 0 <= j < |DraftFrom(v, who).texts| && j != i ==>
      DraftFrom(v, who).texts[j].key != k && DraftFrom(v, who).texts[j].uid != DraftFrom(v, who).texts[i].uid
  {
    hide DraftFrom, WellKept;
    TextsReadOk(v, who);
    DraftTextUids(v, who);
    var texts := DraftFrom(v, who).texts;
    assert TextThere(texts, OnlyMe, k);
    var t :| t in texts && t.key == k && t.from == Some(OnlyMe);
    i :| 0 <= i < |texts| && texts[i] == t;
    ReadTextIs(v, who, t);
    forall j | 0 <= j < |texts| && j != i
      ensures texts[j].key != k && texts[j].uid != t.uid
    {
      ReadTextIs(v, who, texts[j]);
    }
  }

  /** An emptied field and an ID moved in: both parts are written, Only me first. */
  lemma EmptiedSteps(m: Made, d: Draft, visible: set<string>, b: DraftEntry)
    requires Agrees(m, visible) && Apart(d.entries) && b in d.entries && Alone(d, b) && b.list == Ids && b.onlyMe && b.from == Some(Shared)
    requires EntryOut(b, OnlyMe).Some? && At(m.vault, OnlyMe, Ids, b.id).None? && At(m.vault, Shared, Ids, b.id).Some?
    requires !AnyMovesInto(d, Shared)
    ensures |SaveSteps(m, d)| == 2 && After(m, d, visible, 1).last == m.last.With(OnlyMe, BuildPart(d, OnlyMe))
  {
    hide BuildPart, Holding, EntryOut, NoChange, Find, FindSent, Agrees, Apart, Alone, Plan, After, SaveSteps, Reached, AnyMovesInto, Do;
    AloneSent(d, b);
    FirstIsOnlyMe(d, b);
    assert !BothWays(d);
    PlanShape(d);
    ComingIsSent(m, visible, OnlyMe, BuildPart(d, OnlyMe), Ids, b.id);
    ComingIsSent(m, visible, Shared, BuildPart(d, Shared), Ids, b.id);
    FirstStepTaken(m, d, visible);
    ReachedSteps(m, d, visible);
    DoLast(m, Plan(d)[0], visible);
    BothChange(m, d);
  }

  lemma BothChange(m: Made, d: Draft)
    requires Plan(d) == [StepOf(d, OnlyMe), StepOf(d, Shared)]
    requires !NoChange(m.last.onlyMe, BuildPart(d, OnlyMe)) && !NoChange(m.last.shared, BuildPart(d, Shared))
    ensures |SaveSteps(m, d)| == 2
  {
    hide BuildPart, NoChange, Plan;
    ChangingTwo(StepOf(d, OnlyMe), StepOf(d, Shared), m.last);
  }

  lemma SameEntriesSameLists(d: Draft, t: Draft, p: PartName)
    requires d.entries == t.entries && BuildTexts(d.texts, p) == BuildTexts(t.texts, p)
    ensures BuildPart(d, p) == BuildPart(t, p)
  {
    hide BuildTexts, Here, Items, Chosen;
  }

  lemma ReadNothingMoves(v: Vault, who: Editor)
    requires WellKept(v)
    ensures !AnyMovesInto(DraftFrom(v, who), Shared)
  {
    hide DraftFrom, WellKept, TextOut;
    forall e | e in DraftFrom(v, who).entries
      ensures !EntryMovesInto(e, Shared)
    {
      ReadIsStoredInRecord(v, who, e);
    }
    forall t | t in DraftFrom(v, who).texts
      ensures !TextMovesInto(t, Shared)
    {
      ReadTextIs(v, who, t);
    }
  }

  lemma StillNothingMoves(d: Draft, e: DraftEntry, c: DraftEntry, t: Draft)
    requires !AnyMovesInto(d, Shared) && MovedOnly(d, e, c, t) && c.onlyMe
    ensures !AnyMovesInto(t, Shared)
  {
  }

  lemma EmptyOut(k: TextKey)
    ensures TextOut(k, "").None? && (k != Nationalities ==> TextOut(k, "x").Some? && !Blank("x"))
  {
    NothingTyped(k);
    assert !IsSpace('x');
  }

  /** Typed again and moved to the shared part, after Only me was written without it: the third write is left out beforehand. */
  lemma RetypedIsLeftOver(m: Made, d: Draft, was: Draft, i: nat, b: DraftEntry)
    requires m.last.onlyMe == BuildPart(was, OnlyMe) && d.entries == was.entries && TwinsStay(d.texts)
    requires i < |was.texts| && was.texts[i].onlyMe && was.texts[i].from == Some(OnlyMe) && was.texts[i].value == ""
    requires d.texts == was.texts[i := was.texts[i].(value := "x", onlyMe := false)] && was.texts[i].key != Nationalities
    requires OneTextEach(was.texts) && b in d.entries && b.onlyMe && b.from == Some(Shared)
    ensures LeftOver(m, d)
  {
    hide BuildPart, Holding, NoChange, BuildTexts, TextOut, OneTextEach;
    var t := d.texts[i];
    EmptyOut(t.key);
    assert t in d.texts && TextMovesInto(t, Shared);
    assert EntryMovesInto(b, OnlyMe);
    assert BothWays(d) by {
      assert !Blank(t.value);
    }
    NotBuiltEither(was.texts, i, t, OnlyMe);
    SameEntriesSameLists(was, d, OnlyMe);
    NoChangeOfItself(m.last.onlyMe);
    TextHeld(d, t);
    assert was.texts[i] in was.texts;
    TextSent(was, was.texts[i]);
    if NoChange(m.last.onlyMe, BuildPart(Holding(d), OnlyMe)) {
      NoChangeTextAt(m.last.onlyMe, BuildPart(Holding(d), OnlyMe), t.key);
    }
  }

  /**
   * Found: an edit whose save was refused after Only me was written without a field, the
   * field then typed again and moved to the shared part, leaves it in Only me as well when
   * saved: the form meant it for the shared part alone.
   */
  lemma LeftOverIsReached(v: Vault, who: Editor, k: TextKey, b: string) returns (events: seq<Event>, t: Session)
    requires Healthy(v) && k != Nationalities && TextAt(v, OnlyMe, k).Some? && TextAt(v, Shared, k).None? && At(v, Shared, Ids, b).Some?
    ensures Run(Opened(v, who), who, events, t) && LeftOver(t.made, t.draft)
    ensures !AsTheFormSays(Saved(t.made, t.draft, who.visible), t.draft)
  {
    hide DraftFrom, Start, Find, EntryOut, Alone, Apart, WellKept, SaveSteps, After, MergeEntry, Healthy, Opened, Agrees, Run, Holding, BuildPart,
      FindSent, NoChange, Plan, Saved, BothWays, AnyMovesInto, AfterMove, MovedOnly, EntryFrom, Truthful, LeftOver, AsTheFormSays, TextAt, Next,
      TwinsStay, OneTextEach, MayDo;
    IsWellKept(v);
    var e0 := ReadId(v, who, Shared, b);
    MovedId(v, who.visible, Shared, e0, true);
    var s2, i, e;
    events, s2, i, e := EmptiedAndMoved(v, who, k, e0);
    EmptiedSteps(s2.made, s2.draft, who.visible, e);
    var s3 := Next(s2, who, SaveRefusedAfter(1));
    RefusedIs(s2, who, 1);
    RunMore(Opened(v, who), who, events, s2, SaveRefusedAfter(1));
    events := events + [SaveRefusedAfter(1)];
    var s4, s5;
    s4, s5 := Retyped(s3, who, i);
    RunMore(Opened(v, who), who, events, s3, Does(TypeText(s3.draft.texts[i].uid, "x")));
    events := events + [Does(TypeText(s3.draft.texts[i].uid, "x"))];
    RunMore(Opened(v, who), who, events, s4, Does(MoveText(s3.draft.texts[i].uid, false)));
    events := events + [Does(MoveText(s3.draft.texts[i].uid, false))];
    t := s5;
    RunUids(v, who, events, t);
    RunTexts(v, who, events, t);
    RetypedIsLeftOver(t.made, t.draft, s2.draft, i, e);
    SavedAsTheFormSays(t.made, t.draft, who.visible);
  }

  lemma RefusedIs(s: Session, who: Editor, k: nat)
    requires k < |SaveSteps(s.made, s.draft)|
    ensures Next(s, who, SaveRefusedAfter(k)) == s.(made := After(s.made, s.draft, who.visible, k), wrote := s.wrote || k > 0)
  {
    hide SaveSteps, After;
  }

  lemma RunTexts(v: Vault, who: Editor, events: seq<Event>, t: Session)
    requires WellKept(v) && Run(Opened(v, who), who, events, t)
    ensures TwinsStay(t.draft.texts)
  {
    hide Run, WellKept, Opened;
    EditKept(v, who, events, t);
    KeptApart(t, who);
  }

  /** The text alone of its key and uid, as it stands. */
  predicate OneText(texts: seq<DraftText>, i: nat) {
    i < |texts| && forall j :: 0 <= j < |texts| && j != i ==> texts[j].key != texts[i].key && texts[j].uid != texts[i].uid
  }

  lemma EmptiedAndMoved(v: Vault, who: Editor, k: TextKey, e0: DraftEntry) returns (events: seq<Event>, s: Session, i: nat, e: DraftEntry)
    requires Healthy(v) && k != Nationalities && TextAt(v, OnlyMe, k).Some? && TextAt(v, Shared, k).None?
    requires e0 in DraftFrom(v, who).entries && JustRead(v, who.visible, Shared, e0)
    ensures Run(Opened(v, who), who, events, s) && s.made == Start(v, who) && Agrees(s.made, who.visible) && Apart(s.draft.entries)
    ensures e in s.draft.entries && Alone(s.draft, e) && e.list == Ids && e.id == e0.id && e.onlyMe && e.from == Some(Shared)
    ensures EntryOut(e, OnlyMe).Some? && At(s.made.vault, OnlyMe, Ids, e.id).None? && At(s.made.vault, Shared, Ids, e.id).Some?
    ensures !AnyMovesInto(s.draft, Shared) && OneText(s.draft.texts, i) && OneTextEach(s.draft.texts)
    ensures var x := s.draft.texts[i]; x.key == k && x.onlyMe && x.from == Some(OnlyMe) && x.value == ""
  {
    hide DraftFrom, Start, Find, EntryOut, Alone, Apart, WellKept, Healthy, Opened, Agrees, Run, AnyMovesInto, AfterMove, MovedOnly, EntryFrom,
      Truthful, TextAt, OneTextEach, MayDo;
    IsWellKept(v);
    OpenedIs(v, who);
    StartIs(v, who);
    OpenedUids(v, who);
    ReadAlone(v, who, e0);
    ReadNothingMoves(v, who);
    MovedId(v, who.visible, Shared, e0, true);
    ReadThere(v, who, e0);
    var s0 := Opened(v, who);
    var op := Move(e0.uid, true, Truly(v, e0));
    MayMove(s0, e0, true, Truly(v, e0));
    MoveMoves(s0.draft, e0, true, Truly(v, e0));
    e := AfterMove(e0, true, Truly(v, e0));
    var s1 := Next(s0, who, Does(op));
    NoRun(s0, who);
    RunMore(s0, who, [], s0, Does(op));
    events := [] + [Does(op)];
    MovedAlone(s0.draft, e0, e, s1.draft, e0, e) by {
      MovedIn(s0.draft, e0, e, s1.draft);
    }
    MovedIn(s0.draft, e0, e, s1.draft);
    StillNothingMoves(s0.draft, e0, e, s1.draft);
    i := ReadTextAlone(v, who, k);
    s := Emptied(s1, who, i);
    RunMore(s0, who, events, s1, Does(TypeText(s1.draft.texts[i].uid, "")));
    events := events + [Does(TypeText(s1.draft.texts[i].uid, ""))];
    EmptiedMovesNothing(s1.draft, i, s.draft);
    SameEntriesAlone(s1.draft, s.draft, e);
    RunUids(v, who, events, s);
    RunTexts(v, who, events, s);
    TwinsAreOneEach(s.draft);
  }

  lemma ReadThere(v: Vault, who: Editor, e: DraftEntry)
    requires Healthy(v) && JustRead(v, who.visible, Shared, e)
    ensures At(v, Shared, Ids, e.id).Some? && At(v, OnlyMe, Ids, e.id).None?
  {
    hide WellKept, Find;
  }

  lemma SameEntriesAlone(d: Draft, t: Draft, e: DraftEntry)
    requires d.entries == t.entries && Alone(d, e)
    ensures Alone(t, e)
  {
  }

  lemma Emptied(s: Session, who: Editor, i: nat) returns (t: Session)
    requires OneText(s.draft.texts, i)
    ensures May(s, Does(TypeText(s.draft.texts[i].uid, ""))) && t == Next(s, who, Does(TypeText(s.draft.texts[i].uid, "")))
    ensures t == s.(draft := s.draft.(texts := s.draft.texts[i := s.draft.texts[i].(value := "")]))
  {
    var op := TypeText(s.draft.texts[i].uid, "");
    ChangedAt(s.draft.texts, i, op);
    t := Next(s, who, Does(op));
  }

  lemma EmptiedMovesNothing(d: Draft, i: nat, t: Draft)
    requires !AnyMovesInto(d, Shared) && i < |d.texts| && t.entries == d.entries
    requires t.texts == d.texts[i := d.texts[i].(value := "")]
    ensures !AnyMovesInto(t, Shared)
  {
    EmptyOut(d.texts[i].key);
    assert Blank("");
    forall x | x in t.texts && TextMovesInto(x, Shared)
      ensures Blank(x.value)
    {
      var j :| 0 <= j < |t.texts| && t.texts[j] == x;
      assert d.texts[j] in d.texts;
    }
  }

  lemma Retyped(s: Session, who: Editor, i: nat) returns (t: Session, u: Session)
    requires OneText(s.draft.texts, i) && s.draft.texts[i].onlyMe
    ensures May(s, Does(TypeText(s.draft.texts[i].uid, "x"))) && t == Next(s, who, Does(TypeText(s.draft.texts[i].uid, "x")))
    ensures May(t, Does(MoveText(s.draft.texts[i].uid, false))) && u == Next(t, who, Does(MoveText(s.draft.texts[i].uid, false)))
    ensures u == s.(draft := s.draft.(texts := s.draft.texts[i := s.draft.texts[i].(value := "x", onlyMe := false)]))
  {
    var uid := s.draft.texts[i].uid;
    ChangedAt(s.draft.texts, i, TypeText(uid, "x"));
    t := Next(s, who, Does(TypeText(uid, "x")));
    ChangedAt(t.draft.texts, i, MoveText(uid, false));
    u := Next(t, who, Does(MoveText(uid, false)));
  }
}
