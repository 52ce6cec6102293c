/** What a whole save does to a masked value, to what was left alone, and to what it misses. */
module IdentityValues {
  import opened Text
  import opened IdentityVault
  import opened IdentityDraft
  import opened IdentityParts
  import opened IdentityReading
  import opened IdentitySave
  import opened IdentityWhole
  import opened IdentityStopped

  // ------------------------------------------------------------- masked values

  /**
   * What the editor means a masked value to be: as typed; none, if it was shown and cleared;
   * else what they were shown of it, or what was read, unshown.
   */
  function Meant(e: DraftEntry, was: Option<string>): Option<string> {
    if Typed(e) != "" then Some(Typed(e)) else if e.shownInField then None else if e.known.Some? then e.known else was
  }

  predicate Has(v: Vault, p: PartName, e: DraftEntry, value: Option<string>) {
    At(v, p, e.list, e.id).Some? && At(v, p, e.list, e.id).value.secret == value
  }

  /**
   * What a press of Save can tell of a value beforehand: it is sent; or cleared, in a part
   * that is written; or left out of a part that has it.
   */
  predicate Carried(m: Made, d: Draft, e: DraftEntry, was: Option<string>)
    requires EntryOut(e, PartFor(e.onlyMe)).Some?
  {
    var q := PartFor(e.onlyMe);
    var s := EntryOut(e, q).value.secret;
    s.Given? || (s.Cleared? && PartSent(m, d, q)) || Has(m.vault, q, e, Meant(e, was))
  }

  lemma SecretSent(e: DraftEntry, p: PartName, was: Option<string>)
    requires e.masked && SecretKey(e.list).Some? && was.Some? && EntryOut(e, p).Some?
    ensures var s := EntryOut(e, p).value.secret;
      && (s.Given? ==> Meant(e, was) == Some(s.value))
      && (s.Cleared? <==> Clears(e)) && (s.Cleared? ==> Meant(e, was) == None)
      && (s.Left? ==> Meant(e, was).Some?)
  {
    hide FieldsOut;
  }

  lemma MergedSecret(l: ListName, before: Option<Entry>, s: SentEntry, visible: set<string>)
    requires SecretKey(l).Some?
    ensures MergeEntry(l, before, s, visible).secret
         == if s.secret.Given? then Some(s.secret.value)
            else if s.secret.Left? && before.Some? then before.value.secret else None
  {
  }

  /** A part not written has the value the form sends for it, if it sends one. */
  lemma UnsentValue(m: Made, d: Draft, visible: set<string>, e: DraftEntry)
    requires Apart(d.entries) && Agrees(m, visible) && Ends(d, e) && SecretKey(e.list).Some? && !PartSent(m, d, PartFor(e.onlyMe))
    ensures var q := PartFor(e.onlyMe);
      var s := EntryOut(e, q).value.secret;
      At(m.vault, q, e.list, e.id).Some? && (s.Given? ==> At(m.vault, q, e.list, e.id).value.secret == Some(s.value))
  {
    hide BuildPart, NoChange, FindSent, Find, Agrees, Apart, EntryOut, TakenOver, MergeEntry, PartSent, LastOf;
    var q := PartFor(e.onlyMe);
    LastSent(m, d, e);
    NotSentAgrees(m, d, q, e.list, e.id);
    AgreesAt(m, visible, q, e.list, e.id);
    MergedSecret(e.list, At(m.vault, q, e.list, e.id), FindSent(m.last.Of(q).lists.Of(e.list), e.id).value, visible);
  }

  /**
   * Whatever was written before, and wherever its entry ends up: after a finished save the
   * vault holds a masked value as it was meant to, if and only if it was carried.
   */
  lemma MaskedValueAsMeant(m: Made, d: Draft, visible: set<string>, e: DraftEntry, was: Option<string>)
    requires Apart(d.entries) && Agrees(m, visible) && Ends(d, e) && e.masked && SecretKey(e.list).Some? && was.Some?
    ensures At(Saved(m, d, visible), PartFor(e.onlyMe), e.list, e.id).Some?
    ensures Has(Saved(m, d, visible), PartFor(e.onlyMe), e, Meant(e, was)) <==> Carried(m, d, e, was)
  {
    hide EntryOut, BuildPart, Find, Saved, MergeEntry, PartSent, Apart, Agrees, TakenOver, Meant;
    var q := PartFor(e.onlyMe);
    SavedOf(m, d, visible, e);
    SecretSent(e, q, was);
    MergedSecret(e.list, At(m.vault, q, e.list, e.id), EntryOut(e, q).value, visible);
    if !PartSent(m, d, q) {
      UnsentValue(m, d, visible, e);
    }
  }

  /** And once: the other part has nothing of an entry that is the only one of its id. */
  lemma StoredOnce(m: Made, d: Draft, visible: set<string>, e: DraftEntry)
    requires Apart(d.entries) && Agrees(m, visible) && e in d.entries && Alone(d, e) && !LeftOver(m, d)
    ensures At(Saved(m, d, visible), Other(PartFor(e.onlyMe)), e.list, e.id).None?
  {
    hide BuildPart, FindSent, Find, Agrees, Apart, Saved, LeftOver;
    SentIsStored(m, d, visible, Other(PartFor(e.onlyMe)), e.list, e.id);
    FindNotBuilt(d, Other(PartFor(e.onlyMe)), e.list, e.id);
  }

  /** What the form was shown of an entry's value is what it has in the record. */
  predicate KnownAsRead(v: Vault, e: DraftEntry) {
    e.known.Some? ==> e.from.Some? && Has(v, e.from.value, e, e.known)
  }

  lemma MaskedIsRead(v: Vault, who: Editor, d: Draft, e: DraftEntry)
    requires Ready(v, who, d) && e in d.entries && e.masked
    ensures EntryOk(v, who.visible, e) && ShownToMove(e) && SecretKey(e.list).Some?
    ensures e.from.Some? && At(v, e.from.value, e.list, e.id).Some? && At(v, e.from.value, e.list, e.id).value.secret.Some?
    ensures NormalEntry(e.list, At(v, e.from.value, e.list, e.id).value)
    ensures EntryOut(e, PartFor(e.onlyMe)).Some?
  {
    assert EntryOk(v, who.visible, e);
    NormalAt(v, e.from.value, e.list, e.id);
    ReadIsSent(e, PartFor(e.onlyMe));
  }

  /** An ID, or a field of the family's own, read from the vault is always sent. */
  lemma ReadIsSent(e: DraftEntry, p: PartName)
    requires !IsContact(e.list) && e.from.Some?
    ensures EntryOut(e, p).Some?
  {
  }

  /** In a first save a value left out is in the part it is left out of. */
  lemma LeftOutIsThere(e: DraftEntry, st: Entry)
    requires e.masked && SecretKey(e.list).Some? && ShownToMove(e) && e.from.Some? && EntryOut(e, PartFor(e.onlyMe)).Some?
    requires st.secret.Some? && Trimmed(st.secret.value) && (e.known.Some? ==> e.known == st.secret)
    requires EntryOut(e, PartFor(e.onlyMe)).value.secret.Left?
    ensures e.from == Some(PartFor(e.onlyMe)) && Meant(e, st.secret) == st.secret
  {
    TrimmedTrims(st.secret.value);
    hide FieldsOut;
  }

  /**
   * A first save, of a draft just read: afterwards the vault holds of a masked value what
   * was typed if anything was, none if it was shown and cleared, and otherwise the old one;
   * but for one cleared where its part is not written at all: that is as it was.
   */
  lemma MaskedValueSaved(v: Vault, who: Editor, d: Draft, e: DraftEntry)
    requires Ready(v, who, d) && e in d.entries && e.masked && !TakenOver(d, e) && KnownAsRead(v, e)
    ensures e.from.Some? && At(v, e.from.value, e.list, e.id).Some?
    ensures var m := Start(v, who);
      var q := PartFor(e.onlyMe);
      var was := At(v, e.from.value, e.list, e.id).value.secret;
      && was.Some?
      && (if Clears(e) && !PartSent(m, d, q) then At(Saved(m, d, who.visible), q, e.list, e.id) == At(v, q, e.list, e.id)
          else Has(Saved(m, d, who.visible), q, e, Meant(e, was)))
      && (Alone(d, e) ==> At(Saved(m, d, who.visible), Other(q), e.list, e.id).None?)
  {
    MaskedIsRead(v, who, d, e);
    ReadyApart(v, who, d);
    FirstLeavesNothingOver(v, who, d);
    hide EntryOut, BuildPart, Find, Saved, MergeEntry, NormalEntry, EntryOk, PartSent, Apart, Agrees, TakenOver, Meant, ShownToMove, Start,
      Ready, LeftOver, Clears, Has;
    var m := Start(v, who);
    var q := PartFor(e.onlyMe);
    var st := At(v, e.from.value, e.list, e.id).value;
    StartIs(v, who);
    NormalSecret(e.list, st);
    SecretSent(e, q, st.secret);
    MaskedValueAsMeant(m, d, who.visible, e, st.secret);
    KnownIs(v, e);
    if EntryOut(e, q).value.secret.Left? {
      LeftOutIsThere(e, st);
      HasIs(v, q, e, st.secret);
    } else if Clears(e) && !PartSent(m, d, q) {
      ClearedUnsent(m, d, who.visible, e);
    }
    if Alone(d, e) {
      StoredOnce(m, d, who.visible, e);
    }
  }

  lemma NormalSecret(l: ListName, st: Entry)
    requires NormalEntry(l, st) && st.secret.Some?
    ensures Trimmed(st.secret.value)
  {
  }

  lemma KnownIs(v: Vault, e: DraftEntry)
    requires KnownAsRead(v, e) && e.from.Some? && At(v, e.from.value, e.list, e.id).Some?
    ensures e.known.Some? ==> e.known == At(v, e.from.value, e.list, e.id).value.secret
  {
  }

  lemma HasIs(v: Vault, p: PartName, e: DraftEntry, value: Option<string>)
    ensures Has(v, p, e, value) <==> At(v, p, e.list, e.id).Some? && At(v, p, e.list, e.id).value.secret == value
  {
  }

  /** A value cleared in a part not written is what it was there. */
  lemma ClearedUnsent(m: Made, d: Draft, visible: set<string>, e: DraftEntry)
    requires Apart(d.entries) && Agrees(m, visible) && Ends(d, e) && !PartSent(m, d, PartFor(e.onlyMe))
    ensures At(Saved(m, d, visible), PartFor(e.onlyMe), e.list, e.id) == At(m.vault, PartFor(e.onlyMe), e.list, e.id)
  {
    hide EntryOut, BuildPart, Find, Saved, MergeEntry, PartSent, Apart, Agrees, TakenOver;
    SavedOf(m, d, visible, e);
  }

  // ------------------------------------------------------------- clearing a value and nothing else

  /** A masked value shown in its field, and the field then emptied. */
  function ShownAndCleared(e: DraftEntry, value: string): DraftEntry
    requires SecretKey(e.list).Some?
  {
    e.(known := Some(value), shownInField := true, f := e.f[SecretKey(e.list).value := ""])
  }

  lemma ClearedEntryOut(e: DraftEntry, value: string)
    requires SecretKey(e.list).Some? && e.masked && Typed(e) == "" && !e.shownInField && e.from == Some(PartFor(e.onlyMe))
    requires e.list == Custom ==> e.hidden
    ensures CanonOpt(EntryOut(ShownAndCleared(e, value), PartFor(e.onlyMe))) == CanonOpt(EntryOut(e, PartFor(e.onlyMe)))
  {
    hide FieldsOut, Typed;
    ClearedFields(e, value);
  }

  lemma ClearedFields(e: DraftEntry, value: string)
    requires SecretKey(e.list).Some?
    ensures FieldsOut(ShownAndCleared(e, value)) == FieldsOut(e) && Typed(ShownAndCleared(e, value)) == ""
  {
    assert Trim("") == "";
  }

  /** One entry of a draft replaced by another of its name and place. */
  predicate SamePlace(c: DraftEntry, e: DraftEntry) {
    c.uid == e.uid && c.list == e.list && c.id == e.id && c.onlyMe == e.onlyMe && c.from == e.from
  }

  lemma ReplacedApart(entries: seq<DraftEntry>, i: nat, c: DraftEntry)
    requires Apart(entries) && i < |entries| && SamePlace(c, entries[i])
    ensures Apart(entries[i := c])
  {
  }

  lemma ReplacedTakenOver(d: Draft, i: nat, c: DraftEntry, j: nat)
    requires Apart(d.entries) && i < |d.entries| && j < |d.entries| && SamePlace(c, d.entries[i])
    requires !TakenOver(d, d.entries[j])
    ensures !TakenOver(d.(entries := d.entries[i := c]), d.entries[i := c][j])
  {
    var now := d.entries[i := c];
    var d' := d.(entries := now);
    assert forall n :: 0 <= n < |now| ==> SamePlace(now[n], d.entries[n]) && d.entries[n] in d.entries;
    assert forall n :: 0 <= n < |now| && n != j ==> d.entries[n].uid != d.entries[j].uid;
  }

  lemma ReplacedSent(d: Draft, i: nat, c: DraftEntry, p: PartName, l: ListName, id: string)
    requires Apart(d.entries) && i < |d.entries| && SamePlace(c, d.entries[i])
    requires CanonOpt(EntryOut(c, PartFor(c.onlyMe))) == CanonOpt(EntryOut(d.entries[i], PartFor(c.onlyMe)))
    ensures CanonOpt(SentAt(d.(entries := d.entries[i := c]), p, l, id)) == CanonOpt(SentAt(d, p, l, id))
  {
    hide EntryOut, SentAt, CanonOpt, Apart, BuildPart, FindSent, TakenOver;
    var d' := d.(entries := d.entries[i := c]);
    ReplacedApart(d.entries, i, c);
    if InPart(d, p, l, id) {
      var x := OneIsBuilt(d, p, l, id);
      var j :| 0 <= j < |d.entries| && d.entries[j] == x;
      assert d'.entries[j] in d'.entries;
      ReplacedTakenOver(d, i, c, j);
      FindBuilt(d, x);
      FindBuilt(d', d'.entries[j]);
    } else {
      FindNotBuilt(d, p, l, id);
      assert forall n :: 0 <= n < |d.entries| ==> SamePlace(d'.entries[n], d.entries[n]) && d.entries[n] in d.entries;
      FindNotBuilt(d', p, l, id);
    }
  }

  lemma ReplacedNoChange(d: Draft, i: nat, c: DraftEntry, p: PartName)
    requires Apart(d.entries) && i < |d.entries| && SamePlace(c, d.entries[i])
    requires CanonOpt(EntryOut(c, PartFor(c.onlyMe))) == CanonOpt(EntryOut(d.entries[i], PartFor(c.onlyMe)))
    ensures NoChange(BuildPart(d, p), BuildPart(d.(entries := d.entries[i := c]), p))
  {
    hide EntryOut, CanonOpt, Apart, BuildPart, NoChange, FindSent, SamePlace;
    var d' := d.(entries := d.entries[i := c]);
    forall l: ListName, id: string
      ensures CanonOpt(FindSent(BuildPart(d, p).lists.Of(l), id)) == CanonOpt(FindSent(BuildPart(d', p).lists.Of(l), id))
    {
      ReplacedSent(d, i, c, p, l, id);
    }
    SameTextsBuilt(d, d', p);
    NoChangeIf(BuildPart(d, p), BuildPart(d', p));
  }

  lemma SameTextsBuilt(d: Draft, d': Draft, p: PartName)
    requires d.texts == d'.texts
    ensures BuildPart(d, p).texts == BuildPart(d', p).texts
  {
    hide BuildTexts, BuildList;
  }

  /**
   * Found: a masked value shown, cleared on purpose and saved with nothing else changed
   * is no change to the form, whatever the record: no write is made, and the vault
   * still holds the value.
   */
  lemma ClearedAloneIsNotWritten(v: Vault, who: Editor, i: nat)
    requires WellKept(v) && i < |DraftFrom(v, who).entries| && DraftFrom(v, who).entries[i].masked
    ensures var e := DraftFrom(v, who).entries[i];
      && SecretKey(e.list).Some? && e.from.Some? && At(v, e.from.value, e.list, e.id).Some?
      && At(v, e.from.value, e.list, e.id).value.secret.Some?
      && var value := At(v, e.from.value, e.list, e.id).value.secret.value;
         var d := DraftFrom(v, who).(entries := DraftFrom(v, who).entries[i := ShownAndCleared(e, value)]);
         && Meant(d.entries[i], Some(value)) == None
         && SaveSteps(Start(v, who), d) == [] && Saved(Start(v, who), d, who.visible) == v
  {
    hide NoChange, BuildPart, DraftFrom, EntryOut, AnyMovesInto, WellKept, NormalEntry, EntryOk, TextsOk, Apart, Find, ShownAndCleared, Canon, Typed, Changing, Take;
    var d0 := DraftFrom(v, who);
    var e := d0.entries[i];
    DraftFromOk(v, who);
    ReadIsStoredInRecord(v, who, e);
    MaskedIsRead(v, who, d0, e);
    ReadIsQuiet(v, who.visible, e);
    var value := At(v, e.from.value, e.list, e.id).value.secret.value;
    var c := ShownAndCleared(e, value);
    ClearedEntryOut(e, value);
    ClearedNames(e, value);
    var d := d0.(entries := d0.entries[i := c]);
    NothingMoves(v, who, d0, d, i);
    PlanShape(d);
    ReplacedNoChange(d0, i, c, Shared);
    ReplacedNoChange(d0, i, c, OnlyMe);
    ChangingTwo(StepOf(d, Shared), StepOf(d, OnlyMe), Start(v, who).last);
    assert SaveSteps(Start(v, who), d) == [];
    TakeShort(Start(v, who), who.visible, StepOf(d, Shared), StepOf(d, Shared), StepOf(d, Shared));
  }

  lemma ClearedNames(e: DraftEntry, value: string)
    requires SecretKey(e.list).Some?
    ensures var c := ShownAndCleared(e, value);
      && SamePlace(c, e) && Typed(c) == "" && c.shownInField
  {
    assert Trim("") == "";
  }

  lemma ReadIsQuiet(v: Vault, visible: set<string>, e: DraftEntry)
    requires e.from.Some? && At(v, e.from.value, e.list, e.id).Some? && e.masked
    requires e == EntryFrom(e.list, At(v, e.from.value, e.list, e.id).value, e.from.value, visible, e.uid)
    requires NormalEntry(e.list, At(v, e.from.value, e.list, e.id).value)
    ensures At(v, e.from.value, e.list, e.id).value.secret.Some?
    ensures SecretKey(e.list).Some? && Typed(e) == "" && !e.shownInField && (e.list == Custom ==> e.hidden)
    ensures e.from == Some(PartFor(e.onlyMe))
  {
  }

  lemma NothingMoves(v: Vault, who: Editor, d0: Draft, d: Draft, i: nat)
    requires WellKept(v) && d0 == DraftFrom(v, who) && i < |d0.entries|
    requires d.texts == d0.texts && |d.entries| == |d0.entries|
    requires forall j :: 0 <= j < |d.entries| ==> d.entries[j].from == d0.entries[j].from && d.entries[j].onlyMe == d0.entries[j].onlyMe
    ensures forall p: PartName :: !AnyMovesInto(d, p)
  {
    hide DraftFrom, WellKept;
    forall p: PartName, e | e in d.entries
      ensures !EntryMovesInto(e, p)
    {
      var j :| 0 <= j < |d.entries| && d.entries[j] == e;
      ReadIsStoredInRecord(v, who, d0.entries[j]);
    }
    forall p: PartName, t | t in d.texts
      ensures !TextMovesInto(t, p)
    {
      ReadTextIs(v, who, t);
    }
  }
}
