/** What the built parts hold of each draft item, and what writing one back does to it. */
module IdentityParts {
  import opened Text
  import opened IdentityVault
  import opened IdentityDraft

  predicate DistinctUids(entries: seq<DraftEntry>) {
    forall i, j :: 0 <= i < j < |entries| ==> entries[i].uid != entries[j].uid
  }

  /** No uid twice; and one id twice in a list only where each part it was read from had one. */
  predicate Apart(entries: seq<DraftEntry>) {
    forall i, j :: 0 <= i < j < |entries| ==>
      && entries[i].uid != entries[j].uid
      && (entries[i].list != entries[j].list || entries[i].id != entries[j].id
          || (entries[i].from.Some? && entries[j].from.Some? && entries[i].from != entries[j].from))
  }

  lemma ApartUids(entries: seq<DraftEntry>)
    requires Apart(entries)
    ensures DistinctUids(entries)
  {
  }

  /** Two of one id: read from the two parts, one from each. */
  lemma ApartTwo(entries: seq<DraftEntry>, e: DraftEntry, x: DraftEntry)
    requires Apart(entries) && e in entries && x in entries && e != x && e.list == x.list && e.id == x.id
    ensures e.from.Some? && x.from.Some? && e.from != x.from
  {
  }

  // ------------------------------------------------------------- no id twice

  lemma {:induction false} HereUids(entries: seq<DraftEntry>, l: ListName, part: PartName)
    requires DistinctUids(entries)
    ensures DistinctUids(Here(entries, l, part))
    decreases |entries|
  {
    if entries != [] {
      HereUids(entries[1..], l, part);
      var rest := Here(entries[1..], l, part);
      assert forall e :: e in rest ==> e.uid != entries[0].uid;
    }
  }

  lemma {:induction false} ItemsAreChosen(entries: seq<DraftEntry>, chosen: map<string, DraftEntry>, part: PartName)
    ensures forall s :: s in Items(entries, chosen, part) ==> s.id in chosen && chosen[s.id] in entries
    decreases |entries|
  {
    if entries != [] {
      ItemsAreChosen(entries[1..], chosen, part);
    }
  }

  lemma {:induction false} ItemsDistinct(entries: seq<DraftEntry>, chosen: map<string, DraftEntry>, part: PartName)
    requires DistinctUids(entries)
    ensures DistinctSent(Items(entries, chosen, part))
    decreases |entries|
  {
    if entries != [] {
      var e := entries[0];
      ItemsDistinct(entries[1..], chosen, part);
      ItemsAreChosen(entries[1..], chosen, part);
      var rest := Items(entries[1..], chosen, part);
      if e.id in chosen && chosen[e.id] == e {
        assert e !in entries[1..];
        assert forall i :: 0 <= i < |rest| ==> rest[i] in rest && rest[i].id != e.id;
      }
    }
  }

  /** No list of a part ever holds one id twice, whatever a partial save left in the draft. */
  lemma NoIdTwice(d: Draft, part: PartName, l: ListName)
    requires DistinctUids(d.entries)
    ensures DistinctSent(BuildPart(d, part).lists.Of(l))
  {
    HereUids(d.entries, l, part);
    var here := Here(d.entries, l, part);
    ItemsDistinct(here, Chosen(here, part), part);
  }

  // ------------------------------------------------------------- finding an item in a built part

  lemma OutHasItsId(e: DraftEntry, part: PartName)
    ensures EntryOut(e, part).Some? ==> EntryOut(e, part).value.id == e.id
  {
    hide FieldsOut, SecretOut, DocOut;
  }

  lemma {:induction false} ChosenIsMovedIn(entries: seq<DraftEntry>, part: PartName, e: DraftEntry)
    requires e in entries && e.from != Some(part)
    requires forall x :: x in entries && x.id == e.id && x != e ==> x.from == Some(part)
    ensures Chosen(entries, part)[e.id] == e
    decreases |entries|
  {
    hide Chosen;
    var last := entries[|entries| - 1];
    var rest := entries[..|entries| - 1];
    assert forall x :: x in rest ==> x in entries;
    assert entries == rest + [last];
    ChosenNext(entries, part);
    if e in rest {
      ChosenIsMovedIn(rest, part, e);
    }
  }

  lemma ChosenNext(entries: seq<DraftEntry>, part: PartName)
    requires entries != []
    ensures var e, rest := entries[|entries| - 1], Chosen(entries[..|entries| - 1], part);
      Chosen(entries, part) == if Replaces(if e.id in rest then Some(rest[e.id]) else None, e, part) then rest[e.id := e] else rest
  {
  }

  lemma {:induction false} FindChosen(entries: seq<DraftEntry>, chosen: map<string, DraftEntry>, part: PartName, e: DraftEntry)
    requires e in entries && DistinctUids(entries) && e.id in chosen && chosen[e.id] == e
    ensures FindSent(Items(entries, chosen, part), e.id) == EntryOut(e, part)
    decreases |entries|
  {
    hide EntryOut;
    OutHasItsId(entries[0], part);
    var rest := Items(entries[1..], chosen, part);
    assert [] + rest == rest;
    if entries[0] == e {
      ItemsNotChosen(entries[1..], chosen, part, e);
    } else {
      FindChosen(entries[1..], chosen, part, e);
    }
  }

  lemma {:induction false} ItemsNotChosen(entries: seq<DraftEntry>, chosen: map<string, DraftEntry>, part: PartName, e: DraftEntry)
    requires e !in entries && e.id in chosen && chosen[e.id] == e
    ensures FindSent(Items(entries, chosen, part), e.id).None?
    decreases |entries|
  {
    hide EntryOut;
    if entries != [] {
      OutHasItsId(entries[0], part);
      var rest := Items(entries[1..], chosen, part);
      assert [] + rest == rest && entries[0] in entries;
      ItemsNotChosen(entries[1..], chosen, part, e);
    }
  }

  lemma {:induction false} FindNoItem(entries: seq<DraftEntry>, chosen: map<string, DraftEntry>, part: PartName, id: string)
    requires forall x :: x in entries ==> x.id != id
    ensures FindSent(Items(entries, chosen, part), id).None?
    decreases |entries|
  {
    if entries != [] {
      var rest := Items(entries[1..], chosen, part);
      assert [] + rest == rest;
      assert entries[0] in entries;
      FindNoItem(entries[1..], chosen, part, id);
    }
  }

  /** Of its id in the part it is in now, the one that was there already, where another was moved in. */
  predicate TakenOver(d: Draft, e: DraftEntry) {
    e.from == Some(PartFor(e.onlyMe)) &&
    exists x :: x in d.entries && x != e && x.list == e.list && x.id == e.id && x.onlyMe == e.onlyMe
  }

  /** What the form sends of an entry for a part. */
  function SentAt(d: Draft, p: PartName, l: ListName, id: string): Option<SentEntry> {
    FindSent(BuildPart(d, p).lists.Of(l), id)
  }

  predicate InPart(d: Draft, p: PartName, l: ListName, id: string) {
    exists e :: e in d.entries && e.list == l && e.id == id && PartFor(e.onlyMe) == p
  }

  lemma TwoParts(p: PartName, a: PartName, b: PartName)
    ensures a == b || a == p || b == p
    ensures a != p <==> a == Other(p)
  {
  }

  /**
   * A built part holds of an entry what `EntryOut` leaves of it: of two of one id, the one
   * moved in, whichever comes first in the draft.
   */
  lemma FindBuilt(d: Draft, e: DraftEntry)
    requires Apart(d.entries) && e in d.entries && !TakenOver(d, e)
    ensures SentAt(d, PartFor(e.onlyMe), e.list, e.id) == EntryOut(e, PartFor(e.onlyMe))
  {
    hide Items, Chosen, EntryOut, Here;
    var part := PartFor(e.onlyMe);
    var here := Here(d.entries, e.list, part);
    ApartUids(d.entries);
    HereUids(d.entries, e.list, part);
    forall x | x in here && x.id == e.id && x != e
      ensures x.from == Some(part) && e.from != Some(part)
    {
      ApartTwo(d.entries, e, x);
      assert x in d.entries && x.list == e.list && x.onlyMe == e.onlyMe;
      assert e.from == Some(part) ==> TakenOver(d, e);
      TwoParts(part, e.from.value, x.from.value);
    }
    hide Apart, TakenOver;
    if e.from != Some(part) {
      ChosenIsMovedIn(here, part, e);
    }
    FindChosen(here, Chosen(here, part), part, e);
  }

  lemma FindNotBuilt(d: Draft, part: PartName, l: ListName, id: string)
    requires !InPart(d, part, l, id)
    ensures SentAt(d, part, l, id).None?
  {
    hide Items, Chosen, EntryOut, Here;
    var here := Here(d.entries, l, part);
    FindNoItem(here, Chosen(here, part), part, id);
  }

  /** Of the entries of one id in a part there is always one not taken over. */
  lemma OneIsBuilt(d: Draft, p: PartName, l: ListName, id: string) returns (e: DraftEntry)
    requires Apart(d.entries) && InPart(d, p, l, id)
    ensures e in d.entries && e.list == l && e.id == id && PartFor(e.onlyMe) == p && !TakenOver(d, e)
  {
    e :| e in d.entries && e.list == l && e.id == id && PartFor(e.onlyMe) == p;
    if TakenOver(d, e) {
      var x :| x in d.entries && x != e && x.list == e.list && x.id == e.id && x.onlyMe == e.onlyMe;
      ApartTwo(d.entries, e, x);
      e := x;
    }
  }

  /** One text of a key in a part at most. */
  predicate OneTextEach(texts: seq<DraftText>) {
    forall i, j :: 0 <= i < j < |texts| ==> texts[i].key != texts[j].key || texts[i].onlyMe != texts[j].onlyMe
  }

  lemma {:induction false} NoTextBuilt(texts: seq<DraftText>, part: PartName, k: TextKey)
    requires forall t :: t in texts && PartFor(t.onlyMe) == part ==> t.key != k
    ensures k !in BuildTexts(texts, part)
    decreases |texts|
  {
    if texts != [] {
      var t := texts[|texts| - 1];
      assert t in texts;
      NoTextBuilt(texts[..|texts| - 1], part, k);
    }
  }

  lemma {:induction false} TextBuilt(texts: seq<DraftText>, part: PartName, t: DraftText)
    requires OneTextEach(texts) && t in texts && PartFor(t.onlyMe) == part
    ensures TextOf(BuildTexts(texts, part), t.key) == TextOut(t.key, t.value)
    decreases |texts|
  {
    var last := texts[|texts| - 1];
    var rest := texts[..|texts| - 1];
    if last == t {
      assert forall x :: x in rest && PartFor(x.onlyMe) == part ==> x.key != t.key;
      NoTextBuilt(rest, part, t.key);
    } else {
      assert t in rest;
      TextBuilt(rest, part, t);
    }
  }

  // ------------------------------------------------------------- writing one entry

  /** Written twice, an entry is as written once. */
  lemma MergeTwice(l: ListName, before: Option<Entry>, s: SentEntry, visible: set<string>)
    ensures MergeEntry(l, Some(MergeEntry(l, before, s, visible)), s, visible) == MergeEntry(l, before, s, visible)
  {
  }

  /** An entry the editor left as the form showed it, or only had its masked value shown. */
  predicate Unedited(l: ListName, st: Entry, p: PartName, visible: set<string>, e: DraftEntry) {
    var base := EntryFrom(l, st, p, visible, e.uid);
    && e.list == l && e.id == st.id && e.from == Some(p) && PartFor(e.onlyMe) == p
    && e.hidden == base.hidden && e.docId == base.docId && e.linkedBefore == base.linkedBefore
    && e.masked == base.masked
    && ((e.f == base.f && !e.shownInField)
        || (SecretKey(l).Some? && e.masked && e.known == st.secret && e.f == base.f[SecretKey(l).value := st.secret.value]))
  }

  lemma FieldsOutNormal(l: ListName, st: Entry, e: DraftEntry)
    requires NormalEntry(l, st) && e.list == l
    requires SecretKey(l).None? ==> e.f == st.f
    requires SecretKey(l).Some? ==> e.f - {SecretKey(l).value} == st.f
    ensures FieldsOut(e) == st.f
  {
    forall k | k in st.f
      ensures k in e.f && e.f[k] == st.f[k] && FieldOut(k, st.f[k]) == st.f[k] && !Blank(st.f[k])
    {
      assert SecretKey(l).Some? ==> k in e.f - {SecretKey(l).value};
      assert NormalField(k, st.f[k]);
      TrimmedTrims(st.f[k]);
    }
    forall k | k in FieldsOut(e)
      ensures k in st.f
    {
      assert SecretKey(l).Some? ==> k in e.f - {SecretKey(l).value};
    }
  }

  lemma TrimmedTrims(s: string)
    requires Trimmed(s)
    ensures Trim(s) == s
  {
  }

  /**
   * The frame, entry by entry: one the editor left alone is sent so that the vault
   * keeps it exactly as it was, its masked value and its document included.
   */
  lemma UneditedIsKept(l: ListName, st: Entry, p: PartName, visible: set<string>, e: DraftEntry)
    requires NormalEntry(l, st) && Unedited(l, st, p, visible, e)
    ensures EntryOut(e, p).Some?
    ensures MergeEntry(l, Some(st), EntryOut(e, p).value, visible) == st
    ensures !EntryOut(e, p).value.secret.Cleared? && !EntryOut(e, p).value.doc.Cleared?
    ensures IsMasked(l, st) ==> EntryOut(e, p).value.secret.Left?
  {
    var base := EntryFrom(l, st, p, visible, e.uid);
    if SecretKey(l).Some? && st.secret.Some? {
      TrimmedTrims(st.secret.value);
    }
    if SecretKey(l).Some? {
      assert e.f - {SecretKey(l).value} == st.f;
    }
    FieldsOutNormal(l, st, e);
  }
}
