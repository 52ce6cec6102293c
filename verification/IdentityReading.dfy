/** What the form reads of a record it can write back: each item once, and unchanged if left alone. */
module IdentityReading {
  import opened Text
  import opened IdentityVault
  import opened IdentityDraft
  import opened IdentityParts

  /** A draft entry and the record it was read from, over everything the form can do to it. */
  predicate EntryOk(v: Vault, visible: set<string>, e: DraftEntry) {
    && (e.list != Ids ==> e.docId.None? && e.linkedBefore.None?)
    && match e.from {
         case None =>
           !e.masked && e.known.None? && !e.shownInField && e.linkedBefore.None?
           && At(v, Shared, e.list, e.id).None? && At(v, OnlyMe, e.list, e.id).None?
         case Some(p) =>
           At(v, p, e.list, e.id).Some? &&
           var st := At(v, p, e.list, e.id).value;
           && e.linkedBefore == Shown(e.list, st, visible).doc
           && (e.masked ==> IsMasked(e.list, st))
           && (e.known.Some? ==> e.masked && e.known.value != "" && Trimmed(e.known.value))
           && (e.shownInField ==> e.known.Some?)
           // Moving and unhiding show the value first.
           && (e.masked && PartFor(e.onlyMe) != p ==> e.known.Some?)
           && (e.masked && e.list == Custom && !e.hidden ==> e.known.Some?)
       }
  }

  predicate TextOk(v: Vault, t: DraftText) {
    t.from.Some? ==> TextAt(v, t.from.value, t.key).Some?
  }

  ghost predicate TextThere(texts: seq<DraftText>, p: PartName, k: TextKey) {
    exists t :: t in texts && t.key == k && t.from == Some(p)
  }

  /** One text of a key in a part; where each part has one, neither moves; and none is ever lost. */
  ghost predicate TextsOk(v: Vault, texts: seq<DraftText>) {
    && OneTextEach(texts)
    && (forall t :: t in texts ==> TextOk(v, t))
    && (forall i, j :: 0 <= i < |texts| && 0 <= j < |texts| && i != j && texts[i].key == texts[j].key ==>
          texts[i].from == Some(PartFor(texts[i].onlyMe)))
    && (forall p: PartName, k: TextKey :: TextAt(v, p, k).Some? ==> TextThere(texts, p, k))
  }

  ghost predicate DraftOk(v: Vault, who: Editor, d: Draft) {
    && Apart(d.entries)
    && (forall e :: e in d.entries ==> EntryOk(v, who.visible, e))
    && TextsOk(v, d.texts)
  }

  lemma ApartConcat(a: seq<DraftEntry>, b: seq<DraftEntry>)
    requires Apart(a) && Apart(b)
    requires forall x, y :: x in a && y in b ==>
      (x.uid != y.uid && (x.list != y.list || x.id != y.id || (x.from.Some? && y.from.Some? && x.from != y.from)))
    ensures Apart(a + b)
  {
    var c := a + b;
    forall i, j | 0 <= i < j < |c|
      ensures c[i].uid != c[j].uid
      ensures c[i].list != c[j].list || c[i].id != c[j].id || (c[i].from.Some? && c[j].from.Some? && c[i].from != c[j].from)
    {
      if i < |a| <= j {
        assert c[i] in a && c[j] in b;
      }
    }
  }

  // ------------------------------------------------------------- the entries read

  ghost predicate EachOnce(p: Part) {
    forall l: ListName :: DistinctIds(p.lists.Of(l))
  }

  lemma NormalEachOnce(p: Part)
    requires NormalPart(p)
    ensures EachOnce(p)
  {
    forall l: ListName
      ensures DistinctIds(p.lists.Of(l))
    {
      assert NormalList(l, p.lists.Of(l));
    }
  }

  lemma EntriesFromApart(l: ListName, stored: seq<Entry>, part: PartName, visible: set<string>, uid: nat)
    requires DistinctIds(stored)
    ensures var r := EntriesFrom(l, stored, part, visible, uid);
      Apart(r) && forall e :: e in r ==> e.list == l && uid <= e.uid < uid + |stored|
  {
    hide EntriesFrom, EntryFrom;
    var r := EntriesFrom(l, stored, part, visible, uid);
    forall i | 0 <= i < |r|
      ensures r[i].list == l && r[i].uid == uid + i && r[i].id == stored[i].id
    {
      EntryFromNames(l, stored[i], part, visible, uid + i);
    }
  }

  lemma {:induction false} ListsFromApart(p: Part, part: PartName, visible: set<string>, lists: seq<ListName>, uid: nat)
    requires EachOnce(p)
    requires forall i, j :: 0 <= i < j < |lists| ==> lists[i] != lists[j]
    ensures Apart(ListsFrom(p, part, visible, lists, uid))
    ensures forall e :: e in ListsFrom(p, part, visible, lists, uid) ==>
      e.list in lists && uid <= e.uid < uid + Entries(p, lists)
    decreases |lists|
  {
    hide EntriesFrom, Apart, DistinctIds, ListsFrom, Entries;
    if lists == [] {
      NoneRead(p, part, visible, uid);
    } else {
      NextList(p, part, visible, lists, uid);
      var n := |p.lists.Of(lists[0])|;
      var first := EntriesFrom(lists[0], p.lists.Of(lists[0]), part, visible, uid);
      var rest := ListsFrom(p, part, visible, lists[1..], uid + n);
      ListsFromApart(p, part, visible, lists[1..], uid + n);
      EntriesFromApart(lists[0], p.lists.Of(lists[0]), part, visible, uid);
      assert lists[0] !in lists[1..];
      ApartConcat(first, rest);
      assert forall e :: e in first + rest <==> e in first || e in rest;
    }
  }

  lemma NoneRead(p: Part, part: PartName, visible: set<string>, uid: nat)
    ensures ListsFrom(p, part, visible, [], uid) == [] && Apart([])
  {
  }

  lemma NextList(p: Part, part: PartName, visible: set<string>, lists: seq<ListName>, uid: nat)
    requires lists != []
    ensures var stored := p.lists.Of(lists[0]);
      && ListsFrom(p, part, visible, lists, uid)
         == EntriesFrom(lists[0], stored, part, visible, uid) + ListsFrom(p, part, visible, lists[1..], uid + |stored|)
      && Entries(p, lists) == |stored| + Entries(p, lists[1..])
  {
    hide EntriesFrom;
  }

  /** What is read is what is stored, entry by entry. */
  lemma {:induction false} ReadIsStored(p: Part, part: PartName, visible: set<string>, lists: seq<ListName>, uid: nat, e: DraftEntry)
    requires EachOnce(p) && e in ListsFrom(p, part, visible, lists, uid)
    ensures Find(p.lists.Of(e.list), e.id).Some?
    ensures e == EntryFrom(e.list, Find(p.lists.Of(e.list), e.id).value, part, visible, e.uid)
    decreases |lists|
  {
    hide EntriesFrom, EntryFrom, Find, DistinctIds;
    var stored := p.lists.Of(lists[0]);
    var first := EntriesFrom(lists[0], stored, part, visible, uid);
    if e in first {
      var i :| 0 <= i < |first| && first[i] == e;
      EntryFromNames(lists[0], stored[i], part, visible, uid + i);
      FindAt(stored, i);
    } else {
      ReadIsStored(p, part, visible, lists[1..], uid + |stored|, e);
    }
  }

  lemma EntryFromNames(l: ListName, st: Entry, part: PartName, visible: set<string>, uid: nat)
    ensures var e := EntryFrom(l, st, part, visible, uid);
      && e.uid == uid && e.list == l && e.id == st.id && e.onlyMe == (part == OnlyMe) && e.from == Some(part)
      && !e.shownInField && e.known.None?
  {
  }

  lemma {:induction false} StoredIsRead(p: Part, part: PartName, visible: set<string>, lists: seq<ListName>, uid: nat, l: ListName, id: string)
    returns (e: DraftEntry)
    requires l in lists && Find(p.lists.Of(l), id).Some?
    ensures e in ListsFrom(p, part, visible, lists, uid)
    ensures e.list == l && e.id == id && e == EntryFrom(l, Find(p.lists.Of(l), id).value, part, visible, e.uid)
    decreases |lists|
  {
    hide EntryFrom, EntriesFrom, Find;
    var stored := p.lists.Of(lists[0]);
    if l == lists[0] {
      FindGives(stored, id);
      var i :| 0 <= i < |stored| && stored[i] == Find(stored, id).value;
      e := EntryFrom(l, stored[i], part, visible, uid + i);
      assert e == EntriesFrom(l, stored, part, visible, uid)[i];
      EntryFromNames(l, stored[i], part, visible, uid + i);
    } else {
      e := StoredIsRead(p, part, visible, lists[1..], uid + |stored|, l, id);
    }
  }

  // ------------------------------------------------------------- the texts read

  lemma {:induction false} TextsFromOf(texts: map<TextKey, TextValue>, part: PartName, keys: seq<TextKey>, uid: nat)
    ensures forall t :: t in TextsFrom(texts, part, keys, uid) ==>
      t.key in keys && t.key in texts && t.value == FieldValue(texts[t.key]) && t.onlyMe == (part == OnlyMe) && t.from == Some(part)
    decreases |keys|
  {
    if keys != [] {
      TextsFromOf(texts, part, keys[1..], uid + 1);
    }
  }

  lemma {:induction false} TextIsRead(texts: map<TextKey, TextValue>, part: PartName, keys: seq<TextKey>, uid: nat, k: TextKey)
    requires k in keys && k in texts && !Blank(FieldValue(texts[k]))
    ensures TextThere(TextsFrom(texts, part, keys, uid), part, k)
    decreases |keys|
  {
    var all := TextsFrom(texts, part, keys, uid);
    if k == keys[0] {
      assert all[0] in all && all[0].key == k && all[0].from == Some(part);
    } else {
      TextIsRead(texts, part, keys[1..], uid + 1, k);
      var t :| t in TextsFrom(texts, part, keys[1..], uid + 1) && t.key == k && t.from == Some(part);
      assert t in all;
    }
  }

  predicate KeysOnce(texts: seq<DraftText>) {
    forall i, j :: 0 <= i < j < |texts| ==> texts[i].key != texts[j].key
  }

  lemma {:induction false} TextsFromOnce(texts: map<TextKey, TextValue>, part: PartName, keys: seq<TextKey>, uid: nat)
    requires forall i, j :: 0 <= i < j < |keys| ==> keys[i] != keys[j]
    ensures KeysOnce(TextsFrom(texts, part, keys, uid))
    decreases |keys|
  {
    if keys != [] {
      TextsFromOnce(texts, part, keys[1..], uid + 1);
      TextsFromOf(texts, part, keys[1..], uid + 1);
      var rest := TextsFrom(texts, part, keys[1..], uid + 1);
      assert forall t :: t in rest ==> t.key != keys[0];
    }
  }

  lemma {:induction false} TextsMissingOf(have: seq<DraftText>, keys: seq<TextKey>, uid: nat)
    requires forall i, j :: 0 <= i < j < |keys| ==> keys[i] != keys[j]
    ensures KeysOnce(TextsMissing(have, keys, uid))
    ensures forall t :: t in TextsMissing(have, keys, uid) ==>
      t.key in keys && t.from.None? && t.value == "" && !t.onlyMe && forall x :: x in have ==> x.key != t.key
    decreases |keys|
  {
    if keys != [] {
      assert keys[0] !in keys[1..];
      TextsMissingOf(have, keys[1..], uid + 1);
      NextMissing(have, keys, uid);
      hide TextsMissing;
    }
  }

  lemma NextMissing(have: seq<DraftText>, keys: seq<TextKey>, uid: nat)
    requires keys != []
    ensures TextsMissing(have, keys, uid) == TextsMissing(have, keys[1..], uid + 1)
      || (TextsMissing(have, keys, uid) == [DraftText(uid, keys[0], "", false, None)] + TextsMissing(have, keys[1..], uid + 1)
          && forall x :: x in have ==> x.key != keys[0])
  {
  }

  /** A text kept as the vault keeps it is not blank in the form, and is sent as it was. */
  lemma NormalTextOut(k: TextKey, v: TextValue)
    requires NormalText(k, v)
    ensures !Blank(FieldValue(v))
    ensures TextOut(k, FieldValue(v)) == Some(v)
  {
    if k == Nationalities {
      JoinedNotBlank(v.codes);
      CodesReadBack(v.codes);
    } else {
      TrimmedTrims(v.words);
    }
  }

  /** Three runs of texts, read from each part and then made for what neither has. */
  lemma TextsTogether(a: seq<DraftText>, b: seq<DraftText>, c: seq<DraftText>)
    requires KeysOnce(a) && KeysOnce(b) && KeysOnce(c)
    requires forall t :: t in a ==> !t.onlyMe && t.from == Some(Shared)
    requires forall t :: t in b ==> t.onlyMe && t.from == Some(OnlyMe)
    requires forall t, x :: t in c && x in a + b ==> t.key != x.key
    ensures OneTextEach(a + b + c)
    ensures forall i, j :: 0 <= i < |a + b + c| && 0 <= j < |a + b + c| && i != j && (a + b + c)[i].key == (a + b + c)[j].key ==>
      (a + b + c)[i].from == Some(PartFor((a + b + c)[i].onlyMe))
  {
    var all := a + b + c;
    var ab := a + b;
    assert forall i :: 0 <= i < |ab| ==> all[i] == ab[i] && all[i] in ab;
    assert forall i :: |ab| <= i < |all| ==> all[i] == c[i - |ab|] && all[i] in c;
    assert forall i :: 0 <= i < |a| ==> ab[i] == a[i] && ab[i] in a;
    assert forall i :: |a| <= i < |ab| ==> ab[i] == b[i - |a|] && ab[i] in b;
  }

  lemma TextsReadOk(v: Vault, who: Editor)
    requires WellKept(v)
    ensures TextsOk(v, DraftFrom(v, who).texts)
  {
    var n := |who.texts|;
    var a := TextsFrom(v.shared.texts, Shared, who.texts, 0);
    var b := TextsFrom(v.onlyMe.texts, OnlyMe, who.texts, n);
    var c := TextsMissing(a + b, who.texts, 2 * n);
    TextsFromOf(v.shared.texts, Shared, who.texts, 0);
    TextsFromOf(v.onlyMe.texts, OnlyMe, who.texts, n);
    TextsFromOnce(v.shared.texts, Shared, who.texts, 0);
    TextsFromOnce(v.onlyMe.texts, OnlyMe, who.texts, n);
    TextsMissingOf(a + b, who.texts, 2 * n);
    TextsTogether(a, b, c);
    forall p: PartName, k: TextKey | TextAt(v, p, k).Some?
      ensures TextThere(a + b + c, p, k)
    {
      assert NormalText(k, v.PartOf(p).texts[k]);
      NormalTextOut(k, v.PartOf(p).texts[k]);
      TextIsRead(v.PartOf(p).texts, p, who.texts, if p == Shared then 0 else n, k);
      var read := if p == Shared then a else b;
      var t: DraftText :| t in read && t.key == k && t.from == Some(p);
      assert t in a + b + c;
    }
  }

  lemma ReadEntryOk(v: Vault, visible: set<string>, p: PartName, e: DraftEntry)
    requires NormalPart(v.PartOf(p)) && At(v, p, e.list, e.id).Some?
    requires e == EntryFrom(e.list, At(v, p, e.list, e.id).value, p, visible, e.uid)
    ensures EntryOk(v, visible, e)
  {
    NormalAt(v, p, e.list, e.id);
  }

  lemma PartReadOk(v: Vault, who: Editor, p: PartName, uid: nat)
    requires NormalPart(v.PartOf(p))
    ensures var read := ListsFrom(v.PartOf(p), p, who.visible, who.lists, uid);
      && Apart(read)
      && (forall x :: x in read ==> uid <= x.uid < uid + Entries(v.PartOf(p), who.lists))
      && (forall x :: x in read ==> x.from == Some(p) && At(v, p, x.list, x.id).Some? && EntryOk(v, who.visible, x))
  {
    NormalEachOnce(v.PartOf(p));
    ListsFromApart(v.PartOf(p), p, who.visible, who.lists, uid);
    hide EntryFrom, EntriesFrom, ListsFrom, EntryOk, NormalPart, Find;
    var read := ListsFrom(v.PartOf(p), p, who.visible, who.lists, uid);
    forall x | x in read
      ensures x.from == Some(p) && At(v, p, x.list, x.id).Some? && EntryOk(v, who.visible, x)
    {
      ReadIsStored(v.PartOf(p), p, who.visible, who.lists, uid, x);
      EntryFromNames(x.list, At(v, p, x.list, x.id).value, p, who.visible, x.uid);
      ReadEntryOk(v, who.visible, p, x);
    }
  }

  /** The draft a record is first read into is one the form may rely on. */
  lemma DraftFromOk(v: Vault, who: Editor)
    requires WellKept(v)
    ensures DraftOk(v, who, DraftFrom(v, who))
  {
    TextsReadOk(v, who);
    EntriesReadOk(v, who);
    hide EntryOk, TextsOk, Apart, DraftFrom, WellKept;
  }

  lemma EntriesReadOk(v: Vault, who: Editor)
    requires WellKept(v)
    ensures Apart(DraftFrom(v, who).entries)
    ensures forall e :: e in DraftFrom(v, who).entries ==> EntryOk(v, who.visible, e)
  {
    hide EntryOk, ListsFrom, TextsFrom, TextsMissing, Entries, Apart, NormalPart, At;
    var m := 3 * |who.texts|;
    var n := m + Entries(v.shared, who.lists);
    PartReadOk(v, who, Shared, m);
    PartReadOk(v, who, OnlyMe, n);
    var a := ListsFrom(v.shared, Shared, who.visible, who.lists, m);
    var b := ListsFrom(v.onlyMe, OnlyMe, who.visible, who.lists, n);
    ApartConcat(a, b);
    EntriesOf(v, who);
    hide DraftFrom;
    assert forall e :: e in a + b <==> e in a || e in b;
  }

  lemma EntriesOf(v: Vault, who: Editor)
    ensures DraftFrom(v, who).entries ==
            ListsFrom(v.shared, Shared, who.visible, who.lists, 3 * |who.texts|)
            + ListsFrom(v.onlyMe, OnlyMe, who.visible, who.lists, 3 * |who.texts| + Entries(v.shared, who.lists))
  {
    hide ListsFrom, TextsFrom, TextsMissing, Entries;
  }

  // ------------------------------------------------------------- written back untouched

  lemma ReadIsStoredInRecord(v: Vault, who: Editor, e: DraftEntry)
    requires WellKept(v) && e in DraftFrom(v, who).entries
    ensures e.from == Some(PartFor(e.onlyMe)) && At(v, PartFor(e.onlyMe), e.list, e.id).Some?
    ensures e == EntryFrom(e.list, At(v, PartFor(e.onlyMe), e.list, e.id).value, PartFor(e.onlyMe), who.visible, e.uid)
  {
    NormalEachOnce(v.shared);
    NormalEachOnce(v.onlyMe);
    var m := 3 * |who.texts|;
    if e in ListsFrom(v.shared, Shared, who.visible, who.lists, m) {
      ReadIsStored(v.shared, Shared, who.visible, who.lists, m, e);
    } else {
      ReadIsStored(v.onlyMe, OnlyMe, who.visible, who.lists, m + Entries(v.shared, who.lists), e);
    }
  }

  /** What the form first has of a part, entry by entry: what leaves the vault as it is. */
  predicate LeavesAsIs(l: ListName, st: Option<Entry>, s: Option<SentEntry>, visible: set<string>) {
    && s.None? == st.None?
    && (st.Some? ==>
          && MergeEntry(l, st, s.value, visible) == st.value
          && !s.value.secret.Cleared? && !s.value.doc.Cleared?
          && (IsMasked(l, st.value) ==> s.value.secret.Left?))
  }

  lemma FirstBuilt(v: Vault, who: Editor, p: PartName, l: ListName, id: string)
    requires WellKept(v)
    ensures LeavesAsIs(l, At(v, p, l, id), SentAt(DraftFrom(v, who), p, l, id), who.visible)
  {
    hide EntryOk, TextsOk, EntryFrom, TextsFrom, TextsMissing, ListsFrom, NormalPart, NormalEntry, EntryOut, BuildPart, Apart, DraftFrom, SentAt;
    DraftFromOk(v, who);
    var d := DraftFrom(v, who);
    if InPart(d, p, l, id) {
      var e := OneIsBuilt(d, p, l, id);
      FindBuilt(d, e);
      ReadIsStoredInRecord(v, who, e);
      NormalAt(v, p, l, id);
      EntryFromNames(l, At(v, p, l, id).value, p, who.visible, e.uid);
      UneditedIsKept(l, At(v, p, l, id).value, p, who.visible, e);
    } else {
      FindNotBuilt(d, p, l, id);
      if At(v, p, l, id).Some? {
        var e := StoredIsInDraft(v, who, p, l, id);
        assert false;
      }
    }
  }

  lemma StoredIsInDraft(v: Vault, who: Editor, p: PartName, l: ListName, id: string) returns (e: DraftEntry)
    requires At(v, p, l, id).Some?
    ensures e in DraftFrom(v, who).entries && e.list == l && e.id == id && PartFor(e.onlyMe) == p && e.from == Some(p)
    ensures e == EntryFrom(l, At(v, p, l, id).value, p, who.visible, e.uid)
  {
    hide EntryFrom, TextsFrom, TextsMissing, ListsFrom;
    var m := 3 * |who.texts|;
    e := StoredIsRead(v.PartOf(p), p, who.visible, who.lists, if p == Shared then m else m + Entries(v.shared, who.lists), l, id);
    EntryFromNames(l, At(v, p, l, id).value, p, who.visible, e.uid);
  }

  lemma ReadTextIs(v: Vault, who: Editor, t: DraftText)
    requires t in DraftFrom(v, who).texts
    ensures t.from.Some? ==> t.from.value == PartFor(t.onlyMe) && t.key in v.PartOf(t.from.value).texts
    ensures t.from.Some? ==> t.value == FieldValue(v.PartOf(t.from.value).texts[t.key])
    ensures t.from.None? ==> t.value == ""
  {
    var n := |who.texts|;
    var a := TextsFrom(v.shared.texts, Shared, who.texts, 0);
    var b := TextsFrom(v.onlyMe.texts, OnlyMe, who.texts, n);
    TextsFromOf(v.shared.texts, Shared, who.texts, 0);
    TextsFromOf(v.onlyMe.texts, OnlyMe, who.texts, n);
    TextsMissingOf(a + b, who.texts, 2 * n);
  }

  /** And text by text. */
  lemma FirstBuiltText(v: Vault, who: Editor, p: PartName, k: TextKey)
    requires WellKept(v)
    ensures TextOf(BuildPart(DraftFrom(v, who), p).texts, k) == TextAt(v, p, k)
  {
    hide DraftFrom, NormalText, TextOut, FieldValue, TextOk, BuildTexts, BuildList, NormalList;
    TextsReadOk(v, who);
    var texts := DraftFrom(v, who).texts;
    if TextAt(v, p, k).Some? {
      assert TextThere(texts, p, k);
      var t :| t in texts && t.key == k && t.from == Some(p);
      ReadTextIs(v, who, t);
      TextBuilt(texts, p, t);
      assert NormalText(k, v.PartOf(p).texts[k]);
      NormalTextOut(k, v.PartOf(p).texts[k]);
    } else if t :| t in texts && t.key == k && PartFor(t.onlyMe) == p {
      ReadTextIs(v, who, t);
      TextBuilt(texts, p, t);
      NothingTyped(k);
    } else {
      NoTextBuilt(texts, p, k);
    }
  }

  lemma NothingTyped(k: TextKey)
    ensures TextOut(k, "").None?
  {
    assert Trim("") == "";
  }

  // ------------------------------------------------------------- the whole part, in its order

  lemma {:induction false} HereConcat(a: seq<DraftEntry>, b: seq<DraftEntry>, l: ListName, part: PartName)
    ensures Here(a + b, l, part) == Here(a, l, part) + Here(b, l, part)
    decreases |a|
  {
    if a == [] {
      assert a + b == b;
    } else {
      assert (a + b)[1..] == a[1..] + b;
      HereConcat(a[1..], b, l, part);
    }
  }

  lemma {:induction false} HereOne(of: ListName, in_: PartName, entries: seq<DraftEntry>, l: ListName, part: PartName)
    requires forall e :: e in entries ==> e.list == of && PartFor(e.onlyMe) == in_
    ensures Here(entries, l, part) == if of == l && in_ == part then entries else []
    decreases |entries|
  {
    hide Here;
    if entries == [] {
      HereEmpty(l, part);
    } else {
      assert entries[0] in entries && forall e :: e in entries[1..] ==> e in entries;
      HereOne(of, in_, entries[1..], l, part);
      HereCons(entries, l, part);
      assert entries == [entries[0]] + entries[1..];
    }
  }

  lemma HereEmpty(l: ListName, part: PartName)
    ensures Here([], l, part) == []
  {
  }

  lemma HereCons(entries: seq<DraftEntry>, l: ListName, part: PartName)
    requires entries != []
    ensures Here(entries, l, part) ==
            (if entries[0].list == l && PartFor(entries[0].onlyMe) == part then [entries[0]] else []) + Here(entries[1..], l, part)
  {
  }

  lemma NamesOfRead(l: ListName, entries: seq<Entry>, part: PartName, visible: set<string>, uid: nat)
    ensures forall e :: e in EntriesFrom(l, entries, part, visible, uid) ==> e.list == l && PartFor(e.onlyMe) == part
  {
  }

  lemma HereOfFirst(p: Part, in_: PartName, visible: set<string>, lists: seq<ListName>, uid: nat, l: ListName, part: PartName)
    requires lists != []
    ensures Here(ListsFrom(p, in_, visible, lists, uid), l, part)
         == (if l == lists[0] && in_ == part then EntriesFrom(l, p.lists.Of(l), in_, visible, uid) else [])
            + Here(ListsFrom(p, in_, visible, lists[1..], uid + |p.lists.Of(lists[0])|), l, part)
  {
    hide EntryFrom, EntriesFrom, Here;
    var first := EntriesFrom(lists[0], p.lists.Of(lists[0]), in_, visible, uid);
    var rest := ListsFrom(p, in_, visible, lists[1..], uid + |first|);
    HereConcat(first, rest, l, part);
    NamesOfRead(lists[0], p.lists.Of(lists[0]), in_, visible, uid);
    HereOne(lists[0], in_, first, l, part);
  }

  lemma HereOfNone(p: Part, in_: PartName, visible: set<string>, uid: nat, l: ListName, part: PartName)
    ensures Here(ListsFrom(p, in_, visible, [], uid), l, part) == []
  {
  }

  /** Of everything read of a part, one list's entries are what was read of that list. */
  lemma {:induction false} HereOfRead(p: Part, in_: PartName, visible: set<string>, lists: seq<ListName>, uid: nat, l: ListName, part: PartName)
    returns (n: nat)
    requires forall i, j :: 0 <= i < j < |lists| ==> lists[i] != lists[j]
    ensures Here(ListsFrom(p, in_, visible, lists, uid), l, part)
         == if l in lists && in_ == part then EntriesFrom(l, p.lists.Of(l), in_, visible, n) else []
    decreases |lists|
  {
    hide EntryFrom, EntriesFrom, Here, ListsFrom;
    n := 0;
    if lists == [] {
      HereOfNone(p, in_, visible, uid, l, part);
    } else {
      HereOfFirst(p, in_, visible, lists, uid, l, part);
      assert l == lists[0] ==> l !in lists[1..];
      assert l != lists[0] ==> (l in lists <==> l in lists[1..]);
      n := HereOfRead(p, in_, visible, lists[1..], uid + |p.lists.Of(lists[0])|, l, part);
      if l == lists[0] {
        n := uid;
      }
    }
  }

  lemma {:induction false} ItemsWrittenBack(l: ListName, stored: seq<Entry>, entries: seq<Entry>, p: PartName, visible: set<string>, uid: nat, chosen: map<string, DraftEntry>)
    requires DistinctIds(stored)
    requires forall x :: x in entries ==> x in stored && NormalEntry(l, x)
    requires forall e :: e in EntriesFrom(l, entries, p, visible, uid) ==> e.id in chosen && chosen[e.id] == e
    ensures MergeList(l, stored, Items(EntriesFrom(l, entries, p, visible, uid), chosen, p), visible) == entries
    decreases |entries|, 1
  {
    hide NormalEntry, EntryOut, MergeEntry, EntryFrom, EntriesFrom, Items, MergeList, Find, DistinctIds;
    if entries == [] {
      NoItemsBack(l, stored, p, visible, uid, chosen);
    } else {
      var e := EntryFrom(l, entries[0], p, visible, uid);
      EntriesCons(l, entries, p, visible, uid);
      EntryWrittenBack(l, stored, entries[0], p, visible, uid);
      var read := EntriesFrom(l, entries, p, visible, uid);
      var rest := EntriesFrom(l, entries[1..], p, visible, uid + 1);
      assert read == [e] + rest && e in read && e.id in chosen && chosen[e.id] == e;
      RestWrittenBack(l, stored, entries, e, rest, p, visible, uid, chosen);
      ItemsCons(e, rest, chosen, p);
      MergeCons(l, stored, EntryOut(e, p).value, Items(rest, chosen, p), visible);
    }
  }

  lemma {:induction false} RestWrittenBack(l: ListName, stored: seq<Entry>, entries: seq<Entry>, e: DraftEntry, rest: seq<DraftEntry>,
      p: PartName, visible: set<string>, uid: nat, chosen: map<string, DraftEntry>)
    requires entries != [] && DistinctIds(stored) && forall x :: x in entries ==> x in stored && NormalEntry(l, x)
    requires rest == EntriesFrom(l, entries[1..], p, visible, uid + 1)
    requires forall x :: x in [e] + rest ==> x.id in chosen && chosen[x.id] == x
    ensures MergeList(l, stored, Items(rest, chosen, p), visible) == entries[1..]
    decreases |entries|, 0
  {
    hide NormalEntry, EntryOut, MergeEntry, EntryFrom, EntriesFrom, Items, MergeList, Find, DistinctIds;
    assert forall x :: x in rest ==> x in [e] + rest;
    assert forall x :: x in entries[1..] ==> x in entries;
    ItemsWrittenBack(l, stored, entries[1..], p, visible, uid + 1, chosen);
  }

  lemma NoItemsBack(l: ListName, stored: seq<Entry>, p: PartName, visible: set<string>, uid: nat, chosen: map<string, DraftEntry>)
    ensures MergeList(l, stored, Items(EntriesFrom(l, [], p, visible, uid), chosen, p), visible) == []
  {
  }

  lemma EntriesCons(l: ListName, entries: seq<Entry>, p: PartName, visible: set<string>, uid: nat)
    requires entries != []
    ensures EntriesFrom(l, entries, p, visible, uid)
         == [EntryFrom(l, entries[0], p, visible, uid)] + EntriesFrom(l, entries[1..], p, visible, uid + 1)
  {
  }

  lemma EntryWrittenBack(l: ListName, stored: seq<Entry>, st: Entry, p: PartName, visible: set<string>, uid: nat)
    requires DistinctIds(stored) && st in stored && NormalEntry(l, st)
    ensures var s := EntryOut(EntryFrom(l, st, p, visible, uid), p);
      s.Some? && s.value.id == st.id && MergeEntry(l, Find(stored, s.value.id), s.value, visible) == st
  {
    var e := EntryFrom(l, st, p, visible, uid);
    EntryFromNames(l, st, p, visible, uid);
    UneditedIsKept(l, st, p, visible, e);
    var i :| 0 <= i < |stored| && stored[i] == st;
    FindAt(stored, i);
  }

  lemma ItemsCons(e: DraftEntry, rest: seq<DraftEntry>, chosen: map<string, DraftEntry>, p: PartName)
    requires e.id in chosen && chosen[e.id] == e && EntryOut(e, p).Some?
    ensures Items([e] + rest, chosen, p) == [EntryOut(e, p).value] + Items(rest, chosen, p)
  {
    assert ([e] + rest)[1..] == rest;
  }

  lemma MergeCons(l: ListName, stored: seq<Entry>, s: SentEntry, rest: seq<SentEntry>, visible: set<string>)
    ensures MergeList(l, stored, [s] + rest, visible)
         == [MergeEntry(l, Find(stored, s.id), s, visible)] + MergeList(l, stored, rest, visible)
  {
    assert ([s] + rest)[1..] == rest;
  }

  lemma ReadIdsDiffer(l: ListName, stored: seq<Entry>, p: PartName, visible: set<string>, uid: nat, x: DraftEntry, y: DraftEntry)
    requires DistinctIds(stored)
    requires x in EntriesFrom(l, stored, p, visible, uid) && y in EntriesFrom(l, stored, p, visible, uid) && x.id == y.id
    ensures x == y
  {
    hide EntriesFrom, EntryFrom;
    var read := EntriesFrom(l, stored, p, visible, uid);
    var i :| 0 <= i < |read| && read[i] == x;
    var j :| 0 <= j < |read| && read[j] == y;
    EntryFromNames(l, stored[i], p, visible, uid + i);
    EntryFromNames(l, stored[j], p, visible, uid + j);
  }

  lemma HereOfDraft(v: Vault, who: Editor, p: PartName, l: ListName) returns (u: nat)
    ensures Here(DraftFrom(v, who).entries, l, p) == EntriesFrom(l, v.PartOf(p).lists.Of(l), p, who.visible, u)
  {
    hide EntryFrom, EntriesFrom, ListsFrom, Here, Entries, TextsFrom, TextsMissing;
    var m := 3 * |who.texts|;
    var m' := m + Entries(v.shared, who.lists);
    HereConcat(ListsFrom(v.shared, Shared, who.visible, who.lists, m), ListsFrom(v.onlyMe, OnlyMe, who.visible, who.lists, m'), l, p);
    var n := HereOfRead(v.shared, Shared, who.visible, who.lists, m, l, p);
    var n' := HereOfRead(v.onlyMe, OnlyMe, who.visible, who.lists, m', l, p);
    u := if p == Shared then n else n';
  }

  lemma ReadWrittenBack(l: ListName, stored: seq<Entry>, p: PartName, visible: set<string>, u: nat)
    requires NormalList(l, stored)
    ensures var read := EntriesFrom(l, stored, p, visible, u);
      MergeList(l, stored, Items(read, Chosen(read, p), p), visible) == stored
  {
    hide NormalEntry, EntryFrom, EntriesFrom, Items, Chosen, MergeList;
    var read := EntriesFrom(l, stored, p, visible, u);
    var chosen := Chosen(read, p);
    forall e | e in read
      ensures e.id in chosen && chosen[e.id] == e
    {
      ReadIdsDiffer(l, stored, p, visible, u, e, chosen[e.id]);
    }
    ItemsWrittenBack(l, stored, stored, p, visible, u, chosen);
  }

  lemma ListWrittenBack(v: Vault, who: Editor, p: PartName, l: ListName)
    requires WellKept(v)
    ensures MergeList(l, v.PartOf(p).lists.Of(l), BuildList(DraftFrom(v, who), l, p), who.visible)
         == v.PartOf(p).lists.Of(l)
  {
    assert NormalList(l, v.PartOf(p).lists.Of(l));
    hide WellKept, NormalList, DraftFrom, EntriesFrom, Items, Chosen, MergeList;
    var u := HereOfDraft(v, who, p, l);
    ReadWrittenBack(l, v.PartOf(p).lists.Of(l), p, who.visible, u);
  }

  lemma SameTexts(a: map<TextKey, TextValue>, b: map<TextKey, TextValue>)
    requires forall k: TextKey :: TextOf(a, k) == TextOf(b, k)
    ensures a == b
  {
    assert forall k :: k in a ==> TextOf(a, k) == TextOf(b, k);
    assert forall k :: k in b ==> TextOf(a, k) == TextOf(b, k);
  }

  lemma TextsWrittenBack(v: Vault, who: Editor, p: PartName)
    requires WellKept(v)
    ensures BuildPart(DraftFrom(v, who), p).texts == v.PartOf(p).texts
  {
    hide WellKept, DraftFrom, BuildPart;
    forall k: TextKey
      ensures TextOf(BuildPart(DraftFrom(v, who), p).texts, k) == TextOf(v.PartOf(p).texts, k)
    {
      FirstBuiltText(v, who, p, k);
    }
    SameTexts(BuildPart(DraftFrom(v, who), p).texts, v.PartOf(p).texts);
  }

  /**
   * The round trip: a part read into the form and written back untouched leaves the
   * stored part as it was, every masked value and unseen document with it, in its order.
   */
  lemma WrittenBackUntouched(v: Vault, who: Editor, p: PartName)
    requires WellKept(v)
    ensures Merge(v.PartOf(p), BuildPart(DraftFrom(v, who), p), who.visible) == v.PartOf(p)
    ensures Put(v, p, BuildPart(DraftFrom(v, who), p), who.visible) == v
  {
    hide WellKept, DraftFrom, BuildTexts, BuildList, MergeList, Find, SameEntries;
    TextsWrittenBack(v, who, p);
    ListWrittenBack(v, who, p, Emails);
    ListWrittenBack(v, who, p, Phones);
    ListWrittenBack(v, who, p, Addresses);
    ListWrittenBack(v, who, p, Ids);
    ListWrittenBack(v, who, p, Custom);
    SameAsItself(v.PartOf(p));
  }

  lemma SameAsItself(p: Part)
    ensures SameStored(p, p)
  {
  }
}
