/** What the form shows of a record it has just read: every entry and every text, and of each just what its reader may see. */
module IdentityShown {
  import opened Text
  import opened IdentityVault
  import opened IdentityDraft
  import opened IdentityParts
  import opened IdentityReading

  /** The name of the value that can be kept back. */
  function ValueKey(l: ListName): string {
    if l == Ids then "number" else "value"
  }

  predicate KeptBack(l: ListName, st: Entry) {
    st.secret.Some? && (l == Ids || (l == Custom && st.hidden))
  }

  predicate ValueShown(l: ListName, st: Entry) {
    st.secret.Some? && (l == Ids || l == Custom) && !KeptBack(l, st)
  }

  /**
   * An entry as the form first shows it: its fields; its value in its field, unless that is kept
   * back, an ID's always and a hidden field's; and its document, if the reader may see it.
   */
  ghost predicate ShownAs(l: ListName, st: Entry, p: PartName, visible: set<string>, e: DraftEntry) {
    && e.list == l && e.id == st.id && e.from == Some(p) && e.onlyMe == (p == OnlyMe) && e.hidden == st.hidden
    && (e.masked <==> KeptBack(l, st)) && e.known.None? && !e.shownInField
    && (forall k :: k in e.f <==> k in st.f || (ValueShown(l, st) && k == ValueKey(l)))
    && (forall k :: k in st.f && !(ValueShown(l, st) && k == ValueKey(l)) ==> e.f[k] == st.f[k])
    && (ValueShown(l, st) ==> e.f[ValueKey(l)] == st.secret.value)
    && e.docId == e.linkedBefore == (if st.doc.Some? && st.doc.value in visible then st.doc else None)
  }

  lemma EntryShows(l: ListName, st: Entry, p: PartName, visible: set<string>, uid: nat)
    requires NormalEntry(l, st)
    ensures ShownAs(l, st, p, visible, EntryFrom(l, st, p, visible, uid))
  {
    hide NormalField;
  }

  /** Every entry of the form just read is a stored one's, shown as it may be. */
  lemma FormShows(v: Vault, who: Editor, e: DraftEntry)
    requires WellKept(v) && e in DraftFrom(v, who).entries
    ensures e.from.Some? && At(v, e.from.value, e.list, e.id).Some?
    ensures ShownAs(e.list, At(v, e.from.value, e.list, e.id).value, e.from.value, who.visible, e)
  {
    hide DraftFrom, WellKept, EntryFrom, ShownAs, Find, NormalEntry;
    ReadIsStoredInRecord(v, who, e);
    var p := PartFor(e.onlyMe);
    NormalStored(v, p, e.list, e.id);
    EntryShows(e.list, At(v, p, e.list, e.id).value, p, who.visible, e.uid);
  }

  lemma NormalStored(v: Vault, p: PartName, l: ListName, id: string)
    requires WellKept(v) && At(v, p, l, id).Some?
    ensures NormalEntry(l, At(v, p, l, id).value)
  {
    NormalAt(v, p, l, id);
  }

  /** And every stored entry has its place in the form. */
  lemma EveryEntryIsShown(v: Vault, who: Editor, p: PartName, l: ListName, id: string)
    requires WellKept(v) && At(v, p, l, id).Some?
    ensures exists e :: e in DraftFrom(v, who).entries && e.list == l && e.id == id && e.from == Some(p)
  {
    hide DraftFrom, WellKept, Find;
    var e := StoredIsInDraft(v, who, p, l, id);
    assert e in DraftFrom(v, who).entries;
    ReadIsStoredInRecord(v, who, e);
  }

  /** Asked for, a value kept back is given as it is stored; one that is not kept back, or not there, is none to show. */
  lemma RevealGives(v: Vault, p: PartName, l: ListName, id: string)
    ensures var there, got := At(v, p, l, id), Reveal(v.PartOf(p), l, id);
      if there.Some? && KeptBack(l, there.value) then got == there.value.secret else got.None?
  {
  }

  ghost predicate HasKey(texts: seq<DraftText>, k: TextKey) {
    exists t :: t in texts && t.key == k
  }

  lemma {:induction false} MissingHas(have: seq<DraftText>, keys: seq<TextKey>, uid: nat, k: TextKey)
    requires k in keys
    ensures HasKey(have, k) || HasKey(TextsMissing(have, keys, uid), k)
    decreases |keys|
  {
    var all := TextsMissing(have, keys, uid);
    var rest := TextsMissing(have, keys[1..], uid + 1);
    assert forall t :: t in rest ==> t in all;
    if keys[0] == k {
      if !HasKey(have, k) {
        assert all[0] == DraftText(uid, k, "", false, None);
      }
    } else {
      MissingHas(have, keys[1..], uid + 1, k);
    }
  }

  /** There is a field for every text; each reads what its part has, codes one after another; one that neither part has is empty, and for everyone. */
  lemma EveryTextIsShown(v: Vault, who: Editor, k: TextKey)
    requires WellKept(v)
    ensures HasKey(DraftFrom(v, who).texts, k)
    ensures forall t :: t in DraftFrom(v, who).texts ==>
      (match t.from
       case Some(p) =>
         && t.onlyMe == (p == OnlyMe) && TextAt(v, p, t.key).Some?
         && t.value == (match TextAt(v, p, t.key).value case Words(w) => w case CodeList(cs) => Joined(cs))
       case None => t.value == "" && !t.onlyMe && TextAt(v, Shared, t.key).None? && TextAt(v, OnlyMe, t.key).None?)
  {
    EveryKeyIsThere(v, who, k);
    hide DraftFrom, WellKept, Joined;
    TextsReadOk(v, who);
    var texts := DraftFrom(v, who).texts;
    forall t | t in texts
      ensures match t.from
              case Some(p) =>
                && t.onlyMe == (p == OnlyMe) && TextAt(v, p, t.key).Some?
                && t.value == (match TextAt(v, p, t.key).value case Words(w) => w case CodeList(cs) => Joined(cs))
              case None => t.value == "" && !t.onlyMe && TextAt(v, Shared, t.key).None? && TextAt(v, OnlyMe, t.key).None?
    {
      ReadTextIs(v, who, t);
      if t.from.None? {
        NeitherHas(v, texts, t);
        NewIsShared(v, who, t);
      }
    }
  }

  lemma NewIsShared(v: Vault, who: Editor, t: DraftText)
    requires t in DraftFrom(v, who).texts && t.from.None?
    ensures !t.onlyMe
  {
    var n := |who.texts|;
    var a := TextsFrom(v.shared.texts, Shared, who.texts, 0);
    var b := TextsFrom(v.onlyMe.texts, OnlyMe, who.texts, n);
    TextsFromOf(v.shared.texts, Shared, who.texts, 0);
    TextsFromOf(v.onlyMe.texts, OnlyMe, who.texts, n);
    TextsMissingOf(a + b, who.texts, 2 * n);
  }

  lemma EveryKeyIsThere(v: Vault, who: Editor, k: TextKey)
    ensures HasKey(DraftFrom(v, who).texts, k)
  {
    hide TextsFrom, TextsMissing, ListsFrom, Entries;
    var n := |who.texts|;
    var texts := TextsFrom(v.shared.texts, Shared, who.texts, 0) + TextsFrom(v.onlyMe.texts, OnlyMe, who.texts, n);
    assert k in who.texts;
    MissingHas(texts, who.texts, 2 * n, k);
    var missing := TextsMissing(texts, who.texts, 2 * n);
    assert forall t :: t in texts || t in missing ==> t in DraftFrom(v, who).texts;
  }

  lemma NeitherHas(v: Vault, texts: seq<DraftText>, t: DraftText)
    requires TextsOk(v, texts) && t in texts && t.from.None?
    ensures TextAt(v, Shared, t.key).None? && TextAt(v, OnlyMe, t.key).None?
  {
    forall p: PartName
      ensures TextAt(v, p, t.key).None?
    {
      if TextAt(v, p, t.key).Some? {
        assert TextThere(texts, p, t.key);
      }
    }
  }
}
