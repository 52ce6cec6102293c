/**
 * Drafts of notes kept in a tab's storage (apps/web/src/note-drafts.ts): under the household
 * and the person signed in, for a document everyone sees only.
 */
module NoteDrafts {
  import opened Text

  const PREFIX := "fdv.note-draft."

  /** What was being written, and the note it began from: its words and its ETag then. */
  datatype NoteDraft = NoteDraft(
    text: string, baseText: string, baseEtag: nat, title: Option<string>, baseTitle: Option<string>)

  datatype DraftOwner = DraftOwner(household: string, member: string)

  /** A document, and whether everyone in the family sees it. */
  datatype Whose = Whose(id: string, forEveryone: bool)

  /** What a key of the tab's holds: a draft as this page writes it, or anything else. */
  datatype Value = Kept(draft: NoteDraft) | Other(raw: string)

  type Items = map<string, Value>

  predicate NoDot(id: string) {
    '.' !in id
  }

  function OwnPrefix(who: DraftOwner): string {
    PREFIX + who.household + "." + who.member + "."
  }

  function OwnKey(who: DraftOwner, id: string): string {
    OwnPrefix(who) + id
  }

  predicate StartsWith(s: string, prefix: string) {
    prefix <= s
  }

  /** The keys `forgetDrafts` takes: every draft's, but those of whoever it keeps. */
  predicate Taken(key: string, keep: Option<DraftOwner>) {
    StartsWith(key, PREFIX) && !(keep.Some? && StartsWith(key, OwnPrefix(keep.value)))
  }

  function ForgetDrafts(items: Items, keep: Option<DraftOwner>): (r: Items)
    ensures forall k :: k in r <==> k in items && !Taken(k, keep)
    ensures forall k :: k in r ==> r[k] == items[k]
  {
    map k | k in items && !Taken(k, keep) :: items[k]
  }

  function ForgetDraft(items: Items, id: string, who: DraftOwner): Items {
    items - {OwnKey(who, id)}
  }

  /** `stored`: the storage took it; full, or blocked, it does not. */
  function KeepDraft(items: Items, doc: Whose, who: DraftOwner, draft: NoteDraft, stored: bool): Items {
    if !doc.forEveryone then ForgetDraft(items, doc.id, who)
    else if stored then items[OwnKey(who, doc.id) := Kept(draft)]
    else items
  }

  function AskDraft(items: Items, doc: Whose, who: DraftOwner): Items {
    var left := ForgetDrafts(items, Some(who));
    if !doc.forEveryone then ForgetDraft(left, doc.id, who) else left
  }

  function DraftOf(items: Items, doc: Whose, who: DraftOwner): Option<NoteDraft> {
    var left := AskDraft(items, doc, who);
    var key := OwnKey(who, doc.id);
    if doc.forEveryone && key in left && left[key].Kept? then Some(left[key].draft) else None
  }

  // ------------------------------------------------------------- runs

  datatype Op =
    | Keep(doc: Whose, who: DraftOwner, draft: NoteDraft, stored: bool)
    | Ask(doc: Whose, who: DraftOwner)
    | Forget(id: string, who: DraftOwner)
    | ForgetAll(keep: Option<DraftOwner>)
    | SetOther(key: string, raw: string)

  predicate WhoOk(who: DraftOwner) {
    NoDot(who.household) && NoDot(who.member)
  }

  /** Households and people are told apart by identifiers without a dot; the rest of the page keeps off these keys. */
  predicate OpOk(op: Op) {
    match op
    case Keep(_, who, _, _) => WhoOk(who)
    case Ask(_, who) => WhoOk(who)
    case Forget(_, who) => WhoOk(who)
    case ForgetAll(keep) => keep.Some? ==> WhoOk(keep.value)
    case SetOther(key, _) => !StartsWith(key, PREFIX)
  }

  function Done(items: Items, op: Op): Items {
    match op
    case Keep(doc, who, draft, stored) => KeepDraft(items, doc, who, draft, stored)
    case Ask(doc, who) => AskDraft(items, doc, who)
    case Forget(id, who) => ForgetDraft(items, id, who)
    case ForgetAll(keep) => ForgetDrafts(items, keep)
    case SetOther(key, raw) => items[key := Other(raw)]
  }

  function After(ops: seq<Op>): Items {
    if ops == [] then map[] else Done(After(ops[..|ops| - 1]), ops[|ops| - 1])
  }

  /** Said without keys: what this person last kept for this document, and nothing has taken since. */
  function LastKept(ops: seq<Op>, id: string, who: DraftOwner): Option<NoteDraft> {
    if ops == [] then None
    else
      var before := LastKept(ops[..|ops| - 1], id, who);
      match ops[|ops| - 1]
      case Keep(doc, w, draft, stored) =>
        if w != who || doc.id != id then before
        else if !doc.forEveryone then None
        else if stored then Some(draft)
        else before
      case Ask(doc, w) =>
        if w != who || (doc.id == id && !doc.forEveryone) then None else before
      case Forget(i, w) => if w == who && i == id then None else before
      case ForgetAll(keep) => if keep == Some(who) then before else None
      case SetOther(_, _) => before
  }

  // ------------------------------------------------------------- keys

  lemma FirstDot(a: string, x: string)
    requires NoDot(a)
    ensures (a + "." + x)[0] == '.' <==> a == []
  {
    if a != [] {
      assert a[0] in a;
    }
  }

  /** Up to its first dot, and after it: a text's two halves are its own. */
  lemma {:induction false} DotSplits(a: string, x: string, b: string, y: string)
    requires NoDot(a) && NoDot(b) && a + "." + x == b + "." + y
    ensures a == b && x == y
    decreases |a|
  {
    var s, t := a + "." + x, b + "." + y;
    FirstDot(a, x);
    FirstDot(b, y);
    if a == [] {
      assert x == s[1..] && y == t[1..];
    } else {
      assert s[0] == a[0] && t[0] == b[0];
      assert s[1..] == a[1..] + "." + x && t[1..] == b[1..] + "." + y;
      DotSplits(a[1..], x, b[1..], y);
    }
  }

  /** One key is one person's and one document's. */
  lemma KeysApart(who: DraftOwner, rest: string, w: DraftOwner, more: string)
    requires WhoOk(who) && WhoOk(w) && OwnPrefix(who) + rest == OwnPrefix(w) + more
    ensures who == w && rest == more
  {
    var s, t := OwnPrefix(who) + rest, OwnPrefix(w) + more;
    assert s[|PREFIX|..] == who.household + "." + (who.member + "." + rest);
    assert t[|PREFIX|..] == w.household + "." + (w.member + "." + more);
    DotSplits(who.household, who.member + "." + rest, w.household, w.member + "." + more);
    DotSplits(who.member, rest, w.member, more);
  }

  lemma OwnKeyIsDraft(who: DraftOwner, id: string)
    ensures StartsWith(OwnKey(who, id), PREFIX) && StartsWith(OwnKey(who, id), OwnPrefix(who))
  {
    assert OwnKey(who, id)[..|PREFIX|] == PREFIX;
  }

  /** Keeping one person's drafts takes everybody else's, and none of theirs. */
  lemma TakenIsOthers(who: DraftOwner, id: string, keep: Option<DraftOwner>)
    requires WhoOk(who) && (keep.Some? ==> WhoOk(keep.value))
    ensures Taken(OwnKey(who, id), keep) <==> keep != Some(who)
  {
    OwnKeyIsDraft(who, id);
    var key := OwnKey(who, id);
    if keep.Some? && StartsWith(key, OwnPrefix(keep.value)) {
      var more := key[|OwnPrefix(keep.value)|..];
      assert key == OwnPrefix(keep.value) + more;
      KeysApart(who, id, keep.value, more);
    }
  }

  // ------------------------------------------------------------- what is kept

  predicate Holds(items: Items, key: string, kept: Option<NoteDraft>) {
    if kept.Some? then key in items && items[key] == Kept(kept.value) else key !in items
  }

  /**
   * In every run of draft operations, under a person's and a document's key there is exactly
   * what that person last kept for it.
   */
  lemma {:induction false} KeysHoldLastKept(ops: seq<Op>, id: string, who: DraftOwner)
    requires WhoOk(who) && forall op :: op in ops ==> OpOk(op)
    ensures Holds(After(ops), OwnKey(who, id), LastKept(ops, id, who))
    decreases |ops|
  {
    if ops != [] {
      var op := ops[|ops| - 1];
      var before := ops[..|ops| - 1];
      KeysHoldLastKept(before, id, who);
      assert op in ops && OpOk(op);
      match op
      case Keep(doc, w, _, _) => SameKey(who, id, w, doc.id);
      case Ask(doc, w) =>
        SameKey(who, id, w, doc.id);
        TakenIsOthers(who, id, Some(w));
      case Forget(i, w) => SameKey(who, id, w, i);
      case ForgetAll(keep) => TakenIsOthers(who, id, keep);
      case SetOther(key, _) => OwnKeyIsDraft(who, id);
    }
  }

  lemma SameKey(who: DraftOwner, id: string, w: DraftOwner, i: string)
    requires WhoOk(who) && WhoOk(w)
    ensures OwnKey(who, id) == OwnKey(w, i) <==> who == w && id == i
  {
    if OwnKey(who, id) == OwnKey(w, i) {
      KeysApart(who, id, w, i);
    }
  }

  /** What is given back is what the same person last kept for the same document: nobody else's, nothing older. */
  lemma DraftOfIsLastKept(ops: seq<Op>, doc: Whose, who: DraftOwner)
    requires WhoOk(who) && forall op :: op in ops ==> OpOk(op)
    ensures DraftOf(After(ops), doc, who) == if doc.forEveryone then LastKept(ops, doc.id, who) else None
  {
    KeysHoldLastKept(ops, doc.id, who);
    TakenIsOthers(who, doc.id, Some(who));
  }

  /** Whoever asks finds nobody else's draft left; and no key that is not a draft's is touched. */
  lemma AskingForgetsOthers(items: Items, doc: Whose, who: DraftOwner, other: DraftOwner, id: string, key: string)
    requires WhoOk(who) && WhoOk(other) && other != who
    ensures OwnKey(other, id) !in AskDraft(items, doc, who)
    ensures !StartsWith(key, PREFIX) ==>
      (key in AskDraft(items, doc, who) <==> key in items) && (key in items ==> AskDraft(items, doc, who)[key] == items[key])
    ensures forall i :: i != doc.id && OwnKey(who, i) in items ==>
      OwnKey(who, i) in AskDraft(items, doc, who) && AskDraft(items, doc, who)[OwnKey(who, i)] == items[OwnKey(who, i)]
  {
    TakenIsOthers(other, id, Some(who));
    OwnKeyIsDraft(who, doc.id);
    forall i | i != doc.id && OwnKey(who, i) in items
      ensures OwnKey(who, i) in AskDraft(items, doc, who)
    {
      TakenIsOthers(who, i, Some(who));
      SameKey(who, i, who, doc.id);
    }
  }

  /** Of a document not for everyone no draft of theirs is left, whichever is asked last. */
  lemma NoDraftUnlessForEveryone(items: Items, doc: Whose, who: DraftOwner, draft: NoteDraft, stored: bool)
    requires !doc.forEveryone
    ensures OwnKey(who, doc.id) !in KeepDraft(items, doc, who, draft, stored)
    ensures OwnKey(who, doc.id) !in AskDraft(items, doc, who) && DraftOf(items, doc, who) == None
  {
  }

  // ------------------------------------------------------------- the tab's storage

  class TabStorage {
    var items: Items

    constructor ()
      ensures items == map[]
    {
      items := map[];
    }

    /** Keys collected first, then removed. */
    method ForgetEach(keep: Option<DraftOwner>)
      modifies this
      ensures items == ForgetDrafts(old(items), keep)
    {
      var keys := CollectKeys(keep);
      ghost var was := items;
      for i := 0 to |keys|
        invariant forall k :: k in items <==> k in was && k !in keys[..i]
        invariant forall k :: k in items ==> items[k] == was[k]
      {
        items := items - {keys[i]};
      }
    }

    method CollectKeys(keep: Option<DraftOwner>) returns (keys: seq<string>)
      ensures forall k :: k in keys <==> k in items && Taken(k, keep)
    {
      keys := [];
      var rest := items.Keys;
      while rest != {}
        invariant rest <= items.Keys
        invariant forall k :: k in keys <==> k in items && k !in rest && Taken(k, keep)
        decreases rest
      {
        var k :| k in rest;
        if StartsWith(k, PREFIX) && !(keep.Some? && StartsWith(k, OwnPrefix(keep.value))) {
          keys := keys + [k];
        }
        rest := rest - {k};
      }
    }

    method ForgetOne(id: string, who: DraftOwner)
      modifies this
      ensures items == ForgetDraft(old(items), id, who)
    {
      items := items - {OwnKey(who, id)};
    }

    method KeepOne(doc: Whose, who: DraftOwner, draft: NoteDraft, stored: bool)
      modifies this
      ensures items == KeepDraft(old(items), doc, who, draft, stored)
    {
      if !doc.forEveryone {
        ForgetOne(doc.id, who);
        return;
      }
      if stored {
        items := items[OwnKey(who, doc.id) := Kept(draft)];
      }
    }

    method AskFor(doc: Whose, who: DraftOwner) returns (draft: Option<NoteDraft>)
      modifies this
      ensures items == AskDraft(old(items), doc, who) && draft == DraftOf(old(items), doc, who)
    {
      ForgetEach(Some(who));
      if !doc.forEveryone {
        ForgetOne(doc.id, who);
        return None;
      }
      var key := OwnKey(who, doc.id);
      draft := if key in items && items[key].Kept? then Some(items[key].draft) else None;
    }
  }
}
