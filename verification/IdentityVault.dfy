/**
 * A person's identity details as the vault keeps them: two parts, each written
 * whole, with what the writer was not shown carried over
 * (packages/shared/src/identity.ts, apps/api/src/household/identity.ts).
 */
module IdentityVault {
  import opened Text

  datatype PartName = Shared | OnlyMe

  datatype TextKey =
    | Title | GivenName | MiddleName | FamilyName | OtherNames | PlaceOfBirth | CountryOfBirth
    | Sex | Username | Company | JobTitle | Notes | Nationalities

  datatype TextValue = Words(words: string) | CodeList(codes: seq<string>)

  datatype ListName = Emails | Phones | Addresses | Ids | Custom

  /** One of each list; a list not given is an empty one. */
  datatype Lists<T> = Lists(emails: seq<T>, phones: seq<T>, addresses: seq<T>, ids: seq<T>, custom: seq<T>) {
    function Of(l: ListName): seq<T> {
      match l
      case Emails => emails
      case Phones => phones
      case Addresses => addresses
      case Ids => ids
      case Custom => custom
    }
  }

  /**
   * A list entry as stored. `f` is its fields by name, none blank; `secret` the one
   * that can be masked (an ID's number, a custom field's value); `doc` an ID's document.
   */
  datatype Entry = Entry(id: string, f: map<string, string>, secret: Option<string>, hidden: bool, doc: Option<string>)

  datatype Part = Part(texts: map<TextKey, TextValue>, lists: Lists<Entry>)

  /** A property as JSON carries it: not there, null, or a string. */
  datatype Sending = Left | Cleared | Given(value: string)

  datatype SentEntry = SentEntry(id: string, f: map<string, string>, secret: Sending, hidden: bool, doc: Sending)

  datatype SentPart = SentPart(texts: map<TextKey, TextValue>, lists: Lists<SentEntry>)

  /** Which field of a list can be masked. */
  function SecretKey(l: ListName): Option<string> {
    match l
    case Ids => Some("number")
    case Custom => Some("value")
    case _ => None
  }

  predicate IsContact(l: ListName) {
    l == Emails || l == Phones || l == Addresses
  }

  // ------------------------------------------------------------- finding

  function Find(entries: seq<Entry>, id: string): Option<Entry> {
    if entries == [] then None
    else if entries[0].id == id then Some(entries[0])
    else Find(entries[1..], id)
  }

  function FindSent(entries: seq<SentEntry>, id: string): Option<SentEntry> {
    if entries == [] then None
    else if entries[0].id == id then Some(entries[0])
    else FindSent(entries[1..], id)
  }

  predicate DistinctIds(entries: seq<Entry>) {
    forall i, j :: 0 <= i < j < |entries| ==> entries[i].id != entries[j].id
  }

  predicate DistinctSent(entries: seq<SentEntry>) {
    forall i, j :: 0 <= i < j < |entries| ==> entries[i].id != entries[j].id
  }

  lemma {:induction false} FindAt(entries: seq<Entry>, i: nat)
    requires i < |entries| && DistinctIds(entries)
    ensures Find(entries, entries[i].id) == Some(entries[i])
    decreases |entries|
  {
    if i > 0 {
      assert entries[0].id != entries[i].id;
      FindAt(entries[1..], i - 1);
    }
  }

  lemma {:induction false} FindGives(entries: seq<Entry>, id: string)
    ensures Find(entries, id).Some? ==> Find(entries, id).value.id == id && Find(entries, id).value in entries
    ensures Find(entries, id).None? ==> forall i :: 0 <= i < |entries| ==> entries[i].id != id
    decreases |entries|
  {
    if entries != [] && entries[0].id != id {
      FindGives(entries[1..], id);
      if Find(entries, id).None? {
        forall i | 0 <= i < |entries|
          ensures entries[i].id != id
        {
          if i > 0 {
            assert entries[i] == entries[1..][i - 1];
          }
        }
      }
    }
  }

  // ------------------------------------------------------------- masking

  /** Kept back from a reader until it is asked for (`identityMaskedKeys`). */
  predicate IsMasked(l: ListName, e: Entry) {
    e.secret.Some? && (l == Ids || (l == Custom && e.hidden))
  }

  /** What a reader is shown of an entry: a masked value left out, a document only if theirs to see. */
  function Shown(l: ListName, e: Entry, visible: set<string>): Entry {
    e.(secret := if IsMasked(l, e) then None else e.secret,
       doc := if e.doc.Some? && e.doc.value in visible then e.doc else None)
  }

  /** What showing a masked value gives (`revealIdentity`); none when nothing there is masked. */
  function Reveal(p: Part, l: ListName, id: string): Option<string> {
    match Find(p.lists.Of(l), id)
    case None => None
    case Some(e) => if IsMasked(l, e) then e.secret else None
  }

  // ------------------------------------------------------------- writing

  function SentValue(s: Sending): Option<string> {
    if s.Given? then Some(s.value) else None
  }

  /** One entry of a write, on what was there of it (`mergeIdentityWrite`). */
  function MergeEntry(l: ListName, before: Option<Entry>, s: SentEntry, visible: set<string>): Entry {
    match l
    case Ids =>
      var secret := if before.Some? && s.secret.Left? then before.value.secret else SentValue(s.secret);
      var linked := if before.Some? then before.value.doc else None;
      var doc := if linked.Some? && (linked.value !in visible || s.doc.Left?) then linked else SentValue(s.doc);
      Entry(s.id, s.f, secret, s.hidden, doc)
    case Custom =>
      if before.None? || !s.secret.Left? then Entry(s.id, s.f, SentValue(s.secret), s.hidden, SentValue(s.doc))
      else Entry(s.id, s.f, before.value.secret, s.hidden || IsMasked(l, before.value), SentValue(s.doc))
    case _ => Entry(s.id, s.f, SentValue(s.secret), s.hidden, SentValue(s.doc))
  }

  function MergeList(l: ListName, stored: seq<Entry>, sent: seq<SentEntry>, visible: set<string>): (r: seq<Entry>)
    ensures |r| == |sent|
    ensures forall i :: 0 <= i < |r| ==> r[i] == MergeEntry(l, Find(stored, sent[i].id), sent[i], visible)
  {
    if sent == [] then []
    else [MergeEntry(l, Find(stored, sent[0].id), sent[0], visible)] + MergeList(l, stored, sent[1..], visible)
  }

  function Merge(stored: Part, sent: SentPart, visible: set<string>): Part {
    Part(sent.texts, Lists(
      MergeList(Emails, stored.lists.emails, sent.lists.emails, visible),
      MergeList(Phones, stored.lists.phones, sent.lists.phones, visible),
      MergeList(Addresses, stored.lists.addresses, sent.lists.addresses, visible),
      MergeList(Ids, stored.lists.ids, sent.lists.ids, visible),
      MergeList(Custom, stored.lists.custom, sent.lists.custom, visible)))
  }

  function MergeOpt(l: ListName, before: Option<Entry>, s: Option<SentEntry>, visible: set<string>): Option<Entry> {
    if s.None? then None else Some(MergeEntry(l, before, s.value, visible))
  }

  /** What a write makes of one entry depends on that entry alone. */
  lemma {:induction false} FindMerged(l: ListName, stored: seq<Entry>, sent: seq<SentEntry>, visible: set<string>, id: string)
    ensures Find(MergeList(l, stored, sent, visible), id)
         == MergeOpt(l, Find(stored, id), FindSent(sent, id), visible)
    decreases |sent|
  {
    if sent != [] && sent[0].id != id {
      FindMerged(l, stored, sent[1..], visible, id);
    }
  }

  // ------------------------------------------------------------- changes

  /** An entry as compared: null counts as not there (`canon`). */
  function Canon(s: SentEntry): SentEntry {
    s.(secret := if s.secret.Cleared? then Left else s.secret,
       doc := if s.doc.Cleared? then Left else s.doc)
  }

  function CanonOpt(s: Option<SentEntry>): Option<SentEntry> {
    if s.None? then None else Some(Canon(s.value))
  }

  /** No entry of either list is added, changed or taken out. */
  predicate SameList(was: seq<SentEntry>, now: seq<SentEntry>) {
    && (forall s | s in was :: CanonOpt(FindSent(was, s.id)) == CanonOpt(FindSent(now, s.id)))
    && (forall s | s in now :: CanonOpt(FindSent(was, s.id)) == CanonOpt(FindSent(now, s.id)))
  }

  /** `identityChanges` finds nothing between two writes of a part. */
  predicate NoChange(was: SentPart, now: SentPart) {
    && was.texts == now.texts
    && SameList(was.lists.emails, now.lists.emails) && SameList(was.lists.phones, now.lists.phones)
    && SameList(was.lists.addresses, now.lists.addresses) && SameList(was.lists.ids, now.lists.ids)
    && SameList(was.lists.custom, now.lists.custom)
  }

  lemma {:induction false} FindSentGives(entries: seq<SentEntry>, id: string)
    ensures FindSent(entries, id).Some? ==> FindSent(entries, id).value.id == id && FindSent(entries, id).value in entries
    decreases |entries|
  {
    if entries != [] && entries[0].id != id {
      FindSentGives(entries[1..], id);
    }
  }

  lemma SameListAt(was: seq<SentEntry>, now: seq<SentEntry>, id: string)
    requires SameList(was, now)
    ensures CanonOpt(FindSent(was, id)) == CanonOpt(FindSent(now, id))
  {
    FindSentGives(was, id);
    FindSentGives(now, id);
  }

  /** Given the same, or neither given: cleared is as good as left out. */
  predicate SameSending(a: Sending, b: Sending) {
    if a.Given? || b.Given? then a == b else true
  }

  predicate Alike(a: SentEntry, b: SentEntry) {
    a.id == b.id && a.f == b.f && a.hidden == b.hidden && SameSending(a.secret, b.secret) && SameSending(a.doc, b.doc)
  }

  lemma CanonIs(a: SentEntry, b: SentEntry)
    ensures Canon(a) == Canon(b) <==> Alike(a, b)
  {
  }

  /** No change found means none of any entry, up to canon. */
  lemma NoChangeAt(was: SentPart, now: SentPart, l: ListName, id: string)
    requires NoChange(was, now)
    ensures CanonOpt(FindSent(was.lists.Of(l), id)) == CanonOpt(FindSent(now.lists.Of(l), id))
  {
    SameListAt(was.lists.Of(l), now.lists.Of(l), id);
  }

  /** Which is: but for what canon cannot see, a value or a link cleared. */
  lemma NoChangeIsAlike(was: SentPart, now: SentPart, l: ListName, id: string)
    requires NoChange(was, now)
    ensures var a, b := FindSent(was.lists.Of(l), id), FindSent(now.lists.Of(l), id);
      (a.None? <==> b.None?) && (a.Some? ==> Alike(a.value, b.value))
  {
    NoChangeAt(was, now, l, id);
    var a, b := FindSent(was.lists.Of(l), id), FindSent(now.lists.Of(l), id);
    if a.Some? && b.Some? {
      CanonIs(a.value, b.value);
    }
  }

  predicate SameEntries(was: seq<Entry>, now: seq<Entry>) {
    && (forall e | e in was :: Find(was, e.id) == Find(now, e.id))
    && (forall e | e in now :: Find(was, e.id) == Find(now, e.id))
  }

  /** `identityChanges` between a part and what a write makes of it, none. */
  predicate SameStored(was: Part, now: Part) {
    && was.texts == now.texts
    && SameEntries(was.lists.emails, now.lists.emails) && SameEntries(was.lists.phones, now.lists.phones)
    && SameEntries(was.lists.addresses, now.lists.addresses) && SameEntries(was.lists.ids, now.lists.ids)
    && SameEntries(was.lists.custom, now.lists.custom)
  }

  lemma SameStoredAt(was: Part, now: Part, l: ListName, id: string)
    requires SameStored(was, now)
    ensures Find(was.lists.Of(l), id) == Find(now.lists.Of(l), id)
  {
    FindGives(was.lists.Of(l), id);
    FindGives(now.lists.Of(l), id);
  }

  // ------------------------------------------------------------- the vault

  /** Both parts, and the version each is at. */
  datatype Vault = Vault(shared: Part, onlyMe: Part, sharedAt: nat, onlyMeAt: nat) {
    function PartOf(p: PartName): Part {
      if p == Shared then shared else onlyMe
    }

    function VersionOf(p: PartName): nat {
      if p == Shared then sharedAt else onlyMeAt
    }

    function With(p: PartName, to: Part): Vault {
      if p == Shared then this.(shared := to, sharedAt := sharedAt + 1)
      else this.(onlyMe := to, onlyMeAt := onlyMeAt + 1)
    }
  }

  /** A part written (`put`): nothing different is no change, and the version stays. */
  function Put(v: Vault, p: PartName, sent: SentPart, visible: set<string>): Vault {
    var next := Merge(v.PartOf(p), sent, visible);
    if SameStored(v.PartOf(p), next) then v else v.With(p, next)
  }

  function At(v: Vault, p: PartName, l: ListName, id: string): Option<Entry> {
    Find(v.PartOf(p).lists.Of(l), id)
  }

  function TextOf(texts: map<TextKey, TextValue>, k: TextKey): Option<TextValue> {
    if k in texts then Some(texts[k]) else None
  }

  function TextAt(v: Vault, p: PartName, k: TextKey): Option<TextValue> {
    TextOf(v.PartOf(p).texts, k)
  }

  /** After a write each entry is what the write makes of it, and the other part is as it was. */
  lemma PutAt(v: Vault, p: PartName, sent: SentPart, visible: set<string>, q: PartName, l: ListName, id: string)
    ensures At(Put(v, p, sent, visible), q, l, id)
         == if q == p then MergeOpt(l, At(v, p, l, id), FindSent(sent.lists.Of(l), id), visible) else At(v, q, l, id)
  {
    FindMerged(l, v.PartOf(p).lists.Of(l), sent.lists.Of(l), visible, id);
    var next := Merge(v.PartOf(p), sent, visible);
    assert next.lists.Of(l) == MergeList(l, v.PartOf(p).lists.Of(l), sent.lists.Of(l), visible);
    if SameStored(v.PartOf(p), next) {
      SameStoredAt(v.PartOf(p), next, l, id);
    }
  }

  /**
   * A part whose version has not moved is the part that was read: whatever others
   * wrote in between, a write accepted at a version replaces what was at that version.
   */
  lemma PutMovesVersion(v: Vault, p: PartName, sent: SentPart, visible: set<string>, q: PartName)
    ensures Put(v, p, sent, visible).VersionOf(q) >= v.VersionOf(q)
    ensures Put(v, p, sent, visible).VersionOf(q) == v.VersionOf(q) <==> Put(v, p, sent, visible).PartOf(q) == v.PartOf(q)
  {
    var next := Merge(v.PartOf(p), sent, visible);
    if q == p && !SameStored(v.PartOf(p), next) {
      assert next != v.PartOf(p);
    }
  }

  // ------------------------------------------------------------- records as kept

  /** The fields that say nothing of their own: an entry with no other holds nothing. */
  function Skipped(l: ListName): set<string> {
    if l == Ids then {"kind", "label"} else {"label"}
  }

  predicate NormalField(k: string, v: string) {
    v != "" && Trimmed(v) && (k == "country" ==> Upper(v) == v)
  }

  /** An entry as the vault's own checks leave it: trimmed, nothing blank, with what its list demands. */
  ghost predicate NormalEntry(l: ListName, e: Entry) {
    && (forall k :: k in e.f ==> NormalField(k, e.f[k]))
    && (SecretKey(l).Some? ==> SecretKey(l).value !in e.f)
    && (e.secret.Some? ==> e.secret.value != "" && Trimmed(e.secret.value))
    && (IsContact(l) ==> e.secret.None? && exists k :: k in e.f && k !in Skipped(l))
    && (l != Custom ==> !e.hidden)
    && (l != Ids ==> e.doc.None?)
    && (l == Ids ==> "kind" in e.f)
    && (l == Custom ==> "label" in e.f)
  }

  predicate NormalText(k: TextKey, v: TextValue) {
    if k == Nationalities then
      v.CodeList? && v.codes != [] && forall i :: 0 <= i < |v.codes| ==> IsCode(v.codes[i])
    else
      v.Words? && v.words != "" && Trimmed(v.words) && (k == CountryOfBirth ==> Upper(v.words) == v.words)
  }

  ghost predicate NormalList(l: ListName, entries: seq<Entry>) {
    DistinctIds(entries) && forall i :: 0 <= i < |entries| ==> NormalEntry(l, entries[i])
  }

  ghost predicate NormalPart(p: Part) {
    && (forall k :: k in p.texts ==> NormalText(k, p.texts[k]))
    && forall l: ListName :: NormalList(l, p.lists.Of(l))
  }

  /** A record as the vault's own checks leave it. One id may be in both parts: a save stopped on its way leaves it so. */
  ghost predicate WellKept(v: Vault) {
    NormalPart(v.shared) && NormalPart(v.onlyMe)
  }

  /** And no entry in both parts. */
  ghost predicate Healthy(v: Vault) {
    WellKept(v) && forall l: ListName, id: string :: At(v, Shared, l, id).None? || At(v, OnlyMe, l, id).None?
  }

  lemma NormalAt(v: Vault, p: PartName, l: ListName, id: string)
    requires NormalPart(v.PartOf(p)) && At(v, p, l, id).Some?
    ensures NormalEntry(l, At(v, p, l, id).value) && At(v, p, l, id).value.id == id
  {
    var entries := v.PartOf(p).lists.Of(l);
    assert NormalList(l, entries);
    FindGives(entries, id);
  }
}
