/**
 * The form's draft of a record, and the parts it would send
 * (apps/web/src/identity.tsx: draftFrom, entryOut, movedUnshown, buildPart, plan).
 */
module IdentityDraft {
  import opened Text
  import opened IdentityVault

  datatype DraftText = DraftText(uid: nat, key: TextKey, value: string, onlyMe: bool, from: Option<PartName>)

  datatype DraftEntry = DraftEntry(
    uid: nat, list: ListName, id: string, onlyMe: bool, from: Option<PartName>, f: map<string, string>,
    hidden: bool, docId: Option<string>, linkedBefore: Option<string>,
    masked: bool, known: Option<string>, shownInField: bool)

  datatype Draft = Draft(texts: seq<DraftText>, entries: seq<DraftEntry>)

  function PartFor(onlyMe: bool): PartName {
    if onlyMe then OnlyMe else Shared
  }

  function Other(p: PartName): PartName {
    if p == Shared then OnlyMe else Shared
  }

  // ------------------------------------------------------------- reading a record

  /**
   * Whoever is editing: the documents they may see, and the catalogue their form goes
   * by, each field and each list in it once, in the order the form shows them.
   */
  datatype Editing = Editing(visible: set<string>, texts: seq<TextKey>, lists: seq<ListName>) {
    ghost predicate Complete() {
      && (forall k: TextKey :: k in texts) && (forall i, j :: 0 <= i < j < |texts| ==> texts[i] != texts[j])
      && (forall l: ListName :: l in lists) && (forall i, j :: 0 <= i < j < |lists| ==> lists[i] != lists[j])
    }
  }

  const TEXT_ORDER := [
    Title, GivenName, MiddleName, FamilyName, OtherNames, PlaceOfBirth, CountryOfBirth,
    Sex, Username, Company, JobTitle, Notes, Nationalities]
  const LIST_ORDER := [Emails, Phones, Addresses, Ids, Custom]

  function Place(k: TextKey): nat {
    match k
    case Title => 0 case GivenName => 1 case MiddleName => 2 case FamilyName => 3 case OtherNames => 4
    case PlaceOfBirth => 5 case CountryOfBirth => 6 case Sex => 7 case Username => 8 case Company => 9
    case JobTitle => 10 case Notes => 11 case Nationalities => 12
  }

  lemma TextOrderComplete()
    ensures forall k: TextKey :: k in TEXT_ORDER
    ensures forall i, j :: 0 <= i < j < |TEXT_ORDER| ==> TEXT_ORDER[i] != TEXT_ORDER[j]
  {
    var ts := TEXT_ORDER;
    forall k: TextKey
      ensures k in ts
    {
      assert ts[Place(k)] == k;
    }
    assert forall i :: 0 <= i < |ts| ==> Place(ts[i]) == i;
  }

  lemma ListOrderComplete()
    ensures forall l: ListName :: l in LIST_ORDER
    ensures forall i, j :: 0 <= i < j < |LIST_ORDER| ==> LIST_ORDER[i] != LIST_ORDER[j]
  {
    var ls := LIST_ORDER;
    forall l: ListName
      ensures l in ls
    {
      assert ls[0] == Emails && ls[1] == Phones && ls[2] == Addresses && ls[3] == Ids && ls[4] == Custom;
      assert l == Emails || l == Phones || l == Addresses || l == Ids || l == Custom;
    }
  }

  ghost function Catalogue(): (w: Editing)
    ensures w.Complete()
  {
    TextOrderComplete();
    ListOrderComplete();
    Editing({}, TEXT_ORDER, LIST_ORDER)
  }

  type Editor = w: Editing | w.Complete() ghost witness Catalogue()

  function FieldValue(v: TextValue): string {
    match v
    case Words(w) => w
    case CodeList(cs) => Joined(cs)
  }

  function TextsFrom(texts: map<TextKey, TextValue>, part: PartName, keys: seq<TextKey>, uid: nat): seq<DraftText> {
    if keys == [] then []
    else
      (if keys[0] in texts && !Blank(FieldValue(texts[keys[0]])) then
         [DraftText(uid, keys[0], FieldValue(texts[keys[0]]), part == OnlyMe, Some(part))]
       else [])
      + TextsFrom(texts, part, keys[1..], uid + 1)
  }

  /** A field for each key neither part has, in the shared part. */
  function TextsMissing(have: seq<DraftText>, keys: seq<TextKey>, uid: nat): seq<DraftText> {
    if keys == [] then []
    else
      (if exists t :: t in have && t.key == keys[0] then [] else [DraftText(uid, keys[0], "", false, None)])
      + TextsMissing(have, keys[1..], uid + 1)
  }

  /** One entry as the form holds it: what the reader was shown, and whether a value was kept back. */
  function EntryFrom(l: ListName, e: Entry, part: PartName, visible: set<string>, uid: nat): DraftEntry {
    var shown := Shown(l, e, visible);
    var f := if SecretKey(l).Some? && shown.secret.Some? then shown.f[SecretKey(l).value := shown.secret.value] else shown.f;
    DraftEntry(uid, l, e.id, part == OnlyMe, Some(part), f, e.hidden, shown.doc, shown.doc, IsMasked(l, e), None, false)
  }

  function EntriesFrom(l: ListName, entries: seq<Entry>, part: PartName, visible: set<string>, uid: nat): (r: seq<DraftEntry>)
    ensures |r| == |entries|
    ensures forall i :: 0 <= i < |r| ==> r[i] == EntryFrom(l, entries[i], part, visible, uid + i)
  {
    if entries == [] then []
    else [EntryFrom(l, entries[0], part, visible, uid)] + EntriesFrom(l, entries[1..], part, visible, uid + 1)
  }

  /** Every list's entries, one list after another. */
  function ListsFrom(p: Part, part: PartName, visible: set<string>, lists: seq<ListName>, uid: nat): seq<DraftEntry> {
    if lists == [] then []
    else
      EntriesFrom(lists[0], p.lists.Of(lists[0]), part, visible, uid)
      + ListsFrom(p, part, visible, lists[1..], uid + |p.lists.Of(lists[0])|)
  }

  function Entries(p: Part, lists: seq<ListName>): nat {
    if lists == [] then 0 else |p.lists.Of(lists[0])| + Entries(p, lists[1..])
  }

  /** The form's draft of a record whose editor is shown both parts. */
  function DraftFrom(v: Vault, who: Editor): Draft {
    var n := |who.texts|;
    var texts := TextsFrom(v.shared.texts, Shared, who.texts, 0) + TextsFrom(v.onlyMe.texts, OnlyMe, who.texts, n);
    Draft(texts + TextsMissing(texts, who.texts, 2 * n),
          ListsFrom(v.shared, Shared, who.visible, who.lists, 3 * n)
          + ListsFrom(v.onlyMe, OnlyMe, who.visible, who.lists, 3 * n + Entries(v.shared, who.lists)))
  }

  // ------------------------------------------------------------- sending one entry

  function FieldOut(k: string, v: string): string {
    if k == "country" then Upper(Trim(v)) else Trim(v)
  }

  /** Its fields as sent, but for the one that can be masked: trimmed, blank is none. */
  function FieldsOut(e: DraftEntry): map<string, string> {
    map k | k in e.f && Some(k) != SecretKey(e.list) && !Blank(e.f[k]) :: FieldOut(k, e.f[k])
  }

  /** What is typed in the field that can be masked. */
  function Typed(e: DraftEntry): string {
    if SecretKey(e.list).Some? && SecretKey(e.list).value in e.f then Trim(e.f[SecretKey(e.list).value]) else ""
  }

  function SecretOut(e: DraftEntry, moved: bool): Sending {
    if SecretKey(e.list).None? then Left
    else if !e.masked then (if Typed(e) != "" then Given(Typed(e)) else Left)
    else
      var whole := moved || (e.list == Custom && !e.hidden);
      if Typed(e) != "" then
        (if whole || e.known.None? || Typed(e) != Trim(e.known.value) then Given(Typed(e)) else Left)
      else if e.shownInField then Cleared
      else if whole && e.known.Some? then Given(e.known.value)
      else Left
  }

  function DocOut(e: DraftEntry, moved: bool): Sending {
    if e.docId.Some? then Given(e.docId.value)
    else if e.linkedBefore.Some? && !moved then Cleared
    else Left
  }

  /** What the edit leaves of an entry (`entryOut`); none when it is left out. */
  function EntryOut(e: DraftEntry, part: PartName): Option<SentEntry> {
    var moved := e.from.Some? && e.from.value != part;
    var f := FieldsOut(e);
    var secret := SecretOut(e, moved);
    var doc := DocOut(e, moved);
    var holds := secret.Given? || doc.Given? || exists k :: k in f && k !in Skipped(e.list);
    if !holds && (IsContact(e.list) || e.from.None?) then None
    else
      var named :=
        if e.list == Ids && "kind" !in f then f["kind" := "other"]
        else if e.list == Custom && "label" !in f then f["label" := "Detail"]
        else f;
      Some(SentEntry(e.id, named, secret, e.list == Custom && e.hidden, doc))
  }

  // ------------------------------------------------------------- sending a part

  function TextOut(k: TextKey, value: string): Option<TextValue> {
    if Blank(value) then None
    else if k == Nationalities then
      // None read of what was typed: an empty list, which counts as none.
      (if Codes(value) == [] then None else Some(CodeList(Codes(value))))
    else if k == CountryOfBirth then Some(Words(Upper(Trim(value))))
    else Some(Words(Trim(value)))
  }

  function BuildTexts(texts: seq<DraftText>, part: PartName): map<TextKey, TextValue> {
    if texts == [] then map[]
    else
      var t := texts[|texts| - 1];
      var rest := BuildTexts(texts[..|texts| - 1], part);
      if PartFor(t.onlyMe) == part && TextOut(t.key, t.value).Some? then rest[t.key := TextOut(t.key, t.value).value]
      else rest
  }

  function Here(entries: seq<DraftEntry>, l: ListName, part: PartName): (r: seq<DraftEntry>)
    ensures forall e :: e in r <==> e in entries && e.list == l && PartFor(e.onlyMe) == part
  {
    if entries == [] then []
    else
      (if entries[0].list == l && PartFor(entries[0].onlyMe) == part then [entries[0]] else [])
      + Here(entries[1..], l, part)
  }

  /** One id twice: the one moved in takes the place of the one there. */
  function Replaces(there: Option<DraftEntry>, e: DraftEntry, part: PartName): bool {
    there.None? || (there.value.from == Some(part) && e.from != Some(part))
  }

  function Chosen(entries: seq<DraftEntry>, part: PartName): (r: map<string, DraftEntry>)
    ensures forall id :: id in r ==> r[id] in entries && r[id].id == id
    ensures forall e :: e in entries ==> e.id in r
  {
    if entries == [] then map[]
    else
      var e := entries[|entries| - 1];
      var rest := Chosen(entries[..|entries| - 1], part);
      if Replaces(if e.id in rest then Some(rest[e.id]) else None, e, part) then rest[e.id := e] else rest
  }

  function Items(entries: seq<DraftEntry>, chosen: map<string, DraftEntry>, part: PartName): seq<SentEntry> {
    if entries == [] then []
    else
      var e := entries[0];
      (if e.id in chosen && chosen[e.id] == e && EntryOut(e, part).Some? then [EntryOut(e, part).value] else [])
      + Items(entries[1..], chosen, part)
  }

  function BuildList(d: Draft, l: ListName, part: PartName): seq<SentEntry> {
    var here := Here(d.entries, l, part);
    Items(here, Chosen(here, part), part)
  }

  /** One part, as the form would send it. */
  function BuildPart(d: Draft, part: PartName): SentPart {
    SentPart(BuildTexts(d.texts, part), Lists(
      BuildList(d, Emails, part), BuildList(d, Phones, part), BuildList(d, Addresses, part),
      BuildList(d, Ids, part), BuildList(d, Custom, part)))
  }

  // ------------------------------------------------------------- the order of the writes

  predicate MovedUnshownEntry(e: DraftEntry) {
    e.masked && e.known.None? && e.from.Some? && e.from.value != PartFor(e.onlyMe) && Typed(e) == ""
  }

  /** Whether any entry moves whose masked value was never shown, nor typed over. */
  predicate MovedUnshown(d: Draft) {
    exists e :: e in d.entries && MovedUnshownEntry(e)
  }

  predicate EntryMovesInto(e: DraftEntry, part: PartName) {
    e.from.Some? && e.from.value != part && PartFor(e.onlyMe) == part
  }

  predicate TextMovesInto(t: DraftText, part: PartName) {
    t.from.Some? && t.from.value != part && PartFor(t.onlyMe) == part
  }

  predicate AnyMovesInto(d: Draft, part: PartName) {
    || (exists e :: e in d.entries && EntryMovesInto(e, part))
    || (exists t :: t in d.texts && TextMovesInto(t, part) && !Blank(t.value))
  }

  function HoldEntries(entries: seq<DraftEntry>): (r: seq<DraftEntry>)
    ensures |r| == |entries|
    ensures forall i :: 0 <= i < |r| ==> r[i] == if EntryMovesInto(entries[i], Shared) then entries[i].(onlyMe := true) else entries[i]
  {
    if entries == [] then []
    else [if EntryMovesInto(entries[0], Shared) then entries[0].(onlyMe := true) else entries[0]] + HoldEntries(entries[1..])
  }

  function HoldTexts(texts: seq<DraftText>): (r: seq<DraftText>)
    ensures |r| == |texts|
    ensures forall i :: 0 <= i < |r| ==> r[i] == if TextMovesInto(texts[i], Shared) then texts[i].(onlyMe := true) else texts[i]
  {
    if texts == [] then []
    else [if TextMovesInto(texts[0], Shared) then texts[0].(onlyMe := true) else texts[0]] + HoldTexts(texts[1..])
  }

  /** Only me still holding what leaves it for the shared part. */
  function Holding(d: Draft): Draft {
    Draft(HoldTexts(d.texts), HoldEntries(d.entries))
  }

  datatype Step = Step(part: PartName, fields: SentPart)

  /** The writes a save makes: the part a field moves into is written first. */
  function Plan(d: Draft): seq<Step> {
    var shared := Step(Shared, BuildPart(d, Shared));
    var onlyMe := Step(OnlyMe, BuildPart(d, OnlyMe));
    if AnyMovesInto(d, OnlyMe) && AnyMovesInto(d, Shared) then
      [Step(OnlyMe, BuildPart(Holding(d), OnlyMe)), shared, onlyMe]
    else if AnyMovesInto(d, OnlyMe) then [onlyMe, shared]
    else [shared, onlyMe]
  }

  // ------------------------------------------------------------- the writes made

  /** Each part as the vault last had it from the form: what a save is a change from. */
  datatype Written = Written(shared: SentPart, onlyMe: SentPart) {
    function Of(p: PartName): SentPart {
      if p == Shared then shared else onlyMe
    }

    function With(p: PartName, to: SentPart): Written {
      if p == Shared then this.(shared := to) else this.(onlyMe := to)
    }
  }

  function WrittenFrom(d: Draft): Written {
    Written(BuildPart(d, Shared), BuildPart(d, OnlyMe))
  }

  /** The steps that change something, from what was last written. */
  function Changing(steps: seq<Step>, last: Written): seq<Step> {
    if steps == [] then []
    else (if NoChange(last.Of(steps[0].part), steps[0].fields) then [] else [steps[0]]) + Changing(steps[1..], last)
  }

  datatype Made = Made(vault: Vault, last: Written)

  /** One step: passed over when it changes nothing by now. */
  function Do(m: Made, s: Step, visible: set<string>): Made {
    if NoChange(m.last.Of(s.part), s.fields) then m
    else Made(Put(m.vault, s.part, s.fields, visible), m.last.With(s.part, s.fields))
  }

  function Take(steps: seq<Step>, m: Made, visible: set<string>): Made
    decreases |steps|
  {
    if steps == [] then m
    else Do(Take(steps[..|steps| - 1], m, visible), steps[|steps| - 1], visible)
  }

  /** The vault as the form first has it: nothing written, and each part what was read of it. */
  function Start(v: Vault, who: Editor): Made {
    Made(v, WrittenFrom(DraftFrom(v, who)))
  }

  /** The writes a press of Save makes, from whatever was last written: those that change nothing left out first. */
  function SaveSteps(m: Made, d: Draft): seq<Step> {
    Changing(Plan(d), m.last)
  }

  /** After the first `k` of them, the next one refused. */
  function After(m: Made, d: Draft, visible: set<string>, k: nat): Made
    requires k <= |SaveSteps(m, d)|
  {
    Take(SaveSteps(m, d)[..k], m, visible)
  }

  /** The vault once every write was made. */
  function Saved(m: Made, d: Draft, visible: set<string>): Vault {
    Take(SaveSteps(m, d), m, visible).vault
  }
}
