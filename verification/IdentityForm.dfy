/**
 * The form itself: every way it changes its draft, and its Save
 * (apps/web/src/identity.tsx, IdentityForm; apps/api/src/household/identity.ts, put).
 */
module IdentityForm {
  import opened Text
  import opened IdentityVault
  import opened IdentityDraft
  import opened IdentityParts
  import opened IdentityReading
  import opened IdentitySave
  import opened IdentityWhole
  import opened IdentityStopped
  import opened IdentityValues
  import opened IdentityFrame

  /** What asking for a masked value came to: refused, or the vault's answer (none when it has none). */
  datatype Asked = Refused | Answer(value: Option<string>)

  function ShowRefused(e: DraftEntry, got: Asked): bool {
    SecretKey(e.list).None? || e.from.None? || got.Refused?
  }

  /** A masked value shown in the form (`revealEntry`): what was typed over it stays. */
  function AfterShow(e: DraftEntry, got: Asked): DraftEntry {
    if ShowRefused(e, got) then e
    else if got.value.None? then e.(masked := false, known := None)
    else
      var typed := Typed(e) != "";
      e.(known := got.value, shownInField := !typed, f := if typed then e.f else e.f[SecretKey(e.list).value := got.value.value])
  }

  /** An entry to the other part (`moveEntry`): a masked value goes with it only once shown. */
  function AfterMove(e: DraftEntry, onlyMe: bool, got: Asked): DraftEntry {
    if e.masked && e.known.None? then
      (if ShowRefused(e, got) then e else AfterShow(e, got).(onlyMe := onlyMe))
    else e.(onlyMe := onlyMe)
  }

  /** A custom field hidden or not (`hideEntry`): unhiding one still masked shows it first. */
  function AfterHide(e: DraftEntry, hidden: bool, got: Asked): DraftEntry {
    if !hidden && e.masked && e.known.None? then
      (if ShowRefused(e, got) then e else AfterShow(e, got).(hidden := hidden))
    else e.(hidden := hidden)
  }

  datatype Op =
    | TypeIn(uid: nat, field: string, value: string)
    | Show(uid: nat, got: Asked)
    | Move(uid: nat, onlyMe: bool, got: Asked)
    | Hide(uid: nat, hidden: bool, got: Asked)
    | Link(uid: nat, doc: string, fills: map<string, string>)
    | Unlink(uid: nat)
    | Add(entry: DraftEntry)
    | Remove(uid: nat)
    | TypeText(uid: nat, text: string)
    | MoveText(uid: nat, onlyMe: bool)

  function ChangeEntry(e: DraftEntry, op: Op): DraftEntry {
    match op
    case TypeIn(_, k, value) => e.(f := e.f[k := value])
    case Show(_, got) => AfterShow(e, got)
    case Move(_, onlyMe, got) => AfterMove(e, onlyMe, got)
    case Hide(_, hidden, got) => AfterHide(e, hidden, got)
    case Link(_, doc, fills) => if e.docId.Some? then e else e.(docId := Some(doc), f := e.f + fills)
    case Unlink(_) => e.(docId := None)
    case _ => e
  }

  function ChangeEntries(entries: seq<DraftEntry>, uid: nat, op: Op): (r: seq<DraftEntry>)
    ensures |r| == |entries|
    ensures forall i :: 0 <= i < |r| ==> r[i] == if entries[i].uid == uid then ChangeEntry(entries[i], op) else entries[i]
  {
    if entries == [] then []
    else [if entries[0].uid == uid then ChangeEntry(entries[0], op) else entries[0]] + ChangeEntries(entries[1..], uid, op)
  }

  function WithoutEntry(entries: seq<DraftEntry>, uid: nat): seq<DraftEntry> {
    if entries == [] then []
    else (if entries[0].uid == uid then [] else [entries[0]]) + WithoutEntry(entries[1..], uid)
  }

  function ChangeText(t: DraftText, op: Op): DraftText {
    match op
    case TypeText(_, text) => t.(value := text)
    case MoveText(_, onlyMe) => t.(onlyMe := onlyMe)
    case _ => t
  }

  function ChangeTexts(texts: seq<DraftText>, uid: nat, op: Op): (r: seq<DraftText>)
    ensures |r| == |texts|
    ensures forall i :: 0 <= i < |r| ==> r[i] == if texts[i].uid == uid then ChangeText(texts[i], op) else texts[i]
  {
    if texts == [] then []
    else [if texts[0].uid == uid then ChangeText(texts[0], op) else texts[0]] + ChangeTexts(texts[1..], uid, op)
  }

  /** One thing done in the form. */
  function Done(d: Draft, op: Op): Draft {
    match op
    case Add(e) => d.(entries := d.entries + [e])
    case Remove(uid) => d.(entries := WithoutEntry(d.entries, uid))
    case TypeText(uid, _) => d.(texts := ChangeTexts(d.texts, uid, op))
    case MoveText(uid, _) => d.(texts := ChangeTexts(d.texts, uid, op))
    case _ => d.(entries := ChangeEntries(d.entries, op.uid, op))
  }

  // ------------------------------------------------------------- what is left in the form

  /** The same fields, but for one, which reads this. */
  ghost predicate OneField(was: map<string, string>, now: map<string, string>, k: string, v: string) {
    && k in now && now[k] == v
    && forall j :: j != k ==> (j in now <==> j in was) && (j in now ==> now[j] == was[j])
  }

  /** Filled in: what is given reads so, and the rest as it was. */
  ghost predicate FilledIn(was: map<string, string>, now: map<string, string>, fills: map<string, string>) {
    forall k :: (k in now <==> k in was || k in fills) && (k in now ==> now[k] == if k in fills then fills[k] else was[k])
  }

  /** Asked to be shown: as it was, if refused; no longer masked, if there is none; else shown in its field, unless something is typed there. */
  ghost predicate ShownIn(e: DraftEntry, got: Asked, c: DraftEntry) {
    if e.from.None? || got.Refused? || (e.list != Ids && e.list != Custom) then c == e
    else if got.value.None? then c == e.(masked := false, known := None)
    else
      && c == e.(known := got.value, shownInField := c.shownInField, f := c.f)
      && (if Typed(e) != "" then c.f == e.f && !c.shownInField
          else c.shownInField && OneField(e.f, c.f, if e.list == Ids then "number" else "value", got.value.value))
  }

  /** What a change of one entry leaves of it. */
  ghost predicate EntryLeft(e: DraftEntry, op: Op, c: DraftEntry) {
    match op
    case TypeIn(_, k, v) => OneField(e.f, c.f, k, v) && c == e.(f := c.f)
    case Show(_, got) => ShownIn(e, got, c)
    case Move(_, onlyMe, got) =>
      if !e.masked || e.known.Some? then c == e.(onlyMe := onlyMe)
      else if e.from.None? || got.Refused? || (e.list != Ids && e.list != Custom) then c == e
      else c.onlyMe == onlyMe && ShownIn(e, got, c.(onlyMe := e.onlyMe))
    case Hide(_, hidden, got) =>
      if hidden || !e.masked || e.known.Some? then c == e.(hidden := hidden)
      else if e.from.None? || got.Refused? || (e.list != Ids && e.list != Custom) then c == e
      else !c.hidden && ShownIn(e, got, c.(hidden := e.hidden))
    case Link(_, doc, fills) =>
      if e.docId.Some? then c == e else c == e.(docId := Some(doc), f := c.f) && FilledIn(e.f, c.f, fills)
    case Unlink(_) => c.docId.None? && c == e.(docId := c.docId)
    case _ => c == e
  }

  /** These, in this order, of those. */
  predicate Among(some: seq<DraftEntry>, all: seq<DraftEntry>) {
    some == [] ||
    (all != [] && if some[0] == all[0] then Among(some[1..], all[1..]) else Among(some, all[1..]))
  }

  /** What is done to one entry or text changes that one, as it says, and nothing else; one is added last, or taken out. */
  ghost predicate Leaves(d: Draft, op: Op, t: Draft) {
    match op
    case Add(e) => t.texts == d.texts && |t.entries| == |d.entries| + 1 && t.entries[|d.entries|] == e && t.entries[..|d.entries|] == d.entries
    case Remove(uid) => t.texts == d.texts && Among(t.entries, d.entries) && forall e :: e in t.entries <==> e in d.entries && e.uid != uid
    case TypeText(uid, text) =>
      && t.entries == d.entries && |t.texts| == |d.texts|
      && forall i :: 0 <= i < |d.texts| ==> t.texts[i] == if d.texts[i].uid == uid then d.texts[i].(value := text) else d.texts[i]
    case MoveText(uid, onlyMe) =>
      && t.entries == d.entries && |t.texts| == |d.texts|
      && forall i :: 0 <= i < |d.texts| ==> t.texts[i] == if d.texts[i].uid == uid then d.texts[i].(onlyMe := onlyMe) else d.texts[i]
    case _ =>
      && t.texts == d.texts && |t.entries| == |d.entries|
      && forall i :: 0 <= i < |d.entries| ==>
           if d.entries[i].uid == op.uid then EntryLeft(d.entries[i], op, t.entries[i]) else t.entries[i] == d.entries[i]
  }

  lemma EntryIsLeft(e: DraftEntry, op: Op)
    ensures EntryLeft(e, op, ChangeEntry(e, op))
  {
    hide Trim, AfterShow, ShownIn, ShowRefused;
    match op
    case Show(_, got) => IsShownIn(e, got);
    case Move(_, _, got) => IsShownIn(e, got);
    case Hide(_, _, got) => IsShownIn(e, got);
    case _ =>
  }

  lemma IsShownIn(e: DraftEntry, got: Asked)
    ensures ShownIn(e, got, AfterShow(e, got))
    ensures ShowRefused(e, got) <==> e.from.None? || got.Refused? || (e.list != Ids && e.list != Custom)
    ensures AfterShow(e, got).onlyMe == e.onlyMe && AfterShow(e, got).hidden == e.hidden
  {
    hide Trim;
  }

  lemma {:induction false} WithoutIsAmong(entries: seq<DraftEntry>, uid: nat)
    ensures Among(WithoutEntry(entries, uid), entries)
    ensures forall e :: e in WithoutEntry(entries, uid) <==> e in entries && e.uid != uid
    decreases |entries|
  {
    if entries != [] {
      var rest := WithoutEntry(entries[1..], uid);
      WithoutIsAmong(entries[1..], uid);
      assert ([entries[0]] + rest)[1..] == rest && [] + rest == rest;
      assert rest != [] ==> rest[0] in rest;
    }
  }

  /** Each thing done in the form leaves of its draft what it is to leave. */
  lemma DoneLeaves(d: Draft, op: Op)
    ensures Leaves(d, op, Done(d, op))
  {
    hide EntryLeft, ChangeEntry, Among;
    match op
    case Remove(uid) => WithoutIsAmong(d.entries, uid);
    case Add(_) =>
    case TypeText(_, _) =>
    case MoveText(_, _) =>
    case _ =>
      forall i | 0 <= i < |d.entries|
        ensures EntryLeft(d.entries[i], op, ChangeEntry(d.entries[i], op))
      {
        EntryIsLeft(d.entries[i], op);
      }
  }

  /** The vault answers with what it has. */
  predicate Truthful(v: Vault, e: DraftEntry, got: Asked) {
    got.Answer? && e.from.Some? ==> got.value == Reveal(v.PartOf(e.from.value), e.list, e.id)
  }

  /** New to the draft, to what was read, and to what the vault has now. */
  ghost predicate NewEntry(s: Session, e: DraftEntry) {
    && e.from.None? && !e.masked && e.known.None? && !e.shownInField && e.linkedBefore.None?
    && (e.list != Ids ==> e.docId.None?)
    && (forall p: PartName :: At(s.read, p, e.list, e.id).None? && At(s.made.vault, p, e.list, e.id).None?)
    && forall x :: x in s.draft.entries ==> x.uid != e.uid && (x.list != e.list || x.id != e.id)
  }

  /** What may be done: answers are the vault's; only a masked value unshown is asked for; a new entry's id is new; a text with a twin stays. */
  ghost predicate MayDo(s: Session, op: Op) {
    match op
    case Show(uid, got) =>
      forall e :: e in s.draft.entries && e.uid == uid ==> e.masked && e.known.None? && Truthful(s.made.vault, e, got)
    case Move(uid, _, got) => forall e :: e in s.draft.entries && e.uid == uid ==> Truthful(s.made.vault, e, got)
    case Hide(uid, _, got) => forall e :: e in s.draft.entries && e.uid == uid ==> Truthful(s.made.vault, e, got)
    case Link(uid, _, _) => forall e :: e in s.draft.entries && e.uid == uid ==> e.list == Ids
    case Add(e) => NewEntry(s, e)
    case MoveText(uid, _) =>
      var texts := s.draft.texts;
      forall i, j :: 0 <= i < |texts| && 0 <= j < |texts| && i != j && texts[i].uid == uid ==> texts[i].key != texts[j].key
    case _ => true
  }

  // ------------------------------------------------------------- an edit, its saves with it

  /**
   * An edit under way: the record as it was read, the vault now with what was last written
   * of each part, the draft, and whether any save of it wrote anything.
   */
  datatype Session = Session(read: Vault, made: Made, draft: Draft, wrote: bool)

  function Opened(v: Vault, who: Editor): Session {
    Session(v, Start(v, who), DraftFrom(v, who), false)
  }

  /** Something done in the form; a save refused after `writes` of its writes; or a record read, this one again or as others left it. */
  datatype Event = Does(op: Op) | SaveRefusedAfter(writes: nat) | Reads(record: Vault)

  ghost predicate May(s: Session, e: Event) {
    match e
    case Does(op) => MayDo(s, op)
    case SaveRefusedAfter(k) => k < |SaveSteps(s.made, s.draft)|
    case Reads(v) => WellKept(v)
  }

  ghost function Next(s: Session, who: Editor, e: Event): Session
    requires May(s, e)
  {
    match e
    case Does(op) => s.(draft := Done(s.draft, op))
    case SaveRefusedAfter(k) => s.(made := After(s.made, s.draft, who.visible, k), wrote := s.wrote || k > 0)
    case Reads(v) => Opened(v, who)
  }

  ghost predicate Run(s: Session, who: Editor, events: seq<Event>, t: Session)
    decreases |events|
  {
    if events == [] then s == t
    else May(s, events[0]) && Run(Next(s, who, events[0]), who, events[1..], t)
  }

  // ------------------------------------------------------------- what every run of the form keeps

  lemma ChangeKeepsName(e: DraftEntry, op: Op)
    ensures var c := ChangeEntry(e, op); c.uid == e.uid && c.list == e.list && c.id == e.id && c.from == e.from
  {
    hide SecretKey, Trim;
    match op
    case Show(_, got) => ShowKeepsName(e, got);
    case Move(_, onlyMe, got) => MoveKeepsName(e, onlyMe, got);
    case Hide(_, hidden, got) => HideKeepsName(e, hidden, got);
    case _ =>
  }

  predicate SameName(c: DraftEntry, e: DraftEntry) {
    c.uid == e.uid && c.list == e.list && c.id == e.id && c.from == e.from
  }

  lemma ShowKeepsName(e: DraftEntry, got: Asked)
    ensures SameName(AfterShow(e, got), e)
  {
  }

  lemma MoveKeepsName(e: DraftEntry, onlyMe: bool, got: Asked)
    ensures SameName(AfterMove(e, onlyMe, got), e)
  {
  }

  lemma HideKeepsName(e: DraftEntry, hidden: bool, got: Asked)
    ensures SameName(AfterHide(e, hidden, got), e)
  {
  }

  lemma ChangeKeepsOk(s: Session, who: Editor, e: DraftEntry, op: Op)
    requires DraftOk(s.read, who, s.draft) && WellKept(s.made.vault) && MayDo(s, op) && e in s.draft.entries
    requires !op.Add? && !op.Remove? && e.uid == op.uid
    ensures EntryOk(s.read, who.visible, ChangeEntry(e, op))
    ensures KnownAsRead(s.made.vault, e) ==> KnownAsRead(s.made.vault, ChangeEntry(e, op))
  {
    assert EntryOk(s.read, who.visible, e);
    hide EntryOk, Apart, TextsOk, AfterShow, AfterMove, AfterHide, WellKept, KnownAsRead;
    match op
    case Show(_, got) => ShowKeepsOk(s.read, s.made.vault, who.visible, e, got);
    case Move(_, onlyMe, got) => MoveKeepsOk(s.read, s.made.vault, who.visible, e, onlyMe, got);
    case Hide(_, hidden, got) => HideKeepsOk(s.read, s.made.vault, who.visible, e, hidden, got);
    case _ => TypeKeepsOk(s.read, s.made.vault, who.visible, e, op);
  }

  lemma RevealIsNormal(v: Vault, p: PartName, l: ListName, id: string)
    requires WellKept(v)
    ensures var r := Reveal(v.PartOf(p), l, id); r.Some? ==>
      r.value != "" && Trimmed(r.value) && At(v, p, l, id).Some? && At(v, p, l, id).value.secret == r
  {
    if At(v, p, l, id).Some? {
      NormalAt(v, p, l, id);
    }
  }

  lemma ShowKeepsOk(v: Vault, now: Vault, visible: set<string>, e: DraftEntry, got: Asked)
    requires EntryOk(v, visible, e) && WellKept(now) && e.masked && e.known.None? && Truthful(now, e, got)
    ensures EntryOk(v, visible, AfterShow(e, got)) && KnownAsRead(now, AfterShow(e, got))
    ensures !ShowRefused(e, got) ==> AfterShow(e, got).known.Some? || !AfterShow(e, got).masked
  {
    RevealIsNormal(now, e.from.value, e.list, e.id);
    hide Find, Reveal;
  }

  lemma MoveKeepsOk(v: Vault, now: Vault, visible: set<string>, e: DraftEntry, onlyMe: bool, got: Asked)
    requires EntryOk(v, visible, e) && WellKept(now) && Truthful(now, e, got)
    ensures EntryOk(v, visible, AfterMove(e, onlyMe, got))
    ensures KnownAsRead(now, e) ==> KnownAsRead(now, AfterMove(e, onlyMe, got))
  {
    if e.masked && e.known.None? {
      ShowKeepsOk(v, now, visible, e, got);
    }
    hide AfterShow, ShowRefused, Find, Reveal, Truthful;
  }

  lemma HideKeepsOk(v: Vault, now: Vault, visible: set<string>, e: DraftEntry, hidden: bool, got: Asked)
    requires EntryOk(v, visible, e) && WellKept(now) && Truthful(now, e, got)
    ensures EntryOk(v, visible, AfterHide(e, hidden, got))
    ensures KnownAsRead(now, e) ==> KnownAsRead(now, AfterHide(e, hidden, got))
  {
    if e.masked && e.known.None? {
      ShowKeepsOk(v, now, visible, e, got);
    }
    hide AfterShow, ShowRefused, Find, Reveal, Truthful;
  }

  lemma TypeKeepsOk(v: Vault, now: Vault, visible: set<string>, e: DraftEntry, op: Op)
    requires EntryOk(v, visible, e) && !op.Show? && !op.Move? && !op.Hide? && (op.Link? ==> e.list == Ids)
    ensures EntryOk(v, visible, ChangeEntry(e, op))
    ensures KnownAsRead(now, e) ==> KnownAsRead(now, ChangeEntry(e, op))
  {
    hide Find, Reveal;
  }

  lemma {:induction false} WithoutIsFrom(entries: seq<DraftEntry>, uid: nat)
    requires Apart(entries)
    ensures Apart(WithoutEntry(entries, uid))
    ensures forall e :: e in WithoutEntry(entries, uid) ==> e in entries
    decreases |entries|
  {
    if entries != [] {
      WithoutIsFrom(entries[1..], uid);
      var rest := WithoutEntry(entries[1..], uid);
      assert forall x :: x in rest ==> x in entries[1..];
      assert forall x :: x in entries[1..] ==>
        (x.uid != entries[0].uid
         && (x.list != entries[0].list || x.id != entries[0].id || (x.from.Some? && entries[0].from.Some? && x.from != entries[0].from)));
    }
  }

  ghost predicate AllKnownAsRead(v: Vault, d: Draft) {
    forall e :: e in d.entries ==> KnownAsRead(v, e)
  }

  lemma EntriesKeepOk(s: Session, who: Editor, op: Op)
    requires DraftOk(s.read, who, s.draft) && WellKept(s.made.vault) && MayDo(s, op) && !op.Add? && !op.Remove?
    ensures var now := ChangeEntries(s.draft.entries, op.uid, op);
      && Apart(now) && (forall e :: e in now ==> EntryOk(s.read, who.visible, e))
      && (AllKnownAsRead(s.made.vault, s.draft) ==> forall e :: e in now ==> KnownAsRead(s.made.vault, e))
  {
    hide ChangeEntry, EntryOk, TextsOk, MayDo, WellKept, KnownAsRead;
    var was, now := s.draft.entries, ChangeEntries(s.draft.entries, op.uid, op);
    forall i | 0 <= i < |now|
      ensures now[i].uid == was[i].uid && now[i].list == was[i].list && now[i].id == was[i].id && now[i].from == was[i].from
      ensures EntryOk(s.read, who.visible, now[i])
      ensures KnownAsRead(s.made.vault, was[i]) ==> KnownAsRead(s.made.vault, now[i])
    {
      ChangeKeepsName(was[i], op);
      assert was[i] in was;
      if was[i].uid == op.uid {
        ChangeKeepsOk(s, who, was[i], op);
      }
    }
    assert forall i :: 0 <= i < |now| ==> was[i] in was;
  }

  /** A text with a twin of its key stays where it is; the others are told apart whichever part they are in. */
  lemma TwinsStayPut(v: Vault, s: Session, op: Op, i: nat, j: nat)
    requires TextsOk(v, s.draft.texts) && MayDo(s, op) && (op.TypeText? || op.MoveText?)
    requires i < |s.draft.texts| && j < |s.draft.texts| && i != j && s.draft.texts[i].key == s.draft.texts[j].key
    ensures var now := ChangeTexts(s.draft.texts, op.uid, op);
      && now[i].onlyMe == s.draft.texts[i].onlyMe && now[j].onlyMe == s.draft.texts[j].onlyMe && now[i].onlyMe != now[j].onlyMe
      && now[i].from == Some(PartFor(now[i].onlyMe))
  {
    hide TextOk, TextThere, ChangeTexts;
    assert s.draft.texts[i].onlyMe != s.draft.texts[j].onlyMe by {
      if i < j {
        assert s.draft.texts[i].key != s.draft.texts[j].key || s.draft.texts[i].onlyMe != s.draft.texts[j].onlyMe;
      } else {
        assert s.draft.texts[j].key != s.draft.texts[i].key || s.draft.texts[j].onlyMe != s.draft.texts[i].onlyMe;
      }
    }
  }

  lemma TextsKeepOk(v: Vault, s: Session, op: Op)
    requires TextsOk(v, s.draft.texts) && MayDo(s, op) && (op.TypeText? || op.MoveText?)
    ensures TextsOk(v, ChangeTexts(s.draft.texts, op.uid, op))
  {
    hide TextOk, ChangeTexts, MayDo, TextThere, PartFor, ChangeText, TextAt;
    var was, now := s.draft.texts, ChangeTexts(s.draft.texts, op.uid, op);
    TextsKeepNames(was, op);
    forall i, j | 0 <= i < |now| && 0 <= j < |now| && i != j && now[i].key == now[j].key
      ensures now[i].onlyMe != now[j].onlyMe && now[i].from == Some(PartFor(now[i].onlyMe))
    {
      assert was[i].key == was[j].key;
      TwinsStayPut(v, s, op, i, j);
    }
    forall t | t in now
      ensures TextOk(v, t)
    {
      var i :| 0 <= i < |now| && now[i] == t;
      assert was[i] in was && TextOk(v, was[i]);
      SameTextOk(v, was[i], t);
    }
    forall p: PartName, k: TextKey | TextAt(v, p, k).Some?
      ensures TextThere(now, p, k)
    {
      assert TextThere(was, p, k);
      ThereStill(was, now, p, k);
    }
  }

  lemma TextsKeepNames(texts: seq<DraftText>, op: Op)
    requires op.TypeText? || op.MoveText?
    ensures var now := ChangeTexts(texts, op.uid, op);
      |now| == |texts| && forall i :: 0 <= i < |now| ==> now[i].key == texts[i].key && now[i].from == texts[i].from
  {
    hide ChangeTexts;
  }

  lemma SameTextOk(v: Vault, was: DraftText, now: DraftText)
    requires TextOk(v, was) && now.key == was.key && now.from == was.from
    ensures TextOk(v, now)
  {
  }

  lemma ThereStill(was: seq<DraftText>, now: seq<DraftText>, p: PartName, k: TextKey)
    requires TextThere(was, p, k) && |now| == |was| && forall i :: 0 <= i < |now| ==> now[i].key == was[i].key && now[i].from == was[i].from
    ensures TextThere(now, p, k)
  {
    var t :| t in was && t.key == k && t.from == Some(p);
    var i :| 0 <= i < |was| && was[i] == t;
    assert now[i] in now;
  }

  /** Whatever is done in the form keeps its draft one the save may rely on. */
  lemma DoneKeepsOk(s: Session, who: Editor, op: Op)
    requires DraftOk(s.read, who, s.draft) && WellKept(s.made.vault) && MayDo(s, op)
    ensures DraftOk(s.read, who, Done(s.draft, op))
    ensures AllKnownAsRead(s.made.vault, s.draft) ==> AllKnownAsRead(s.made.vault, Done(s.draft, op))
  {
    match op
    case Add(e) =>
      hide TextsOk, WellKept;
      assert EntryOk(s.read, who.visible, e);
      ApartConcat(s.draft.entries, [e]);
    case Remove(uid) =>
      hide TextsOk, EntryOk, WellKept, KnownAsRead;
      WithoutIsFrom(s.draft.entries, uid);
    case TypeText(_, _) =>
      hide EntryOk, Apart, WellKept, KnownAsRead;
      TextsKeepOk(s.read, s, op);
    case MoveText(_, _) =>
      hide EntryOk, Apart, WellKept, KnownAsRead;
      TextsKeepOk(s.read, s, op);
    case _ =>
      hide EntryOk, Apart, TextsOk, WellKept, KnownAsRead;
      EntriesKeepOk(s, who, op);
  }

  /** What every run keeps: the draft, the vault and what was last written agree; and before anything is written, what was shown is what was read. */
  ghost predicate Kept(s: Session, who: Editor) {
    && WellKept(s.read) && WellKept(s.made.vault) && DraftOk(s.read, who, s.draft) && Agrees(s.made, who.visible)
    && (!s.wrote ==> s.made == Start(s.read, who) && AllKnownAsRead(s.read, s.draft))
  }

  lemma OpenedKept(v: Vault, who: Editor)
    requires WellKept(v)
    ensures Kept(Opened(v, who), who)
  {
    DraftFromOk(v, who);
    StartAgrees(v, who);
    hide DraftFrom, WellKept, DraftOk, Agrees, Start;
    StartIs(v, who);
    forall e | e in DraftFrom(v, who).entries
      ensures KnownAsRead(v, e)
    {
      ReadIsStoredInRecord(v, who, e);
      EntryFromNames(e.list, At(v, PartFor(e.onlyMe), e.list, e.id).value, PartFor(e.onlyMe), who.visible, e.uid);
    }
  }

  lemma RefusedKept(s: Session, who: Editor, k: nat)
    requires Kept(s, who) && k < |SaveSteps(s.made, s.draft)|
    ensures Kept(Next(s, who, SaveRefusedAfter(k)), who)
  {
    hide WellKept, DraftOk, Agrees, Start, SaveSteps, AllSendable, AllKnownAsRead, Take;
    ReadyIsSendable(s.read, who, s.draft);
    StoppedIsWellKept(s.made, s.draft, who.visible, k);
    TakeAgrees(SaveSteps(s.made, s.draft)[..k], s.made, who.visible);
    if k == 0 {
      NoneTaken(s.made, s.draft, who.visible);
    }
  }

  lemma NoneTaken(m: Made, d: Draft, visible: set<string>)
    ensures After(m, d, visible, 0) == m
  {
    hide SaveSteps;
  }

  lemma NextKept(s: Session, who: Editor, e: Event)
    requires Kept(s, who) && May(s, e)
    ensures Kept(Next(s, who, e), who)
  {
    hide WellKept, DraftOk, Agrees, Start, SaveSteps, AllKnownAsRead, MayDo, Done;
    match e
    case Does(op) =>
      DoneKeepsOk(s, who, op);
      StartIs(s.read, who);
    case SaveRefusedAfter(k) => RefusedKept(s, who, k);
    case Reads(v) => OpenedKept(v, who);
  }

  lemma {:induction false} RunKept(s: Session, who: Editor, events: seq<Event>, t: Session)
    requires Kept(s, who) && Run(s, who, events, t)
    ensures Kept(t, who)
    decreases |events|
  {
    hide Kept, May, Next;
    if events != [] {
      NextKept(s, who, events[0]);
      RunKept(Next(s, who, events[0]), who, events[1..], t);
    }
  }

  /** Every edit of a well-kept record, its refused saves with it. */
  lemma EditKept(v: Vault, who: Editor, events: seq<Event>, t: Session)
    requires WellKept(v) && Run(Opened(v, who), who, events, t)
    ensures Kept(t, who)
  {
    hide WellKept, Run, Kept;
    OpenedKept(v, who);
    RunKept(Opened(v, who), who, events, t);
  }

  /**
   * Over every run of the form, its refused saves with it, no entry is ever moved whose
   * masked value was neither shown nor typed over: the check made before a save never has
   * anything to say.
   */
  lemma NeverMovedUnshown(v: Vault, who: Editor, events: seq<Event>, t: Session)
    requires WellKept(v) && Run(Opened(v, who), who, events, t)
    ensures !MovedUnshown(t.draft)
    ensures forall e :: e in t.draft.entries ==> ShownToMove(e)
  {
    hide Run, WellKept, Opened;
    EditKept(v, who, events, t);
    hide Agrees, TextsOk, Apart, AllKnownAsRead, Start;
    assert forall e :: e in t.draft.entries ==> EntryOk(t.read, who.visible, e);
  }

  // ------------------------------------------------------------- what every press of Save does, over every run

  /**
   * Over every run, its refused saves with it: the save that is then made leaves a masked
   * value as it was meant to be if and only if it was carried; and until a save of the edit
   * has written anything it always is, but for one cleared in a part not written.
   */
  lemma MaskedValueOverRuns(v: Vault, who: Editor, events: seq<Event>, t: Session, e: DraftEntry)
    requires WellKept(v) && Run(Opened(v, who), who, events, t) && e in t.draft.entries && e.masked && !TakenOver(t.draft, e)
    ensures e.from.Some? && At(t.read, e.from.value, e.list, e.id).Some? && EntryOut(e, PartFor(e.onlyMe)).Some?
    ensures var was := At(t.read, e.from.value, e.list, e.id).value.secret;
      && was.Some?
      && (Has(Saved(t.made, t.draft, who.visible), PartFor(e.onlyMe), e, Meant(e, was)) <==> Carried(t.made, t.draft, e, was))
      && (!t.wrote && !(Clears(e) && !PartSent(t.made, t.draft, PartFor(e.onlyMe))) ==> Carried(t.made, t.draft, e, was))
  {
    hide Run, WellKept, Agrees, AllKnownAsRead, Start, DraftOk, Saved, PartSent, EntryOut, Has, Meant, Opened, TakenOver, Find, Carried, EntryOk,
      NormalEntry, ShownToMove;
    EditKept(v, who, events, t);
    MaskedIsRead(t.read, who, t.draft, e);
    KeptApart(t, who);
    var was := At(t.read, e.from.value, e.list, e.id).value.secret;
    MaskedValueAsMeant(t.made, t.draft, who.visible, e, was);
    if !t.wrote {
      assert KnownAsRead(t.read, e) by {
        AllIs(t.read, t.draft, e);
      }
      MaskedValueSaved(t.read, who, t.draft, e);
    }
  }

  lemma AllIs(v: Vault, d: Draft, e: DraftEntry)
    requires AllKnownAsRead(v, d) && e in d.entries
    ensures KnownAsRead(v, e)
  {
  }

  lemma KeptApart(s: Session, who: Editor)
    requires Kept(s, who)
    ensures Apart(s.draft.entries) && TwinsStay(s.draft.texts)
  {
    hide Agrees, WellKept, AllKnownAsRead, Start;
    ReadyTwinsStay(s.read, who, s.draft);
  }

  /**
   * Over every run: wherever the save that is then made is stopped, an entry stored when
   * Save was pressed, and that the finished save still holds, is in one of the parts, if
   * and only if it was safe; and until a save of the edit has written anything it always is.
   */
  lemma EntryOverRuns(v: Vault, who: Editor, events: seq<Event>, t: Session, e: DraftEntry)
    requires WellKept(v) && Run(Opened(v, who), who, events, t) && Ends(t.draft, e) && Alone(t.draft, e)
    requires At(t.made.vault, CopyIn(t.made, e), e.list, e.id).Some?
    ensures At(Saved(t.made, t.draft, who.visible), PartFor(e.onlyMe), e.list, e.id).Some?
    ensures var before := At(t.made.vault, CopyIn(t.made, e), e.list, e.id).value;
      var after := At(Saved(t.made, t.draft, who.visible), PartFor(e.onlyMe), e.list, e.id).value;
      (forall k: nat :: k <= |SaveSteps(t.made, t.draft)| ==>
         StoredSomewhere(After(t.made, t.draft, who.visible, k).vault, e.list, e.id, before, after))
      <==> SafeOnTheWay(t.made, t.draft, e)
    ensures !t.wrote && e.from.Some? ==> SafeOnTheWay(t.made, t.draft, e)
  {
    hide Run, WellKept, Agrees, AllKnownAsRead, Start, Saved, After, SaveSteps, StoredSomewhere, Opened, Find, EntryOut, Alone, TakenOver,
      SafeOnTheWay, CopyIn, ShownToMove, DraftOk;
    EditKept(v, who, events, t);
    NeverMovedUnshown(v, who, events, t);
    KeptApart(t, who);
    NeverStoredNowhere(t.made, t.draft, who.visible, e);
    if !t.wrote && e.from.Some? {
      FirstIsSafe(t.read, who, t.draft, e);
    }
  }

  /** And so of a field of one value. */
  lemma TextOverRuns(v: Vault, who: Editor, events: seq<Event>, t: Session, x: DraftText)
    requires WellKept(v) && Run(Opened(v, who), who, events, t)
    requires x in t.draft.texts && AloneText(t.draft, x) && TextOut(x.key, x.value).Some?
    requires TextAt(t.made.vault, TextCopyIn(t.made.vault, x), x.key).Some?
    ensures (forall k: nat :: k <= |SaveSteps(t.made, t.draft)| ==>
               TextKept(After(t.made, t.draft, who.visible, k).vault, t.made.vault, x, TextCopyIn(t.made.vault, x)))
       <==> SafeText(t.made, t.draft, x)
    ensures !t.wrote && x.from.Some? ==> SafeText(t.made, t.draft, x)
  {
    hide Run, WellKept, Agrees, AllKnownAsRead, Start, After, SaveSteps, Opened, TextOut, AloneText, TextCopyIn, TextKept, SafeText, TextAt, DraftOk;
    EditKept(v, who, events, t);
    KeptApart(t, who);
    TextNeverStoredNowhere(t.made, t.draft, who.visible, x);
    if !t.wrote && x.from.Some? {
      FirstTextIsSafe(t.read, who, t.draft, x);
    }
  }

  // ------------------------------------------------------------- versions

  datatype Theirs = Theirs(part: PartName, fields: SentPart, visible: set<string>)

  function AfterOthers(v: Vault, writes: seq<Theirs>): Vault
    decreases |writes|
  {
    if writes == [] then v
    else AfterOthers(Put(v, writes[0].part, writes[0].fields, writes[0].visible), writes[1..])
  }

  /**
   * A write accepted at the version its part was read at replaces what was read,
   * whatever others wrote meanwhile: nobody's save is ever written over unseen.
   */
  lemma {:induction false} SameVersionSamePart(v: Vault, writes: seq<Theirs>, p: PartName)
    ensures AfterOthers(v, writes).VersionOf(p) >= v.VersionOf(p)
    ensures AfterOthers(v, writes).VersionOf(p) == v.VersionOf(p) ==> AfterOthers(v, writes).PartOf(p) == v.PartOf(p)
    decreases |writes|
  {
    if writes != [] {
      hide Put;
      var w := writes[0];
      PutMovesVersion(v, w.part, w.fields, w.visible, p);
      SameVersionSamePart(Put(v, w.part, w.fields, w.visible), writes[1..], p);
    }
  }

  // ------------------------------------------------------------- the vault, and the form on it

  datatype Written_ = Accepted(version: nat) | Conflict | Refusal

  /** The vault a form writes to, one part at a time. */
  class VaultServer {
    var vault: Vault

    constructor (v: Vault)
      ensures vault == v
    {
      vault := v;
    }

    /** A part, made from the version it was read at; `allowed` is whether anything else refuses it. */
    method Update(part: PartName, version: nat, fields: SentPart, visible: set<string>, allowed: bool) returns (r: Written_)
      modifies this
      ensures allowed && version == old(vault).VersionOf(part) ==>
        vault == Put(old(vault), part, fields, visible) && r == Accepted(vault.VersionOf(part))
      ensures allowed && version != old(vault).VersionOf(part) ==> vault == old(vault) && r == Conflict
      ensures !allowed ==> vault == old(vault) && r == Refusal
    {
      if !allowed {
        return Refusal;
      }
      if version != vault.VersionOf(part) {
        return Conflict;
      }
      vault := Put(vault, part, fields, visible);
      r := Accepted(vault.VersionOf(part));
    }
  }

  datatype Versions = Versions(shared: nat, onlyMe: nat) {
    function Of(p: PartName): nat {
      if p == Shared then shared else onlyMe
    }

    function With(p: PartName, to: nat): Versions {
      if p == Shared then this.(shared := to) else this.(onlyMe := to)
    }
  }

  function VersionsOf(v: Vault): Versions {
    Versions(v.sharedAt, v.onlyMeAt)
  }

  datatype Outcome = Unshown | NothingToSave | AllSaved | Stale | SaveRefused | NotConfirmed

  /** Whether a step is sent at all, once it is confirmed who asks; and if so, whether anything else refuses it. */
  datatype Asking = Sent(allowed: bool) | Unsent

  lemma DoVersions(m: Made, s: Step, visible: set<string>)
    ensures VersionsOf(Do(m, s, visible).vault) == VersionsOf(m.vault).With(s.part, Do(m, s, visible).vault.VersionOf(s.part))
  {
  }

  lemma TakeNone(steps: seq<Step>, m: Made, visible: set<string>)
    ensures Take(steps[..0], m, visible) == m
  {
  }

  lemma TakeOneMore(steps: seq<Step>, i: nat, m: Made, visible: set<string>)
    requires i < |steps|
    ensures Take(steps[..i + 1], m, visible) == Do(Take(steps[..i], m, visible), steps[i], visible)
  {
    assert steps[..i + 1][..i] == steps[..i];
  }

  /** Whoever edits both parts of a record: the draft, and what the vault last had from it. */
  class Form {
    var draft: Draft
    var written: Written
    var readAt: Versions
    var wrote: bool

    constructor (v: Vault, who: Editor)
      ensures draft == DraftFrom(v, who) && written == WrittenFrom(draft) && readAt == VersionsOf(v) && !wrote
    {
      draft := DraftFrom(v, who);
      written := WrittenFrom(DraftFrom(v, who));
      readAt := VersionsOf(v);
      wrote := false;
    }

    method ChangeDraft(op: Op)
      modifies this`draft
      ensures draft == Done(old(draft), op) && Leaves(old(draft), op, draft)
    {
      DoneLeaves(draft, op);
      draft := Done(draft, op);
    }

    /**
     * Save: the plan's steps in turn, each from the version this form has of its part, until
     * one is refused, or not confirmed: then the form is as it was, whatever it wrote before.
     */
    method Save(server: VaultServer, who: Editor, asking: seq<Asking>) returns (outcome: Outcome, steps: seq<Step>, taken: nat)
      modifies this, server
      ensures steps == SaveSteps(Made(old(server.vault), old(written)), old(draft)) && taken <= |steps|
      // Nobody else wrote since: the vault is where the steps taken leave it, and so is the form.
      ensures old(readAt) == VersionsOf(old(server.vault)) ==>
        var m := After(Made(old(server.vault), old(written)), old(draft), who.visible, taken);
        && server.vault == m.vault
        && (outcome == SaveRefused ==> written == m.last && readAt == VersionsOf(m.vault) && draft == old(draft) && taken < |steps|)
        && (outcome == AllSaved ==> taken == |steps| > 0)
        && outcome != Stale
      ensures outcome == NotConfirmed ==> written == old(written) && readAt == old(readAt) && draft == old(draft) && taken < |steps|
      ensures outcome == Unshown <==> MovedUnshown(old(draft))
      ensures outcome == NothingToSave <==> !MovedUnshown(old(draft)) && steps == []
      ensures outcome == Unshown || outcome == NothingToSave ==> server.vault == old(server.vault) && taken == 0
      // Somebody else's save is met: what they saved is read, for the changes to be made again.
      ensures outcome == Stale ==>
        && draft == DraftFrom(server.vault, who) && written == WrittenFrom(draft) && readAt == VersionsOf(server.vault)
    {
      hide Plan, Changing, DraftFrom, Put, NoChange, BuildPart, MovedUnshown, Take;
      ghost var start := Made(server.vault, written);
      steps := Changing(Plan(draft), written);
      taken := 0;
      ghost var alone := readAt == VersionsOf(server.vault);
      TakeNone(steps, start, who.visible);
      if MovedUnshown(draft) {
        return Unshown, steps, 0;
      }
      if |steps| == 0 {
        return NothingToSave, steps, 0;
      }
      var last := written;
      var at := readAt;
      while taken < |steps|
        invariant taken <= |steps| && draft == old(draft) && written == old(written) && readAt == old(readAt)
        invariant alone ==> Made(server.vault, last) == Take(steps[..taken], start, who.visible) && at == VersionsOf(server.vault)
      {
        var s := steps[taken];
        TakeOneMore(steps, taken, start, who.visible);
        ghost var before := Made(server.vault, last);
        if !NoChange(last.Of(s.part), s.fields) {
          var ask := if taken < |asking| then asking[taken] else Sent(true);
          if ask == Unsent {
            return NotConfirmed, steps, taken;
          }
          var r := server.Update(s.part, at.Of(s.part), s.fields, who.visible, ask.allowed);
          match r
          case Accepted(version) =>
            at := at.With(s.part, version);
            last := last.With(s.part, s.fields);
            wrote := true;
            DoVersions(before, s, who.visible);
          case Conflict =>
            draft := DraftFrom(server.vault, who);
            written := WrittenFrom(draft);
            readAt := VersionsOf(server.vault);
            return Stale, steps, taken;
          case Refusal =>
            written := last;
            readAt := at;
            return SaveRefused, steps, taken;
        }
        taken := taken + 1;
      }
      assert steps[..|steps|] == steps;
      outcome := AllSaved;
    }
  }
}
