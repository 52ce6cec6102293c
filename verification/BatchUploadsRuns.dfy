/** What every run of the uploader keeps: one item a file, nothing said to be there that is not. */
module BatchUploadsRuns {
  import opened Text
  import opened BatchUploads

  // ------------------------------------------------------------- what is kept whatever is under way

  /** Files are told apart, and their keys minted, once. */
  predicate FilesApart(s: Store) {
    && (forall i, j :: 0 <= i < j < |s.chosen| ==> s.chosen[i].key != s.chosen[j].key && s.chosen[i].idem != s.chosen[j].idem)
    && (forall c :: c in s.chosen ==> c.idem < s.minted)
  }

  predicate Untouched(s: Store) {
    s.phase == Choosing || s.phase == Making
  }

  /** Before a batch there is none, and no file has been sent. */
  predicate NothingYet(s: Store) {
    Untouched(s) ==> s.batch.None? && forall c :: c in s.chosen ==> c.state == Ready || c.state == Refused
  }

  predicate SameFile(c: Chosen, q: Request) {
    c.key == q.key && c.idem == q.idem && c.content == q.content
  }

  predicate OfChosen(chosen: seq<Chosen>, q: Request) {
    exists c :: c in chosen && SameFile(c, q)
  }

  /** A file's requests all carry its one key, into one batch; and no other file's does. */
  predicate RequestsOk(s: Store) {
    && (forall q :: q in s.requests ==> q.gen <= s.gen && q.idem < s.minted)
    && (forall q :: q in s.requests && q.gen == s.gen ==> !Untouched(s) && s.batch == Some(q.batch) && OfChosen(s.chosen, q))
    && (forall q, q' :: q in s.requests && q' in s.requests ==>
          ((q.gen == q'.gen && q.key == q'.key) <==> q.idem == q'.idem))
    && (forall q, q' :: q in s.requests && q' in s.requests && q.idem == q'.idem ==> q.batch == q'.batch && q.content == q'.content)
  }

  predicate AskedFor(requests: seq<Request>, x: Item)
    requires x.from.Some?
  {
    exists q :: q in requests && q.idem == x.idem && q.batch == x.batch && q.content == x.content
      && q.gen == x.from.value.0 && q.key == x.from.value.1
  }

  /** Every item of this page's was asked for, and no key made two in one batch. */
  predicate ItemsOk(s: Store) {
    && (forall x :: x in s.items ==> x.idem < s.minted)
    && (forall x :: x in s.items && x.from.Some? ==> AskedFor(s.requests, x))
    && (forall i, j :: 0 <= i < j < |s.items| ==> s.items[i].idem != s.items[j].idem || s.items[i].batch != s.items[j].batch)
  }

  predicate BytesThere(items: seq<Item>, batch: nat, content: int) {
    exists x :: x in items && x.batch == batch && x.content == content
  }

  /** A file marked sent or skipped has its bytes in the batch. */
  predicate ArrivedOk(s: Store) {
    forall c :: c in s.chosen && (c.state == Sent || c.state == Skipped) ==>
      s.batch.Some? && BytesThere(s.items, s.batch.value, c.content)
  }

  /** A key is one file's: no request but that file's carries it, and no item of anybody else's. */
  predicate KeysOwn(s: Store) {
    && (forall q, c :: q in s.requests && c in s.chosen && q.idem == c.idem ==> q.gen == s.gen && SameFile(c, q))
    && (forall x, q :: x in s.items && x.from.None? && q in s.requests ==> q.idem != x.idem)
    && (forall x, c :: x in s.items && x.from.None? && c in s.chosen ==> c.idem != x.idem)
  }

  predicate Core(s: Store) {
    FilesApart(s) && NothingYet(s) && RequestsOk(s) && KeysOwn(s) && ItemsOk(s) && ArrivedOk(s)
  }

  // ------------------------------------------------------------- what the call under way is at

  predicate NoneSending(s: Store) {
    forall c :: c in s.chosen ==> c.state != Sending
  }

  predicate OnlySending(s: Store, key: string) {
    forall c :: c in s.chosen && c.state == Sending ==> c.key == key
  }

  /** From `from` on, the files the loop took up are as it took them. */
  predicate TodoThere(chosen: seq<Chosen>, l: Loop, from: nat) {
    forall j :: from <= j < |l.todo| ==> l.todo[j] in chosen && (l.todo[j].state == Ready || l.todo[j].state == Failed)
  }

  predicate LoopApart(l: Loop) {
    forall i, j :: 0 <= i < j < |l.todo| ==> l.todo[i].key != l.todo[j].key
  }

  predicate LoopOk(s: Store, l: Loop) {
    && s.phase == InBatch && s.batch == Some(l.batch) && l.at <= |l.todo|
    && AllIn(l.there, s.items, l.batch) && LoopApart(l)
  }

  /** The file the loop is at is the one marked sending, and the only one. */
  predicate AtSending(s: Store, l: Loop) {
    && LoopOk(s, l) && l.at < |l.todo| && TodoThere(s.chosen, l, l.at + 1)
    && l.todo[l.at].(state := Sending) in s.chosen && OnlySending(s, l.todo[l.at].key)
  }

  predicate RequestOf(s: Store, l: Loop, r: nat) {
    l.at < |l.todo| && r < |s.requests| &&
    s.requests[r] == Request(l.batch, l.todo[l.at].idem, l.todo[l.at].content, l.todo[l.at].size, s.gen, l.todo[l.at].key)
  }

  predicate Resting(s: Store) {
    (s.phase == Choosing || s.phase == Stopped || s.phase == Done) && NoneSending(s) && s.current.None?
  }

  predicate ThreadOk(s: Store, t: Thread) {
    match t
    case MakingBatch => s.phase == Making && NoneSending(s) && s.current.None?
    case AskingBatch(b) => s.phase == InBatch && s.batch == Some(b) && NoneSending(s) && s.current.None?
    case Hashing(l) =>
      LoopOk(s, l) && l.at < |l.todo| && TodoThere(s.chosen, l, l.at) && NoneSending(s) && s.current.None?
    case AwaitingToken(l) => AtSending(s, l) && s.current.None?
    case AwaitingAnswer(l, r) => AtSending(s, l) && RequestOf(s, l, r) && s.current == Some(r)
    case Returning => Resting(s)
  }

  /** One call at a time, and an abort only ever waits for one under way. */
  predicate Calls(s: Store) {
    && |s.threads| <= 1 && (s.busy <==> |s.threads| == 1)
    && (s.aborted ==> s.busy && s.stopAsked)
    && (if s.threads == [] then Resting(s) else ThreadOk(s, s.threads[0]))
  }

  predicate Sound(s: Store) {
    Core(s) && Calls(s)
  }

  // ------------------------------------------------------------- files updated

  lemma UpdateMembers(chosen: seq<Chosen>, key: string, state: FileState)
    ensures forall c :: c in chosen ==> (if c.key == key then c.(state := state) else c) in Update(chosen, key, state)
    ensures forall d :: d in Update(chosen, key, state) ==>
      exists c :: c in chosen && d == if c.key == key then c.(state := state) else c
  {
    var r := Update(chosen, key, state);
    forall c | c in chosen
      ensures (if c.key == key then c.(state := state) else c) in r
    {
      var i :| 0 <= i < |chosen| && chosen[i] == c;
      assert r[i] in r;
    }
    forall d | d in r
      ensures exists c :: c in chosen && d == if c.key == key then c.(state := state) else c
    {
      var i :| 0 <= i < |r| && r[i] == d;
      assert chosen[i] in chosen;
    }
  }

  /** A change of states alone: the same files, in the same places. */
  predicate SameFiles(a: seq<Chosen>, b: seq<Chosen>) {
    |a| == |b| && forall i :: 0 <= i < |a| ==> b[i] == a[i].(state := b[i].state)
  }

  lemma SameFilesMember(a: seq<Chosen>, b: seq<Chosen>, c: Chosen) returns (d: Chosen)
    requires SameFiles(a, b) && c in b
    ensures d in a && c == d.(state := c.state)
  {
    var i :| 0 <= i < |b| && b[i] == c;
    d := a[i];
  }

  lemma SameFilesOf(a: seq<Chosen>, b: seq<Chosen>, q: Request)
    requires SameFiles(a, b) && OfChosen(a, q)
    ensures OfChosen(b, q)
  {
    var c :| c in a && SameFile(c, q);
    var i :| 0 <= i < |a| && a[i] == c;
    assert b[i] in b;
  }

  /** States changed while in a batch keep all that does not hang on them. */
  lemma StatesKeepCore(s: Store, t: Store)
    requires Core(s) && SameFiles(s.chosen, t.chosen) && !Untouched(t)
    requires t.requests == s.requests && t.items == s.items && t.minted == s.minted && t.gen == s.gen && t.batch == s.batch
    requires Untouched(s) ==> forall q :: q in s.requests ==> q.gen < s.gen
    requires ArrivedOk(t)
    ensures Core(t)
  {
    hide ItemsOk, ArrivedOk, FilesApart, KeysOwn, NothingYet;
    ItemsSame(s, t);
    StatesKeepApart(s, t);
    StatesKeepKeys(s, t);
    assert NothingYet(t) by {
      NotUntouched(t);
    }
    forall q | q in t.requests && q.gen == t.gen
      ensures t.batch == Some(q.batch) && OfChosen(t.chosen, q)
    {
      SameFilesOf(s.chosen, t.chosen, q);
    }
  }

  lemma NotUntouched(s: Store)
    requires !Untouched(s)
    ensures NothingYet(s)
  {
  }

  lemma StatesKeepApart(s: Store, t: Store)
    requires FilesApart(s) && SameFiles(s.chosen, t.chosen) && t.minted == s.minted
    ensures FilesApart(t)
  {
    forall c | c in t.chosen
      ensures c.idem < t.minted
    {
      var d := SameFilesMember(s.chosen, t.chosen, c);
    }
    forall i, j | 0 <= i < j < |t.chosen|
      ensures t.chosen[i].key != t.chosen[j].key && t.chosen[i].idem != t.chosen[j].idem
    {
      assert s.chosen[i].key != s.chosen[j].key && s.chosen[i].idem != s.chosen[j].idem;
    }
  }

  lemma StatesKeepKeys(s: Store, t: Store)
    requires KeysOwn(s) && SameFiles(s.chosen, t.chosen) && t.requests == s.requests && t.items == s.items && t.gen == s.gen
    ensures KeysOwn(t)
  {
    hide SameFiles;
    forall q, c | q in t.requests && c in t.chosen && q.idem == c.idem
      ensures q.gen == t.gen && SameFile(c, q)
    {
      var d := SameFilesMember(s.chosen, t.chosen, c);
    }
    forall x, c | x in t.items && x.from.None? && c in t.chosen
      ensures c.idem != x.idem
    {
      var d := SameFilesMember(s.chosen, t.chosen, c);
    }
  }

  lemma ItemsSame(s: Store, t: Store)
    requires t.requests == s.requests && t.items == s.items && t.minted == s.minted
    ensures ItemsOk(s) == ItemsOk(t)
  {
  }

  /** What is kept hangs on the files, their requests and items, and whether a batch was begun: on nothing else. */
  lemma CoreSame(s: Store, t: Store)
    requires Core(s) && t.chosen == s.chosen && t.requests == s.requests && t.items == s.items && t.minted == s.minted
    requires t.gen == s.gen && t.batch == s.batch && Untouched(t) == Untouched(s)
    ensures Core(t)
  {
    ItemsSame(s, t);
    hide ItemsOk;
  }

  // ------------------------------------------------------------- the ends of a call

  lemma ForgetCore(s: Store)
    requires Core(s)
    ensures Core(Forget(s)) && Resting(Forget(s)) && !Forget(s).aborted
  {
    ItemsSame(s, Forget(s));
    hide ItemsOk;
  }

  lemma EmptiedCore(s: Store)
    requires Core(s)
    ensures Core(Emptied(s)) && NoneSending(Emptied(s))
  {
    ItemsSame(s, Emptied(s));
    hide ItemsOk;
  }

  lemma CoreThreads(s: Store, threads: seq<Thread>)
    requires Core(s)
    ensures Core(s.(threads := threads))
  {
    ItemsSame(s, s.(threads := threads));
    hide ItemsOk;
  }

  /** At a point of the loop from which the run may end, or go on. */
  predicate BetweenFiles(s: Store) {
    Core(s) && s.threads != [] && |s.threads| == 1 && s.busy && s.phase == InBatch && NoneSending(s) && s.current.None?
    && (s.aborted ==> s.stopAsked)
  }

  lemma EndRunSound(s: Store, problem: Option<Outcome>)
    requires BetweenFiles(s)
    ensures Sound(EndRun(s, 0, problem))
  {
    hide Core;
    if s.aborted {
      ForgetCore(s);
      CoreThreads(Forget(s), Forget(s).threads[0 := Returning]);
    } else {
      EndRunCore(s, problem);
    }
  }

  lemma EndRunCore(s: Store, problem: Option<Outcome>)
    requires BetweenFiles(s) && !s.aborted
    ensures Core(EndRun(s, 0, problem))
  {
    var t := EndRun(s, 0, problem);
    assert ArrivedOk(t);
    StatesKeepCore(s, t);
  }

  lemma UpdateSame(chosen: seq<Chosen>, key: string, state: FileState)
    ensures SameFiles(chosen, Update(chosen, key, state))
  {
  }

  /** A file's state changed while in the batch: what must be there if it is now said to be. */
  lemma UpdateCore(s: Store, key: string, state: FileState)
    requires Core(s) && s.phase == InBatch
    requires state == Sent || state == Skipped ==>
      s.batch.Some? && forall c :: c in s.chosen && c.key == key ==> BytesThere(s.items, s.batch.value, c.content)
    ensures Core(s.(chosen := Update(s.chosen, key, state)))
  {
    var t := s.(chosen := Update(s.chosen, key, state));
    UpdateSame(s.chosen, key, state);
    UpdateMembers(s.chosen, key, state);
    StatesKeepCore(s, t);
  }

  /** The file at hand changed, the loop's files after it are as they were. */
  lemma RestOfTodo(chosen: seq<Chosen>, l: Loop, state: FileState)
    requires LoopApart(l) && l.at < |l.todo| && TodoThere(chosen, l, l.at + 1)
    ensures TodoThere(Update(chosen, l.todo[l.at].key, state), l, l.at + 1)
  {
    hide Update;
    UpdateMembers(chosen, l.todo[l.at].key, state);
    forall j | l.at + 1 <= j < |l.todo|
      ensures l.todo[j] in Update(chosen, l.todo[l.at].key, state)
    {
      assert l.todo[j].key != l.todo[l.at].key && l.todo[j] in chosen;
    }
  }

  lemma TodoAhead(chosen: seq<Chosen>, l: Loop)
    requires l.at < |l.todo| && TodoThere(chosen, l, l.at)
    ensures l.todo[l.at] in chosen && TodoThere(chosen, l, l.at + 1)
  {
  }

  lemma OneSending(s: Store, c: Chosen)
    requires NoneSending(s) && c in s.chosen
    ensures var chosen := Update(s.chosen, c.key, Sending);
      c.(state := Sending) in chosen && OnlySending(s.(chosen := chosen), c.key)
  {
    hide Update;
    UpdateMembers(s.chosen, c.key, Sending);
  }

  lemma MarkedAt(s: Store, l: Loop)
    requires LoopOk(s, l) && l.at < |l.todo| && TodoThere(s.chosen, l, l.at) && NoneSending(s)
    ensures AtSending(s.(chosen := Update(s.chosen, l.todo[l.at].key, Sending)), l)
  {
    hide Update, AllIn, LoopApart, TodoThere, NoneSending, OnlySending;
    TodoAhead(s.chosen, l);
    RestOfTodo(s.chosen, l, Sending);
    OneSending(s, l.todo[l.at]);
    var t := s.(chosen := Update(s.chosen, l.todo[l.at].key, Sending));
    assert LoopOk(t, l);
  }

  lemma MarkedSending(s: Store, l: Loop)
    requires BetweenFiles(s) && LoopOk(s, l) && l.at < |l.todo| && TodoThere(s.chosen, l, l.at)
    ensures Core(s.(chosen := Update(s.chosen, l.todo[l.at].key, Sending)))
    ensures AtSending(s.(chosen := Update(s.chosen, l.todo[l.at].key, Sending)), l)
  {
    hide Core, Update, LoopOk, TodoThere, AtSending;
    UpdateCore(s, l.todo[l.at].key, Sending);
    MarkedAt(s, l);
  }

  lemma MarkSendingSound(s: Store, l: Loop)
    requires BetweenFiles(s) && LoopOk(s, l) && l.at < |l.todo| && TodoThere(s.chosen, l, l.at)
    ensures Sound(MarkSending(s, 0, l))
  {
    hide Core, Update, AllIn, TodoThere, LoopApart, OnlySending, EndRun;
    if s.stopAsked || s.aborted {
      EndRunSound(s, None);
    } else {
      MarkedSending(s, l);
      var t := s.(chosen := Update(s.chosen, l.todo[l.at].key, Sending));
      AtSendingSame(t, SetThread(t, 0, AwaitingToken(l)), l);
      CoreSame(t, SetThread(t, 0, AwaitingToken(l)));
    }
  }

  lemma AtSendingSame(s: Store, t: Store, l: Loop)
    requires AtSending(s, l) && t.chosen == s.chosen && t.items == s.items && t.phase == s.phase && t.batch == s.batch
    ensures AtSending(t, l)
  {
  }

  lemma LoopHeadSound(s: Store, l: Loop)
    requires BetweenFiles(s) && LoopOk(s, l) && TodoThere(s.chosen, l, l.at)
    ensures Sound(LoopHead(s, 0, l))
  {
    if l.at == |l.todo| || s.stopAsked || s.aborted {
      EndRunSound(s, None);
    } else if AnySize(l.there, l.todo[l.at].size) {
      hide Core;
      CoreThreads(s, s.threads[0 := Hashing(l)]);
    } else {
      MarkSendingSound(s, l);
    }
  }

  lemma {:induction false} WaitingApart(chosen: seq<Chosen>)
    requires forall i, j :: 0 <= i < j < |chosen| ==> chosen[i].key != chosen[j].key
    ensures forall i, j :: 0 <= i < j < |WaitingOf(chosen)| ==> WaitingOf(chosen)[i].key != WaitingOf(chosen)[j].key
    decreases |chosen|
  {
    if chosen != [] {
      WaitingApart(chosen[1..]);
      var rest := WaitingOf(chosen[1..]);
      assert forall c :: c in rest ==> c in chosen[1..] && c.key != chosen[0].key;
    }
  }

  /** A run begun: whatever waits is taken up. */
  lemma BeginRunSound(s: Store, batch: nat, there: seq<Item>)
    requires Core(s) && |s.threads| == 1 && s.busy && s.batch == Some(batch) && NoneSending(s) && s.current.None?
    requires s.phase == InBatch && AllIn(there, s.items, batch) && (s.aborted ==> s.stopAsked)
    ensures Sound(BeginRun(s, 0, batch, there))
  {
    if s.aborted {
      hide Core;
      ForgetCore(s);
      CoreThreads(Forget(s), Forget(s).threads[0 := Returning]);
    } else {
      var t := s.(stopAsked := false, phase := InBatch, stopping := false, problem := None);
      var l := Loop(batch, there, WaitingOf(s.chosen), 0);
      WaitingApart(s.chosen);
      assert Core(t) by {
        ItemsSame(s, t);
      }
      hide Core, WaitingOf;
      LoopHeadSound(t, l);
    }
  }

  /** From a choosing, or a batch being made, into a batch. */
  lemma IntoBatch(s: Store, batch: nat, t: Store)
    requires Core(s) && Untouched(s) && NoneSending(s)
    requires t.chosen == s.chosen && t.requests == s.requests && t.items == s.items && t.minted == s.minted && t.gen == s.gen
    requires t.phase == InBatch && t.batch == Some(batch)
    ensures Core(t) && NoneSending(t)
  {
    ItemsSame(s, t);
    hide ItemsOk;
  }

  lemma BeginRunPhase(s: Store, batch: nat, there: seq<Item>)
    requires |s.threads| == 1
    ensures BeginRun(s, 0, batch, there) == BeginRun(s.(phase := InBatch), 0, batch, there)
  {
    hide LoopHead;
  }

  // ------------------------------------------------------------- each step

  lemma {:induction false} ChooseSound(s: Store, files: seq<Picked>, limit: nat, already: nat)
    requires Sound(s)
    ensures Sound(Choose(s, files, limit, already))
    decreases |files|
  {
    if files != [] {
      var f := files[0];
      if HasKey(s.chosen, f.key) {
        ChooseSound(s, files[1..], limit, already);
      } else {
        var room := BATCH_MAX_FILES - already - CountState(s.chosen, {Ready, Sending, Sent, Skipped, Failed});
        var ok := f.taken && f.size <= limit && room > 0;
        var c := Chosen(f.key, f.content, f.size, if ok then Ready else Refused, s.minted);
        var t := s.(chosen := s.chosen + [c], minted := s.minted + 1);
        ChosenOneMore(s, c);
        hide Sound, Choose, CountState, HasKey;
        ChooseSound(t, files[1..], limit, already);
        ChooseNext(s, files, limit, already, t);
      }
    }
  }

  lemma ChooseNext(s: Store, files: seq<Picked>, limit: nat, already: nat, t: Store)
    requires files != [] && !HasKey(s.chosen, files[0].key)
    requires var room := BATCH_MAX_FILES - already - CountState(s.chosen, {Ready, Sending, Sent, Skipped, Failed});
      var ok := files[0].taken && files[0].size <= limit && room > 0;
      t == s.(chosen := s.chosen + [Chosen(files[0].key, files[0].content, files[0].size, if ok then Ready else Refused, s.minted)],
              minted := s.minted + 1)
    ensures Choose(s, files, limit, already) == Choose(t, files[1..], limit, already)
  {
  }

  lemma OneMoreCore(s: Store, c: Chosen)
    requires Core(s) && !HasKey(s.chosen, c.key) && c.idem == s.minted && (c.state == Ready || c.state == Refused)
    ensures Core(s.(chosen := s.chosen + [c], minted := s.minted + 1))
  {
    var t := s.(chosen := s.chosen + [c], minted := s.minted + 1);
    assert forall d :: d in t.chosen <==> d in s.chosen || d == c;
    assert FilesApart(t) by {
      assert forall i :: 0 <= i < |s.chosen| ==> s.chosen[i] in s.chosen && s.chosen[i].key != c.key && s.chosen[i].idem < c.idem;
    }
    hide FilesApart;
    assert ItemsOk(t) by {
      hide RequestsOk, KeysOwn;
    }
    assert RequestsOk(t) by {
      hide ItemsOk, ArrivedOk, KeysOwn;
      forall q | q in t.requests && q.gen == t.gen
        ensures OfChosen(t.chosen, q)
      {
        var d :| d in s.chosen && SameFile(d, q);
        assert d in t.chosen;
      }
    }
  }

  lemma OneMoreThread(s: Store, c: Chosen, th: Thread)
    requires ThreadOk(s, th) && (c.state == Ready || c.state == Refused)
    ensures ThreadOk(s.(chosen := s.chosen + [c], minted := s.minted + 1), th)
  {
    var t := s.(chosen := s.chosen + [c], minted := s.minted + 1);
    hide AllIn, LoopApart;
    assert forall d :: d in t.chosen <==> d in s.chosen || d == c;
  }

  lemma ChosenOneMore(s: Store, c: Chosen)
    requires Sound(s) && !HasKey(s.chosen, c.key) && c.idem == s.minted && (c.state == Ready || c.state == Refused)
    ensures Sound(s.(chosen := s.chosen + [c], minted := s.minted + 1))
  {
    hide Core, ThreadOk, HasKey;
    OneMoreCore(s, c);
    if s.threads != [] {
      OneMoreThread(s, c, s.threads[0]);
    }
  }

  lemma {:induction false} WithoutApart(s: Store, key: string)
    requires FilesApart(s)
    ensures FilesApart(s.(chosen := Without(s.chosen, key)))
  {
    WithoutKeeps(s.chosen, key);
  }

  lemma {:induction false} WithoutKeeps(chosen: seq<Chosen>, key: string)
    requires forall i, j :: 0 <= i < j < |chosen| ==> chosen[i].key != chosen[j].key && chosen[i].idem != chosen[j].idem
    ensures forall i, j :: 0 <= i < j < |Without(chosen, key)| ==>
      Without(chosen, key)[i].key != Without(chosen, key)[j].key && Without(chosen, key)[i].idem != Without(chosen, key)[j].idem
    decreases |chosen|
  {
    if chosen != [] {
      WithoutKeeps(chosen[1..], key);
      var rest := Without(chosen[1..], key);
      assert forall c :: c in rest ==> c in chosen[1..] && c.key != chosen[0].key && c.idem != chosen[0].idem;
    }
  }

  /** While choosing, files may go: none has been sent. */
  lemma FewerSound(s: Store, chosen: seq<Chosen>)
    requires Sound(s) && s.phase == Choosing && FilesApart(s.(chosen := chosen)) && forall c :: c in chosen ==> c in s.chosen
    ensures Sound(s.(chosen := chosen))
  {
    ItemsSame(s, s.(chosen := chosen));
    hide ItemsOk, FilesApart;
  }

  lemma ResetSound(s: Store)
    requires Sound(s)
    ensures Sound(Reset(s))
  {
    if !Running(s) && !s.busy {
      EmptiedCore(s);
      hide Core;
    }
  }

  /** What the page alone is told changes nothing of the rest. */
  lemma SeenSound(s: Store, t: Store)
    requires Sound(s) && t == s.(seen := t.seen, watching := t.watching, lastVisit := t.lastVisit)
    ensures Sound(t)
  {
    ItemsSame(s, t);
    hide ItemsOk;
  }

  lemma OpenedSound(s: Store, visit: string)
    requires Sound(s)
    ensures Sound(Opened(s, visit))
  {
    hide Sound, Running, Emptied;
    var v := s.(lastVisit := Some(visit));
    SeenSound(s, v);
    ResetSound(v);
    var t := if s.lastVisit == Some(visit) then s
      else if Running(v) then v
      else if (v.phase == Stopped || v.phase == Done) && !v.seen then v.(seen := true)
      else Reset(v);
    SeenSound(v, v.(seen := true));
    SeenSound(t, t.(watching := t.watching + 1));
  }

  lemma StopSound(s: Store)
    requires Sound(s)
    ensures Sound(Stop(s))
  {
    ItemsSame(s, Stop(s));
    hide ItemsOk;
  }

  lemma AbortSound(s: Store)
    requires Sound(s)
    ensures Sound(Abort(s))
  {
    var t := s.(aborted := true, stopAsked := true, cut := if s.current.Some? then s.cut + {s.current.value} else s.cut);
    assert Core(t) by {
      ItemsSame(s, t);
    }
    hide Core;
    if !t.busy {
      ForgetCore(t);
    }
  }

  lemma StartMakeSound(s: Store)
    requires Sound(s)
    ensures Sound(StartMake(s)) && Sound(SendRest(s))
  {
    hide Core;
    if !s.busy {
      if s.phase == Choosing {
        CoreSame(s, StartMake(s));
      }
      if s.phase != Choosing && s.batch.Some? {
        CoreSame(s, SendRest(s));
      } else if s.batch.Some? {
        NoBatchYet(s);
      }
    }
  }

  lemma NoBatchYet(s: Store)
    requires Core(s) && Untouched(s)
    ensures s.batch.None?
  {
  }

  lemma StartCarrySound(s: Store, batch: nat, there: seq<Item>)
    requires Sound(s) && AllIn(there, s.items, batch)
    ensures Sound(StartCarry(s, batch, there))
  {
    if !s.busy && s.phase == Choosing {
      hide Core, BeginRun;
      var c := s.(busy := true, batch := Some(batch), carryOn := true, problem := None, threads := s.threads + [MakingBatch]);
      IntoBatch(s, batch, c.(phase := InBatch));
      BeginRunPhase(c, batch, there);
      BeginRunSound(c.(phase := InBatch), batch, there);
    }
  }

  lemma FinishSound(s: Store)
    requires Core(s) && |s.threads| == 1 && Resting(s) && s.busy
    ensures Sound(Finish(s, 0))
  {
    hide Core;
    assert s.threads[..0] + s.threads[1..] == [];
    var t := s.(busy := false, threads := []);
    CoreSame(s, t);
    if t.aborted {
      ForgetCore(t);
    }
  }

  lemma MadeSound(s: Store, answer: MakeAnswer)
    requires Sound(s) && |s.threads| == 1 && s.threads[0].MakingBatch?
    ensures Sound(BatchMade(s, 0, answer))
  {
    match answer
    case MakeFailed =>
      var t := s.(phase := Choosing, problem := Some(OAgain));
      assert Core(t) by {
        ItemsSame(s, t);
      }
      FinishSound(t);
    case NotSignedIn =>
      if s.aborted {
        ForgetCore(s);
        FinishSound(Forget(s));
      } else {
        var t := s.(phase := Choosing);
        assert Core(t) by {
          ItemsSame(s, t);
        }
        FinishSound(t);
      }
    case Made(batch) =>
      if s.aborted {
        ForgetCore(s);
        FinishSound(Forget(s));
      } else {
        var t := s.(batch := Some(batch), carryOn := false);
        IntoBatch(s, batch, t.(phase := InBatch));
        hide Core;
        BeginRunPhase(t, batch, []);
        BeginRunSound(t.(phase := InBatch), batch, []);
      }
  }

  lemma TodoStays(s: Store, l: Loop, state: FileState)
    requires AtSending(s, l)
    ensures TodoThere(Update(s.chosen, l.todo[l.at].key, state), l, l.at + 1)
  {
    hide Update, AllIn, OnlySending, TodoThere, LoopApart;
    RestOfTodo(s.chosen, l, state);
  }

  lemma NoneLeftSending(s: Store, l: Loop, state: FileState)
    requires AtSending(s, l) && state != Sending
    ensures forall c :: c in Update(s.chosen, l.todo[l.at].key, state) ==> c.state != Sending
  {
    hide Update, AllIn, TodoThere, LoopApart;
    UpdateMembers(s.chosen, l.todo[l.at].key, state);
  }

  lemma TheOneFile(s: Store, c: Chosen, d: Chosen)
    requires FilesApart(s) && c in s.chosen && d in s.chosen && c.key == d.key
    ensures c == d
  {
  }

  lemma SettledCore(s: Store, l: Loop, state: FileState)
    requires Core(s) && AtSending(s, l) && state != Skipped
    requires state == Sent ==> BytesThere(s.items, l.batch, l.todo[l.at].content)
    ensures Core(Settled(s, l, state))
  {
    var c := l.todo[l.at].(state := Sending);
    forall d | d in s.chosen && d.key == c.key
      ensures d == c
    {
      TheOneFile(s, c, d);
    }
    assert Core(s.(current := None)) by {
      ItemsSame(s, s.(current := None));
    }
    hide Core, Update, TodoThere, OnlySending, LoopApart, AllIn;
    UpdateCore(s.(current := None), c.key, state);
  }

  /** The file the loop is at settled one way or another, and the loop between files again. */
  lemma SettledBetween(s: Store, l: Loop, state: FileState)
    requires Sound(s) && |s.threads| == 1 && (s.threads[0].AwaitingToken? || s.threads[0].AwaitingAnswer?) && s.threads[0].loop == l
    requires state != Sending && state != Skipped
    requires state == Sent ==> BytesThere(s.items, l.batch, l.todo[l.at].content)
    ensures var t := Settled(s, l, state);
      BetweenFiles(t) && LoopOk(t, l.(at := l.at + 1)) && TodoThere(t.chosen, l, l.at + 1)
  {
    hide Core, Update, TodoThere, OnlySending, BytesThere, AllIn;
    assert AtSending(s, l);
    SettledCore(s, l, state);
    TodoStays(s, l, state);
    NoneLeftSending(s, l, state);
  }

  lemma RefuseWaitingBetween(s: Store)
    requires BetweenFiles(s)
    ensures BetweenFiles(s.(chosen := RefuseWaiting(s.chosen)))
  {
    var t := s.(chosen := RefuseWaiting(s.chosen));
    assert SameFiles(s.chosen, t.chosen);
    forall c | c in t.chosen
      ensures c.state != Sending && (c.state == Sent || c.state == Skipped ==> c in s.chosen)
    {
      var i :| 0 <= i < |t.chosen| && t.chosen[i] == c;
      assert s.chosen[i] in s.chosen;
    }
    assert ArrivedOk(t);
    StatesKeepCore(s, t);
  }

  lemma SendEndsSound(s: Store, l: Loop, state: FileState, problem: Option<Outcome>)
    requires Sound(s) && |s.threads| == 1 && (s.threads[0].AwaitingToken? || s.threads[0].AwaitingAnswer?) && s.threads[0].loop == l
    requires state == Ready || state == Failed
    ensures Sound(EndRun(Settled(s, l, state), 0, problem))
  {
    SettledBetween(s, l, state);
    hide Sound, LoopOk, TodoThere, BetweenFiles, Update, EndRun;
    EndRunSound(Settled(s, l, state), problem);
  }

  lemma SendRefusedSound(s: Store, l: Loop)
    requires Sound(s) && |s.threads| == 1 && (s.threads[0].AwaitingToken? || s.threads[0].AwaitingAnswer?) && s.threads[0].loop == l
    ensures var t := Settled(s, l, Refused);
      && Sound(EndRun(t.(chosen := RefuseWaiting(t.chosen)), 0, Some(OBatch)))
      && Sound(LoopHead(t, 0, l.(at := l.at + 1)))
  {
    SettledBetween(s, l, Refused);
    hide Sound, LoopOk, TodoThere, BetweenFiles, Settled, EndRun, LoopHead, RefuseWaiting;
    var t := Settled(s, l, Refused);
    RefuseWaitingBetween(t);
    EndRunSound(t.(chosen := RefuseWaiting(t.chosen)), Some(OBatch));
    LoopHeadSound(t, l.(at := l.at + 1));
  }

  lemma SendFailedSound(s: Store, l: Loop, e: Error)
    requires Sound(s) && |s.threads| == 1 && (s.threads[0].AwaitingToken? || s.threads[0].AwaitingAnswer?) && s.threads[0].loop == l
    ensures l.at < |l.todo| && Sound(SendFailed(s, 0, l, e)) && Sound(SendNowhere(s, 0, l))
  {
    AtOne(s, l);
    SendEndsSound(s, l, Ready, None);
    SendEndsSound(s, l, Failed, Some(OAgain));
    SendRefusedSound(s, l);
    FailsAs(s, l, e);
    hide Sound, Settled, EndRun, LoopHead, RefuseWaiting, SendFailed;
  }

  /** A send that fails is one of four ends, by what its error means. */
  lemma FailsAs(s: Store, l: Loop, e: Error)
    requires |s.threads| == 1 && l.at < |l.todo|
    ensures SendFailed(s, 0, l, e) == match OutcomeOf(e)
      case OStopped => EndRun(Settled(s, l, Ready), 0, None)
      case OAgain => EndRun(Settled(s, l, Failed), 0, Some(OAgain))
      case OBatch => EndRun(Settled(s, l, Refused).(chosen := RefuseWaiting(Settled(s, l, Refused).chosen)), 0, Some(OBatch))
      case OFile => LoopHead(Settled(s, l, Refused), 0, l.(at := l.at + 1))
  {
    hide Settled, EndRun, LoopHead, RefuseWaiting, OutcomeOf;
  }

  lemma AtOne(s: Store, l: Loop)
    requires Calls(s) && |s.threads| == 1 && (s.threads[0].AwaitingToken? || s.threads[0].AwaitingAnswer?) && s.threads[0].loop == l
    ensures AtSending(s, l) && l.at < |l.todo|
  {
  }

  lemma HashedSound(s: Store, hash: Option<int>)
    requires Sound(s) && May(s, EHashed(0, hash))
    ensures Sound(Hashed(s, 0, hash))
  {
    hide Core, Update, LoopHead, MarkSending, AnyContent, AllIn;
    var l := s.threads[0].loop;
    if hash.Some? && AnyContent(l.there, hash.value) {
      SkippedCore(s, l);
      SkippedTodo(s, l);
      LoopHeadSound(s.(chosen := Update(s.chosen, l.todo[l.at].key, Skipped)), l.(at := l.at + 1));
    } else {
      MarkSendingSound(s, l);
    }
  }

  /** A file whose bytes are in the batch already, said to be skipped. */
  lemma SkippedCore(s: Store, l: Loop)
    requires Core(s) && LoopOk(s, l) && l.at < |l.todo| && TodoThere(s.chosen, l, l.at) && AnyContent(l.there, l.todo[l.at].content)
    ensures Core(s.(chosen := Update(s.chosen, l.todo[l.at].key, Skipped)))
  {
    var c := l.todo[l.at];
    assert c in s.chosen;
    forall d | d in s.chosen && d.key == c.key
      ensures d == c
    {
      TheOneFile(s, c, d);
    }
    var x :| x in l.there && x.content == c.content;
    assert x in s.items && BytesThere(s.items, l.batch, c.content);
    hide Core, Update, LoopApart;
    UpdateCore(s, c.key, Skipped);
  }

  lemma SkippedTodo(s: Store, l: Loop)
    requires LoopApart(l) && l.at < |l.todo| && TodoThere(s.chosen, l, l.at)
    ensures var chosen := Update(s.chosen, l.todo[l.at].key, Skipped);
      TodoThere(chosen, l, l.at + 1) && (NoneSending(s) ==> NoneSending(s.(chosen := chosen)))
  {
    hide Update;
    UpdateMembers(s.chosen, l.todo[l.at].key, Skipped);
    RestOfTodo(s.chosen, l, Skipped);
  }

  lemma TokenSound(s: Store, answer: TokenAnswer)
    requires Sound(s) && May(s, EToken(0, answer))
    ensures Sound(GotToken(s, 0, answer))
  {
    var l := s.threads[0].loop;
    match answer
    case NoToken => SendFailedSound(s, l, Network);
    case TokenFailed(e) => SendFailedSound(s, l, e);
    case Token => RequestSound(s, l);
  }

  lemma RequestSound(s: Store, l: Loop)
    requires Sound(s) && |s.threads| == 1 && s.threads[0] == AwaitingToken(l)
    ensures Sound(GotToken(s, 0, Token))
  {
    var c := l.todo[l.at];
    var q := Request(l.batch, c.idem, c.content, c.size, s.gen, c.key);
    var t := GotToken(s, 0, Token);
    var d := c.(state := Sending);
    assert d in s.chosen && SameFile(d, q);
    RequestCore(s, d, q, t);
    hide Core;
  }

  /** One more request of a file's own: its key is still its own. */
  lemma RequestCore(s: Store, d: Chosen, q: Request, t: Store)
    requires Core(s) && d in s.chosen && SameFile(d, q) && q.gen == s.gen && s.batch == Some(q.batch) && !Untouched(s)
    requires t == s.(requests := s.requests + [q], current := t.current, threads := t.threads)
    ensures Core(t)
  {
    ItemsAsked(s, t, q);
    hide ItemsOk, ArrivedOk, FilesApart;
    assert FilesApart(t) by {
      StatesKeepApart(s, t);
    }
    KeysApart(s, d);
    forall q' | q' in s.requests
      ensures (q'.gen == q.gen && q'.key == q.key) <==> q'.idem == q.idem
      ensures q'.idem == q.idem ==> q'.batch == q.batch && q'.content == q.content
    {
      RequestAgain(s, q', d, q);
    }
  }

  lemma KeysApart(s: Store, d: Chosen)
    requires FilesApart(s) && d in s.chosen
    ensures forall c :: c in s.chosen && c.idem == d.idem ==> c == d
  {
    forall c | c in s.chosen && c.idem == d.idem
      ensures c == d
    {
      var i :| 0 <= i < |s.chosen| && s.chosen[i] == c;
      var j :| 0 <= j < |s.chosen| && s.chosen[j] == d;
    }
  }

  /** A file's key is its own: a request of this choosing under it is this file's, and the other way. */
  lemma RequestAgain(s: Store, q': Request, d: Chosen, q: Request)
    requires Core(s) && q' in s.requests && d in s.chosen && SameFile(d, q) && q.gen == s.gen && s.batch == Some(q.batch)
    ensures (q'.gen == q.gen && q'.key == q.key) <==> q'.idem == q.idem
    ensures q'.idem == q.idem ==> q'.batch == q.batch && q'.content == q.content
  {
    hide ItemsOk, ArrivedOk;
    if q'.gen == s.gen {
      assert OfChosen(s.chosen, q');
      var c :| c in s.chosen && SameFile(c, q');
      if c.key == d.key {
        TheOneFile(s, c, d);
      }
    }
  }

  lemma ItemsAsked(s: Store, t: Store, q: Request)
    requires ItemsOk(s) && t.items == s.items && t.requests == s.requests + [q] && t.minted == s.minted
    ensures ItemsOk(t)
  {
    forall x | x in t.items && x.from.Some?
      ensures AskedFor(t.requests, x)
    {
      var r :| r in s.requests && r.idem == x.idem && r.batch == x.batch && r.content == x.content
        && r.gen == x.from.value.0 && r.key == x.from.value.1;
      assert r in t.requests;
    }
  }

  lemma ItemMadeSound(s: Store, l: Loop, r: nat)
    requires Sound(s) && |s.threads| == 1 && s.threads[0] == AwaitingAnswer(l, r)
    requires r < |s.requests| && HasItem(s.items, s.requests[r].batch, s.requests[r].idem)
    ensures l.at < |l.todo|
    ensures Sound(LoopHead(Settled(s, l, Sent), 0, l.(at := l.at + 1)))
  {
    AtOne(s, l);
    var q := s.requests[r];
    assert q in s.requests && RequestOf(s, l, r);
    hide Core, Update, LoopHead, AtSending;
    var x :| x in s.items && x.batch == q.batch && x.idem == q.idem;
    MadeOfIt(s, q, x);
    assert BytesThere(s.items, l.batch, l.todo[l.at].content);
    SettledBetween(s, l, Sent);
    LoopHeadSound(Settled(s, l, Sent), l.(at := l.at + 1));
  }

  lemma AnsweredSound(s: Store, answer: SendAnswer)
    requires Sound(s) && May(s, EAnswered(0, answer))
    ensures Sound(Answered(s, 0, answer))
  {
    hide Core, Update, LoopHead, EndRun, SendFailed, SendNowhere, AtSending;
    var l := s.threads[0].loop;
    match answer
    case SessionOver => SendFailedSound(s, l, Network);
    case Fails(e) => SendFailedSound(s, l, e);
    case ItemMade => ItemMadeSound(s, l, s.threads[0].request);
  }

  /** The item of a request's key holds the request's bytes. */
  lemma MadeOfIt(s: Store, q: Request, x: Item)
    requires Core(s) && q in s.requests && x in s.items && x.batch == q.batch && x.idem == q.idem
    ensures x.content == q.content
  {
    assert x.from.Some? && AskedFor(s.requests, x);
  }

  lemma ArriveSound(s: Store, r: nat, kept: bool)
    requires Sound(s) && r < |s.requests|
    ensures Sound(Arrive(s, r, kept))
  {
    var q := s.requests[r];
    if kept && !HasItem(s.items, q.batch, q.idem) {
      var x := Item(q.batch, q.idem, q.content, q.size, Some((q.gen, q.key)));
      assert q in s.requests;
      assert AskedFor(s.requests, x);
      MoreItems(s, Arrive(s, r, kept), x);
    }
  }

  lemma OtherItemSound(s: Store, batch: nat, content: int, size: nat)
    requires Sound(s)
    ensures Sound(OtherItem(s, batch, content, size))
  {
    var x := Item(batch, s.minted, content, size, None);
    MoreItems(s, OtherItem(s, batch, content, size), x);
  }

  /** One more item in some batch: those there stay there. */
  lemma MoreItems(s: Store, t: Store, x: Item)
    requires Sound(s) && t == s.(items := s.items + [x], minted := t.minted) && s.minted <= t.minted && x.idem < t.minted
    requires forall y :: y in s.items ==> y.idem != x.idem || y.batch != x.batch
    requires x.from.Some? ==> AskedFor(s.requests, x)
    requires x.from.None? ==> x.idem == s.minted
    ensures Sound(t)
  {
    assert forall y :: y in t.items <==> y in s.items || y == x;
    MoreItemsCore(s, t, x);
    hide Core;
    if s.threads != [] {
      MoreItemsThread(s, t, s.threads[0]);
    }
  }

  lemma MoreItemsThread(s: Store, t: Store, th: Thread)
    requires ThreadOk(s, th) && t == s.(items := t.items, minted := t.minted) && forall y :: y in s.items ==> y in t.items
    ensures ThreadOk(t, th)
  {
  }

  lemma MoreItemsCore(s: Store, t: Store, x: Item)
    requires Core(s) && t == s.(items := s.items + [x], minted := t.minted) && s.minted <= t.minted && x.idem < t.minted
    requires forall y :: y in s.items ==> y.idem != x.idem || y.batch != x.batch
    requires x.from.Some? ==> AskedFor(s.requests, x)
    requires x.from.None? ==> x.idem == s.minted
    ensures Core(t)
  {
    assert forall y :: y in t.items <==> y in s.items || y == x;
    assert ItemsOk(t) by {
      hide RequestsOk, KeysOwn, FilesApart, ArrivedOk;
    }
    hide ItemsOk;
    assert ArrivedOk(t) by {
      forall c | c in t.chosen && (c.state == Sent || c.state == Skipped)
        ensures BytesThere(t.items, t.batch.value, c.content)
      {
        var y :| y in s.items && y.batch == s.batch.value && y.content == c.content;
        assert y in t.items;
      }
    }
  }

  lemma ReturnedSound(s: Store)
    requires Sound(s) && |s.threads| == 1 && s.threads[0].Returning?
    ensures Sound(Finish(s, 0))
  {
    hide Core;
    FinishSound(s);
  }

  lemma AskedSound(s: Store, there: seq<Item>)
    requires Sound(s) && |s.threads| == 1 && s.threads[0].AskingBatch? && AllIn(there, s.items, s.threads[0].batch)
    ensures Sound(BeginRun(s, 0, s.threads[0].batch, there))
  {
    hide Core, BeginRun;
    BeginRunSound(s, s.threads[0].batch, there);
  }

  lemma OneThread(s: Store, i: nat)
    requires Sound(s) && i < |s.threads|
    ensures i == 0 && |s.threads| == 1
  {
  }

  lemma PageStepSound(s: Store, e: Event)
    requires Sound(s) && May(s, e)
    requires e.EChoose? || e.ETakeOff? || e.ETakeAllOff? || e.EOpened? || e.EClosed? || e.EReset? || e.EStop? || e.EAbort?
    ensures Sound(Next(s, e))
  {
    match e
    case EChoose(files, limit, already) => ChooseSound(s, files, limit, already);
    case ETakeOff(key) =>
      if s.phase == Choosing {
        WithoutApart(s, key);
        hide Core, FilesApart, Without;
        FewerSound(s, Without(s.chosen, key));
      }
    case ETakeAllOff =>
      if s.phase == Choosing {
        FewerSound(s, []);
      }
    case EOpened(visit) => OpenedSound(s, visit);
    case EClosed => SeenSound(s, s.(watching := s.watching - 1));
    case EReset => ResetSound(s);
    case EStop => StopSound(s);
    case EAbort => AbortSound(s);
    case _ =>
  }

  lemma NextSound(s: Store, e: Event)
    requires Sound(s) && May(s, e)
    ensures Sound(Next(s, e))
  {
    hide Sound, Choose, TakeOff, TakeAllOff, Opened, Reset, Stop, Abort, StartMake, StartCarry, SendRest, BatchMade,
      BeginRun, Hashed, GotToken, Answered, Finish, Arrive, OtherItem;
    match e
    case EStartMake => StartMakeSound(s);
    case EStartCarry(batch, there) => StartCarrySound(s, batch, there);
    case ESendRest => StartMakeSound(s);
    case EMade(i, made) =>
      OneThread(s, i);
      MadeSound(s, made);
    case EAsked(i, there) =>
      OneThread(s, i);
      AskedSound(s, there);
    case EHashed(i, hash) =>
      OneThread(s, i);
      HashedSound(s, hash);
    case EToken(i, token) =>
      OneThread(s, i);
      TokenSound(s, token);
    case EAnswered(i, answer) =>
      OneThread(s, i);
      AnsweredSound(s, answer);
    case EReturned(i) =>
      OneThread(s, i);
      ReturnedSound(s);
    case EArrive(r, kept) => ArriveSound(s, r, kept);
    case EOtherItem(batch, content, size) => OtherItemSound(s, batch, content, size);
    case _ => PageStepSound(s, e);
  }

  lemma StartSound()
    ensures Sound(START)
  {
  }

  lemma {:induction false} RunSound(s: Store, events: seq<Event>, t: Store)
    requires Sound(s) && Run(s, events, t)
    ensures Sound(t)
    decreases |events|
  {
    hide Sound, Next, May;
    if events != [] {
      NextSound(s, events[0]);
      RunSound(Next(s, events[0]), events[1..], t);
    }
  }
}
