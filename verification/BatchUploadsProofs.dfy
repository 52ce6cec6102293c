/**
 * What an upload promises, in every run: one item a file, what is said to be sent is there,
 * a stop and an abort are heard, the run ends, and what is settled stays settled.
 */
module BatchUploadsProofs {
  import opened Text
  import opened BatchUploads
  import opened BatchUploadsRuns

  // ------------------------------------------------------------- one item a file

  /** Two items that this page made for one file are one. */
  ghost predicate OneItemAFile(s: Store) {
    forall i, j :: 0 <= i < j < |s.items| && s.items[i].from.Some? ==> s.items[i].from != s.items[j].from
  }

  lemma SoundMakesOneItem(s: Store)
    requires Sound(s)
    ensures OneItemAFile(s)
  {
    forall i, j | 0 <= i < j < |s.items| && s.items[i].from.Some? && s.items[i].from == s.items[j].from
      ensures false
    {
      OneRequestKey(s, s.items[i], s.items[j]);
    }
  }

  lemma OneRequestKey(s: Store, x: Item, y: Item)
    requires RequestsOk(s) && ItemsOk(s) && x in s.items && y in s.items && x.from.Some? && x.from == y.from
    ensures x.idem == y.idem && x.batch == y.batch
  {
    assert AskedFor(s.requests, x) && AskedFor(s.requests, y);
  }

  /**
   * Whatever is lost, however often the rest is sent: every file chosen makes at most one
   * item, and one marked sent or skipped has its bytes in the batch.
   */
  lemma UploadKeepsItsWord(events: seq<Event>, t: Store)
    requires Run(START, events, t)
    ensures OneItemAFile(t) && ArrivedOk(t)
    ensures |t.threads| <= 1 && (t.aborted ==> t.busy)
  {
    hide Run;
    StartSound();
    RunSound(START, events, t);
    SoundMakesOneItem(t);
  }

  // ------------------------------------------------------------- what is settled stays

  predicate Final(state: FileState) {
    state == Sent || state == Skipped || state == Refused
  }

  /** The same files, under the same keys, in their places; and those settled, as they were. */
  predicate Onward(a: seq<Chosen>, b: seq<Chosen>) {
    && |a| <= |b|
    && forall i :: 0 <= i < |a| ==> b[i] == a[i].(state := b[i].state) && (Final(a[i].state) ==> b[i] == a[i])
  }

  predicate IsSending(chosen: seq<Chosen>, key: string) {
    exists c :: c in chosen && c.key == key && c.state == Sending
  }

  /** No file is marked sending that was not. */
  predicate NoMoreSending(a: seq<Chosen>, b: seq<Chosen>) {
    forall c :: c in b && c.state == Sending ==> IsSending(a, c.key)
  }

  /** Forgotten since, or gone onward. */
  predicate Forward(s: Store, t: Store) {
    s.gen < t.gen || (s.gen == t.gen && Onward(s.chosen, t.chosen))
  }

  predicate Quiet(s: Store, t: Store) {
    s.gen < t.gen || (s.gen == t.gen && NoMoreSending(s.chosen, t.chosen))
  }

  lemma ForwardOn(s: Store, t: Store, u: Store)
    requires Forward(s, t) && Forward(t, u)
    ensures Forward(s, u)
  {
    if s.gen == u.gen {
      assert forall i :: 0 <= i < |s.chosen| ==> t.chosen[i] == s.chosen[i].(state := t.chosen[i].state);
    }
  }

  lemma QuietOn(s: Store, t: Store, u: Store)
    requires Quiet(s, t) && Quiet(t, u)
    ensures Quiet(s, u)
  {
  }

  lemma UpdateOnward(s: Store, key: string, state: FileState)
    requires forall c :: c in s.chosen && c.key == key ==> !Final(c.state)
    ensures Onward(s.chosen, Update(s.chosen, key, state))
    ensures state != Sending ==> NoMoreSending(s.chosen, Update(s.chosen, key, state))
  {
    var r := Update(s.chosen, key, state);
    forall i | 0 <= i < |s.chosen|
      ensures r[i] == s.chosen[i].(state := r[i].state) && (Final(s.chosen[i].state) ==> r[i] == s.chosen[i])
    {
      assert s.chosen[i] in s.chosen;
    }
    if state != Sending {
      forall c | c in r && c.state == Sending
        ensures IsSending(s.chosen, c.key)
      {
        var i :| 0 <= i < |r| && r[i] == c;
        assert s.chosen[i] in s.chosen;
      }
    }
  }

  lemma EndRunForward(s: Store, problem: Option<Outcome>)
    requires |s.threads| == 1
    ensures Forward(s, EndRun(s, 0, problem)) && Quiet(s, EndRun(s, 0, problem))
    ensures EndRun(s, 0, problem).threads == [Returning] && EndRun(s, 0, problem).requests == s.requests
    ensures var t := EndRun(s, 0, problem);
      && (s.aborted ==> t.gen > s.gen && !t.aborted)
      && (!s.aborted ==> !t.aborted && t.gen == s.gen && (t.phase == Stopped || t.phase == Done))
      && (!s.aborted && s.stopAsked ==> t.phase == Stopped)
      && (t.phase == Done ==> CountState(t.chosen, {Ready, Failed}) == 0)
  {
    hide CountState;
  }

  lemma FileApart(s: Store, c: Chosen)
    requires FilesApart(s) && c in s.chosen && !Final(c.state)
    ensures forall d :: d in s.chosen && d.key == c.key ==> !Final(d.state)
  {
    forall d | d in s.chosen && d.key == c.key
      ensures d == c
    {
      TheOneFile(s, c, d);
    }
  }

  lemma LoopHeadForward(s: Store, l: Loop)
    requires FilesApart(s) && |s.threads| == 1 && l.at <= |l.todo| && TodoThere(s.chosen, l, l.at)
    ensures Forward(s, LoopHead(s, 0, l))
    ensures s.stopAsked || s.aborted ==> LoopHead(s, 0, l) == EndRun(s, 0, None)
    ensures LoopHead(s, 0, l).requests == s.requests
  {
    hide EndRun, FilesApart, Update, Forward;
    EndRunForward(s, None);
    if l.at < |l.todo| {
      MarkForward(s, l);
    }
    assert Forward(s, s) && Forward(s, SetThread(s, 0, Hashing(l))) by {
      ForwardSame(s, s);
      ForwardSame(s, SetThread(s, 0, Hashing(l)));
    }
  }

  lemma ForwardSame(s: Store, t: Store)
    requires t.gen == s.gen && t.chosen == s.chosen
    ensures Forward(s, t) && Quiet(s, t)
  {
  }

  lemma MarkForward(s: Store, l: Loop)
    requires FilesApart(s) && |s.threads| == 1 && l.at < |l.todo| && TodoThere(s.chosen, l, l.at)
    ensures Forward(s, MarkSending(s, 0, l))
    ensures s.stopAsked || s.aborted ==> MarkSending(s, 0, l) == EndRun(s, 0, None)
    ensures MarkSending(s, 0, l).requests == s.requests
  {
    hide FilesApart, EndRun, Update;
    EndRunForward(s, None);
    FileApart(s, l.todo[l.at]);
    UpdateOnward(s, l.todo[l.at].key, Sending);
  }

  lemma BeginRunForward(s: Store, batch: nat, there: seq<Item>)
    requires FilesApart(s) && |s.threads| == 1
    ensures Forward(s, BeginRun(s, 0, batch, there))
    ensures BeginRun(s, 0, batch, there).requests == s.requests
    ensures s.aborted ==> BeginRun(s, 0, batch, there).gen > s.gen && !BeginRun(s, 0, batch, there).aborted
  {
    if !s.aborted {
      var t := s.(stopAsked := false, phase := InBatch, stopping := false, problem := None);
      hide LoopHead, Forward;
      LoopHeadForward(t, Loop(batch, there, WaitingOf(s.chosen), 0));
      ForwardSame(s, t);
      ForwardOn(s, t, LoopHead(t, 0, Loop(batch, there, WaitingOf(s.chosen), 0)));
    }
  }

  lemma SettledForward(s: Store, l: Loop, state: FileState)
    requires FilesApart(s) && AtSending(s, l) && state != Sending
    ensures Forward(s, Settled(s, l, state)) && Quiet(s, Settled(s, l, state))
  {
    hide FilesApart, Update;
    FileApart(s, l.todo[l.at].(state := Sending));
    UpdateOnward(s, l.todo[l.at].key, state);
  }

  lemma RefuseWaitingForward(s: Store)
    ensures Forward(s, s.(chosen := RefuseWaiting(s.chosen))) && Quiet(s, s.(chosen := RefuseWaiting(s.chosen)))
  {
    var r := RefuseWaiting(s.chosen);
    forall c | c in r && c.state == Sending
      ensures IsSending(s.chosen, c.key)
    {
      var i :| 0 <= i < |r| && r[i] == c;
      assert s.chosen[i] in s.chosen;
    }
  }

  /** The run after the file it is at is settled: ended, or at the next. */
  lemma SettledEnds(s: Store, l: Loop, state: FileState, problem: Option<Outcome>)
    requires FilesApart(s) && AtSending(s, l) && |s.threads| == 1 && state != Sending
    ensures var t := EndRun(Settled(s, l, state), 0, problem);
      Forward(s, t) && Quiet(s, t) && t.requests == s.requests
  {
    var u := Settled(s, l, state);
    assert |u.threads| == 1 && u.requests == s.requests;
    hide FilesApart, AtSending, Settled, EndRun, Forward, Quiet;
    SettledForward(s, l, state);
    EndRunForward(u, problem);
    ForwardOn(s, u, EndRun(u, 0, problem));
    QuietOn(s, u, EndRun(u, 0, problem));
  }

  lemma RefusedEnds(s: Store, l: Loop)
    requires FilesApart(s) && AtSending(s, l) && |s.threads| == 1
    ensures var u := Settled(s, l, Refused); var t := EndRun(u.(chosen := RefuseWaiting(u.chosen)), 0, Some(OBatch));
      Forward(s, t) && Quiet(s, t) && t.requests == s.requests
  {
    var u := Settled(s, l, Refused);
    assert |u.threads| == 1 && u.requests == s.requests;
    hide FilesApart, AtSending, Settled, EndRun, Forward, Quiet, RefuseWaiting;
    SettledForward(s, l, Refused);
    RefuseWaitingForward(u);
    var v := u.(chosen := RefuseWaiting(u.chosen));
    EndRunForward(v, Some(OBatch));
    ForwardOn(s, u, v);
    QuietOn(s, u, v);
    ForwardOn(s, v, EndRun(v, 0, Some(OBatch)));
    QuietOn(s, v, EndRun(v, 0, Some(OBatch)));
  }

  lemma SettledApart(s: Store, l: Loop, state: FileState)
    requires FilesApart(s) && l.at < |l.todo|
    ensures FilesApart(Settled(s, l, state))
  {
    UpdateSame(s.chosen, l.todo[l.at].key, state);
    hide Update, FilesApart;
    StatesKeepApart(s, Settled(s, l, state));
  }

  lemma SettledNext(s: Store, l: Loop, state: FileState)
    requires FilesApart(s) && AtSending(s, l) && |s.threads| == 1 && state != Sending
    ensures var t := LoopHead(Settled(s, l, state), 0, l.(at := l.at + 1));
      Forward(s, t) && (s.stopAsked || s.aborted ==> Quiet(s, t)) && t.requests == s.requests
  {
    var u := Settled(s, l, state);
    assert |u.threads| == 1 && u.requests == s.requests && u.stopAsked == s.stopAsked && u.aborted == s.aborted;
    var m := l.(at := l.at + 1);
    assert TodoThere(u.chosen, m, m.at) by {
      TodoStays(s, l, state);
    }
    SettledApart(s, l, state);
    SettledForward(s, l, state);
    hide FilesApart, AtSending, Settled, LoopHead, EndRun, Forward, Quiet, TodoThere;
    LoopHeadForward(u, m);
    EndRunForward(u, None);
    ForwardOn(s, u, LoopHead(u, 0, m));
    if s.stopAsked || s.aborted {
      QuietOn(s, u, LoopHead(u, 0, m));
    }
  }

  lemma FailedForward(s: Store, l: Loop, e: Error)
    requires FilesApart(s) && AtSending(s, l) && |s.threads| == 1
    ensures var t := SendFailed(s, 0, l, e);
      Forward(s, t) && (s.stopAsked || s.aborted ==> Quiet(s, t)) && t.requests == s.requests
    ensures var t := SendNowhere(s, 0, l);
      Forward(s, t) && (s.stopAsked || s.aborted ==> Quiet(s, t)) && t.requests == s.requests
  {
    SettledEnds(s, l, Ready, None);
    SettledEnds(s, l, Failed, Some(OAgain));
    RefusedEnds(s, l);
    SettledNext(s, l, Refused);
    FailsAs(s, l, e);
    hide FilesApart, AtSending, Settled, EndRun, LoopHead, RefuseWaiting, SendFailed, Forward, Quiet;
  }

  lemma HashedForward(s: Store, hash: Option<int>)
    requires Sound(s) && May(s, EHashed(0, hash))
    ensures var t := Hashed(s, 0, hash);
      Forward(s, t) && (s.stopAsked || s.aborted ==> Quiet(s, t)) && t.requests == s.requests
  {
    hide Sound, LoopHead, MarkSending, EndRun, FilesApart, Update, TodoThere, Forward, Quiet, LoopApart, AnyContent;
    var l := s.threads[0].loop;
    AtHashing(s, l);
    MarkForward(s, l);
    EndRunForward(s, None);
    SkippedForward(s, l);
  }

  lemma AtHashing(s: Store, l: Loop)
    requires Sound(s) && s.threads != [] && s.threads[0] == Hashing(l)
    ensures |s.threads| == 1 && FilesApart(s) && LoopApart(l) && TodoThere(s.chosen, l, l.at)
  {
    hide TodoThere, LoopApart, FilesApart;
  }

  lemma ApartSame(s: Store, t: Store)
    requires FilesApart(s) && t.chosen == s.chosen && t.minted == s.minted
    ensures FilesApart(t)
  {
  }

  lemma SkippedOnward(s: Store, l: Loop)
    requires FilesApart(s) && l.at < |l.todo| && TodoThere(s.chosen, l, l.at)
    ensures var u := s.(chosen := Update(s.chosen, l.todo[l.at].key, Skipped)); Forward(s, u) && Quiet(s, u) && FilesApart(u)
  {
    hide Update, FilesApart, Onward, NoMoreSending;
    SettledApart(s, l, Skipped);
    ApartSame(Settled(s, l, Skipped), s.(chosen := Update(s.chosen, l.todo[l.at].key, Skipped)));
    assert l.todo[l.at] in s.chosen;
    FileApart(s, l.todo[l.at]);
    UpdateOnward(s, l.todo[l.at].key, Skipped);
  }

  lemma SkippedForward(s: Store, l: Loop)
    requires FilesApart(s) && |s.threads| == 1 && LoopApart(l) && l.at < |l.todo| && TodoThere(s.chosen, l, l.at)
    ensures var t := LoopHead(s.(chosen := Update(s.chosen, l.todo[l.at].key, Skipped)), 0, l.(at := l.at + 1));
      Forward(s, t) && (s.stopAsked || s.aborted ==> Quiet(s, t)) && t.requests == s.requests
  {
    hide LoopHead, EndRun, FilesApart, Update, Forward, Quiet, LoopApart;
    var u := s.(chosen := Update(s.chosen, l.todo[l.at].key, Skipped));
    var m := l.(at := l.at + 1);
    SkippedOnward(s, l);
    SkippedTodo(s, l);
    LoopHeadForward(u, m);
    EndRunForward(u, None);
    ForwardOn(s, u, LoopHead(u, 0, m));
    if s.stopAsked || s.aborted {
      QuietOn(s, u, LoopHead(u, 0, m));
    }
  }

  /** Only the file already marked goes, when a token comes; whatever the answer, nothing else is sent. */
  lemma TokenForward(s: Store, answer: TokenAnswer)
    requires Sound(s) && May(s, EToken(0, answer))
    ensures var t := GotToken(s, 0, answer); Forward(s, t) && (s.stopAsked || s.aborted ==> Quiet(s, t))
    ensures var t := GotToken(s, 0, answer); var l := s.threads[0].loop;
      t.requests == s.requests || (|t.requests| == |s.requests| + 1 && t.requests[..|s.requests|] == s.requests
                                   && t.requests[|s.requests|].gen == s.gen && t.requests[|s.requests|].key == l.todo[l.at].key)
  {
    var l := s.threads[0].loop;
    match answer
    case Token =>
    case NoToken =>
      hide Core, EndRun, Settled, Forward, Quiet, SendNowhere, AtSending;
      FailedForward(s, l, Network);
    case TokenFailed(e) =>
      hide Core, EndRun, Settled, Forward, Quiet, SendFailed, AtSending;
      FailedForward(s, l, e);
  }

  lemma AnsweredForward(s: Store, answer: SendAnswer)
    requires Sound(s) && May(s, EAnswered(0, answer))
    ensures var t := Answered(s, 0, answer);
      Forward(s, t) && (s.stopAsked || s.aborted ==> Quiet(s, t)) && t.requests == s.requests
  {
    hide Sound, EndRun, Settled, Forward, Quiet, SendFailed, SendNowhere, LoopHead, AtSending, FilesApart;
    var l := s.threads[0].loop;
    AtGoing(s, l);
    match answer
    case SessionOver => FailedForward(s, l, Network);
    case Fails(e) => FailedForward(s, l, e);
    case ItemMade => SettledNext(s, l, Sent);
  }

  lemma AtGoing(s: Store, l: Loop)
    requires Sound(s) && s.threads != [] && (s.threads[0].AwaitingToken? || s.threads[0].AwaitingAnswer?) && s.threads[0].loop == l
    ensures |s.threads| == 1 && FilesApart(s) && AtSending(s, l) && l.at < |l.todo|
  {
    hide FilesApart;
  }

  predicate TakesOff(s: Store, e: Event) {
    s.phase == Choosing && (e.ETakeOff? || e.ETakeAllOff?)
  }

  lemma {:induction false} ChooseForward(s: Store, files: seq<Picked>, limit: nat, already: nat)
    ensures var t := Choose(s, files, limit, already);
      && Forward(s, t) && Quiet(s, t) && t.gen == s.gen
      && t == s.(chosen := t.chosen, minted := t.minted)
    decreases |files|
  {
    ChooseEnds(s, files, limit, already);
    hide Choose, CountState, HasKey, Forward, Quiet;
    if files == [] {
      ForwardSame(s, s);
    } else if HasKey(s.chosen, files[0].key) {
      ChooseForward(s, files[1..], limit, already);
    } else {
      var f := files[0];
      var room := BATCH_MAX_FILES - already - CountState(s.chosen, {Ready, Sending, Sent, Skipped, Failed});
      var ok := f.taken && f.size <= limit && room > 0;
      var c := Chosen(f.key, f.content, f.size, if ok then Ready else Refused, s.minted);
      var t := s.(chosen := s.chosen + [c], minted := s.minted + 1);
      OneMoreForward(s, c);
      ChooseForward(t, files[1..], limit, already);
      ChooseNext(s, files, limit, already, t);
      ForwardOn(s, t, Choose(t, files[1..], limit, already));
      QuietOn(s, t, Choose(t, files[1..], limit, already));
    }
  }

  lemma ChooseEnds(s: Store, files: seq<Picked>, limit: nat, already: nat)
    ensures files == [] ==> Choose(s, files, limit, already) == s
    ensures files != [] && HasKey(s.chosen, files[0].key) ==> Choose(s, files, limit, already) == Choose(s, files[1..], limit, already)
  {
  }

  lemma OneMoreForward(s: Store, c: Chosen)
    requires c.state != Sending
    ensures var t := s.(chosen := s.chosen + [c], minted := s.minted + 1); Forward(s, t) && Quiet(s, t)
  {
    forall d | d in s.chosen + [c] && d.state == Sending
      ensures IsSending(s.chosen, d.key)
    {
      assert d in s.chosen;
    }
  }

  lemma FinishForward(s: Store)
    requires |s.threads| == 1
    ensures var t := Finish(s, 0); Forward(s, t) && Quiet(s, t) && t.requests == s.requests && t.threads == []
    ensures var t := Finish(s, 0); !t.busy && !t.aborted && (s.aborted ==> t.gen > s.gen)
  {
  }

  lemma MadeForward(s: Store, answer: MakeAnswer)
    requires FilesApart(s) && |s.threads| == 1
    ensures var t := BatchMade(s, 0, answer); Forward(s, t) && t.requests == s.requests && (s.aborted ==> t.gen > s.gen && !t.aborted)
  {
    assert forall b :: FilesApart(s.(batch := Some(b), carryOn := false));
    hide FilesApart, BeginRun;
    match answer
    case MakeFailed =>
    case NotSignedIn =>
    case Made(batch) =>
      if !s.aborted {
        BeginRunForward(s.(batch := Some(batch), carryOn := false), batch, []);
      }
  }

  lemma StartForward(s: Store, batch: nat, there: seq<Item>)
    requires Sound(s)
    ensures Forward(s, StartMake(s)) && Forward(s, SendRest(s)) && Forward(s, StartCarry(s, batch, there))
    ensures StartMake(s).requests == s.requests && SendRest(s).requests == s.requests && StartCarry(s, batch, there).requests == s.requests
  {
    if !s.busy && s.phase == Choosing {
      var c := s.(busy := true, batch := Some(batch), carryOn := true, problem := None, threads := s.threads + [MakingBatch]);
      assert FilesApart(c) && |c.threads| == 1;
      hide Core, BeginRun, FilesApart;
      BeginRunForward(c, batch, there);
    }
  }

  lemma PageForward(s: Store, e: Event)
    requires Sound(s) && May(s, e) && !TakesOff(s, e)
    requires e.EChoose? || e.ETakeOff? || e.ETakeAllOff? || e.EOpened? || e.EClosed? || e.EReset? || e.EStop? || e.EAbort?
      || e.EArrive? || e.EOtherItem?
    ensures Forward(s, Next(s, e)) && Quiet(s, Next(s, e)) && Next(s, e).requests == s.requests
  {
    ForwardIfSame(s, Next(s, e));
    hide Sound, Choose, Forward, Quiet, Opened, Reset, Abort;
    match e
    case EChoose(files, limit, already) => ChooseForward(s, files, limit, already);
    case EOpened(visit) => OpenedForward(s, visit);
    case EReset => OpenedForward(s, "");
    case EAbort => AbortForward(s);
    case _ =>
  }

  lemma ForwardIfSame(s: Store, t: Store)
    ensures t.gen == s.gen && t.chosen == s.chosen ==> Forward(s, t) && Quiet(s, t)
  {
  }

  lemma OpenedForward(s: Store, visit: string)
    ensures var t := Opened(s, visit); Forward(s, t) && Quiet(s, t) && t.requests == s.requests
    ensures var t := Reset(s); Forward(s, t) && Quiet(s, t) && t.requests == s.requests
  {
    ForwardSame(s, s);
  }

  lemma AbortForward(s: Store)
    ensures var t := Abort(s); Forward(s, t) && Quiet(s, t) && t.requests == s.requests
  {
    ForwardSame(s, s);
  }

  /** A step's own request, if it makes one, is of the file marked sending. */
  predicate OneMoreRequest(s: Store, t: Store) {
    t.requests == s.requests ||
    (|t.requests| == |s.requests| + 1 && t.requests[..|s.requests|] == s.requests && t.requests[|s.requests|].gen == s.gen
     && IsSending(s.chosen, t.requests[|s.requests|].key))
  }

  /** In every step, unless files not yet sent are taken off: forgotten, or the same files onward. */
  lemma StepForward(s: Store, e: Event)
    requires Sound(s) && May(s, e)
    ensures TakesOff(s, e) || Forward(s, Next(s, e))
    ensures OneMoreRequest(s, Next(s, e))
  {
    hide Core, Forward, Quiet, Choose, Opened, Reset, Stop, Abort, StartMake, StartCarry, SendRest, BatchMade,
      BeginRun, Hashed, GotToken, Answered, Finish, Arrive, OtherItem;
    assert FilesApart(s) by {
      SoundApart(s);
    }
    match e
    case EStartMake => StartForward(s, 0, []);
    case EStartCarry(batch, there) => StartForward(s, batch, there);
    case ESendRest => StartForward(s, 0, []);
    case EMade(i, made) => MadeForward(s, made);
    case EAsked(i, there) => BeginRunForward(s, s.threads[0].batch, there);
    case EHashed(i, hash) => HashedForward(s, hash);
    case EToken(i, token) =>
      TokenForward(s, token);
      var l := s.threads[0].loop;
      assert l.todo[l.at].(state := Sending) in s.chosen;
    case EAnswered(i, answer) => AnsweredForward(s, answer);
    case EReturned(i) => FinishForward(s);
    case _ =>
      if !TakesOff(s, e) {
        PageForward(s, e);
      }
  }

  lemma SoundApart(s: Store)
    requires Sound(s)
    ensures FilesApart(s)
  {
  }

  // ------------------------------------------------------------- an abort

  /** Of this choosing, nothing has gone that had not, but the file then marked sending. */
  ghost predicate SentOnlyGoing(s: Store, t: Store) {
    forall q :: q in t.requests && q.gen == s.gen ==> q in s.requests || IsSending(s.chosen, q.key)
  }

  lemma AbortedStep(s: Store, e: Event)
    requires Sound(s) && s.aborted && May(s, e)
    ensures Quiet(s, Next(s, e)) && (Next(s, e).gen > s.gen || Next(s, e).aborted)
  {
    hide Core, Forward, Quiet, Choose, Opened, BeginRun, Hashed, GotToken, Answered, Finish, BatchMade;
    assert FilesApart(s) by {
      SoundApart(s);
    }
    match e
    case EMade(i, made) =>
      MadeForward(s, made);
      QuietForgotten(s, BatchMade(s, 0, made));
    case EAsked(i, there) =>
      BeginRunForward(s, s.threads[0].batch, there);
      QuietForgotten(s, BeginRun(s, 0, s.threads[0].batch, there));
    case EHashed(i, hash) =>
      HashedForward(s, hash);
      HashedGoes(s, hash);
    case EToken(i, token) =>
      TokenForward(s, token);
      TokenGoes(s, token);
    case EAnswered(i, answer) =>
      AnsweredForward(s, answer);
      AnsweredGoes(s, answer);
    case EReturned(i) =>
      FinishForward(s);
    case EChoose(files, limit, already) =>
      ChooseForward(s, files, limit, already);
    case EOpened(visit) =>
      OpenedBusy(s, visit);
    case ETakeOff(key) => QuietTakenOff(s, TakeOff(s, key));
    case ETakeAllOff => QuietTakenOff(s, TakeAllOff(s));
    case _ =>
      ForwardSame(s, Next(s, e));
  }

  lemma QuietForgotten(s: Store, t: Store)
    requires t.gen > s.gen
    ensures Quiet(s, t)
  {
  }

  lemma QuietTakenOff(s: Store, t: Store)
    requires t.gen == s.gen && forall c :: c in t.chosen ==> c in s.chosen
    ensures Quiet(s, t)
  {
  }

  lemma OpenedBusy(s: Store, visit: string)
    requires s.busy
    ensures var t := Opened(s, visit); Quiet(s, t) && t.aborted == s.aborted && t.gen == s.gen && t.threads == s.threads
    ensures var t := Opened(s, visit); t.phase == s.phase && t.chosen == s.chosen && t.stopAsked == s.stopAsked
  {
  }

  lemma HashedGoes(s: Store, hash: Option<int>)
    requires Sound(s) && May(s, EHashed(0, hash)) && s.aborted
    ensures Hashed(s, 0, hash).gen > s.gen
  {
    hide Core, Update, AnyContent;
  }

  lemma TokenGoes(s: Store, answer: TokenAnswer)
    requires Sound(s) && May(s, EToken(0, answer)) && s.aborted
    ensures GotToken(s, 0, answer).gen > s.gen || GotToken(s, 0, answer).aborted
  {
    hide Sound, SendFailed, SendNowhere, LoopHead, Settled;
    var l := s.threads[0].loop;
    AtGoing(s, l);
    FailedGoes(s, l, if answer.TokenFailed? then answer.error else Network);
  }

  lemma AnsweredGoes(s: Store, answer: SendAnswer)
    requires Sound(s) && May(s, EAnswered(0, answer)) && s.aborted
    ensures Answered(s, 0, answer).gen > s.gen
  {
    hide Sound, SendFailed, SendNowhere, LoopHead, Settled;
    var l := s.threads[0].loop;
    AtGoing(s, l);
    FailedGoes(s, l, if answer.Fails? then answer.error else Network);
    SettledGoes(s, l, Sent, None);
  }

  lemma FailedGoes(s: Store, l: Loop, e: Error)
    requires |s.threads| == 1 && l.at < |l.todo| && s.aborted
    ensures SendFailed(s, 0, l, e).gen > s.gen && SendNowhere(s, 0, l).gen > s.gen
  {
    SettledGoes(s, l, Ready, None);
    SettledGoes(s, l, Failed, Some(OAgain));
    SettledGoes(s, l, Refused, Some(OBatch));
    FailsAs(s, l, e);
    hide Settled, EndRun, LoopHead, RefuseWaiting, SendFailed;
  }

  lemma SettledGoes(s: Store, l: Loop, state: FileState, problem: Option<Outcome>)
    requires |s.threads| == 1 && l.at < |l.todo| && s.aborted
    ensures var u := Settled(s, l, state);
      && EndRun(u, 0, problem).gen > s.gen && EndRun(u.(chosen := RefuseWaiting(u.chosen)), 0, problem).gen > s.gen
      && LoopHead(u, 0, l.(at := l.at + 1)).gen > s.gen
  {
    hide Update, RefuseWaiting;
  }

  /** From an aborted store `s`: still to be forgotten, or forgotten since. */
  ghost predicate AbortGoes(s: Store, u: Store) {
    && (u.gen > s.gen || (u.gen == s.gen && u.aborted && Quiet(s, u)))
    && SentOnlyGoing(s, u)
  }

  lemma AbortGoesOn(s: Store, u: Store, e: Event)
    requires Sound(u) && May(u, e) && AbortGoes(s, u)
    ensures AbortGoes(s, Next(u, e))
  {
    hide Sound, Next, May, Quiet, Forward, Onward;
    var v := Next(u, e);
    StepForward(u, e);
    GenGrows(u, e);
    if u.gen == s.gen {
      AbortedStep(u, e);
      SentStill(s, u, v);
      if v.gen == s.gen {
        QuietOn(s, u, v);
      } else {
        assert v.gen > s.gen;
      }
    }
  }

  lemma GenGrows(s: Store, e: Event)
    requires Sound(s) && May(s, e)
    ensures Next(s, e).gen >= s.gen
  {
    hide Sound, Next, May, Onward;
    StepForward(s, e);
    if TakesOff(s, e) {
      TakenOff(s, e);
    }
  }

  lemma TakenOff(s: Store, e: Event)
    requires May(s, e) && TakesOff(s, e)
    ensures Next(s, e) == s.(chosen := Next(s, e).chosen)
  {
  }

  lemma SentStill(s: Store, u: Store, v: Store)
    requires SentOnlyGoing(s, u) && u.gen == s.gen && Quiet(s, u) && OneMoreRequest(u, v)
    ensures SentOnlyGoing(s, v)
  {
    forall q | q in v.requests && q.gen == s.gen
      ensures q in u.requests || IsSending(s.chosen, q.key)
    {
      if v.requests != u.requests {
        var i :| 0 <= i < |v.requests| && v.requests[i] == q;
        if i < |u.requests| {
          assert v.requests[..|u.requests|][i] == q;
        } else {
          var c :| c in u.chosen && c.key == q.key && c.state == Sending;
        }
      }
    }
  }

  lemma {:induction false} AbortRun(s: Store, u: Store, events: seq<Event>, t: Store)
    requires Sound(u) && AbortGoes(s, u) && Run(u, events, t)
    ensures AbortGoes(s, t) && Sound(t)
    decreases |events|
  {
    hide Sound, Next, May, AbortGoes;
    if events != [] {
      AbortGoesOn(s, u, events[0]);
      NextSound(u, events[0]);
      AbortRun(s, Next(u, events[0]), events[1..], t);
    }
  }

  /**
   * Wherever an abort lands: of what was chosen nothing more is sent but the file marked
   * sending then; and once the call under way, if any, has ended, all is forgotten.
   */
  lemma AbortIsHeard(before: Store, events: seq<Event>, t: Store)
    requires Sound(before) && Run(Abort(before), events, t)
    ensures SentOnlyGoing(before, t)
    ensures t.gen == before.gen ==> t.aborted && t.busy && NoMoreSending(before.chosen, t.chosen)
    ensures t.threads == [] ==> t.gen > before.gen && !t.busy && !t.aborted
  {
    var s := Abort(before);
    AbortSound(before);
    AbortBegins(before);
    AbortRun(before, s, events, t);
    hide Core;
  }

  lemma AbortBegins(before: Store)
    requires Sound(before)
    ensures AbortGoes(before, Abort(before))
  {
    hide Core;
  }

  /** An abort cuts short the one request on its way, and no other. */
  lemma AbortCutsTheOne(s: Store)
    requires Sound(s)
    ensures forall r: nat :: r in Abort(s).cut && r !in s.cut ==> s.threads != [] && s.threads[0].AwaitingAnswer? && s.threads[0].request == r
    ensures s.threads != [] && s.threads[0].AwaitingAnswer? ==> s.threads[0].request in Abort(s).cut
  {
    hide Core;
  }

  // ------------------------------------------------------------- Stop

  predicate InLoop(s: Store) {
    |s.threads| == 1 && (s.threads[0].Hashing? || s.threads[0].AwaitingToken? || s.threads[0].AwaitingAnswer?)
  }

  predicate CallStep(e: Event) {
    e.EMade? || e.EAsked? || e.EHashed? || e.EToken? || e.EAnswered? || e.EReturned?
  }

  /** What a call has left to do at most, in awaits. */
  function Left(t: Thread): int {
    match t
    case Hashing(l) => 3 * (|l.todo| - l.at)
    case AwaitingToken(l) => 3 * (|l.todo| - l.at) - 1
    case AwaitingAnswer(l, _) => 3 * (|l.todo| - l.at) - 2
    case _ => 0
  }

  /** A step of the loop's: less left to do; or ended, stopped if it was asked to, done only if nothing waits. */
  predicate CallGoes(s: Store, t: Store) {
    if t.threads == [Returning] then
      t.gen > s.gen || t.phase == Stopped || (t.phase == Done && !s.stopAsked && CountState(t.chosen, {Ready, Failed}) == 0)
    else
      && InLoop(t) && InLoop(s) && Left(t.threads[0]) < Left(s.threads[0])
      && t.stopAsked == s.stopAsked && t.aborted == s.aborted && t.gen == s.gen && t.phase == s.phase
  }

  /** From the head of the loop: ended, or at the file it is at, if neither a stop nor an abort is heard. */
  predicate HeadGoes(s: Store, t: Store, l: Loop) {
    if t.threads == [Returning] then
      t.gen > s.gen || t.phase == Stopped || (t.phase == Done && !s.stopAsked && CountState(t.chosen, {Ready, Failed}) == 0)
    else
      && InLoop(t) && Left(t.threads[0]) <= 3 * (|l.todo| - l.at) && (t.threads[0].AwaitingToken? || t.threads[0].Hashing?)
      && (t.threads[0].AwaitingToken? ==> Left(t.threads[0]) < 3 * (|l.todo| - l.at))
      && t.stopAsked == s.stopAsked == false && t.aborted == s.aborted == false && t.gen == s.gen && t.phase == s.phase
  }

  lemma MarkGoes(s: Store, l: Loop)
    requires |s.threads| == 1 && l.at < |l.todo|
    ensures HeadGoes(s, MarkSending(s, 0, l), l) && !MarkSending(s, 0, l).threads[0].Hashing?
  {
    hide EndRun, CountState, Update;
    EndRunForward(s, None);
    if !s.stopAsked && !s.aborted {
      assert MarkSending(s, 0, l).threads[0] == AwaitingToken(l);
    }
  }

  lemma LoopHeadGoes(s: Store, l: Loop)
    requires |s.threads| == 1 && l.at <= |l.todo|
    ensures HeadGoes(s, LoopHead(s, 0, l), l)
  {
    hide EndRun, CountState, MarkSending, AnySize;
    EndRunForward(s, None);
    if l.at < |l.todo| {
      MarkGoes(s, l);
    }
  }

  lemma HashedCall(s: Store, hash: Option<int>)
    requires |s.threads| == 1 && May(s, EHashed(0, hash))
    ensures CallGoes(s, Hashed(s, 0, hash))
  {
    hide LoopHead, MarkSending, CountState, Update, AnyContent;
    var l := s.threads[0].loop;
    MarkGoes(s, l);
    LoopHeadGoes(s.(chosen := Update(s.chosen, l.todo[l.at].key, Skipped)), l.(at := l.at + 1));
  }

  lemma SettledCall(s: Store, l: Loop, state: FileState, problem: Option<Outcome>)
    requires InLoop(s) && !s.threads[0].Hashing? && s.threads[0].loop == l && l.at < |l.todo|
    ensures CallGoes(s, LoopHead(Settled(s, l, state), 0, l.(at := l.at + 1)))
    ensures problem.Some? || state == Ready ==> CallGoes(s, EndRun(Settled(s, l, state), 0, problem))
    ensures problem.Some? ==>
      CallGoes(s, EndRun(Settled(s, l, state).(chosen := RefuseWaiting(Settled(s, l, state).chosen)), 0, problem))
  {
    var u := Settled(s, l, state);
    hide LoopHead, EndRun, CountState, Update, RefuseWaiting;
    LoopHeadGoes(u, l.(at := l.at + 1));
    EndRunForward(u, problem);
    EndRunForward(u.(chosen := RefuseWaiting(u.chosen)), problem);
  }

  lemma FailedCall(s: Store, l: Loop, e: Error)
    requires InLoop(s) && !s.threads[0].Hashing? && s.threads[0].loop == l && l.at < |l.todo|
    ensures CallGoes(s, SendFailed(s, 0, l, e)) && CallGoes(s, SendNowhere(s, 0, l))
  {
    SettledCall(s, l, Ready, None);
    SettledCall(s, l, Failed, Some(OAgain));
    SettledCall(s, l, Refused, Some(OBatch));
    FailsAs(s, l, e);
    hide Settled, EndRun, LoopHead, RefuseWaiting, SendFailed, CallGoes;
  }

  lemma CallStepGoes(s: Store, e: Event)
    requires Sound(s) && InLoop(s) && May(s, e) && CallStep(e)
    ensures CallGoes(s, Next(s, e))
  {
    hide Sound, CallGoes, Hashed, SendFailed, SendNowhere, LoopHead, Settled, OutcomeOf;
    match e
    case EHashed(i, hash) => HashedCall(s, hash);
    case EToken(i, token) =>
      if token == Token {
        TokenCall(s);
      } else {
        FailedCall(s, s.threads[0].loop, if token.TokenFailed? then token.error else Network);
      }
    case EAnswered(i, answer) =>
      FailedCall(s, s.threads[0].loop, if answer.Fails? then answer.error else Network);
      SettledCall(s, s.threads[0].loop, Sent, None);
  }

  lemma TokenCall(s: Store)
    requires InLoop(s) && May(s, EToken(0, Token))
    ensures CallGoes(s, GotToken(s, 0, Token))
  {
  }

  /** What is no step of the call's leaves it where it waits. */
  lemma OthersLeaveTheCall(s: Store, e: Event)
    requires Sound(s) && InLoop(s) && May(s, e) && !CallStep(e)
    ensures var t := Next(s, e); t.threads == s.threads && t.gen == s.gen && t.phase == s.phase && (s.stopAsked ==> t.stopAsked)
  {
    hide Core, Choose;
    match e
    case EChoose(files, limit, already) => ChooseForward(s, files, limit, already);
    case _ =>
  }

  function CallSteps(events: seq<Event>): nat {
    if events == [] then 0 else (if CallStep(events[0]) then 1 else 0) + CallSteps(events[1..])
  }

  /** Somewhere in the run the call has ended: forgotten, stopped, or done with nothing waiting. */
  ghost predicate Ends(from: Store, s: Store, events: seq<Event>)
    decreases |events|
  {
    || (s.threads == [Returning] &&
        (s.gen > from.gen || s.phase == Stopped || (s.phase == Done && CountState(s.chosen, {Ready, Failed}) == 0)))
    || (events != [] && May(s, events[0]) && Ends(from, Next(s, events[0]), events[1..]))
  }

  lemma StepOfLoop(s: Store, e: Event)
    requires Sound(s) && InLoop(s) && May(s, e)
    ensures var t := Next(s, e);
      if t.threads == [Returning] then
        t.gen > s.gen || t.phase == Stopped || (t.phase == Done && !s.stopAsked && CountState(t.chosen, {Ready, Failed}) == 0)
      else
        && InLoop(t) && t.gen == s.gen && (s.stopAsked ==> t.stopAsked)
        && Left(t.threads[0]) + (if CallStep(e) then 1 else 0) <= Left(s.threads[0])
  {
    hide Sound, Next, May, CountState;
    if CallStep(e) {
      CallStepGoes(s, e);
    } else {
      OthersLeaveTheCall(s, e);
    }
  }

  /**
   * The loop ends: as many answers as it has left to wait for, whatever they say and whatever
   * the page does between them, and the call has ended.
   */
  lemma {:induction false} TheRunEnds(from: Store, s: Store, events: seq<Event>, t: Store)
    requires Sound(s) && InLoop(s) && Run(s, events, t) && CallSteps(events) >= Left(s.threads[0]) && s.gen == from.gen
    ensures Ends(from, s, events)
    decreases |events|
  {
    hide Sound, Next, May, CountState;
    LeftSomething(s);
    var u := Next(s, events[0]);
    StepOfLoop(s, events[0]);
    NextSound(s, events[0]);
    if u.threads == [Returning] {
      assert Ends(from, u, events[1..]);
    } else {
      TheRunEnds(from, u, events[1..], t);
    }
  }

  lemma LeftSomething(s: Store)
    requires Sound(s) && InLoop(s)
    ensures Left(s.threads[0]) >= 1
  {
    hide Core;
  }

  // ------------------------------------------------------------- Stop

  /** Since `from`, stopped: no file marked sending since, and the call ended stopped, or goes on so. */
  ghost predicate StopGoes(from: Store, u: Store) {
    u.gen == from.gen && u.stopAsked && InLoop(u) && Quiet(from, u) && SentOnlyGoing(from, u)
  }

  ghost predicate EndsStopped(from: Store, s: Store, events: seq<Event>)
    decreases |events|
  {
    || (s.threads == [Returning] && (s.gen > from.gen || s.phase == Stopped) && SentOnlyGoing(from, s))
    || (events != [] && May(s, events[0]) && EndsStopped(from, Next(s, events[0]), events[1..]))
  }

  lemma StoppedStep(s: Store, e: Event)
    requires Sound(s) && InLoop(s) && s.stopAsked && May(s, e)
    ensures Quiet(s, Next(s, e))
  {
    hide Core, Forward, Quiet, Choose, Opened, BeginRun, Hashed, GotToken, Answered, Finish, BatchMade, StartMake, StartCarry, SendRest;
    match e
    case EHashed(i, hash) => HashedForward(s, hash);
    case EToken(i, token) => TokenForward(s, token);
    case EAnswered(i, answer) => AnsweredForward(s, answer);
    case EStartMake => StartsNothing(s, 0, []);
    case EStartCarry(batch, there) => StartsNothing(s, batch, there);
    case ESendRest => StartsNothing(s, 0, []);
    case EMade(_, _) => assert false;
    case EAsked(_, _) => assert false;
    case EReturned(_) => assert false;
    case _ => PageForward(s, e);
  }

  lemma StartsNothing(s: Store, batch: nat, there: seq<Item>)
    requires s.busy
    ensures StartMake(s) == s && StartCarry(s, batch, there) == s && SendRest(s) == s && Quiet(s, s)
  {
  }

  /**
   * A Stop asked in the loop is heard: nothing goes but the file then marked sending, and the
   * run ends stopped.
   */
  lemma {:induction false} StopRun(from: Store, s: Store, events: seq<Event>, t: Store)
    requires Sound(s) && StopGoes(from, s) && Run(s, events, t)
    ensures StopGoes(from, t) || EndsStopped(from, s, events)
    decreases |events|
  {
    hide Sound, Next, May, Quiet, Onward, SentOnlyGoing;
    if events != [] {
      var u := Next(s, events[0]);
      StepOfLoop(s, events[0]);
      StoppedStep(s, events[0]);
      StepForward(s, events[0]);
      SentStill(from, s, u);
      NextSound(s, events[0]);
      if u.threads == [Returning] {
        assert EndsStopped(from, u, events[1..]);
      } else {
        QuietOn(from, s, u);
        StopRun(from, u, events[1..], t);
      }
    }
  }

  lemma StopIsHeardInTheLoop(before: Store, events: seq<Event>, t: Store)
    requires Sound(before) && InLoop(before) && Run(Stop(before), events, t)
    ensures StopGoes(before, t) || EndsStopped(before, Stop(before), events)
  {
    StopSound(before);
    StopBegins(before);
    hide Sound, Stop, StopGoes, EndsStopped;
    StopRun(before, Stop(before), events, t);
  }

  lemma StopBegins(before: Store)
    requires Sound(before) && InLoop(before)
    ensures StopGoes(before, Stop(before))
  {
    hide Core;
  }

  /** A Stop asked before the loop, while the batch is made or asked what arrived, is dropped: `run` clears it. */
  lemma StopIsDroppedBeforeIt(s: Store, batch: nat, there: seq<Item>)
    requires Sound(s) && !s.aborted && s.threads != []
    ensures s.threads[0].MakingBatch? ==> Stop(s).stopAsked && Next(Stop(s), EMade(0, Made(batch))) == Next(s, EMade(0, Made(batch)))
    ensures s.threads[0].AskingBatch? && May(s, EAsked(0, there)) ==>
      Stop(s).stopAsked && Next(Stop(s), EAsked(0, there)) == Next(s, EAsked(0, there))
  {
    hide Core, LoopHead, WaitingOf;
  }

  // ------------------------------------------------------------- how far it has got

  lemma {:induction false} CountsAddUp(chosen: seq<Chosen>)
    ensures |chosen| == CountState(chosen, {Refused}) + CountState(chosen, {Sent, Skipped}) + CountState(chosen, {Ready, Failed})
                        + CountState(chosen, {Sending})
  {
    if chosen != [] {
      CountsAddUp(chosen[1..]);
      var at := chosen[0].state;
      assert at == Ready || at == Refused || at == Sending || at == Sent || at == Skipped || at == Failed;
    }
  }

  lemma {:induction false} CountNone(chosen: seq<Chosen>, states: set<FileState>)
    requires forall c :: c in chosen ==> c.state !in states
    ensures CountState(chosen, states) == 0
  {
    if chosen != [] {
      CountNone(chosen[1..], states);
    }
  }

  lemma {:induction false} CountOne(chosen: seq<Chosen>, i: nat)
    requires i < |chosen| && chosen[i].state == Sending && forall j :: 0 <= j < |chosen| && j != i ==> chosen[j].state != Sending
    ensures CountState(chosen, {Sending}) == 1
  {
    if i == 0 {
      CountNone(chosen[1..], {Sending});
    } else {
      CountOne(chosen[1..], i - 1);
    }
  }

  /** What arrived, what waits and what is going are what is to send; and one file is going just while its token or its answer is awaited. */
  lemma ProgressAddsUp(s: Store)
    requires Sound(s)
    ensures CountState(s.chosen, {Sent, Skipped}) + CountState(s.chosen, {Ready, Failed}) + CountState(s.chosen, {Sending})
            == |s.chosen| - CountState(s.chosen, {Refused})
    ensures CountState(s.chosen, {Sending}) ==
      if s.threads != [] && (s.threads[0].AwaitingToken? || s.threads[0].AwaitingAnswer?) then 1 else 0
  {
    CountsAddUp(s.chosen);
    if s.threads != [] && (s.threads[0].AwaitingToken? || s.threads[0].AwaitingAnswer?) {
      var l := s.threads[0].loop;
      assert FilesApart(s) && AtSending(s, l);
      hide Sound, CountState;
      var i :| 0 <= i < |s.chosen| && s.chosen[i] == l.todo[l.at].(state := Sending);
      forall j | 0 <= j < |s.chosen| && j != i
        ensures s.chosen[j].state != Sending
      {
        assert s.chosen[j] in s.chosen;
      }
      CountOne(s.chosen, i);
    } else {
      NoneGoing(s);
      CountNone(s.chosen, {Sending});
    }
  }

  lemma NoneGoing(s: Store)
    requires Sound(s) && (s.threads == [] || !(s.threads[0].AwaitingToken? || s.threads[0].AwaitingAnswer?))
    ensures NoneSending(s)
  {
    hide Core;
  }

  // ------------------------------------------------------------- the files chosen

  lemma {:induction false} CountLast(chosen: seq<Chosen>, c: Chosen, states: set<FileState>)
    ensures CountState(chosen + [c], states) == CountState(chosen, states) + (if c.state in states then 1 else 0)
  {
    if chosen == [] {
      assert chosen + [c] == [c];
    } else {
      assert (chosen + [c])[1..] == chosen[1..] + [c];
      CountLast(chosen[1..], c, states);
    }
  }

  function ToSend(s: Store): nat {
    CountState(s.chosen, {Ready, Sending, Sent, Skipped, Failed})
  }

  /** Choosing never takes a batch over its most; and a file chosen twice is chosen once. */
  lemma {:induction false} ChooseFits(s: Store, files: seq<Picked>, limit: nat, already: nat)
    ensures var t := Choose(s, files, limit, already);
      ToSend(t) == ToSend(s) || ToSend(t) + already <= BATCH_MAX_FILES
    ensures forall f :: f in files ==> HasKey(Choose(s, files, limit, already).chosen, f.key)
    ensures s.chosen <= Choose(s, files, limit, already).chosen
    decreases |files|
  {
    ChooseEnds(s, files, limit, already);
    hide Choose, CountState, HasKey;
    if files != [] && HasKey(s.chosen, files[0].key) {
      ChooseFits(s, files[1..], limit, already);
      KeyStays(s.chosen, Choose(s, files, limit, already).chosen, files[0].key);
    } else if files != [] {
      var f := files[0];
      var room := BATCH_MAX_FILES - already - ToSend(s);
      var ok := f.taken && f.size <= limit && room > 0;
      var c := Chosen(f.key, f.content, f.size, if ok then Ready else Refused, s.minted);
      var t := s.(chosen := s.chosen + [c], minted := s.minted + 1);
      CountLast(s.chosen, c, {Ready, Sending, Sent, Skipped, Failed});
      ChooseNext(s, files, limit, already, t);
      ChooseFits(t, files[1..], limit, already);
      assert HasKey(t.chosen, f.key) by {
        KeyAdded(s.chosen, c);
      }
      KeyStays(t.chosen, Choose(s, files, limit, already).chosen, f.key);
    }
  }

  lemma KeyAdded(chosen: seq<Chosen>, c: Chosen)
    ensures HasKey(chosen + [c], c.key)
  {
    assert c in chosen + [c];
  }

  lemma KeyStays(a: seq<Chosen>, b: seq<Chosen>, key: string)
    requires a <= b && HasKey(a, key)
    ensures HasKey(b, key)
  {
    var c :| c in a && c.key == key;
    assert c in b;
  }
}
