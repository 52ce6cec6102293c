/**
 * The upload of many documents (apps/web/src/batch-store.tsx), one step between awaits at
 * a time, with the vault and the network around it: a request may arrive late or never,
 * and its answer be lost.
 */
module BatchUploads {
  import opened Text

  const BATCH_MAX_FILES := 200

  datatype FileState = Ready | Refused | Sending | Sent | Skipped | Failed

  /** One file chosen: `content` stands for its bytes, and for their SHA-256. */
  datatype Chosen = Chosen(key: string, content: int, size: nat, state: FileState, idem: nat)

  datatype Picked = Picked(key: string, content: int, size: nat, taken: bool)

  datatype Phase = Choosing | Making | InBatch | Stopped | Done

  /** An item of a batch; `from` is which choosing and which file of it made it, if this page did. */
  datatype Item = Item(batch: nat, idem: nat, content: int, size: nat, from: Option<(nat, string)>)

  /** A file sent: into which batch, under which key, and for which choosing's which file. */
  datatype Request = Request(batch: nat, idem: nat, content: int, size: nat, gen: nat, key: string)

  /** The loop of `run`: the files it took up, what is in the batch, and which file it is at. */
  datatype Loop = Loop(batch: nat, there: seq<Item>, todo: seq<Chosen>, at: nat)

  /** Where a call of `start` or `sendRest` waits. */
  datatype Thread =
    | MakingBatch
    | AskingBatch(batch: nat)
    | Hashing(loop: Loop)
    | AwaitingToken(loop: Loop)
    | AwaitingAnswer(loop: Loop, request: nat)
    | Returning

  datatype Error = Cut | Network | OtherError | Api(status: int, code: string)

  datatype Outcome = OStopped | OAgain | OBatch | OFile

  /** What a refusal means for the rest. */
  function OutcomeOf(e: Error): Outcome {
    match e
    case Cut => OStopped
    case Network => OAgain
    case OtherError => OAgain
    case Api(status, code) =>
      if status == 408 || status == 429 || status >= 500 || code == "upload_in_progress" then OAgain
      else if status == 404 || status == 403 || code == "batch_ended" || code == "batch_full" then OBatch
      else OFile
  }

  /**
   * The store's fields, the calls under way, and the world: keys minted, choosings begun,
   * requests sent and cut short, and the items in every batch.
   */
  datatype Store = Store(
    chosen: seq<Chosen>, phase: Phase, batch: Option<nat>, carryOn: bool, problem: Option<Outcome>,
    stopping: bool, seen: bool, changed: nat, watching: nat, lastVisit: Option<string>,
    current: Option<nat>, busy: bool, stopAsked: bool, aborted: bool,
    threads: seq<Thread>, minted: nat, gen: nat, requests: seq<Request>, cut: set<nat>, items: seq<Item>)

  const START := Store([], Choosing, None, false, None, false, true, 0, 0, None, None, false, false, false, [], 0, 0, [], {}, [])

  predicate Running(s: Store) {
    s.phase == Making || s.phase == InBatch
  }

  // ------------------------------------------------------------- the files chosen

  function CountState(chosen: seq<Chosen>, states: set<FileState>): nat {
    if chosen == [] then 0
    else (if chosen[0].state in states then 1 else 0) + CountState(chosen[1..], states)
  }

  function HasKey(chosen: seq<Chosen>, key: string): bool {
    exists c :: c in chosen && c.key == key
  }

  /** The file of this key put in a state; no other touched. */
  function Update(chosen: seq<Chosen>, key: string, state: FileState): (r: seq<Chosen>)
    ensures |r| == |chosen|
    ensures forall i :: 0 <= i < |r| ==> r[i] == if chosen[i].key == key then chosen[i].(state := state) else chosen[i]
  {
    if chosen == [] then []
    else [if chosen[0].key == key then chosen[0].(state := state) else chosen[0]] + Update(chosen[1..], key, state)
  }

  /** The batch takes no more: whatever waits is refused. */
  function RefuseWaiting(chosen: seq<Chosen>): (r: seq<Chosen>)
    ensures |r| == |chosen|
    ensures forall i :: 0 <= i < |r| ==>
      r[i] == if chosen[i].state == Ready || chosen[i].state == Failed then chosen[i].(state := Refused) else chosen[i]
  {
    if chosen == [] then []
    else
      [if chosen[0].state == Ready || chosen[0].state == Failed then chosen[0].(state := Refused) else chosen[0]]
      + RefuseWaiting(chosen[1..])
  }

  function WaitingOf(chosen: seq<Chosen>): (r: seq<Chosen>)
    ensures forall c :: c in r <==> c in chosen && (c.state == Ready || c.state == Failed)
  {
    if chosen == [] then []
    else (if chosen[0].state == Ready || chosen[0].state == Failed then [chosen[0]] else []) + WaitingOf(chosen[1..])
  }

  /** Files picked, one after another: one chosen already passed over, one refused kept with why. */
  function Choose(s: Store, files: seq<Picked>, limit: nat, already: nat): Store
    decreases |files|
  {
    if files == [] then s
    else
      var f := files[0];
      if HasKey(s.chosen, f.key) then Choose(s, files[1..], limit, already)
      else
        var room := BATCH_MAX_FILES - already - CountState(s.chosen, {Ready, Sending, Sent, Skipped, Failed});
        var ok := f.taken && f.size <= limit && room > 0;
        Choose(s.(chosen := s.chosen + [Chosen(f.key, f.content, f.size, if ok then Ready else Refused, s.minted)],
                  minted := s.minted + 1), files[1..], limit, already)
  }

  function Without(chosen: seq<Chosen>, key: string): (r: seq<Chosen>)
    ensures forall c :: c in r <==> c in chosen && c.key != key
  {
    if chosen == [] then []
    else (if chosen[0].key == key then [] else [chosen[0]]) + Without(chosen[1..], key)
  }

  function TakeOff(s: Store, key: string): Store {
    if s.phase != Choosing then s else s.(chosen := Without(s.chosen, key))
  }

  function TakeAllOff(s: Store): Store {
    if s.phase != Choosing then s else s.(chosen := [])
  }

  // ------------------------------------------------------------- the page's own steps

  /** Nothing chosen, nothing said: a choosing begun anew. */
  function Emptied(s: Store): Store {
    s.(chosen := [], phase := Choosing, batch := None, carryOn := false, problem := None, stopping := false, seen := true, gen := s.gen + 1)
  }

  function Reset(s: Store): Store {
    if Running(s) || s.busy then s else Emptied(s)
  }

  function Opened(s: Store, visit: string): Store {
    var t :=
      if s.lastVisit == Some(visit) then s
      else
        var v := s.(lastVisit := Some(visit));
        if Running(v) then v
        else if (v.phase == Stopped || v.phase == Done) && !v.seen then v.(seen := true)
        else Reset(v);
    t.(watching := t.watching + 1)
  }

  function Forget(s: Store): Store {
    Emptied(s).(aborted := false, stopAsked := false, current := None, changed := s.changed + 1)
  }

  function Stop(s: Store): Store {
    if !Running(s) then s else s.(stopAsked := true, stopping := true)
  }

  function Abort(s: Store): Store {
    var t := s.(aborted := true, stopAsked := true, cut := if s.current.Some? then s.cut + {s.current.value} else s.cut);
    if t.busy then t else Forget(t)
  }

  // ------------------------------------------------------------- one call's steps

  function SetThread(s: Store, i: nat, t: Thread): Store
    requires i < |s.threads|
  {
    s.(threads := s.threads[i := t])
  }

  /** After the loop: forgotten if stopped for a change of person; else stopped, or done. */
  function EndRun(s: Store, i: nat, problem: Option<Outcome>): Store
    requires i < |s.threads|
  {
    if s.aborted then SetThread(Forget(s), i, Returning)
    else
      var stopped := s.stopAsked || problem.Some? || CountState(s.chosen, {Ready, Failed}) > 0;
      SetThread(s.(phase := if stopped then Stopped else Done, problem := problem, stopping := false,
                   seen := s.watching > 0, changed := s.changed + 1, stopAsked := false), i, Returning)
  }

  predicate AnySize(items: seq<Item>, size: nat) {
    exists x :: x in items && x.size == size
  }

  predicate AnyContent(items: seq<Item>, content: int) {
    exists x :: x in items && x.content == content
  }

  /** The file is next to go, unless Stop was asked meanwhile: marked, and the token asked for. */
  function MarkSending(s: Store, i: nat, l: Loop): Store
    requires i < |s.threads| && l.at < |l.todo|
  {
    if s.stopAsked || s.aborted then EndRun(s, i, None)
    else SetThread(s.(chosen := Update(s.chosen, l.todo[l.at].key, Sending)), i, AwaitingToken(l))
  }

  /** The head of the loop: the next file, its hash first if one of its size is there. */
  function LoopHead(s: Store, i: nat, l: Loop): Store
    requires i < |s.threads| && l.at <= |l.todo|
  {
    if l.at == |l.todo| || s.stopAsked || s.aborted then EndRun(s, i, None)
    else if AnySize(l.there, l.todo[l.at].size) then SetThread(s, i, Hashing(l))
    else MarkSending(s, i, l)
  }

  /** `run`, as far as its first await. */
  function BeginRun(s: Store, i: nat, batch: nat, there: seq<Item>): Store
    requires i < |s.threads|
  {
    if s.aborted then SetThread(Forget(s), i, Returning)
    else
      LoopHead(s.(stopAsked := false, phase := InBatch, stopping := false, problem := None), i,
               Loop(batch, there, WaitingOf(s.chosen), 0))
  }

  function StartMake(s: Store): Store {
    if s.busy || s.phase != Choosing then s
    else s.(busy := true, phase := Making, problem := None, threads := s.threads + [MakingBatch])
  }

  function StartCarry(s: Store, batch: nat, there: seq<Item>): Store {
    if s.busy || s.phase != Choosing then s
    else
      BeginRun(s.(busy := true, batch := Some(batch), carryOn := true, problem := None, threads := s.threads + [MakingBatch]),
               |s.threads|, batch, there)
  }

  function SendRest(s: Store): Store {
    if s.busy || Running(s) || s.batch.None? then s
    else s.(busy := true, phase := InBatch, problem := None, threads := s.threads + [AskingBatch(s.batch.value)])
  }

  /** The call ends: not busy; and forgotten, if it was stopped for a change of person at the last. */
  function Finish(s: Store, i: nat): Store
    requires i < |s.threads|
  {
    var t := s.(busy := false, threads := s.threads[..i] + s.threads[i + 1..]);
    if t.aborted then Forget(t) else t
  }

  datatype MakeAnswer = Made(batch: nat) | NotSignedIn | MakeFailed

  function BatchMade(s: Store, i: nat, answer: MakeAnswer): Store
    requires i < |s.threads|
  {
    match answer
    case MakeFailed => Finish(s.(phase := Choosing, problem := Some(OAgain)), i)
    case NotSignedIn =>
      if s.aborted then Finish(Forget(s), i) else Finish(s.(phase := Choosing), i)
    case Made(batch) =>
      if s.aborted then Finish(Forget(s), i)
      else BeginRun(s.(batch := Some(batch), carryOn := false), i, batch, [])
  }

  /** A file's hash: the same bytes there already, it is not sent again. */
  function Hashed(s: Store, i: nat, hash: Option<int>): Store
    requires i < |s.threads| && s.threads[i].Hashing? && s.threads[i].loop.at < |s.threads[i].loop.todo|
  {
    var l := s.threads[i].loop;
    if hash.Some? && AnyContent(l.there, hash.value) then
      LoopHead(s.(chosen := Update(s.chosen, l.todo[l.at].key, Skipped)), i, l.(at := l.at + 1))
    else MarkSending(s, i, l)
  }

  /** The file the loop is at put in a state, and no request on its way. */
  function Settled(s: Store, l: Loop, state: FileState): Store
    requires l.at < |l.todo|
  {
    s.(current := None, chosen := Update(s.chosen, l.todo[l.at].key, state))
  }

  /** What an error makes of the file, and of the run. */
  function SendFailed(s: Store, i: nat, l: Loop, e: Error): Store
    requires i < |s.threads| && l.at < |l.todo|
  {
    match OutcomeOf(e)
    case OStopped => EndRun(Settled(s, l, Ready), i, None)
    case OAgain => EndRun(Settled(s, l, Failed), i, Some(OAgain))
    case OBatch => EndRun(Settled(s, l, Refused).(chosen := RefuseWaiting(Settled(s, l, Refused).chosen)), i, Some(OBatch))
    case OFile => LoopHead(Settled(s, l, Refused), i, l.(at := l.at + 1))
  }

  /** Signed out on the way: nothing more goes. */
  function SendNowhere(s: Store, i: nat, l: Loop): Store
    requires i < |s.threads| && l.at < |l.todo|
  {
    EndRun(Settled(s, l, Ready), i, None)
  }

  datatype TokenAnswer = Token | NoToken | TokenFailed(error: Error)

  function GotToken(s: Store, i: nat, answer: TokenAnswer): Store
    requires i < |s.threads| && s.threads[i].AwaitingToken? && s.threads[i].loop.at < |s.threads[i].loop.todo|
  {
    var l := s.threads[i].loop;
    var c := l.todo[l.at];
    match answer
    case NoToken => SendNowhere(s, i, l)
    case TokenFailed(e) => SendFailed(s, i, l, e)
    case Token =>
      SetThread(s.(requests := s.requests + [Request(l.batch, c.idem, c.content, c.size, s.gen, c.key)], current := Some(|s.requests|)),
                i, AwaitingAnswer(l, |s.requests|))
  }

  datatype SendAnswer = ItemMade | SessionOver | Fails(error: Error)

  function Answered(s: Store, i: nat, answer: SendAnswer): Store
    requires i < |s.threads| && s.threads[i].AwaitingAnswer? && s.threads[i].loop.at < |s.threads[i].loop.todo|
  {
    var l := s.threads[i].loop;
    match answer
    case SessionOver => SendNowhere(s, i, l)
    case Fails(e) => SendFailed(s, i, l, e)
    case ItemMade =>
      LoopHead(Settled(s, l, Sent), i, l.(at := l.at + 1))
  }

  // ------------------------------------------------------------- the vault

  predicate HasItem(items: seq<Item>, batch: nat, idem: nat) {
    exists x :: x in items && x.batch == batch && x.idem == idem
  }

  /** A request reaches the vault: a key seen before is the item it made; or it is refused, or kept. */
  function Arrive(s: Store, r: nat, kept: bool): Store
    requires r < |s.requests|
  {
    var q := s.requests[r];
    if !kept || HasItem(s.items, q.batch, q.idem) then s
    else s.(items := s.items + [Item(q.batch, q.idem, q.content, q.size, Some((q.gen, q.key)))])
  }

  /** Somebody else's item, under a key of its own. */
  function OtherItem(s: Store, batch: nat, content: int, size: nat): Store {
    s.(items := s.items + [Item(batch, s.minted, content, size, None)], minted := s.minted + 1)
  }

  // ------------------------------------------------------------- runs

  datatype Event =
    | EChoose(files: seq<Picked>, limit: nat, already: nat)
    | ETakeOff(key: string)
    | ETakeAllOff
    | EOpened(visit: string)
    | EClosed
    | EReset
    | EStop
    | EAbort
    | EStartMake
    | EStartCarry(batch: nat, there: seq<Item>)
    | ESendRest
    | EMade(thread: nat, made: MakeAnswer)
    | EAsked(thread: nat, there: seq<Item>)
    | EHashed(thread: nat, hash: Option<int>)
    | EToken(thread: nat, token: TokenAnswer)
    | EAnswered(thread: nat, answer: SendAnswer)
    | EReturned(thread: nat)
    | EArrive(request: nat, kept: bool)
    | EOtherItem(batch: nat, content: int, size: nat)

  predicate AllIn(there: seq<Item>, items: seq<Item>, batch: nat) {
    forall x :: x in there ==> x in items && x.batch == batch
  }

  /** What may happen: a call goes on from where it waits; a list of a batch is of items in it; an answer is of an item made. */
  predicate May(s: Store, e: Event) {
    match e
    case EStartCarry(batch, there) => AllIn(there, s.items, batch)
    case EClosed => s.watching > 0
    case EMade(i, _) => i < |s.threads| && s.threads[i].MakingBatch?
    case EAsked(i, there) => i < |s.threads| && s.threads[i].AskingBatch? && AllIn(there, s.items, s.threads[i].batch)
    case EHashed(i, hash) =>
      && i < |s.threads| && s.threads[i].Hashing? && s.threads[i].loop.at < |s.threads[i].loop.todo|
      && (hash.Some? ==> hash.value == s.threads[i].loop.todo[s.threads[i].loop.at].content)
    case EToken(i, _) =>
      i < |s.threads| && s.threads[i].AwaitingToken? && s.threads[i].loop.at < |s.threads[i].loop.todo|
    case EAnswered(i, answer) =>
      && i < |s.threads| && s.threads[i].AwaitingAnswer? && s.threads[i].loop.at < |s.threads[i].loop.todo|
      && s.threads[i].request < |s.requests|
      && (answer == ItemMade ==>
            HasItem(s.items, s.requests[s.threads[i].request].batch, s.requests[s.threads[i].request].idem))
    case EReturned(i) => i < |s.threads| && s.threads[i].Returning?
    case EArrive(r, _) => r < |s.requests|
    case _ => true
  }

  function Next(s: Store, e: Event): Store
    requires May(s, e)
  {
    match e
    case EChoose(files, limit, already) => Choose(s, files, limit, already)
    case ETakeOff(key) => TakeOff(s, key)
    case ETakeAllOff => TakeAllOff(s)
    case EOpened(visit) => Opened(s, visit)
    case EClosed => s.(watching := s.watching - 1)
    case EReset => Reset(s)
    case EStop => Stop(s)
    case EAbort => Abort(s)
    case EStartMake => StartMake(s)
    case EStartCarry(batch, there) => StartCarry(s, batch, there)
    case ESendRest => SendRest(s)
    case EMade(i, made) => BatchMade(s, i, made)
    case EAsked(i, there) => BeginRun(s, i, s.threads[i].batch, there)
    case EHashed(i, hash) => Hashed(s, i, hash)
    case EToken(i, token) => GotToken(s, i, token)
    case EAnswered(i, answer) => Answered(s, i, answer)
    case EReturned(i) => Finish(s, i)
    case EArrive(r, kept) => Arrive(s, r, kept)
    case EOtherItem(batch, content, size) => OtherItem(s, batch, content, size)
  }

  ghost predicate Run(s: Store, events: seq<Event>, t: Store)
    decreases |events|
  {
    if events == [] then s == t
    else May(s, events[0]) && Run(Next(s, events[0]), events[1..], t)
  }
}
