/**
 * The uploader itself: its fields updated in place, a method for each call and for each
 * point where one goes on after an await, each proved to be its step of the protocol.
 */
module BatchUploader {
  import opened Text
  import opened BatchUploads
  import opened BatchUploadsRuns
  import opened BatchUploadsSteps

  /** What the page shows, replaced whole by each change. */
  datatype Upload = Upload(
    chosen: seq<Chosen>, phase: Phase, batch: Option<nat>, carryOn: bool, problem: Option<Outcome>,
    stopping: bool, seen: bool, changed: nat)

  const EMPTY := Upload([], Choosing, None, false, None, false, true, 0)

  /** The calls under way, the keys minted and the requests sent, and what the vault holds. */
  datatype World = World(
    threads: seq<Thread>, minted: nat, gen: nat, requests: seq<Request>, cut: set<nat>, items: seq<Item>)

  class Uploader {
    var state: Upload
    var watching: nat
    var lastVisit: Option<string>
    var current: Option<nat>
    var busy: bool
    var stopAsked: bool
    var aborted: bool
    var world: World

    function State(): Store
      reads this
    {
      Store(state.chosen, state.phase, state.batch, state.carryOn, state.problem, state.stopping, state.seen, state.changed,
            watching, lastVisit, current, busy, stopAsked, aborted,
            world.threads, world.minted, world.gen, world.requests, world.cut, world.items)
    }

    constructor ()
      ensures State() == START && Sound(State())
    {
      state := EMPTY;
      watching, lastVisit, current := 0, None, None;
      busy, stopAsked, aborted := false, false, false;
      world := World([], 0, 0, [], {}, []);
      new;
      StartSound();
    }

    /** Every file checked as the vault would check it: refused here, or ready. */
    method ChooseFiles(files: seq<Picked>, limit: nat, already: nat)
      modifies this`state, this`world
      ensures State() == Choose(old(State()), files, limit, already)
    {
      var next, minted := state.chosen, world.minted;
      ghost var was := State();
      for i := 0 to |files|
        invariant State() == was
        invariant Choose(was.(chosen := next, minted := minted), files[i..], limit, already) == Choose(was, files, limit, already)
      {
        assert files[i..][0] == files[i] && files[i..][1..] == files[i + 1..];
        next, minted := ChooseOne(files[i], next, minted, limit, already, was, files[i..]);
      }
      assert files[|files|..] == [];
      state := state.(chosen := next);
      world := world.(minted := minted);
      assert State() == was.(chosen := next, minted := minted);
    }

    static method ChooseOne(f: Picked, next: seq<Chosen>, minted: nat, limit: nat, already: nat, ghost was: Store, ghost files: seq<Picked>)
      returns (chosen: seq<Chosen>, minted': nat)
      requires files != [] && files[0] == f
      ensures Choose(was.(chosen := chosen, minted := minted'), files[1..], limit, already)
              == Choose(was.(chosen := next, minted := minted), files, limit, already)
    {
      hide CountState;
      chosen, minted' := next, minted;
      if HasKey(next, f.key) {
        return;
      }
      var room := BATCH_MAX_FILES - already - CountState(next, {Ready, Sending, Sent, Skipped, Failed});
      var state := if !f.taken || f.size > limit || room <= 0 then Refused else Ready;
      chosen, minted' := next + [Chosen(f.key, f.content, f.size, state, minted)], minted + 1;
    }

    method TakeOne(key: string)
      modifies this`state
      ensures State() == TakeOff(old(State()), key)
    {
      if state.phase != Choosing {
        return;
      }
      state := state.(chosen := Without(state.chosen, key));
    }

    method TakeAll()
      modifies this`state
      ensures State() == TakeAllOff(old(State()))
    {
      if state.phase != Choosing {
        return;
      }
      state := state.(chosen := []);
    }

    method StartAfresh()
      modifies this`state, this`world
      ensures State() == Reset(old(State()))
    {
      if state.phase == Making || state.phase == InBatch || busy {
        return;
      }
      state := EMPTY.(changed := state.changed);
      world := world.(gen := world.gen + 1);
    }

    method PageOpened(visit: string)
      modifies this`state, this`world, this`lastVisit, this`watching
      ensures State() == Opened(old(State()), visit)
    {
      hide Running, Reset;
      if lastVisit != Some(visit) {
        Visit(visit);
      }
      watching := watching + 1;
    }

    /** A new visit: an upload on its way is shown as it is; one nobody saw finish, once; else the page starts afresh. */
    method Visit(visit: string)
      modifies this`state, this`world, this`lastVisit
      ensures var v := old(State()).(lastVisit := Some(visit));
        State() == if Running(v) then v
                   else if (v.phase == Stopped || v.phase == Done) && !v.seen then v.(seen := true)
                   else Reset(v)
    {
      hide Running, Reset;
      lastVisit := Some(visit);
      if Running(State()) {
        return;
      }
      if (state.phase == Stopped || state.phase == Done) && !state.seen {
        state := state.(seen := true);
      } else {
        StartAfresh();
      }
    }

    method AskStop()
      modifies this`state, this`stopAsked
      ensures State() == Stop(old(State()))
    {
      if state.phase != Making && state.phase != InBatch {
        return;
      }
      stopAsked := true;
      state := state.(stopping := true);
    }

    method ForgetAll()
      modifies this
      ensures State() == Forget(old(State()))
    {
      aborted := false;
      stopAsked := false;
      current := None;
      state := EMPTY.(changed := state.changed + 1);
      world := world.(gen := world.gen + 1);
    }

    method AbortAll()
      modifies this
      ensures State() == Abort(old(State()))
    {
      aborted := true;
      stopAsked := true;
      if current.Some? {
        world := world.(cut := world.cut + {current.value});
      }
      if !busy {
        ForgetAll();
      }
    }

    method WaitAt(i: nat, t: Thread)
      requires i < |world.threads|
      modifies this`world
      ensures State() == SetThread(old(State()), i, t)
    {
      world := world.(threads := world.threads[i := t]);
    }

    /** The end of the run's loop. */
    method AfterLoop(i: nat, stoppedBy: Option<Outcome>)
      requires i < |world.threads|
      modifies this
      ensures State() == EndRun(old(State()), i, stoppedBy)
    {
      hide CountState;
      if aborted {
        ForgetAll();
      } else {
        var stopped := stopAsked || stoppedBy.Some? || CountState(state.chosen, {Ready, Failed}) > 0;
        state := state.(phase := if stopped then Stopped else Done, problem := stoppedBy, stopping := false,
                        seen := watching > 0, changed := state.changed + 1);
        stopAsked := false;
      }
      WaitAt(i, Returning);
    }

    method Mark(i: nat, l: Loop)
      requires i < |world.threads| && l.at < |l.todo|
      modifies this
      ensures State() == MarkSending(old(State()), i, l)
    {
      hide EndRun, Update;
      if stopAsked || aborted {
        AfterLoop(i, None);
        return;
      }
      Put(l.todo[l.at].key, Sending);
      WaitAt(i, AwaitingToken(l));
    }

    method Put(key: string, now: FileState)
      modifies this`state
      ensures State() == old(State()).(chosen := Update(old(State()).chosen, key, now))
    {
      state := state.(chosen := Update(state.chosen, key, now));
    }

    method NextFile(i: nat, l: Loop)
      requires i < |world.threads| && l.at <= |l.todo|
      modifies this
      ensures State() == LoopHead(old(State()), i, l)
      ensures |old(world.threads)| == 1 && old(current).None? ==> AtHead(old(State()), old(State()).chosen, State(), l)
    {
      hide EndRun, MarkSending, AtHead;
      if |world.threads| == 1 && current.None? {
        HeadIs(State(), l);
      }
      if l.at == |l.todo| || stopAsked || aborted {
        AfterLoop(i, None);
      } else if AnySize(l.there, l.todo[l.at].size) {
        WaitAt(i, Hashing(l));
      } else {
        Mark(i, l);
      }
    }

    method RunFiles(i: nat, target: nat, there: seq<Item>)
      requires i < |world.threads|
      modifies this
      ensures State() == BeginRun(old(State()), i, target, there)
    {
      hide LoopHead, WaitingOf;
      if aborted {
        ForgetAll();
        WaitAt(i, Returning);
        return;
      }
      stopAsked := false;
      var todo := WaitingOf(state.chosen);
      state := state.(phase := InBatch, stopping := false, problem := None);
      NextFile(i, Loop(target, there, todo, 0));
    }

    method MakeBatch()
      modifies this
      ensures State() == StartMake(old(State()))
    {
      if busy || state.phase != Choosing {
        return;
      }
      busy := true;
      state := state.(phase := Making, problem := None);
      world := world.(threads := world.threads + [MakingBatch]);
    }

    method CarryOn(target: nat, there: seq<Item>)
      modifies this
      ensures State() == StartCarry(old(State()), target, there)
    {
      hide BeginRun;
      if busy || state.phase != Choosing {
        return;
      }
      busy := true;
      world := world.(threads := world.threads + [MakingBatch]);
      state := state.(batch := Some(target), carryOn := true, problem := None);
      RunFiles(|world.threads| - 1, target, there);
    }

    method AskWhatArrived()
      modifies this
      ensures State() == SendRest(old(State()))
    {
      var target := state.batch;
      if busy || state.phase == Making || state.phase == InBatch || target.None? {
        return;
      }
      busy := true;
      state := state.(phase := InBatch, problem := None);
      world := world.(threads := world.threads + [AskingBatch(target.value)]);
    }

    method Return(i: nat)
      requires i < |world.threads|
      modifies this
      ensures State() == Finish(old(State()), i)
    {
      busy := false;
      world := world.(threads := world.threads[..i] + world.threads[i + 1..]);
      if aborted {
        ForgetAll();
      }
    }

    method Answer(i: nat, made: MakeAnswer)
      requires i < |world.threads|
      modifies this
      ensures State() == BatchMade(old(State()), i, made)
    {
      hide Finish, BeginRun, Forget;
      if made == MakeFailed {
        state := state.(phase := Choosing, problem := Some(OAgain));
        Return(i);
      } else if aborted {
        Leave(i);
      } else if made == NotSignedIn {
        state := state.(phase := Choosing);
        Return(i);
      } else {
        state := state.(batch := Some(made.batch), carryOn := false);
        RunFiles(i, made.batch, []);
      }
    }

    /** Stopped for a change of person while the batch was made. */
    method Leave(i: nat)
      requires i < |world.threads|
      modifies this
      ensures State() == Finish(Forget(old(State())), i)
    {
      ForgetAll();
      Return(i);
    }

    method HashKnown(i: nat, hash: Option<int>)
      requires i < |world.threads| && world.threads[i].Hashing? && world.threads[i].loop.at < |world.threads[i].loop.todo|
      modifies this
      ensures State() == Hashed(old(State()), i, hash)
    {
      hide LoopHead, MarkSending, Update;
      var l := world.threads[i].loop;
      if hash.Some? && AnyContent(l.there, hash.value) {
        Put(l.todo[l.at].key, Skipped);
        NextFile(i, l.(at := l.at + 1));
        return;
      }
      Mark(i, l);
    }

    method Settle(l: Loop, now: FileState)
      requires l.at < |l.todo|
      modifies this`state, this`current
      ensures State() == Settled(old(State()), l, now)
    {
      current := None;
      Put(l.todo[l.at].key, now);
    }

    /** The sending thrown out, as its error says: `ThrewIs` says what that is. */
    method Caught(i: nat, l: Loop, e: Error)
      requires i < |world.threads| && l.at < |l.todo|
      modifies this
      ensures State() == SendFailed(old(State()), i, l, e)
    {
      hide EndRun, LoopHead, RefuseWaiting, Update;
      var out := OutcomeOf(e);
      if out == OStopped {
        Settle(l, Ready);
        AfterLoop(i, None);
      } else if out == OAgain {
        Settle(l, Failed);
        AfterLoop(i, Some(OAgain));
      } else {
        Settle(l, Refused);
        if out == OBatch {
          state := state.(chosen := RefuseWaiting(state.chosen));
          AfterLoop(i, Some(OBatch));
        } else {
          NextFile(i, l.(at := l.at + 1));
        }
      }
    }

    method NoItem(i: nat, l: Loop)
      requires i < |world.threads| && l.at < |l.todo|
      modifies this
      ensures State() == SendNowhere(old(State()), i, l)
    {
      hide EndRun, Settled;
      Settle(l, Ready);
      AfterLoop(i, None);
    }

    method TokenCame(i: nat, answer: TokenAnswer)
      requires i < |world.threads| && world.threads[i].AwaitingToken? && world.threads[i].loop.at < |world.threads[i].loop.todo|
      modifies this
      ensures State() == GotToken(old(State()), i, answer)
    {
      hide SendNowhere, SendFailed;
      var l := world.threads[i].loop;
      if answer.NoToken? {
        NoItem(i, l);
      } else if answer.TokenFailed? {
        Caught(i, l, answer.error);
      } else {
        var c := l.todo[l.at];
        current := Some(|world.requests|);
        world := world.(threads := world.threads[i := AwaitingAnswer(l, |world.requests|)],
                        requests := world.requests + [Request(l.batch, c.idem, c.content, c.size, world.gen, c.key)]);
      }
    }

    method AnswerCame(i: nat, answer: SendAnswer)
      requires i < |world.threads| && world.threads[i].AwaitingAnswer? && world.threads[i].loop.at < |world.threads[i].loop.todo|
      modifies this
      ensures State() == Answered(old(State()), i, answer)
    {
      hide SendNowhere, SendFailed, LoopHead, Settled;
      var l := world.threads[i].loop;
      if answer.SessionOver? {
        NoItem(i, l);
      } else if answer.Fails? {
        Caught(i, l, answer.error);
      } else {
        Settle(l, Sent);
        NextFile(i, l.(at := l.at + 1));
      }
    }
  }
}
