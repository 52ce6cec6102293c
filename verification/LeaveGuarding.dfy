/** The guard itself: its variables, and the browser's history, updated in place. */
module LeaveGuarding {
  import opened Text
  import opened LeaveGuard

  /** The browser's history: its entries, where the page stands, and the Backs it was asked for. */
  datatype Window = Window(hist: seq<Entry>, pos: nat, backs: nat)

  class Guarding {
    const here: nat
    const home: nat
    var window: Window
    var shown: bool
    var on: bool
    var effect: nat
    var asker: bool
    var listening: bool
    var releasing: bool
    var waiters: seq<Wait>
    var leaving: bool
    var pending: Option<Go>

    function State(): Guard
      reads this
    {
      Guard(window.hist, window.pos, here, home, shown, window.backs, on, effect, asker, listening, releasing, waiters, leaving, pending)
    }

    constructor (hist: seq<Entry>, pos: nat)
      requires pos < |hist| && NoGuards(hist[..pos + 1]) && (pos > 0 ==> hist[pos - 1].page != hist[pos].page)
      ensures Begins(State()) && window == Window(hist, pos, 0) && home == pos
    {
      here, home, window := hist[pos].page, pos, Window(hist, pos, 0);
      shown, on, effect, asker, listening := true, false, 0, false, false;
      releasing, waiters, leaving, pending := false, [], false, None;
    }

    method PushState(e: Entry)
      requires window.pos < |window.hist|
      modifies this`window
      ensures State() == Push(old(State()), e)
    {
      window := window.(hist := window.hist[..window.pos + 1] + [e], pos := window.pos + 1);
    }

    method PutOn()
      requires window.pos < |window.hist|
      modifies this`window
      ensures State() == PutSentinel(old(State()))
    {
      PushState(Entry(window.hist[window.pos].page, true));
    }

    method TakeOff()
      modifies this`window, this`releasing
      ensures State() == Release(old(State()))
    {
      if releasing || !OnSentinel(State()) {
        return;
      }
      releasing := true;
      window := window.(backs := window.backs + 1);
    }

    method Disarm()
      modifies this`on, this`asker, this`listening, this`window, this`releasing
      ensures State() == Disarmed(old(State()))
    {
      on, asker, listening := false, false, false;
      TakeOff();
    }

    method Unmount()
      modifies this
      ensures State() == Unmounted(old(State()))
    {
      shown, pending := false, None;
      if on {
        Disarm();
      }
    }

    method ArmFor(number: nat)
      requires window.pos < |window.hist|
      modifies this`window, this`listening
      ensures State() == Armed(old(State()), number)
    {
      if !on || effect != number || window.hist[window.pos].page != here {
        return;
      }
      if !OnSentinel(State()) {
        PutOn();
      }
      listening := true;
    }

    method SetUp()
      requires window.pos < |window.hist|
      modifies this
      ensures State() == Dirtied(old(State()))
    {
      hide Armed;
      on, effect, asker := true, effect + 1, true;
      if releasing {
        waiters := waiters + [Arm(effect)];
      } else {
        ArmFor(effect);
      }
    }

    method Navigate(page: nat)
      requires window.pos < |window.hist|
      modifies this
      ensures State() == Navigated(old(State()), page)
    {
      PushState(Entry(page, false));
      if shown {
        Unmount();
      }
    }

    method GoOn(go: Go)
      requires window.pos < |window.hist|
      modifies this
      ensures State() == Gone(old(State()), go)
    {
      match go
      case Link(page) => Navigate(page);
      case BackAgain =>
        leaving := true;
        window := window.(backs := window.backs + 1);
    }

    /** The release done: whatever waited for it goes on, in the order it waited. */
    method Resume(waiting: seq<Wait>)
      requires window.pos < |window.hist|
      modifies this
      ensures State() == Resumed(old(State()), waiting)
    {
      hide Armed, Gone;
      for i := 0 to |waiting|
        invariant window.pos < |window.hist|
        invariant Resumed(State(), waiting[i..]) == Resumed(old(State()), waiting)
      {
        assert waiting[i..][0] == waiting[i] && waiting[i..][1..] == waiting[i + 1..];
        if waiting[i].Arm? {
          ArmFor(waiting[i].effect);
        } else {
          GoOn(waiting[i].go);
        }
      }
      assert waiting[|waiting|..] == [];
    }

    /** A Back made: the guard's listener, the release's, and the page it shows. */
    method Popped()
      requires window.backs > 0 && window.pos < |window.hist|
      modifies this
      ensures State() == Traversed(old(State()))
    {
      hide Resumed, Unmounted;
      window := window.(backs := window.backs - 1);
      if window.pos == 0 {
        return;
      }
      window := window.(pos := window.pos - 1);
      HearPop();
      HearOff();
      if shown && window.hist[window.pos].page != here {
        Unmount();
      }
    }

    method HearPop()
      requires window.pos < |window.hist|
      modifies this`leaving, this`window, this`pending
      ensures State() == OnPop(old(State()))
    {
      if !listening || releasing {
        return;
      }
      if leaving {
        leaving := false;
        return;
      }
      if OnSentinel(State()) {
        return;
      }
      PutOn();
      pending := Some(BackAgain);
    }

    method HearOff()
      requires window.pos < |window.hist|
      modifies this
      ensures State() == OffPop(old(State()))
    {
      hide Resumed;
      if !releasing {
        return;
      }
      var waiting := waiters;
      releasing, waiters := false, [];
      Resume(waiting);
    }

    method Click(page: nat)
      requires window.pos < |window.hist|
      modifies this
      ensures State() == Clicked(old(State()), page)
    {
      if shown && on {
        pending := Some(Link(page));
      } else {
        Navigate(page);
      }
    }

    method LeaveThen(page: nat)
      requires window.pos < |window.hist|
      modifies this
      ensures State() == LeftThen(old(State()), page)
    {
      if asker {
        pending := Some(Link(page));
      } else {
        Navigate(page);
      }
    }

    method Confirm()
      requires window.pos < |window.hist|
      modifies this
      ensures State() == Confirmed(old(State()))
    {
      hide Gone;
      if pending.None? {
        return;
      }
      var leave := pending.value;
      pending, asker := None, false;
      TakeOff();
      if releasing {
        waiters := waiters + [Leave(leave)];
      } else {
        GoOn(leave);
      }
    }

    method Stay()
      requires window.pos < |window.hist|
      modifies this`pending, this`window
      ensures State() == Stayed(old(State()))
    {
      if pending.None? {
        return;
      }
      pending := None;
      if !OnSentinel(State()) && !releasing {
        PutOn();
      }
    }
  }
}
