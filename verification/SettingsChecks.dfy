/**
 * Questions an owner asks the worker (apps/api/src/settings-checks.ts), and their answers
 * (apps/worker/src/jobs/settings-check.ts): rows of one table, one transaction at a time,
 * on one clock in milliseconds.
 */
module SettingsChecks {
  import opened Text

  const SETTINGS_CHECKS_PER_MINUTE := 20
  const SETTINGS_CHECK_LATE_MS := 60000
  const SETTINGS_CHECK_KEEP_MS := 24 * 60 * 60000
  const LOCAL_AI_TEST_HOLD_MS := 60000
  const MAILBOX_TEST_HOLD_MS := 30000
  const MINUTE := 60000

  datatype Kind = Folder | Browse | Mailbox | LocalAi

  /** `result` is what the worker wrote, and when: both or neither. */
  datatype Row = Row(id: nat, household: nat, kind: Kind, at: int, result: Option<string>)

  datatype Error = Forbidden | NotFound | TooMany | UnderWay(kind: Kind)

  datatype Answer<T> = Ok(value: T) | Err(error: Error)

  datatype State = Waiting | Late | Done(result: string)

  datatype View = View(id: nat, kind: Kind, at: int, state: State)

  function ViewOf(row: Row, now: int): View {
    View(row.id, row.kind, row.at,
         if row.result.Some? then Done(row.result.value)
         else if now - row.at > SETTINGS_CHECK_LATE_MS then Late
         else Waiting)
  }

  /** The rows there are, every question ever asked, and how many. */
  datatype Table = Table(rows: seq<Row>, asked: seq<Row>)

  predicate Recent(r: Row, household: nat, since: int) {
    r.household == household && r.at > since
  }

  function CountRecent(rows: seq<Row>, household: nat, since: int): nat {
    if rows == [] then 0
    else CountRecent(rows[..|rows| - 1], household, since) + (if Recent(rows[|rows| - 1], household, since) then 1 else 0)
  }

  function Hold(kind: Kind): int {
    if kind == Mailbox then MAILBOX_TEST_HOLD_MS else LOCAL_AI_TEST_HOLD_MS
  }

  predicate IsTest(kind: Kind) {
    kind == Mailbox || kind == LocalAi
  }

  predicate Holds(r: Row, household: nat, kind: Kind, now: int) {
    r.household == household && r.kind == kind && r.result.None? && r.at > now - Hold(kind)
  }

  predicate Running(rows: seq<Row>, household: nat, kind: Kind, now: int) {
    exists r :: r in rows && Holds(r, household, kind, now)
  }

  function Refusal(t: Table, owner: bool, household: nat, kind: Kind, now: int): Option<Error> {
    if !owner then Some(Forbidden)
    else if CountRecent(t.rows, household, now - MINUTE) >= SETTINGS_CHECKS_PER_MINUTE then Some(TooMany)
    else if IsTest(kind) && Running(t.rows, household, kind, now) then Some(UnderWay(kind))
    else None
  }

  function Asked(t: Table, owner: bool, household: nat, kind: Kind, now: int): Table {
    if Refusal(t, owner, household, kind, now).Some? then t
    else
      var row := Row(|t.asked|, household, kind, now, None);
      Table(t.rows + [row], t.asked + [row])
  }

  /** Answered once: a row answered already, or gone, is left as it is; and rows older than a day are cleared away. */
  function Answered(rows: seq<Row>, id: nat, result: string): (r: seq<Row>)
    ensures |r| == |rows|
    ensures forall i :: 0 <= i < |r| ==>
      r[i] == if rows[i].id == id && rows[i].result.None? then rows[i].(result := Some(result)) else rows[i]
  {
    if rows == [] then []
    else [if rows[0].id == id && rows[0].result.None? then rows[0].(result := Some(result)) else rows[0]]
         + Answered(rows[1..], id, result)
  }

  function Cleared(rows: seq<Row>, before: int): seq<Row> {
    if rows == [] then []
    else Cleared(rows[..|rows| - 1], before) + (if rows[|rows| - 1].at < before then [] else [rows[|rows| - 1]])
  }

  function Found(t: Table, id: nat, result: string, now: int): Table {
    t.(rows := Cleared(Answered(t.rows, id, result), now - SETTINGS_CHECK_KEEP_MS))
  }

  datatype Event =
    | EAsk(owner: bool, household: nat, kind: Kind, now: int)
    | EFound(id: nat, result: string, now: int)

  function Next(t: Table, e: Event): Table {
    match e
    case EAsk(owner, household, kind, now) => Asked(t, owner, household, kind, now)
    case EFound(id, result, now) => Found(t, id, result, now)
  }

  function After(events: seq<Event>): Table {
    if events == [] then Table([], []) else Next(After(events[..|events| - 1]), events[|events| - 1])
  }

  /** One clock: no event is before the one before it. */
  predicate OneClock(events: seq<Event>) {
    forall i, j :: 0 <= i < j < |events| ==> events[i].now <= events[j].now
  }

  function Clock(events: seq<Event>): int {
    if events == [] then 0 else events[|events| - 1].now
  }

  // ------------------------------------------------------------- what is kept

  predicate InOrder(rows: seq<Row>) {
    forall i, j :: 0 <= i < j < |rows| ==> rows[i].at <= rows[j].at && rows[i].id < rows[j].id
  }

  predicate BothWait(a: Row, b: Row) {
    IsTest(a.kind) && a.kind == b.kind && a.household == b.household && a.result.None? && b.result.None?
  }

  /** Unanswered tests of one kind are never closer than its hold. */
  predicate HeldApart(rows: seq<Row>) {
    forall i, j :: 0 <= i < j < |rows| && BothWait(rows[i], rows[j]) ==> rows[j].at - rows[i].at >= Hold(rows[i].kind)
  }

  /** What was asked within a day is there still. */
  ghost predicate DayKept(t: Table, now: int) {
    forall household: nat, since: int :: since >= now - SETTINGS_CHECK_KEEP_MS ==>
      CountRecent(t.rows, household, since) == CountRecent(t.asked, household, since)
  }

  predicate NotAhead(rows: seq<Row>, now: int, ids: nat) {
    forall r :: r in rows ==> r.at <= now && r.id < ids
  }

  /** As each was asked, it and those of the minute before it were few enough. */
  ghost predicate FewEnough(asked: seq<Row>) {
    forall i :: 0 <= i < |asked| ==>
      CountRecent(asked[..i + 1], asked[i].household, asked[i].at - MINUTE) <= SETTINGS_CHECKS_PER_MINUTE
  }

  ghost predicate Sound(t: Table, now: int) {
    && InOrder(t.rows) && HeldApart(t.rows) && NotAhead(t.rows, now, |t.asked|)
    && InOrder(t.asked) && NotAhead(t.asked, now, |t.asked|)
    && DayKept(t, now) && FewEnough(t.asked)
  }

  lemma CountOneMore(rows: seq<Row>, r: Row, household: nat, since: int)
    ensures CountRecent(rows + [r], household, since) ==
            CountRecent(rows, household, since) + (if Recent(r, household, since) then 1 else 0)
  {
    assert (rows + [r])[..|rows|] == rows;
  }

  lemma KeptOneMore(t: Table, now: int, was: int, row: Row)
    requires DayKept(t, was) && was <= now
    ensures DayKept(Table(t.rows + [row], t.asked + [row]), now)
  {
    var u := Table(t.rows + [row], t.asked + [row]);
    forall h: nat, since: int | since >= now - SETTINGS_CHECK_KEEP_MS
      ensures CountRecent(u.rows, h, since) == CountRecent(u.asked, h, since)
    {
      CountOneMore(t.rows, row, h, since);
      CountOneMore(t.asked, row, h, since);
    }
  }

  lemma FewOneMore(t: Table, was: int, row: Row)
    requires DayKept(t, was) && was <= row.at && FewEnough(t.asked)
    requires CountRecent(t.rows, row.household, row.at - MINUTE) < SETTINGS_CHECKS_PER_MINUTE
    ensures FewEnough(t.asked + [row])
  {
    hide CountRecent, Recent;
    CountOneMore(t.asked, row, row.household, row.at - MINUTE);
    var u := t.asked + [row];
    forall i | 0 <= i < |u|
      ensures CountRecent(u[..i + 1], u[i].household, u[i].at - MINUTE) <= SETTINGS_CHECKS_PER_MINUTE
    {
      if i < |t.asked| {
        assert u[..i + 1] == t.asked[..i + 1];
      } else {
        assert u[..i + 1] == t.asked + [row];
      }
    }
  }

  lemma ApartOneMore(rows: seq<Row>, row: Row)
    requires HeldApart(rows) && !(IsTest(row.kind) && Running(rows, row.household, row.kind, row.at))
    requires forall r :: r in rows ==> r.at <= row.at
    ensures HeldApart(rows + [row])
  {
    var u := rows + [row];
    forall i, j | 0 <= i < j < |u| && BothWait(u[i], u[j])
      ensures u[j].at - u[i].at >= Hold(u[i].kind)
    {
      if j == |rows| {
        assert u[i] in rows && !Holds(u[i], row.household, row.kind, row.at);
      }
    }
  }

  lemma AskedSound(t: Table, was: int, owner: bool, household: nat, kind: Kind, now: int)
    requires Sound(t, was) && was <= now
    ensures Sound(Asked(t, owner, household, kind, now), now)
  {
    hide CountRecent, HeldApart, FewEnough, Running, DayKept;
    if Refusal(t, owner, household, kind, now).Some? {
      KeptLater(t, was, now);
    } else {
      var row := Row(|t.asked|, household, kind, now, None);
      KeptOneMore(t, now, was, row);
      FewOneMore(t, was, row);
      ApartOneMore(t.rows, row);
    }
  }

  lemma KeptLater(t: Table, was: int, now: int)
    requires DayKept(t, was) && was <= now
    ensures DayKept(t, now)
  {
  }

  lemma {:induction false} AnsweredCounts(rows: seq<Row>, id: nat, result: string, household: nat, since: int)
    ensures CountRecent(Answered(rows, id, result), household, since) == CountRecent(rows, household, since)
    decreases |rows|
  {
    if rows != [] {
      var r := Answered(rows, id, result);
      AnsweredCounts(rows[..|rows| - 1], id, result, household, since);
      assert r[..|r| - 1] == Answered(rows[..|rows| - 1], id, result);
    }
  }

  lemma {:induction false} ClearedKeeps(rows: seq<Row>, before: int)
    requires InOrder(rows) && HeldApart(rows)
    ensures InOrder(Cleared(rows, before)) && HeldApart(Cleared(rows, before))
    ensures forall r :: r in Cleared(rows, before) <==> r in rows && r.at >= before
    ensures forall household: nat, since: int :: since >= before ==>
      CountRecent(Cleared(rows, before), household, since) == CountRecent(rows, household, since)
    decreases |rows|
  {
    hide CountRecent, HeldApart, InOrder, BothWait;
    if rows == [] {
      NothingCleared(before);
    } else {
      var rest, last := rows[..|rows| - 1], rows[|rows| - 1];
      assert rows == rest + [last];
      OrderBefore(rest, last);
      ClearedKeeps(rest, before);
      var r := Cleared(rest, before);
      assert Cleared(rows, before) == if last.at < before then r else r + [last];
      hide Cleared;
      assert forall x :: x in rows <==> x in rest || x == last;
      ClearedOneMore(rest, r, last);
      forall household: nat, since: int | since >= before
        ensures CountRecent(Cleared(rows, before), household, since) == CountRecent(rows, household, since)
      {
        CountOneMore(rest, last, household, since);
        CountOneMore(r, last, household, since);
      }
    }
  }

  lemma NothingCleared(before: int)
    ensures Cleared([], before) == [] && InOrder([]) && HeldApart([])
  {
  }

  lemma OrderBefore(rest: seq<Row>, last: Row)
    requires InOrder(rest + [last]) && HeldApart(rest + [last])
    ensures InOrder(rest) && HeldApart(rest)
  {
    var rows := rest + [last];
    assert forall i :: 0 <= i < |rest| ==> rows[i] == rest[i];
  }

  /** The last of rows in order is after any of them that are left. */
  lemma ClearedOneMore(rest: seq<Row>, left: seq<Row>, last: Row)
    requires InOrder(rest + [last]) && HeldApart(rest + [last]) && InOrder(left) && HeldApart(left) && forall r :: r in left ==> r in rest
    ensures InOrder(left + [last]) && HeldApart(left + [last])
  {
    var rows, u := rest + [last], left + [last];
    forall i | 0 <= i < |left|
      ensures left[i].at <= last.at && left[i].id < last.id && (BothWait(left[i], last) ==> last.at - left[i].at >= Hold(left[i].kind))
    {
      assert left[i] in rest;
      var j :| 0 <= j < |rest| && rest[j] == left[i];
      assert rows[j] == left[i] && rows[|rest|] == last;
    }
  }

  lemma AnsweredKeeps(rows: seq<Row>, id: nat, result: string)
    requires InOrder(rows) && HeldApart(rows)
    ensures InOrder(Answered(rows, id, result)) && HeldApart(Answered(rows, id, result))
  {
    var r := Answered(rows, id, result);
    forall i, j | 0 <= i < j < |r| && BothWait(r[i], r[j])
      ensures BothWait(rows[i], rows[j]) && r[j].at - r[i].at >= Hold(r[i].kind)
    {
      assert rows[i] == r[i] && rows[j] == r[j];
    }
  }

  lemma FoundSound(t: Table, was: int, id: nat, result: string, now: int)
    requires Sound(t, was) && was <= now
    ensures Sound(Found(t, id, result, now), now)
  {
    hide InOrder, HeldApart, CountRecent, Cleared, FewEnough;
    var answered := Answered(t.rows, id, result);
    var before := now - SETTINGS_CHECK_KEEP_MS;
    AnsweredKeeps(t.rows, id, result);
    ClearedKeeps(answered, before);
    var u := Found(t, id, result, now);
    forall r | r in u.rows
      ensures r.at <= now && r.id < |u.asked|
    {
      var x := FoundIsRow(t, id, result, now, r);
    }
    forall h: nat, since: int | since >= before
      ensures CountRecent(u.rows, h, since) == CountRecent(u.asked, h, since)
    {
      AnsweredCounts(t.rows, id, result, h, since);
    }
  }

  lemma {:induction false} RunSound(events: seq<Event>)
    requires OneClock(events) && events != []
    ensures Sound(After(events), Clock(events))
    decreases |events|
  {
    var before, e := events[..|events| - 1], events[|events| - 1];
    hide Sound, Asked, Found;
    if before == [] {
      assert Sound(Table([], []), e.now) by {
        NoneYet(e.now);
      }
    } else {
      RunSound(before);
    }
    var was := if before == [] then e.now else Clock(before);
    match e
    case EAsk(owner, household, kind, now) => AskedSound(After(before), was, owner, household, kind, now);
    case EFound(id, result, now) => FoundSound(After(before), was, id, result, now);
  }

  lemma NoneYet(now: int)
    ensures Sound(Table([], []), now)
  {
  }

  // ------------------------------------------------------------- what is promised

  lemma {:induction false} CountInWindow(asked: seq<Row>, household: nat, since: int, upTo: int)
    requires InOrder(asked) && FewEnough(asked) && upTo - since <= MINUTE
    ensures CountRecent(Upto(asked, upTo), household, since) <= SETTINGS_CHECKS_PER_MINUTE
    decreases |asked|
  {
    hide FewEnough;
    if asked != [] {
      var rest, last := asked[..|asked| - 1], asked[|asked| - 1];
      if last.at > upTo || !Recent(last, household, since) {
        FewBefore(asked);
        CountInWindow(rest, household, since, upTo);
        CountOneMore(Upto(rest, upTo), last, household, since);
        assert Upto(asked, upTo) == if last.at <= upTo then Upto(rest, upTo) + [last] else Upto(rest, upTo);
      } else {
        UptoAll(asked, upTo);
        FewAtLast(asked);
        FewerLater(asked, household, last.at - MINUTE, since);
      }
    }
  }

  lemma FewBefore(asked: seq<Row>)
    requires FewEnough(asked) && asked != []
    ensures FewEnough(asked[..|asked| - 1])
  {
    var rest := asked[..|asked| - 1];
    forall i | 0 <= i < |rest|
      ensures CountRecent(rest[..i + 1], rest[i].household, rest[i].at - MINUTE) <= SETTINGS_CHECKS_PER_MINUTE
    {
      assert rest[..i + 1] == asked[..i + 1];
    }
  }

  lemma FewAtLast(asked: seq<Row>)
    requires FewEnough(asked) && asked != []
    ensures var last := asked[|asked| - 1];
      CountRecent(asked, last.household, last.at - MINUTE) <= SETTINGS_CHECKS_PER_MINUTE
  {
    assert asked[..|asked| - 1 + 1] == asked;
  }

  /** Those asked no later than `upTo`. */
  function Upto(asked: seq<Row>, upTo: int): seq<Row> {
    if asked == [] then []
    else Upto(asked[..|asked| - 1], upTo) + (if asked[|asked| - 1].at <= upTo then [asked[|asked| - 1]] else [])
  }

  lemma {:induction false} UptoAll(asked: seq<Row>, upTo: int)
    requires forall r :: r in asked ==> r.at <= upTo
    ensures Upto(asked, upTo) == asked
    decreases |asked|
  {
    if asked != [] {
      UptoAll(asked[..|asked| - 1], upTo);
    }
  }

  lemma {:induction false} FewerLater(rows: seq<Row>, household: nat, since: int, later: int)
    requires since <= later
    ensures CountRecent(rows, household, later) <= CountRecent(rows, household, since)
    decreases |rows|
  {
    if rows != [] {
      FewerLater(rows[..|rows| - 1], household, since, later);
    }
  }

  /**
   * In every minute, wherever it begins, a household asks no more than it may; and two tests
   * of one kind that are both unanswered were asked no closer than the hold.
   */
  lemma NeverTooMany(events: seq<Event>, household: nat, since: int)
    requires OneClock(events) && events != []
    ensures CountRecent(Upto(After(events).asked, since + MINUTE), household, since) <= SETTINGS_CHECKS_PER_MINUTE
    ensures HeldApart(After(events).rows)
  {
    RunSound(events);
    CountInWindow(After(events).asked, household, since, since + MINUTE);
  }

  // ------------------------------------------------------------- what is asked, against all that ever was

  /** Answered, by an event since it was asked. */
  predicate AnsweredIn(events: seq<Event>, id: nat) {
    exists j :: 0 <= j < |events| && events[j].EFound? && events[j].id == id && id < |After(events[..j]).asked|
  }

  /** The rows are what was asked within a day at least, each answered if it was; and nothing else. */
  ghost predicate TellsOf(t: Table, events: seq<Event>, now: int) {
    && (forall i :: 0 <= i < |t.asked| ==> t.asked[i].id == i && t.asked[i].result.None?)
    && (forall r :: r in t.rows ==> r.(result := None) in t.asked && (r.result.Some? <==> AnsweredIn(events, r.id)))
    && (forall a :: a in t.asked && a.at >= now - SETTINGS_CHECK_KEEP_MS ==> exists r :: r in t.rows && r.(result := None) == a)
  }

  lemma AnsweredMore(events: seq<Event>, e: Event, id: nat)
    ensures AnsweredIn(events + [e], id) <==> AnsweredIn(events, id) || (e.EFound? && e.id == id && id < |After(events).asked|)
  {
    var more := events + [e];
    var n := |events|;
    assert more[..n] == events && more[n] == e;
    assert forall j :: 0 <= j < n ==> more[j] == events[j] && more[..j] == events[..j];
  }

  lemma AskedTells(events: seq<Event>, e: Event, was: int)
    requires e.EAsk? && TellsOf(After(events), events, was) && was <= e.now && NotAhead(After(events).rows, was, |After(events).asked|)
    requires !AnsweredIn(events, |After(events).asked|)
    ensures TellsOf(Next(After(events), e), events + [e], e.now)
  {
    hide Refusal, After;
    var t, u := After(events), Next(After(events), e);
    assert t.rows <= u.rows && t.asked <= u.asked;
    forall r | r in u.rows
      ensures r.(result := None) in u.asked && (r.result.Some? <==> AnsweredIn(events + [e], r.id))
    {
      AnsweredMore(events, e, r.id);
      if r !in t.rows {
        assert u.asked[|t.asked|] == r;
      }
    }
    forall a | a in u.asked && a.at >= e.now - SETTINGS_CHECK_KEEP_MS
      ensures exists r :: r in u.rows && r.(result := None) == a
    {
      if a in t.asked {
        var r :| r in t.rows && r.(result := None) == a;
        assert r in u.rows;
      } else {
        assert u.rows[|t.rows|] == a;
      }
    }
  }

  /** A row after an answer is one before it, answered if it was this one's. */
  lemma FoundRow(t: Table, e: Event, r: Row) returns (before: Row)
    requires e.EFound? && InOrder(t.rows) && HeldApart(t.rows) && r in Next(t, e).rows
    ensures before in t.rows && r.(result := None) == before.(result := None)
    ensures r.result.Some? <==> before.result.Some? || before.id == e.id
  {
    hide InOrder, HeldApart, Answered;
    LeftOfFound(t, e);
    var answered := Answered(t.rows, e.id, e.result);
    var i :| 0 <= i < |answered| && answered[i] == r;
    before := t.rows[i];
  }

  lemma LeftOfFound(t: Table, e: Event)
    requires e.EFound? && InOrder(t.rows) && HeldApart(t.rows)
    ensures forall r :: r in Next(t, e).rows <==> r in Answered(t.rows, e.id, e.result) && r.at >= e.now - SETTINGS_CHECK_KEEP_MS
  {
    hide InOrder, HeldApart, Cleared, Answered, CountRecent;
    AnsweredKeeps(t.rows, e.id, e.result);
    ClearedKeeps(Answered(t.rows, e.id, e.result), e.now - SETTINGS_CHECK_KEEP_MS);
  }

  /** And one before it, not yet a day old, is there still. */
  lemma FoundStays(t: Table, e: Event, before: Row) returns (r: Row)
    requires e.EFound? && InOrder(t.rows) && HeldApart(t.rows) && before in t.rows && before.at >= e.now - SETTINGS_CHECK_KEEP_MS
    ensures r in Next(t, e).rows && r.(result := None) == before.(result := None)
  {
    hide InOrder, HeldApart, Answered, Next;
    LeftOfFound(t, e);
    var answered := Answered(t.rows, e.id, e.result);
    var i :| 0 <= i < |t.rows| && t.rows[i] == before;
    r := answered[i];
    assert r in answered;
  }

  lemma FoundTells(events: seq<Event>, e: Event, was: int)
    requires e.EFound? && TellsOf(After(events), events, was) && was <= e.now
    requires InOrder(After(events).rows) && HeldApart(After(events).rows) && NotAhead(After(events).rows, was, |After(events).asked|)
    ensures TellsOf(Next(After(events), e), events + [e], e.now)
  {
    hide After, InOrder, HeldApart, Found, AnsweredIn;
    var t, u := After(events), Next(After(events), e);
    assert u.asked == t.asked by {
      FoundAsked(t, e);
    }
    forall r | r in u.rows
      ensures r.(result := None) in u.asked && (r.result.Some? <==> AnsweredIn(events + [e], r.id))
    {
      AnsweredMore(events, e, r.id);
      var before := FoundRow(t, e, r);
      assert before.(result := None) in t.asked && r.id == before.id;
    }
    forall a | a in u.asked && a.at >= e.now - SETTINGS_CHECK_KEEP_MS
      ensures exists r :: r in u.rows && r.(result := None) == a
    {
      var before :| before in t.rows && before.(result := None) == a;
      var r := FoundStays(t, e, before);
    }
  }

  lemma FoundAsked(t: Table, e: Event)
    requires e.EFound?
    ensures Next(t, e).asked == t.asked
  {
  }

  lemma {:induction false} NotAnsweredYet(events: seq<Event>, id: nat)
    requires OneClock(events) && id >= |After(events).asked|
    ensures !AnsweredIn(events, id)
    decreases |events|
  {
    if events != [] {
      var before, e := events[..|events| - 1], events[|events| - 1];
      assert events == before + [e];
      AnsweredMore(before, e, id);
      hide Refusal, Found, AnsweredIn;
      assert |After(before).asked| <= |After(events).asked|;
      NotAnsweredYet(before, id);
    }
  }

  lemma {:induction false} RunTells(events: seq<Event>)
    requires OneClock(events) && events != []
    ensures TellsOf(After(events), events, Clock(events))
    decreases |events|
  {
    var before, e := events[..|events| - 1], events[|events| - 1];
    assert events == before + [e];
    if before == [] {
      FirstTells(e);
    } else {
      RunTells(before);
      RunSound(before);
      NotAnsweredYet(before, |After(before).asked|);
      assert Clock(before) <= e.now;
      hide TellsOf, Next, AnsweredIn, DayKept, FewEnough, CountRecent, InOrder, HeldApart, NotAhead;
      if e.EAsk? {
        AskedTells(before, e, Clock(before));
      } else {
        FoundTells(before, e, Clock(before));
      }
    }
  }

  lemma FirstTells(e: Event)
    ensures TellsOf(After([e]), [e], e.now)
  {
    assert [e][..0] == [];
    var none: seq<Event> := [];
    assert After(none) == Table([], []);
    assert [] + [e] == [e];
    if e.EAsk? {
      NoneYet(e.now);
      AskedTells(none, e, e.now);
    } else {
      NoneYet(e.now);
      FoundTells(none, e, e.now);
    }
  }

  /** Those of a household asked since then, of all ever asked. */
  function AskedSince(asked: seq<Row>, household: nat, since: int): set<nat> {
    set i: nat | i < |asked| && asked[i].household == household && asked[i].at > since
  }

  lemma {:induction false} CountIs(asked: seq<Row>, household: nat, since: int)
    ensures CountRecent(asked, household, since) == |AskedSince(asked, household, since)|
    decreases |asked|
  {
    if asked == [] {
      assert AskedSince(asked, household, since) == {};
    } else {
      var n := |asked| - 1;
      var rest := asked[..n];
      CountIs(rest, household, since);
      assert forall i :: 0 <= i < n ==> rest[i] == asked[i];
      assert AskedSince(asked, household, since) == AskedSince(rest, household, since) + (if Recent(asked[n], household, since) then {n} else {});
    }
  }

  /** A test of this kind asked less than so long ago that no answer came to. */
  predicate StillOut(events: seq<Event>, household: nat, kind: Kind, now: int, hold: int) {
    exists a :: a in After(events).asked && a.household == household && a.kind == kind && !AnsweredIn(events, a.id) && now - a.at < hold
  }

  /**
   * Refused just as if nothing were ever cleared away: not an owner's; or with 20 of the
   * household's, of all ever asked, within the minute; or with a test of the mailbox asked
   * within half a minute, or of the local AI within one, that no answer came to.
   */
  lemma RefusedWhen(events: seq<Event>, owner: bool, household: nat, kind: Kind, now: int)
    requires OneClock(events) && events != [] && Clock(events) <= now
    ensures var many := |AskedSince(After(events).asked, household, now - 60000)| >= 20;
      var out := (kind == Mailbox && StillOut(events, household, kind, now, 30000)) || (kind == LocalAi && StillOut(events, household, kind, now, 60000));
      Refusal(After(events), owner, household, kind, now)
      == if !owner then Some(Forbidden) else if many then Some(TooMany) else if out then Some(UnderWay(kind)) else None
  {
    hide After, CountRecent, Sound, Running, AnsweredIn, TellsOf, AskedSince, StillOut;
    RunSound(events);
    RunTells(events);
    var t := After(events);
    CountIs(t.asked, household, now - MINUTE);
    SameCount(t, Clock(events), household, now - MINUTE);
    if IsTest(kind) {
      OutIs(t, events, Clock(events), household, kind, now);
    }
  }

  lemma OutIs(t: Table, events: seq<Event>, clock: int, household: nat, kind: Kind, now: int)
    requires t == After(events) && TellsOf(t, events, clock) && clock <= now && IsTest(kind)
    ensures Running(t.rows, household, kind, now) <==> StillOut(events, household, kind, now, if kind == Mailbox then 30000 else 60000)
  {
    RunningIs(t, events, clock, household, kind, now);
    hide After, AnsweredIn, TellsOf, Running;
  }

  /** Asked, and not refused: a row of its own, waiting, after all there were; refused, it changes nothing. */
  lemma AskAdds(t: Table, owner: bool, household: nat, kind: Kind, now: int)
    ensures var u := Next(t, EAsk(owner, household, kind, now));
      if Refusal(t, owner, household, kind, now).Some? then u == t
      else
        && |u.asked| == |t.asked| + 1 && u.asked[..|t.asked|] == t.asked && |u.rows| == |t.rows| + 1 && u.rows[..|t.rows|] == t.rows
        && u.rows[|t.rows|] == u.asked[|t.asked|] == Row(|t.asked|, household, kind, now, None)
  {
    hide Refusal;
  }

  /** An answer leaves the rows asked within a day of it, and no others: answered, if it is its own and was not; else as they were. */
  lemma FoundLeaves(t: Table, id: nat, result: string, now: int, was: int)
    requires Sound(t, was)
    ensures var u := Next(t, EFound(id, result, now));
      && u.asked == t.asked
      && (forall r :: r in u.rows ==> r.at >= now - 86400000 && exists x :: x in t.rows && r == Heard(x, id, result))
      && (forall x :: x in t.rows && x.at >= now - 86400000 ==> Heard(x, id, result) in u.rows)
  {
    hide FewEnough, DayKept, CountRecent, Cleared, Answered;
    AnsweredKeeps(t.rows, id, result);
    var answered := Answered(t.rows, id, result);
    AnsweredAre(t.rows, id, result);
    ClearedKeeps(answered, now - SETTINGS_CHECK_KEEP_MS);
    assert SETTINGS_CHECK_KEEP_MS == 86400000;
  }

  function Heard(x: Row, id: nat, result: string): Row {
    if x.id == id && x.result.None? then x.(result := Some(result)) else x
  }

  lemma AnsweredAre(rows: seq<Row>, id: nat, result: string)
    ensures forall r :: r in Answered(rows, id, result) ==> exists x :: x in rows && r == Heard(x, id, result)
    ensures forall x :: x in rows ==> Heard(x, id, result) in Answered(rows, id, result)
  {
    var answered := Answered(rows, id, result);
    forall r | r in answered
      ensures exists x :: x in rows && r == Heard(x, id, result)
    {
      var i :| 0 <= i < |answered| && answered[i] == r;
      assert rows[i] in rows;
    }
    forall x | x in rows
      ensures Heard(x, id, result) in answered
    {
      var i :| 0 <= i < |rows| && rows[i] == x;
      assert answered[i] in answered;
    }
  }

  /** What a look at a check says, over every run: done, if an answer came to it; else late, once a minute has gone by since it was asked; else waiting. */
  lemma ViewTells(events: seq<Event>, row: Row, now: int)
    requires OneClock(events) && events != [] && row in After(events).rows
    ensures var view := ViewOf(row, now);
      && Row(view.id, row.household, view.kind, view.at, None) in After(events).asked
      && (view.state.Done? <==> AnsweredIn(events, row.id))
      && (view.state.Late? <==> !AnsweredIn(events, row.id) && now - row.at > 60000)
      && (view.state.Done? ==> row.result == Some(view.state.result))
  {
    RunTells(events);
    hide After, AnsweredIn;
  }

  lemma SameCount(t: Table, clock: int, household: nat, since: int)
    requires Sound(t, clock) && since >= clock - SETTINGS_CHECK_KEEP_MS
    ensures CountRecent(t.rows, household, since) == CountRecent(t.asked, household, since)
  {
    hide CountRecent, InOrder, HeldApart, FewEnough, NotAhead;
  }

  /** A test under way among the rows is one asked within its hold that no answer came to, and the other way about. */
  lemma RunningIs(t: Table, events: seq<Event>, clock: int, household: nat, kind: Kind, now: int)
    requires TellsOf(t, events, clock) && clock <= now
    ensures !Running(t.rows, household, kind, now) <==>
      forall a :: a in t.asked && a.household == household && a.kind == kind && !AnsweredIn(events, a.id) ==> now - a.at >= Hold(kind)
  {
    hide AnsweredIn;
    if Running(t.rows, household, kind, now) {
      var r :| r in t.rows && Holds(r, household, kind, now);
      var a := r.(result := None);
      assert a in t.asked && !AnsweredIn(events, a.id) && now - a.at < Hold(kind);
    } else {
      forall a | a in t.asked && a.household == household && a.kind == kind && !AnsweredIn(events, a.id)
        ensures now - a.at >= Hold(kind)
      {
        if a.at >= clock - SETTINGS_CHECK_KEEP_MS {
          var r :| r in t.rows && r.(result := None) == a;
          assert !Holds(r, household, kind, now);
        }
      }
    }
  }

  function Rank(s: State): nat {
    match s
    case Waiting => 0
    case Late => 1
    case Done(_) => 2
  }

  lemma {:induction false} AskedGrows(events: seq<Event>, n: nat)
    requires n <= |events|
    ensures |After(events[..n]).asked| <= |After(events).asked|
    decreases |events|
  {
    if n == |events| {
      assert events[..n] == events;
    } else {
      var before := events[..|events| - 1];
      assert before[..n] == events[..n];
      AskedGrows(before, n);
      hide Refusal, Found;
    }
  }

  /** A row after an event, of an id there was before it, was there: the same but for what was found, and that once. */
  lemma RowBefore(t: Table, e: Event, now: int, later: Row) returns (before: Row)
    requires Sound(t, now) && later in Next(t, e).rows && later.id < |t.asked|
    ensures before in t.rows && before.id == later.id && later == before.(result := later.result)
    ensures before.result.Some? ==> later == before
  {
    hide FewEnough, DayKept, CountRecent, Refusal, HeldApart, InOrder, Found;
    match e
    case EAsk(owner, household, kind, at) => before := later;
    case EFound(id, result, at) => before := FoundIsRow(t, id, result, at, later);
  }

  lemma {:induction false} RowGoesOn(events: seq<Event>, n: nat, row: Row, later: Row)
    requires OneClock(events) && 0 < n <= |events|
    requires row in After(events[..n]).rows && later in After(events).rows && later.id == row.id
    ensures later == row.(result := later.result) && (row.result.Some? ==> later == row)
    decreases |events|
  {
    hide Sound, Next, After;
    RunSound(events);
    if n == |events| {
      assert events[..n] == events;
      OnlyRow(After(events), Clock(events), row, later);
    } else {
      var before := events[..|events| - 1];
      assert before[..n] == events[..n];
      RunSound(before);
      RunSound(events[..n]);
      IdsAsked(After(events[..n]), Clock(events[..n]), row);
      AskedGrows(before, n);
      AfterIs(events);
      var mid := RowBefore(After(before), events[|events| - 1], Clock(before), later);
      RowGoesOn(before, n, row, mid);
    }
  }

  lemma AfterIs(events: seq<Event>)
    requires events != []
    ensures After(events) == Next(After(events[..|events| - 1]), events[|events| - 1])
  {
    hide Next;
  }

  lemma IdsAsked(t: Table, now: int, row: Row)
    requires Sound(t, now) && row in t.rows
    ensures row.id < |t.asked|
  {
  }

  lemma OnlyRow(t: Table, now: int, a: Row, b: Row)
    requires Sound(t, now) && a in t.rows && b in t.rows && a.id == b.id
    ensures a == b
  {
    OneOfAnId(t.rows, a, b);
  }

  /**
   * Looked at twice, whatever happened between: a check has only gone on, from waiting, to
   * late, to done; and what was found of it stays.
   */
  lemma ViewOnlyGoesOn(events: seq<Event>, n: nat, row: Row, now: int, later: Row, at: int)
    requires OneClock(events) && 0 < n <= |events| && now <= at
    requires row in After(events[..n]).rows && later in After(events).rows && later.id == row.id
    ensures ViewOf(later, at) == ViewOf(row, now).(state := ViewOf(later, at).state)
    ensures Rank(ViewOf(later, at).state) >= Rank(ViewOf(row, now).state)
    ensures row.result.Some? ==> ViewOf(later, at) == ViewOf(row, now)
  {
    RowGoesOn(events, n, row, later);
  }

  /** Whatever a row is after an answer, it was before: the same but for what was found, and that once. */
  lemma FoundIsRow(t: Table, id: nat, result: string, at: int, later: Row) returns (before: Row)
    requires InOrder(t.rows) && HeldApart(t.rows) && later in Found(t, id, result, at).rows
    ensures before in t.rows && before.id == later.id && later == before.(result := later.result)
    ensures before.result.Some? ==> later == before
  {
    var answered := Answered(t.rows, id, result);
    AnsweredKeeps(t.rows, id, result);
    ClearedKeeps(answered, at - SETTINGS_CHECK_KEEP_MS);
    hide InOrder, HeldApart, CountRecent, Cleared;
    var i :| 0 <= i < |answered| && answered[i] == later;
    before := t.rows[i];
  }

  lemma OneOfAnId(rows: seq<Row>, a: Row, b: Row)
    requires InOrder(rows) && a in rows && b in rows && a.id == b.id
    ensures a == b
  {
    var i :| 0 <= i < |rows| && rows[i] == a;
    var j :| 0 <= j < |rows| && rows[j] == b;
  }
}
