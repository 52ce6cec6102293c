/**
 * A press of Save, whatever was written before it: the states its two or three writes go
 * through, and what the vault and the form agree on in each of them.
 */
module IdentitySave {
  import opened Text
  import opened IdentityVault
  import opened IdentityDraft
  import opened IdentityParts
  import opened IdentityReading

  // ------------------------------------------------------------- one step

  lemma DoAt(m: Made, s: Step, visible: set<string>, p: PartName, l: ListName, id: string)
    ensures At(Do(m, s, visible).vault, p, l, id)
         == if s.part == p && !NoChange(m.last.Of(p), s.fields)
            then MergeOpt(l, At(m.vault, p, l, id), FindSent(s.fields.lists.Of(l), id), visible)
            else At(m.vault, p, l, id)
  {
    PutAt(m.vault, s.part, s.fields, visible, p, l, id);
  }

  lemma DoTextAt(m: Made, s: Step, visible: set<string>, p: PartName, k: TextKey)
    ensures TextAt(Do(m, s, visible).vault, p, k)
         == if s.part == p && !NoChange(m.last.Of(p), s.fields) then TextOf(s.fields.texts, k)
            else TextAt(m.vault, p, k)
  {
  }

  lemma DoLast(m: Made, s: Step, visible: set<string>)
    ensures Do(m, s, visible).last == if NoChange(m.last.Of(s.part), s.fields) then m.last else m.last.With(s.part, s.fields)
  {
  }

  // ------------------------------------------------------------- the vault and what was last written

  /**
   * What the form last wrote of each part, or read of it, is what the vault has: written
   * once more it would change nothing, entry by entry and text by text.
   */
  ghost predicate Agrees(m: Made, visible: set<string>) {
    && (forall p: PartName, l: ListName, id: string ::
          MergeOpt(l, At(m.vault, p, l, id), FindSent(m.last.Of(p).lists.Of(l), id), visible) == At(m.vault, p, l, id))
    && (forall p: PartName, k: TextKey :: TextOf(m.last.Of(p).texts, k) == TextAt(m.vault, p, k))
  }

  lemma AgreesAt(m: Made, visible: set<string>, p: PartName, l: ListName, id: string)
    requires Agrees(m, visible)
    ensures MergeOpt(l, At(m.vault, p, l, id), FindSent(m.last.Of(p).lists.Of(l), id), visible) == At(m.vault, p, l, id)
    ensures FindSent(m.last.Of(p).lists.Of(l), id).Some? <==> At(m.vault, p, l, id).Some?
  {
  }

  lemma AgreesText(m: Made, visible: set<string>, p: PartName, k: TextKey)
    requires Agrees(m, visible)
    ensures TextOf(m.last.Of(p).texts, k) == TextAt(m.vault, p, k)
  {
  }

  lemma MergeOptTwice(l: ListName, before: Option<Entry>, s: Option<SentEntry>, visible: set<string>)
    ensures MergeOpt(l, MergeOpt(l, before, s, visible), s, visible) == MergeOpt(l, before, s, visible)
  {
    if s.Some? {
      MergeTwice(l, before, s.value, visible);
    }
  }

  /** So it is at first, whatever record was read, one id in both parts or not. */
  lemma StartAgrees(v: Vault, who: Editor)
    requires WellKept(v)
    ensures Agrees(Start(v, who), who.visible)
  {
    hide DraftFrom, BuildPart, WellKept, Find, FindSent, MergeEntry;
    var m := Start(v, who);
    forall p: PartName, l: ListName, id: string
      ensures MergeOpt(l, At(m.vault, p, l, id), FindSent(m.last.Of(p).lists.Of(l), id), who.visible) == At(m.vault, p, l, id)
    {
      FirstBuilt(v, who, p, l, id);
    }
    forall p: PartName, k: TextKey
      ensures TextOf(m.last.Of(p).texts, k) == TextAt(m.vault, p, k)
    {
      FirstBuiltText(v, who, p, k);
    }
  }

  /** And so it stays, whatever is written. */
  lemma DoAgrees(m: Made, s: Step, visible: set<string>)
    requires Agrees(m, visible)
    ensures Agrees(Do(m, s, visible), visible)
  {
    hide Agrees, Do, NoChange, Find, FindSent, MergeOpt, At, TextAt, TextOf;
    var t := Do(m, s, visible);
    DoLast(m, s, visible);
    forall p: PartName, l: ListName, id: string
      ensures MergeOpt(l, At(t.vault, p, l, id), FindSent(t.last.Of(p).lists.Of(l), id), visible) == At(t.vault, p, l, id)
    {
      DoAt(m, s, visible, p, l, id);
      AgreesAt(m, visible, p, l, id);
      MergeOptTwice(l, At(m.vault, p, l, id), FindSent(s.fields.lists.Of(l), id), visible);
    }
    forall p: PartName, k: TextKey
      ensures TextOf(t.last.Of(p).texts, k) == TextAt(t.vault, p, k)
    {
      DoTextAt(m, s, visible, p, k);
      AgreesText(m, visible, p, k);
    }
    AgreesIf(t, visible);
  }

  lemma AgreesIf(m: Made, visible: set<string>)
    requires forall p: PartName, l: ListName, id: string ::
      MergeOpt(l, At(m.vault, p, l, id), FindSent(m.last.Of(p).lists.Of(l), id), visible) == At(m.vault, p, l, id)
    requires forall p: PartName, k: TextKey :: TextOf(m.last.Of(p).texts, k) == TextAt(m.vault, p, k)
    ensures Agrees(m, visible)
  {
  }

  lemma {:induction false} TakeAgrees(steps: seq<Step>, m: Made, visible: set<string>)
    requires Agrees(m, visible)
    ensures Agrees(Take(steps, m, visible), visible)
    decreases |steps|
  {
    hide Agrees, Do;
    if steps != [] {
      TakeAgrees(steps[..|steps| - 1], m, visible);
      DoAgrees(Take(steps[..|steps| - 1], m, visible), steps[|steps| - 1], visible);
    }
  }

  // ------------------------------------------------------------- the plan's shape

  predicate BothWays(d: Draft) {
    AnyMovesInto(d, OnlyMe) && AnyMovesInto(d, Shared)
  }

  /** Which part is written first. */
  function First(d: Draft): PartName {
    if AnyMovesInto(d, OnlyMe) then OnlyMe else Shared
  }

  function HoldStep(d: Draft): Step {
    Step(OnlyMe, BuildPart(Holding(d), OnlyMe))
  }

  function StepOf(d: Draft, p: PartName): Step {
    Step(p, BuildPart(d, p))
  }

  /** The plan's shape: at most three writes, the first and the last of three to Only me. */
  lemma PlanShape(d: Draft)
    ensures BothWays(d) ==> Plan(d) == [HoldStep(d), StepOf(d, Shared), StepOf(d, OnlyMe)]
    ensures !BothWays(d) ==> Plan(d) == [StepOf(d, First(d)), StepOf(d, Other(First(d)))]
    ensures |Plan(d)| >= 2 && Plan(d)[0].part == First(d)
  {
    hide AnyMovesInto, BuildPart, Holding;
  }

  /** After the plan's first `n` steps, each passed over if it changes nothing by then. */
  function Reached(m: Made, d: Draft, visible: set<string>, n: nat): Made
    requires n <= |Plan(d)|
  {
    Take(Plan(d)[..n], m, visible)
  }

  lemma ReachedSteps(m: Made, d: Draft, visible: set<string>)
    ensures |Plan(d)| == if BothWays(d) then 3 else 2
    ensures Reached(m, d, visible, 0) == m
    ensures Reached(m, d, visible, 1) == Do(m, Plan(d)[0], visible)
    ensures Reached(m, d, visible, 2) == Do(Do(m, Plan(d)[0], visible), Plan(d)[1], visible)
    ensures BothWays(d) ==>
      Reached(m, d, visible, 3) == Do(Do(Do(m, Plan(d)[0], visible), Plan(d)[1], visible), Plan(d)[2], visible)
  {
    PlanShape(d);
    hide AnyMovesInto, BothWays, BuildPart, Holding, Plan, Do, Take;
    var plan := Plan(d);
    TakeShort(m, visible, plan[0], plan[1], plan[|plan| - 1]);
    assert plan[..0] == [] && plan[..1] == [plan[0]] && plan[..2] == [plan[0], plan[1]];
    if |plan| == 3 {
      assert plan[..3] == [plan[0], plan[1], plan[2]];
    }
  }

  /**
   * The steps are chosen before the first is made. Where the last of three would change
   * nothing as things are, but does once the first is made, it is left out all the same.
   */
  predicate LeftOver(m: Made, d: Draft) {
    && BothWays(d) && NoChange(m.last.onlyMe, BuildPart(d, OnlyMe))
    && !NoChange(m.last.onlyMe, BuildPart(Holding(d), OnlyMe))
  }

  // ------------------------------------------------------------- the states a save goes through

  lemma ChangingTwo(a: Step, b: Step, last: Written)
    ensures Changing([a, b], last)
         == (if NoChange(last.Of(a.part), a.fields) then [] else [a]) + (if NoChange(last.Of(b.part), b.fields) then [] else [b])
  {
    hide NoChange;
    assert [a, b][1..] == [b] && [b][1..] == [];
    assert Changing([b], last) == if NoChange(last.Of(b.part), b.fields) then [] else [b];
  }

  lemma ChangingThree(a: Step, b: Step, c: Step, last: Written)
    ensures Changing([a, b, c], last)
         == (if NoChange(last.Of(a.part), a.fields) then [] else [a]) + Changing([b, c], last)
  {
    hide NoChange;
    assert [a, b, c][1..] == [b, c];
  }

  lemma TakeShort(m: Made, visible: set<string>, a: Step, b: Step, c: Step)
    ensures Take([], m, visible) == m
    ensures Take([a], m, visible) == Do(m, a, visible)
    ensures Take([b], m, visible) == Do(m, b, visible)
    ensures Take([c], m, visible) == Do(m, c, visible)
    ensures Take([a, b], m, visible) == Do(Do(m, a, visible), b, visible)
    ensures Take([b, c], m, visible) == Do(Do(m, b, visible), c, visible)
    ensures Take([a, c], m, visible) == Do(Do(m, a, visible), c, visible)
    ensures Take([a, b, c], m, visible) == Do(Do(Do(m, a, visible), b, visible), c, visible)
  {
    hide Do;
    assert [a][..0] == [] && [b][..0] == [] && [c][..0] == [];
    assert [a, b][..1] == [a] && [b, c][..1] == [b] && [a, c][..1] == [a] && [a, b, c][..2] == [a, b];
  }

  /** Leaving out first what changes nothing leaves the same states to go through. */
  lemma StatesOfTwo(a: Step, b: Step, m: Made, visible: set<string>, k: nat)
    requires a.part != b.part && k <= |Changing([a, b], m.last)|
    ensures var steps := Changing([a, b], m.last);
      var t := Take(steps[..k], m, visible);
      || t == m || t == Do(m, a, visible) || (t == Do(Do(m, a, visible), b, visible) && k == |steps|)
    ensures Take(Changing([a, b], m.last), m, visible) == Do(Do(m, a, visible), b, visible)
  {
    hide NoChange, Put;
    var steps := Changing([a, b], m.last);
    ChangingTwo(a, b, m.last);
    TakeShort(m, visible, a, b, b);
    assert steps[..0] == [] && steps[..|steps|] == steps;
    if |steps| == 2 {
      assert steps[..1] == [a];
    }
  }

  lemma StatesOfThree(a: Step, b: Step, c: Step, m: Made, visible: set<string>, k: nat)
    requires a.part == c.part == OnlyMe && b.part == Shared
    requires k <= |Changing([a, b, c], m.last)|
    ensures var steps := Changing([a, b, c], m.last);
      var t := Take(steps[..k], m, visible);
      var one := Do(m, a, visible);
      var two := Do(one, b, visible);
      || t == m || t == one || t == two || (t == Do(two, c, visible) && k == |steps|)
    ensures var two := Do(Do(m, a, visible), b, visible);
      Take(Changing([a, b, c], m.last), m, visible)
      == if NoChange(m.last.onlyMe, c.fields) && !NoChange(m.last.onlyMe, a.fields) then two else Do(two, c, visible)
  {
    hide NoChange, Do, Take, Changing;
    var steps := Changing([a, b, c], m.last);
    ChangingThree(a, b, c, m.last);
    ChangingTwo(b, c, m.last);
    TakeShort(m, visible, a, b, c);
    var one := Do(m, a, visible);
    DoFacts(m, a, visible);
    DoFacts(one, b, visible);
    DoFacts(Do(one, b, visible), c, visible);
    assert steps[..|steps|] == steps && steps[..0] == [];
    if |steps| == 1 {
      assert steps == [steps[0]];
    } else if |steps| == 2 {
      assert steps == [steps[0], steps[1]] && steps[..1] == [steps[0]];
    } else if |steps| == 3 {
      assert steps == [a, b, c] && steps[..1] == [a] && steps[..2] == [a, b];
    }
  }

  /** A step that changes nothing is passed over, and one of another part leaves what was last written of this. */
  lemma DoFacts(m: Made, s: Step, visible: set<string>)
    ensures NoChange(m.last.Of(s.part), s.fields) ==> Do(m, s, visible) == m
    ensures Do(m, s, visible).last.Of(if s.part == Shared then OnlyMe else Shared) == m.last.Of(if s.part == Shared then OnlyMe else Shared)
  {
    hide NoChange, Put;
  }

  /** A save, stopped anywhere, is where its plan would be after some of its steps; finished, at its end, or one before. */
  lemma StoppedIsReached(m: Made, d: Draft, visible: set<string>, k: nat) returns (n: nat)
    requires k <= |SaveSteps(m, d)|
    ensures n <= |Plan(d)| && After(m, d, visible, k) == Reached(m, d, visible, n)
    ensures n == |Plan(d)| ==> k == |SaveSteps(m, d)|
    ensures Saved(m, d, visible) == Reached(m, d, visible, if LeftOver(m, d) then 2 else |Plan(d)|).vault
  {
    hide NoChange, BuildPart, Holding, AnyMovesInto, Take, Changing, Plan, Do;
    var plan := Plan(d);
    PlanShape(d);
    ReachedSteps(m, d, visible);
    var t := After(m, d, visible, k);
    if BothWays(d) {
      StatesOfThree(plan[0], plan[1], plan[2], m, visible, k);
    } else {
      StatesOfTwo(plan[0], plan[1], m, visible, k);
    }
    n := if t == m then 0 else if t == Reached(m, d, visible, 1) then 1 else if t == Reached(m, d, visible, 2) && |plan| == 3 then 2 else |plan|;
  }

  /** A first write that changes something is what a save is stopped after, refused the next. */
  lemma FirstStepTaken(m: Made, d: Draft, visible: set<string>)
    requires !NoChange(m.last.Of(First(d)), Plan(d)[0].fields)
    ensures |SaveSteps(m, d)| >= 1 && After(m, d, visible, 1) == Reached(m, d, visible, 1)
  {
    hide NoChange, BuildPart, Holding, AnyMovesInto, Plan, Do;
    var plan := Plan(d);
    PlanShape(d);
    ReachedSteps(m, d, visible);
    var rest := plan[1..];
    var steps := SaveSteps(m, d);
    assert steps == [plan[0]] + Changing(rest, m.last);
    assert steps[..1] == [plan[0]];
    TakeShort(m, visible, plan[0], plan[0], plan[0]);
  }
}
