/**
 * The Documents table's column widths (apps/web/src/column-widths.tsx): whole pixels shared
 * out in proportion, what rounding leaves given or taken a pixel at a time.
 */
module ColumnWidths {

  datatype Column = Title | Kind | Person | Issued | Expires | Status | Visibility | Location | Collections

  datatype ColumnSize = ColumnSize(min: int, tight: int, base: int, max: int, weight: int)

  function SizeOf(k: Column): (s: ColumnSize)
    ensures 0 < s.min <= s.max && s.tight <= s.base && 0 <= s.weight && (k != Title ==> 0 < s.weight)
  {
    match k
    case Title => ColumnSize(160, 240, 240, 960, 0)
    case Kind => ColumnSize(72, 116, 162, 640, 3)
    case Person => ColumnSize(88, 88, 92, 640, 1)
    case Issued => ColumnSize(84, 106, 106, 640, 1)
    case Expires => ColumnSize(88, 106, 106, 640, 1)
    case Status => ColumnSize(84, 156, 184, 640, 2)
    case Visibility => ColumnSize(118, 118, 118, 640, 1)
    case Location => ColumnSize(104, 104, 122, 640, 2)
    case Collections => ColumnSize(126, 126, 132, 640, 2)
  }

  function Min(a: int, b: int): int {
    if a < b then a else b
  }

  function Max(a: int, b: int): int {
    if a < b then b else a
  }

  /** Half a pixel and more rounds up. */
  function Round(w: real): int {
    (w + 0.5).Floor
  }

  function ClampTo(k: Column, w: real): int {
    Min(SizeOf(k).max, Max(SizeOf(k).min, Round(w)))
  }

  // ------------------------------------------------------------- sharing out

  function Sum(xs: seq<int>): int {
    if xs == [] then 0 else xs[0] + Sum(xs[1..])
  }

  /** Each one's whole share of `total`, by its part of `whole`. */
  function Shares(parts: seq<int>, total: int, whole: int): (r: seq<int>)
    requires whole > 0
    ensures |r| == |parts| && forall i :: 0 <= i < |r| ==> r[i] == total * parts[i] / whole
  {
    if parts == [] then [] else [total * parts[0] / whole] + Shares(parts[1..], total, whole)
  }

  /** How many have a share that is not whole. */
  function Uneven(parts: seq<int>, total: int, whole: int): nat
    requires whole > 0
  {
    if parts == [] then 0 else (if total * parts[0] % whole != 0 then 1 else 0) + Uneven(parts[1..], total, whole)
  }

  lemma TimesMore(w: int, a: int, b: int)
    requires w >= 0 && a <= b
    ensures w * a <= w * b
    ensures w > 0 && a < b ==> w * a < w * b
  {
    assert w * b - w * a == w * (b - a);
  }

  lemma Cancel(w: int, a: int, b: int)
    requires w > 0 && w * a <= w * b
    ensures a <= b
  {
    if b < a {
      TimesMore(w, b, a);
    }
  }

  /** One more share: what rounding takes of it is less than a whole. */
  lemma OneShareMore(whole: int, total: int, part: int, rest: int, sum: int, up: nat)
    requires whole > 0
    requires whole * rest <= total * sum <= whole * rest + (whole - 1) * up
    ensures var q, more := total * part / whole, up + (if total * part % whole != 0 then 1 else 0);
      whole * (q + rest) <= total * (part + sum) <= whole * (q + rest) + (whole - 1) * more
  {
    var q, r := total * part / whole, total * part % whole;
    assert total * part == whole * q + r;
    Distributes(whole, q, rest);
    Distributes(total, part, sum);
    Distributes(whole - 1, up, 1);
  }

  lemma Distributes(a: int, b: int, c: int)
    ensures a * (b + c) == a * b + a * c
  {
  }

  lemma {:induction false} SharesNearly(parts: seq<int>, total: int, whole: int)
    requires whole > 0
    ensures var given := Sum(Shares(parts, total, whole));
      whole * given <= total * Sum(parts) <= whole * given + (whole - 1) * Uneven(parts, total, whole)
  {
    if parts != [] {
      SharesNearly(parts[1..], total, whole);
      assert Shares(parts, total, whole)[1..] == Shares(parts[1..], total, whole);
      OneShareMore(whole, total, parts[0], Sum(Shares(parts[1..], total, whole)), Sum(parts[1..]), Uneven(parts[1..], total, whole));
    }
  }

  /** What rounding leaves is nothing, or fewer pixels than there are shares not whole. */
  lemma RoundingLeaves(parts: seq<int>, total: nat)
    requires Sum(parts) > 0
    ensures var left := total - Sum(Shares(parts, total, Sum(parts)));
      0 <= left && (left == 0 || left < Uneven(parts, total, Sum(parts)))
  {
    var whole := Sum(parts);
    var given := Sum(Shares(parts, total, whole));
    SharesNearly(parts, total, whole);
    Cancel(whole, given, total);
    Distributes(whole, given, total - given);
    Below(whole, total - given, Uneven(parts, total, whole));
  }

  lemma Below(w: int, left: nat, up: nat)
    requires w > 0 && w * left <= (w - 1) * up
    ensures left == 0 || left < up
  {
    if up <= left {
      TimesMore(w - 1, up, left);
      Distributes(left, w, -1);
    }
  }

  lemma {:induction false} UnevenAtMost(parts: seq<int>, total: int, whole: int)
    requires whole > 0
    ensures Uneven(parts, total, whole) <= |parts|
  {
    if parts != [] {
      UnevenAtMost(parts[1..], total, whole);
    }
  }

  // ------------------------------------------------------------- the columns

  predicate Distinct(ks: seq<Column>) {
    forall i, j :: 0 <= i < j < |ks| ==> ks[i] != ks[j]
  }

  /** Columns this person has not sized, the title apart. */
  function Others(keys: seq<Column>, kept: map<Column, real>): (r: seq<Column>)
    ensures forall k :: k in r <==> k in keys && k !in kept && k != Title
  {
    if keys == [] then []
    else (if keys[0] !in kept && keys[0] != Title then [keys[0]] else []) + Others(keys[1..], kept)
  }

  predicate TitleAuto(keys: seq<Column>, kept: map<Column, real>) {
    Title in keys && Title !in kept
  }

  /** What the columns this person sized take. */
  function Used(keys: seq<Column>, kept: map<Column, real>): int {
    if keys == [] then 0
    else (if keys[0] in kept then ClampTo(keys[0], kept[keys[0]]) else 0) + Used(keys[1..], kept)
  }

  function Bases(ks: seq<Column>): seq<int> {
    seq(|ks|, i requires 0 <= i < |ks| => SizeOf(ks[i]).base)
  }

  function Weights(ks: seq<Column>): seq<int> {
    seq(|ks|, i requires 0 <= i < |ks| => SizeOf(ks[i]).weight)
  }

  /** What each can give up before its words are cut too short. */
  function Gives(ks: seq<Column>): seq<int> {
    seq(|ks|, i requires 0 <= i < |ks| => SizeOf(ks[i]).base - SizeOf(ks[i]).tight)
  }

  const FLOOR := SizeOf(Title).base

  /** The room left once every column is as it starts; less than none, if there is not enough. */
  function Spare(keys: seq<Column>, room: real, kept: map<Column, real>): int {
    room.Floor - Used(keys, kept) - Sum(Bases(Others(keys, kept))) - (if TitleAuto(keys, kept) then FLOOR else 0)
  }

  /** The title alone takes all the room to spare; beside others, up to a quarter of the room. */
  function TitleWidth(others: seq<Column>, room: real, spare: nat): int {
    if others == [] then FLOOR + spare else Min(FLOOR + spare, Max(FLOOR, (room * 0.25).Floor))
  }

  /** Where a column goes before those at most as heavy: a stable order, the heaviest first. */
  function Insert(k: Column, sorted: seq<Column>): seq<Column> {
    if sorted == [] || SizeOf(sorted[0]).weight <= SizeOf(k).weight then [k] + sorted
    else [sorted[0]] + Insert(k, sorted[1..])
  }

  function ByWeight(ks: seq<Column>): seq<Column> {
    if ks == [] then [] else Insert(ks[0], ByWeight(ks[1..]))
  }

  /** What rounding leaves over of the room shared by weight. */
  function LeftOver(others: seq<Column>, spare: int): int
    requires Sum(Weights(others)) > 0
  {
    spare - Sum(Shares(Weights(others), spare, Sum(Weights(others))))
  }

  /** With room to spare: what it starts with, its share by weight, and a pixel of what is left over to the heaviest. */
  function Grown(others: seq<Column>, spare: int, k: Column): int
    requires Sum(Weights(others)) > 0 && 0 <= LeftOver(others, spare) <= |ByWeight(others)|
  {
    SizeOf(k).base + spare * SizeOf(k).weight / Sum(Weights(others))
    + (if k in ByWeight(others)[..LeftOver(others, spare)] then 1 else 0)
  }

  function Off(others: seq<Column>, take: int, k: Column): int {
    var slack := Sum(Gives(others));
    if slack > 0 then take * (SizeOf(k).base - SizeOf(k).tight) / slack else 0
  }

  /** Those that can still give a pixel, their share given. */
  function Givers(ks: seq<Column>, others: seq<Column>, take: int): (r: seq<Column>)
    ensures forall k :: k in r <==> k in ks && SizeOf(k).base - Off(others, take, k) > SizeOf(k).tight
  {
    if ks == [] then []
    else
      (if SizeOf(ks[0]).base - Off(others, take, ks[0]) > SizeOf(ks[0]).tight then [ks[0]] else [])
      + Givers(ks[1..], others, take)
  }

  /** What rounding leaves still to take. */
  function LeftToTake(others: seq<Column>, take: int): int {
    if Sum(Gives(others)) > 0 then take - Sum(Shares(Gives(others), take, Sum(Gives(others)))) else 0
  }

  /** Short of room: what it starts with, less its share, less a pixel of what is left to take if it is among the first that can give. */
  function Shrunk(others: seq<Column>, take: int, k: Column): int
    requires 0 <= LeftToTake(others, take) <= |Givers(others, others, take)|
  {
    SizeOf(k).base - Off(others, take, k)
    - (if k in Givers(others, others, take)[..LeftToTake(others, take)] then 1 else 0)
  }

  /** What the columns give up: all they are short of, where that makes the table fit; else nothing. */
  function Take(others: seq<Column>, short: int): int {
    if short <= Sum(Gives(others)) then short else 0
  }

  // ------------------------------------------------------------- lemmas of the parts

  lemma {:induction false} InsertMembers(k: Column, sorted: seq<Column>)
    ensures multiset(Insert(k, sorted)) == multiset(sorted) + multiset{k}
  {
    if sorted == [] || SizeOf(sorted[0]).weight <= SizeOf(k).weight {
    } else {
      InsertMembers(k, sorted[1..]);
      assert sorted == [sorted[0]] + sorted[1..];
    }
  }

  lemma {:induction false} ByWeightMembers(ks: seq<Column>)
    ensures multiset(ByWeight(ks)) == multiset(ks)
  {
    if ks != [] {
      ByWeightMembers(ks[1..]);
      InsertMembers(ks[0], ByWeight(ks[1..]));
      assert ks == [ks[0]] + ks[1..];
    }
  }

  predicate HeaviestFirst(ks: seq<Column>) {
    forall i, j :: 0 <= i < j < |ks| ==> SizeOf(ks[i]).weight >= SizeOf(ks[j]).weight
  }

  lemma {:induction false} InsertSorted(k: Column, sorted: seq<Column>)
    requires HeaviestFirst(sorted)
    ensures HeaviestFirst(Insert(k, sorted))
  {
    hide SizeOf;
    if sorted == [] || SizeOf(sorted[0]).weight <= SizeOf(k).weight {
    } else {
      InsertSorted(k, sorted[1..]);
      InsertMembers(k, sorted[1..]);
      var r := Insert(k, sorted[1..]);
      forall i | 0 <= i < |r|
        ensures SizeOf(sorted[0]).weight >= SizeOf(r[i]).weight
      {
        assert r[i] in multiset(r);
        assert r[i] == k || r[i] in multiset(sorted[1..]);
      }
    }
  }

  lemma {:induction false} ByWeightSorted(ks: seq<Column>)
    ensures HeaviestFirst(ByWeight(ks))
  {
    if ks != [] {
      ByWeightSorted(ks[1..]);
      InsertSorted(ks[0], ByWeight(ks[1..]));
    }
  }

  function OfWeight(ks: seq<Column>, w: int): seq<Column> {
    if ks == [] then [] else (if SizeOf(ks[0]).weight == w then [ks[0]] else []) + OfWeight(ks[1..], w)
  }

  lemma {:induction false} InsertStable(k: Column, sorted: seq<Column>, w: int)
    ensures OfWeight(Insert(k, sorted), w) == (if SizeOf(k).weight == w then [k] else []) + OfWeight(sorted, w)
  {
    hide SizeOf;
    if sorted == [] || SizeOf(sorted[0]).weight <= SizeOf(k).weight {
    } else {
      InsertStable(k, sorted[1..], w);
    }
  }

  /** Columns of one weight keep the order they are shown in. */
  lemma {:induction false} ByWeightStable(ks: seq<Column>, w: int)
    ensures OfWeight(ByWeight(ks), w) == OfWeight(ks, w)
  {
    hide SizeOf;
    if ks != [] {
      ByWeightStable(ks[1..], w);
      InsertStable(ks[0], ByWeight(ks[1..]), w);
    }
  }

  lemma DistinctByMultiset(a: seq<Column>, b: seq<Column>)
    requires multiset(a) == multiset(b) && Distinct(a)
    ensures Distinct(b)
  {
    forall i, j | 0 <= i < j < |b|
      ensures b[i] != b[j]
    {
      if b[i] == b[j] {
        TwiceIn(b, i, j);
        OnceIn(a, b[i]);
      }
    }
  }

  lemma TwiceIn(b: seq<Column>, i: int, j: int)
    requires 0 <= i < j < |b| && b[i] == b[j]
    ensures multiset(b)[b[i]] >= 2
  {
    assert b == b[..j] + [b[j]] + b[j + 1..];
    assert b[..j][i] == b[i];
    assert b[i] in multiset(b[..j]);
  }

  lemma {:induction false} OnceIn(a: seq<Column>, k: Column)
    requires Distinct(a)
    ensures multiset(a)[k] <= 1
  {
    if a != [] {
      OnceIn(a[1..], k);
      assert a == [a[0]] + a[1..];
      if a[0] == k {
        assert k !in a[1..];
        assert k !in multiset(a[1..]);
      }
    }
  }

  lemma {:induction false} OthersDistinct(keys: seq<Column>, kept: map<Column, real>)
    requires Distinct(keys)
    ensures Distinct(Others(keys, kept))
  {
    if keys != [] {
      OthersDistinct(keys[1..], kept);
      assert keys[0] !in keys[1..];
    }
  }

  lemma {:induction false} SumPositive(ks: seq<Column>)
    requires forall k :: k in ks ==> k != Title
    ensures Sum(Weights(ks)) >= |ks| && Sum(Gives(ks)) >= 0
  {
    if ks != [] {
      assert forall k :: k in ks[1..] ==> k in ks;
      SumPositive(ks[1..]);
      assert Weights(ks)[1..] == Weights(ks[1..]) && Gives(ks)[1..] == Gives(ks[1..]);
      assert ks[0] in ks;
    }
  }

  /** A whole share is the exact one, less what rounding takes; of a part, no more than the part. */
  lemma FloorShare(total: nat, part: nat, whole: int)
    requires whole > 0
    ensures var q := total * part / whole;
      && 0 <= q && whole * q <= total * part < whole * q + whole && whole * (q + 1) == whole * q + whole
      && (total <= whole ==> q <= part)
      && (total <= whole && total * part % whole != 0 ==> q < part)
  {
    var q, r := total * part / whole, total * part % whole;
    assert total * part == whole * q + r;
    TimesMore(part, 0, total);
    Distributes(whole, q, 1);
    if q <= -1 {
      TimesMore(whole, q, -1);
    }
    if total <= whole {
      TimesMore(part, total, whole);
      Cancel(whole, q, part);
    }
  }

  /** A column whose share is not whole has more to give than its share. */
  lemma UnevenGives(others: seq<Column>, take: nat, k: Column)
    requires 0 < Sum(Gives(others)) && take <= Sum(Gives(others))
    requires take * (SizeOf(k).base - SizeOf(k).tight) % Sum(Gives(others)) != 0
    ensures SizeOf(k).base - Off(others, take, k) > SizeOf(k).tight
  {
    FloorShare(take, SizeOf(k).base - SizeOf(k).tight, Sum(Gives(others)));
    hide SizeOf, Sum, Gives;
  }

  lemma {:induction false} GiversEnough(ks: seq<Column>, others: seq<Column>, take: nat)
    requires 0 < Sum(Gives(others)) && take <= Sum(Gives(others))
    ensures |Givers(ks, others, take)| >= Uneven(Gives(ks), take, Sum(Gives(others)))
  {
    if ks != [] {
      GiversEnough(ks[1..], others, take);
      assert Gives(ks)[1..] == Gives(ks[1..]);
      if take * Gives(ks)[0] % Sum(Gives(others)) != 0 {
        UnevenGives(others, take, ks[0]);
      }
    }
  }

  lemma {:induction false} ByWeightLength(ks: seq<Column>)
    ensures |ByWeight(ks)| == |ks|
  {
    ByWeightMembers(ks);
    assert |multiset(ByWeight(ks))| == |multiset(ks)|;
  }

  /** Of room to spare shared by weight, fewer pixels are left over than there are columns. */
  lemma LeftOverFits(others: seq<Column>, spare: nat)
    requires others != [] && forall k :: k in others ==> k != Title
    ensures Sum(Weights(others)) > 0 && 0 <= LeftOver(others, spare) < |others| == |ByWeight(others)|
  {
    SumPositive(others);
    ByWeightLength(others);
    RoundingLeaves(Weights(others), spare);
    UnevenAtMost(Weights(others), spare, Sum(Weights(others)));
  }

  /** Of what is to take, what is left is a pixel at most from each that can give one. */
  lemma LeftToTakeFits(others: seq<Column>, take: nat)
    requires (forall k :: k in others ==> k != Title) && take <= Sum(Gives(others))
    ensures 0 <= LeftToTake(others, take) <= |Givers(others, others, take)|
  {
    SumPositive(others);
    if Sum(Gives(others)) > 0 {
      RoundingLeaves(Gives(others), take);
      GiversEnough(others, others, take);
    }
  }

  // ------------------------------------------------------------- sums

  function Total(out: map<Column, int>, ks: seq<Column>): int
    requires forall k :: k in ks ==> k in out
  {
    if ks == [] then 0
    else
      assert ks[0] in ks && forall k :: k in ks[1..] ==> k in ks;
      out[ks[0]] + Total(out, ks[1..])
  }

  function CountIn(ks: seq<Column>, picked: seq<Column>): nat {
    if ks == [] then 0 else (if ks[0] in picked then 1 else 0) + CountIn(ks[1..], picked)
  }

  lemma {:induction false} CountOne(ks: seq<Column>, k: Column)
    requires Distinct(ks)
    ensures CountIn(ks, [k]) == if k in ks then 1 else 0
  {
    if ks != [] {
      CountOne(ks[1..], k);
      assert ks[0] !in ks[1..];
    }
  }

  lemma {:induction false} CountMore(ks: seq<Column>, k: Column, picked: seq<Column>)
    requires k !in picked
    ensures CountIn(ks, [k] + picked) == CountIn(ks, [k]) + CountIn(ks, picked)
  {
    if ks != [] {
      CountMore(ks[1..], k, picked);
    }
  }

  lemma {:induction false} CountNone(ks: seq<Column>)
    ensures CountIn(ks, []) == 0
  {
    if ks != [] {
      CountNone(ks[1..]);
    }
  }

  lemma {:induction false} CountPicked(ks: seq<Column>, picked: seq<Column>)
    requires Distinct(ks) && Distinct(picked) && forall k :: k in picked ==> k in ks
    ensures CountIn(ks, picked) == |picked|
    decreases |picked|
  {
    if picked == [] {
      CountNone(ks);
    } else {
      var k, rest := picked[0], picked[1..];
      assert picked == [k] + rest && k in picked && k !in rest;
      forall x | x in rest
        ensures x in ks
      {
        assert x in picked;
      }
      CountPicked(ks, rest);
      CountMore(ks, k, rest);
      CountOne(ks, k);
    }
  }

  lemma {:induction false} TotalGrown(out: map<Column, int>, ks: seq<Column>, spare: int, whole: int, picked: seq<Column>)
    requires whole > 0 && forall k :: k in ks ==> k in out
    requires forall k :: k in ks ==> out[k] == SizeOf(k).base + spare * SizeOf(k).weight / whole + (if k in picked then 1 else 0)
    ensures Total(out, ks) == Sum(Bases(ks)) + Sum(Shares(Weights(ks), spare, whole)) + CountIn(ks, picked)
  {
    if ks != [] {
      assert ks[0] in ks && forall k :: k in ks[1..] ==> k in ks;
      TotalGrown(out, ks[1..], spare, whole, picked);
      assert Bases(ks)[1..] == Bases(ks[1..]) && Weights(ks)[1..] == Weights(ks[1..]);
      assert Shares(Weights(ks), spare, whole)[1..] == Shares(Weights(ks[1..]), spare, whole);
    }
  }

  lemma {:induction false} TotalShrunk(out: map<Column, int>, ks: seq<Column>, others: seq<Column>, take: int, picked: seq<Column>)
    requires forall k :: k in ks ==> k in out && out[k] == SizeOf(k).base - Off(others, take, k) - (if k in picked then 1 else 0)
    ensures Total(out, ks) == Sum(Bases(ks)) - CountIn(ks, picked)
      - (if Sum(Gives(others)) > 0 then Sum(Shares(Gives(ks), take, Sum(Gives(others)))) else 0)
  {
    if ks != [] {
      assert ks[0] in ks && forall k :: k in ks[1..] ==> k in ks;
      TotalShrunk(out, ks[1..], others, take, picked);
      assert Bases(ks)[1..] == Bases(ks[1..]) && Gives(ks)[1..] == Gives(ks[1..]);
      if Sum(Gives(others)) > 0 {
        assert Shares(Gives(ks), take, Sum(Gives(others)))[1..] == Shares(Gives(ks[1..]), take, Sum(Gives(others)));
      }
    }
  }

  predicate GrownAll(out: map<Column, int>, others: seq<Column>, spare: int)
    requires Sum(Weights(others)) > 0 && 0 <= LeftOver(others, spare) <= |ByWeight(others)|
  {
    forall k :: k in others ==> k in out && out[k] == Grown(others, spare, k)
  }

  predicate ShrunkAll(out: map<Column, int>, others: seq<Column>, take: int)
    requires 0 <= LeftToTake(others, take) <= |Givers(others, others, take)|
  {
    forall k :: k in others ==> k in out && out[k] == Shrunk(others, take, k)
  }

  lemma PrefixOk(order: seq<Column>, n: nat, others: seq<Column>)
    requires Distinct(order) && n <= |order| && forall k :: k in order ==> k in others
    ensures Distinct(order[..n]) && forall k :: k in order[..n] ==> k in others
  {
    forall k | k in order[..n]
      ensures k in others
    {
      var i :| 0 <= i < n && order[..n][i] == k;
      assert order[i] in order;
    }
  }

  /** With room to spare, all of it is given out, to the pixel. */
  lemma GrownFillsTheRoom(out: map<Column, int>, others: seq<Column>, spare: nat)
    requires others != [] && Distinct(others) && (forall k :: k in others ==> k != Title)
    requires Sum(Weights(others)) > 0 && 0 <= LeftOver(others, spare) <= |ByWeight(others)|
    requires GrownAll(out, others, spare)
    ensures Total(out, others) == Sum(Bases(others)) + spare
  {
    var order := ByWeight(others);
    ByWeightMembers(others);
    DistinctByMultiset(others, order);
    forall k | k in order
      ensures k in others
    {
      assert k in multiset(order);
    }
    PrefixOk(order, LeftOver(others, spare), others);
    CountPicked(others, order[..LeftOver(others, spare)]);
    TotalGrown(out, others, spare, Sum(Weights(others)), order[..LeftOver(others, spare)]);
  }

  lemma {:induction false} GiversDistinct(ks: seq<Column>, others: seq<Column>, take: int)
    requires Distinct(ks)
    ensures Distinct(Givers(ks, others, take))
  {
    if ks != [] {
      GiversDistinct(ks[1..], others, take);
      assert ks[0] !in ks[1..];
    }
  }

  /** Short of room, and able to give it: all that is short is given up, to the pixel. */
  lemma ShrunkFitsTheRoom(out: map<Column, int>, others: seq<Column>, take: nat)
    requires Distinct(others) && (forall k :: k in others ==> k != Title) && take <= Sum(Gives(others))
    requires 0 <= LeftToTake(others, take) <= |Givers(others, others, take)|
    requires ShrunkAll(out, others, take)
    ensures Total(out, others) == Sum(Bases(others)) - take
  {
    var givers := Givers(others, others, take);
    GiversDistinct(others, others, take);
    PrefixOk(givers, LeftToTake(others, take), others);
    CountPicked(others, givers[..LeftToTake(others, take)]);
    TotalShrunk(out, others, others, take, givers[..LeftToTake(others, take)]);
  }

  // ------------------------------------------------------------- how far from its share

  /** Within a pixel of its exact share of what there is to spare, and never under what it starts with. */
  lemma GrownIsFair(others: seq<Column>, spare: nat, k: Column)
    requires k in others && (forall x :: x in others ==> x != Title)
    requires Sum(Weights(others)) > 0 && 0 <= LeftOver(others, spare) <= |ByWeight(others)|
    ensures var w := Sum(Weights(others)); var extra := Grown(others, spare, k) - SizeOf(k).base;
      spare * SizeOf(k).weight - w < w * extra <= spare * SizeOf(k).weight + w && extra >= 0
  {
    FloorShare(spare, SizeOf(k).weight, Sum(Weights(others)));
    hide SizeOf, Sum, Weights, LeftOver, ByWeight;
  }

  /** Within a pixel of its exact share of what is to take, never over what it starts with, nor under its tightest. */
  lemma ShrunkIsFair(others: seq<Column>, take: nat, k: Column)
    requires k in others && take <= Sum(Gives(others)) && 0 < Sum(Gives(others))
    requires 0 <= LeftToTake(others, take) <= |Givers(others, others, take)|
    ensures var w, g := Sum(Gives(others)), SizeOf(k).base - SizeOf(k).tight; var off := SizeOf(k).base - Shrunk(others, take, k);
      take * g - w < w * off <= take * g + w && SizeOf(k).tight <= Shrunk(others, take, k) <= SizeOf(k).base
  {
    FloorShare(take, SizeOf(k).base - SizeOf(k).tight, Sum(Gives(others)));
    var givers := Givers(others, others, take);
    hide SizeOf, Sum, Gives, LeftToTake, Givers;
    if k in givers[..LeftToTake(others, take)] {
      assert k in givers;
    }
  }

  // ------------------------------------------------------------- whose pixel it is

  predicate Before(ks: seq<Column>, a: Column, b: Column) {
    ks != [] && ((ks[0] == a && b in ks[1..]) || Before(ks[1..], a, b))
  }

  /** The heavier comes first, and of one weight the one shown first. */
  predicate GoesFirst(ks: seq<Column>, a: Column, b: Column) {
    SizeOf(a).weight > SizeOf(b).weight || (SizeOf(a).weight == SizeOf(b).weight && Before(ks, a, b))
  }

  lemma {:induction false} BeforeAt(ks: seq<Column>, a: Column, b: Column) returns (i: nat, j: nat)
    requires Before(ks, a, b)
    ensures i < j < |ks| && ks[i] == a && ks[j] == b
  {
    if ks[0] == a && b in ks[1..] {
      var n :| 0 <= n < |ks[1..]| && ks[1..][n] == b;
      i, j := 0, n + 1;
    } else {
      i, j := BeforeAt(ks[1..], a, b);
      i, j := i + 1, j + 1;
    }
  }

  lemma {:induction false} InOrder(ks: seq<Column>, i: nat, j: nat)
    requires i < j < |ks|
    ensures Before(ks, ks[i], ks[j])
  {
    if i > 0 {
      InOrder(ks[1..], i - 1, j - 1);
    } else {
      assert ks[j] == ks[1..][j - 1];
    }
  }

  lemma BeforeCons(x: Column, ks: seq<Column>, a: Column, b: Column)
    ensures Before([x] + ks, a, b) <==> (x == a && b in ks) || Before(ks, a, b)
  {
    assert ([x] + ks)[1..] == ks;
  }

  lemma {:induction false} InsertHolds(k: Column, sorted: seq<Column>, x: Column)
    ensures x in Insert(k, sorted) <==> x == k || x in sorted
  {
    InsertMembers(k, sorted);
    assert x in Insert(k, sorted) <==> x in multiset(Insert(k, sorted));
    assert x in sorted <==> x in multiset(sorted);
  }

  lemma {:induction false} InsertKeeps(k: Column, sorted: seq<Column>, a: Column, b: Column)
    requires Before(sorted, a, b)
    ensures Before(Insert(k, sorted), a, b)
  {
    hide SizeOf;
    if SizeOf(sorted[0]).weight > SizeOf(k).weight {
      InsertHolds(k, sorted[1..], b);
      if sorted[0] != a || b !in sorted[1..] {
        InsertKeeps(k, sorted[1..], a, b);
      }
      BeforeCons(sorted[0], Insert(k, sorted[1..]), a, b);
    } else {
      BeforeCons(k, sorted, a, b);
    }
  }

  lemma {:induction false} InsertGoes(k: Column, sorted: seq<Column>, b: Column)
    requires HeaviestFirst(sorted) && b in sorted && SizeOf(b).weight <= SizeOf(k).weight
    ensures Before(Insert(k, sorted), k, b)
  {
    hide SizeOf;
    if SizeOf(sorted[0]).weight > SizeOf(k).weight {
      InsertGoes(k, sorted[1..], b);
      BeforeCons(sorted[0], Insert(k, sorted[1..]), k, b);
    } else {
      BeforeCons(k, sorted, k, b);
    }
  }

  lemma ByWeightHolds(ks: seq<Column>, x: Column)
    ensures x in ByWeight(ks) <==> x in ks
  {
    ByWeightMembers(ks);
    assert x in ByWeight(ks) <==> x in multiset(ByWeight(ks));
    assert x in ks <==> x in multiset(ks);
  }

  lemma {:induction false} ByWeightGoes(ks: seq<Column>, a: Column, b: Column)
    requires Before(ks, a, b) && SizeOf(a).weight == SizeOf(b).weight
    ensures Before(ByWeight(ks), a, b)
  {
    hide SizeOf;
    ByWeightSorted(ks[1..]);
    ByWeightHolds(ks[1..], b);
    if ks[0] == a && b in ks[1..] {
      InsertGoes(a, ByWeight(ks[1..]), b);
    } else {
      ByWeightGoes(ks[1..], a, b);
      InsertKeeps(ks[0], ByWeight(ks[1..]), a, b);
    }
  }

  lemma HeavierFirst(order: seq<Column>, a: Column, b: Column)
    requires HeaviestFirst(order) && a in order && b in order && SizeOf(a).weight > SizeOf(b).weight
    ensures Before(order, a, b)
  {
    hide SizeOf, Before;
    var i, j :| 0 <= i < |order| && 0 <= j < |order| && order[i] == a && order[j] == b;
    assert i < j;
    InOrder(order, i, j);
  }

  /** In the order pixels are given, the one that goes first is before the other. */
  lemma GoesFirstInOrder(others: seq<Column>, a: Column, b: Column)
    requires a in others && b in others && GoesFirst(others, a, b)
    ensures Before(ByWeight(others), a, b)
  {
    hide SizeOf, ByWeight, Before, HeaviestFirst;
    ByWeightSorted(others);
    if SizeOf(a).weight == SizeOf(b).weight {
      ByWeightGoes(others, a, b);
    } else {
      ByWeightHolds(others, a);
      ByWeightHolds(others, b);
      HeavierFirst(ByWeight(others), a, b);
    }
  }

  lemma BeforeInPrefix(ks: seq<Column>, n: nat, a: Column, b: Column)
    requires Distinct(ks) && n <= |ks| && Before(ks, a, b) && b in ks[..n]
    ensures a in ks[..n]
  {
    var i, j := BeforeAt(ks, a, b);
    var m :| 0 <= m < n && ks[m] == b;
    assert m == j;
    assert ks[..n][i] == a;
  }

  /** A pixel that rounding left over goes to the heaviest: none gets one while one that goes first has only its share. */
  lemma HeaviestGivenFirst(out: map<Column, int>, others: seq<Column>, spare: nat, a: Column, b: Column)
    requires Distinct(others) && a in others && b in others && GoesFirst(others, a, b)
    requires Sum(Weights(others)) > 0 && 0 <= LeftOver(others, spare) <= |ByWeight(others)| && GrownAll(out, others, spare)
    ensures var whole := Sum(Weights(others));
      out[b] > SizeOf(b).base + spare * SizeOf(b).weight / whole ==> out[a] > SizeOf(a).base + spare * SizeOf(a).weight / whole
  {
    GoesFirstInOrder(others, a, b);
    OrderOf(others);
    hide SizeOf, ByWeight, Sum, Weights, LeftOver;
    if b in ByWeight(others)[..LeftOver(others, spare)] {
      BeforeInPrefix(ByWeight(others), LeftOver(others, spare), a, b);
    }
  }

  lemma {:induction false} GiversInOrder(ks: seq<Column>, others: seq<Column>, take: int, a: Column, b: Column)
    requires Before(ks, a, b) && a in Givers(ks, others, take) && b in Givers(ks, others, take)
    ensures Before(Givers(ks, others, take), a, b)
  {
    hide SizeOf, Off;
    var rest := Givers(ks[1..], others, take);
    BeforeCons(ks[0], rest, a, b);
    assert [] + rest == rest;
    if ks[0] != a || b !in ks[1..] {
      BeforeBoth(ks[1..], a, b);
      GiversInOrder(ks[1..], others, take, a, b);
    }
  }

  lemma {:induction false} BeforeBoth(ks: seq<Column>, a: Column, b: Column)
    requires Before(ks, a, b)
    ensures a in ks && b in ks
  {
    if ks[0] != a || b !in ks[1..] {
      BeforeBoth(ks[1..], a, b);
    }
  }

  /** A pixel still to take comes off the columns as they are shown: none gives one while an earlier one has only given its share, and could. */
  lemma FirstShownGivesFirst(out: map<Column, int>, others: seq<Column>, take: nat, a: Column, b: Column)
    requires Distinct(others) && Before(others, a, b) && a in others && b in others
    requires 0 <= LeftToTake(others, take) <= |Givers(others, others, take)| && ShrunkAll(out, others, take)
    ensures out[b] < SizeOf(b).base - Off(others, take, b)
      ==> out[a] < SizeOf(a).base - Off(others, take, a) || out[a] <= SizeOf(a).tight
  {
    hide SizeOf, Off, LeftToTake;
    var givers, n := Givers(others, others, take), LeftToTake(others, take);
    GiversDistinct(others, others, take);
    if b in givers[..n] && a in givers {
      GiversInOrder(others, others, take, a, b);
      BeforeInPrefix(givers, n, a, b);
    }
  }

  // ------------------------------------------------------------- the widths

  /** The title's width, when this person has not sized it. */
  predicate TitleSet(out: map<Column, int>, keys: seq<Column>, room: real, kept: map<Column, real>) {
    TitleAuto(keys, kept) ==>
      Title in out && out[Title] == (if Spare(keys, room, kept) >= 0
                                     then TitleWidth(Others(keys, kept), room, Spare(keys, room, kept)) else FLOOR)
  }

  /** The room to spare, or short, once the title has its width. */
  function ToShare(keys: seq<Column>, room: real, kept: map<Column, real>): int {
    var spare := Spare(keys, room, kept);
    if spare >= 0 && TitleAuto(keys, kept) then spare - (TitleWidth(Others(keys, kept), room, spare) - FLOOR) else spare
  }

  lemma ToShareSign(keys: seq<Column>, room: real, kept: map<Column, real>)
    ensures Spare(keys, room, kept) >= 0 <==> ToShare(keys, room, kept) >= 0
  {
  }

  ghost predicate OthersSet(out: map<Column, int>, keys: seq<Column>, room: real, kept: map<Column, real>) {
    var others, share := Others(keys, kept), ToShare(keys, room, kept);
    if share >= 0 then
      others == [] ||
      (Sum(Weights(others)) > 0 && 0 <= LeftOver(others, share) <= |ByWeight(others)| && GrownAll(out, others, share))
    else
      var take := Take(others, -share);
      0 <= LeftToTake(others, take) <= |Givers(others, others, take)| && ShrunkAll(out, others, take)
  }

  predicate KeptSet(out: map<Column, int>, keys: seq<Column>, kept: map<Column, real>) {
    forall k :: k in keys && k in kept ==> k in out && out[k] == ClampTo(k, kept[k])
  }

  lemma {:induction false} TotalSplits(out: map<Column, int>, keys: seq<Column>, kept: map<Column, real>)
    requires Distinct(keys) && (forall k :: k in keys ==> k in out) && KeptSet(out, keys, kept)
    ensures Total(out, keys) == Used(keys, kept) + Total(out, Others(keys, kept)) + (if TitleAuto(keys, kept) then out[Title] else 0)
  {
    if keys != [] {
      var rest := keys[1..];
      assert keys[0] in keys && keys[0] !in rest && forall k :: k in rest ==> k in keys;
      TotalSplits(out, rest, kept);
      hide ClampTo;
      if keys[0] !in kept && keys[0] != Title {
        assert Others(keys, kept)[1..] == Others(rest, kept);
      } else {
        assert Others(keys, kept) == Others(rest, kept);
      }
    }
  }

  /** Enough room, or enough to give up; and a column at least that is nobody's size. */
  predicate Fits(keys: seq<Column>, room: real, kept: map<Column, real>) {
    var spare := Spare(keys, room, kept);
    && -spare <= Sum(Gives(Others(keys, kept)))
    && (TitleAuto(keys, kept) || Others(keys, kept) != [])
  }

  /** Widths are whole pixels, and fill the room exactly while they can. */
  lemma WidthsFillTheRoom(out: map<Column, int>, keys: seq<Column>, room: real, kept: map<Column, real>)
    requires Distinct(keys) && Fits(keys, room, kept) && (forall k :: k in keys ==> k in out)
    requires KeptSet(out, keys, kept) && TitleSet(out, keys, room, kept) && OthersSet(out, keys, room, kept)
    ensures Total(out, keys) == room.Floor
  {
    hide SizeOf, Used, Total, Bases, Sum, Weights, Gives, ByWeight, Givers, LeftOver, LeftToTake, GrownAll, ShrunkAll, ClampTo,
      KeptSet, TitleWidth;
    var others, share := Others(keys, kept), ToShare(keys, room, kept);
    TotalSplits(out, keys, kept);
    OthersDistinct(keys, kept);
    SumPositive(others);
    ToShareSign(keys, room, kept);
    if share >= 0 {
      if others != [] {
        GrownFillsTheRoom(out, others, share);
      } else {
        NoOthers(out);
        AloneTakesAll(room, share);
      }
    } else {
      ShrunkFitsTheRoom(out, others, -share);
    }
  }

  lemma AloneTakesAll(room: real, spare: int)
    ensures forall n: nat :: TitleWidth([], room, n) == FLOOR + n
  {
  }

  /** Too short for that, every column keeps its words whole, and the table is wider than its room. */
  lemma TooShortKeepsWords(out: map<Column, int>, keys: seq<Column>, room: real, kept: map<Column, real>)
    requires Distinct(keys) && (forall k :: k in keys ==> k in out)
    requires -Spare(keys, room, kept) > Sum(Gives(Others(keys, kept)))
    requires KeptSet(out, keys, kept) && TitleSet(out, keys, room, kept) && OthersSet(out, keys, room, kept)
    ensures forall k :: k in Others(keys, kept) ==> out[k] == SizeOf(k).base
    ensures Total(out, keys) == room.Floor - Spare(keys, room, kept) > room.Floor
  {
    hide SizeOf, Used, Total, Bases, Sum, Weights, Gives, ByWeight, ClampTo, KeptSet, TitleWidth, Shares, Givers, GrownAll;
    var others := Others(keys, kept);
    SumPositive(others);
    ToShareSign(keys, room, kept);
    TotalSplits(out, keys, kept);
    OthersDistinct(keys, kept);
    NothingTaken(others);
    ShrunkFitsTheRoom(out, others, 0);
  }

  lemma NothingTaken(others: seq<Column>)
    requires Sum(Gives(others)) >= 0
    ensures LeftToTake(others, 0) == 0 && forall k :: Off(others, 0, k) == 0
  {
    hide SizeOf;
    if Sum(Gives(others)) > 0 {
      NoneShared(Gives(others), Sum(Gives(others)));
    }
  }

  lemma {:induction false} NoneShared(parts: seq<int>, whole: int)
    requires whole > 0
    ensures Sum(Shares(parts, 0, whole)) == 0
  {
    if parts != [] {
      NoneShared(parts[1..], whole);
      assert Shares(parts, 0, whole)[1..] == Shares(parts[1..], 0, whole);
      assert 0 * parts[0] == 0;
    }
  }

  lemma NoOthers(out: map<Column, int>)
    ensures Sum(Bases([])) == 0 && Total(out, []) == 0
  {
  }

  // ------------------------------------------------------------- the function

  /**
   * An unsized title's width: 240 pixels or more, and never more than the room to spare allows. Alone it takes all of
   * that; beside others it stops at a quarter of the room, in whole pixels, and only there.
   */
  predicate TitleRight(w: int, alone: bool, room: real, spare: int) {
    && 240 <= w <= 240 + Max(spare, 0)
    && (w == 240 + Max(spare, 0) || (!alone && room * 0.25 < (w + 1) as real))
    && (w == 240 || alone || w as real <= room * 0.25)
  }

  lemma TitleIsRight(others: seq<Column>, room: real, spare: int)
    ensures TitleRight(if spare >= 0 then TitleWidth(others, room, spare) else FLOOR, others == [], room, spare)
  {
  }

  /** The whole pixel nearest to `w`, a half going up, within the column's bounds. */
  predicate Nearest(k: Column, w: real, c: int) {
    && SizeOf(k).min <= c <= SizeOf(k).max
    && (c == SizeOf(k).min || c as real - 0.5 <= w)
    && (c == SizeOf(k).max || w < c as real + 0.5)
  }

  lemma ClampIsNearest(k: Column, w: real)
    ensures Nearest(k, w, ClampTo(k, w))
  {
  }

  /** Each column's width, for these columns in `room`, some sized by this person. */
  method WidthsOf(keys: seq<Column>, room: real, kept: map<Column, real>) returns (out: map<Column, int>)
    requires Distinct(keys)
    ensures forall k :: k in out <==> k in keys
    ensures KeptSet(out, keys, kept) && TitleSet(out, keys, room, kept) && OthersSet(out, keys, room, kept)
    ensures TitleAuto(keys, kept) ==> TitleRight(out[Title], Others(keys, kept) == [], room, Spare(keys, room, kept))
    ensures forall k :: k in keys && k in kept ==> Nearest(k, kept[k], out[k])
    ensures Fits(keys, room, kept) ==> Total(out, keys) == room.Floor
  {
    hide SizeOf, ClampTo, Sum, Bases, Total, Used, Weights, Gives, ByWeight, Givers, GrownAll, ShrunkAll, TitleWidth, Fits, Take,
      LeftOver, LeftToTake, Nearest, TitleRight;
    var sized, used, others, titleAuto := Split(keys, kept);
    OthersDistinct(keys, kept);
    out := Fill(others, titleAuto, room, room.Floor - used - Sum(Bases(others)) - (if titleAuto then FLOOR else 0), sized);
    ToShareSign(keys, room, kept);
    assert KeptSet(out, keys, kept);
    TitleIsRight(others, room, Spare(keys, room, kept));
    forall k | k in keys && k in kept
      ensures Nearest(k, kept[k], out[k])
    {
      ClampIsNearest(k, kept[k]);
    }
    if Fits(keys, room, kept) {
      WidthsFillTheRoom(out, keys, room, kept);
    }
  }

  /** Which columns this person sized, and how wide; and which are the table's to size. */
  method Split(keys: seq<Column>, kept: map<Column, real>)
    returns (out: map<Column, int>, used: int, others: seq<Column>, titleAuto: bool)
    ensures forall k :: k in out <==> k in keys && k in kept
    ensures forall k :: k in out ==> out[k] == ClampTo(k, kept[k])
    ensures used == Used(keys, kept) && others == Others(keys, kept) && titleAuto == TitleAuto(keys, kept)
  {
    hide ClampTo, Others, Used;
    NoneAfter(kept);
    out, used, others, titleAuto := map[], 0, [], false;
    for i := 0 to |keys|
      invariant forall k :: k in out <==> k in keys[..i] && k in kept
      invariant forall k :: k in out ==> out[k] == ClampTo(k, kept[k])
      invariant others + Others(keys[i..], kept) == Others(keys, kept)
      invariant used + Used(keys[i..], kept) == Used(keys, kept)
      invariant titleAuto == (Title in keys[..i] && Title !in kept)
    {
      var k := keys[i];
      assert keys[i..][0] == k && keys[i..][1..] == keys[i + 1..] && keys[..i + 1] == keys[..i] + [k];
      NextColumn(keys[i..], kept);
      if k !in kept {
        if k == Title {
          titleAuto := true;
        } else {
          others := others + [k];
        }
      } else {
        out := out[k := ClampTo(k, kept[k])];
        used := used + out[k];
      }
    }
    assert keys[|keys|..] == [] && keys[..|keys|] == keys;
  }

  lemma NoneAfter(kept: map<Column, real>)
    ensures Others([], kept) == [] && Used([], kept) == 0
  {
  }

  lemma NextColumn(keys: seq<Column>, kept: map<Column, real>)
    requires keys != []
    ensures Others(keys, kept) == (if keys[0] !in kept && keys[0] != Title then [keys[0]] else []) + Others(keys[1..], kept)
    ensures Used(keys, kept) == (if keys[0] in kept then ClampTo(keys[0], kept[keys[0]]) else 0) + Used(keys[1..], kept)
  {
    hide ClampTo;
  }

  /** The columns nobody sized, in what room is to spare, or as short of it as they are. */
  method Fill(others: seq<Column>, titleAuto: bool, room: real, left: int, sized: map<Column, int>) returns (out: map<Column, int>)
    requires Distinct(others) && (forall k :: k in others ==> k != Title && k !in sized) && (titleAuto ==> Title !in sized)
    ensures forall k :: k in out <==> k in sized || k in others || (titleAuto && k == Title)
    ensures forall k :: k in sized ==> out[k] == sized[k]
    ensures titleAuto ==> out[Title] == if left >= 0 then TitleWidth(others, room, left) else FLOOR
    ensures var share := if left >= 0 && titleAuto then left - (TitleWidth(others, room, left) - FLOOR) else left;
      if share >= 0 then
        others == [] ||
        (Sum(Weights(others)) > 0 && 0 <= LeftOver(others, share) <= |ByWeight(others)| && GrownAll(out, others, share))
      else
        var take := Take(others, -share);
        0 <= LeftToTake(others, take) <= |Givers(others, others, take)| && ShrunkAll(out, others, take)
  {
    hide SizeOf, Sum, Weights, Gives, ByWeight, Givers, GrownAll, ShrunkAll, LeftOver, LeftToTake;
    SumPositive(others);
    var spare := left;
    out := sized;
    if spare >= 0 {
      if titleAuto {
        var title := if others == [] then FLOOR + spare else Min(FLOOR + spare, Max(FLOOR, (room * 0.25).Floor));
        out := out[Title := title];
        spare := spare - (title - FLOOR);
      }
      out := Grow(others, spare, out);
      return;
    }
    if titleAuto {
      out := out[Title := FLOOR];
    }
    var short := -spare;
    out := Shrink(others, if short <= Sum(Gives(others)) then short else 0, out);
  }

  method Grow(others: seq<Column>, spare: nat, sized: map<Column, int>) returns (out: map<Column, int>)
    requires Distinct(others) && forall k :: k in others ==> k != Title && k !in sized
    ensures forall k :: k in out <==> k in sized || k in others
    ensures forall k :: k in sized ==> out[k] == sized[k]
    ensures others == [] ||
      (Sum(Weights(others)) > 0 && 0 <= LeftOver(others, spare) <= |ByWeight(others)| && GrownAll(out, others, spare))
  {
    hide SizeOf, Sum, Weights, ByWeight;
    if others == [] {
      return sized;
    }
    LeftOverFits(others, spare);
    var given;
    out, given := ShareOut(others, spare, Sum(Weights(others)), sized);
    out := GiveLeft(others, spare, given, out);
  }

  /** Each its whole share of the room, by its weight. */
  method ShareOut(others: seq<Column>, spare: nat, weights: int, sized: map<Column, int>) returns (out: map<Column, int>, given: int)
    requires Distinct(others) && weights > 0 && forall k :: k in others ==> k !in sized
    ensures forall k :: k in out <==> k in sized || k in others
    ensures forall k :: k in sized ==> out[k] == sized[k]
    ensures forall k :: k in others ==> out[k] == SizeOf(k).base + spare * SizeOf(k).weight / weights
    ensures given == Sum(Shares(Weights(others), spare, weights))
  {
    hide SizeOf, Sum, Weights, Shares;
    NoShares(spare, weights);
    out, given := sized, 0;
    for j := 0 to |others|
      invariant forall k :: k in out <==> k in sized || k in others[..j]
      invariant forall k :: k in sized ==> out[k] == sized[k]
      invariant forall k :: k in others[..j] ==> out[k] == SizeOf(k).base + spare * SizeOf(k).weight / weights
      invariant given + Sum(Shares(Weights(others[j..]), spare, weights)) == Sum(Shares(Weights(others), spare, weights))
    {
      var k := others[j];
      NextShare(others[j..], spare, weights);
      assert others[j..][0] == k && others[j..][1..] == others[j + 1..] && others[..j + 1] == others[..j] + [k];
      assert k !in others[..j] && k in others;
      var extra := spare * SizeOf(k).weight / weights;
      out := out[k := SizeOf(k).base + extra];
      given := given + extra;
    }
    assert others[..|others|] == others && others[|others|..] == [];
  }

  lemma NoShares(total: int, whole: int)
    requires whole > 0
    ensures Sum(Shares(Weights([]), total, whole)) == 0 && Sum(Shares(Gives([]), total, whole)) == 0
  {
  }

  /** What rounding left over: a pixel each, the heaviest first. */
  method GiveLeft(others: seq<Column>, spare: nat, shared: int, whole: map<Column, int>) returns (out: map<Column, int>)
    requires Distinct(others) && Sum(Weights(others)) > 0 && 0 <= LeftOver(others, spare) < |ByWeight(others)|
    requires shared + LeftOver(others, spare) == spare
    requires forall k :: k in others ==> k in whole && whole[k] == SizeOf(k).base + spare * SizeOf(k).weight / Sum(Weights(others))
    ensures (forall k :: k in out <==> k in whole) && forall k :: k in whole && k !in others ==> out[k] == whole[k]
    ensures GrownAll(out, others, spare)
  {
    hide SizeOf, Sum, Weights, ByWeight;
    out := whole;
    var given := shared;
    var order := ByWeight(others);
    OrderOf(others);
    var i := 0;
    while given < spare && |order| > 0
      invariant 0 <= i <= LeftOver(others, spare) && given == shared + i
      invariant forall k :: k in out <==> k in whole
      invariant forall k :: k in whole && k !in others ==> out[k] == whole[k]
      invariant forall k :: k in others ==> out[k] == whole[k] + (if k in order[..i] then 1 else 0)
      decreases spare - given
    {
      InOnePass(i, |order|);
      var k := order[i % |order|];
      assert order[..i + 1] == order[..i] + [k];
      assert k in order && k !in order[..i];
      out := out[k := out[k] + 1];
      i := i + 1;
      given := given + 1;
    }
  }

  lemma NextShare(ks: seq<Column>, spare: int, whole: int)
    requires ks != [] && whole > 0
    ensures Sum(Shares(Weights(ks), spare, whole)) == spare * SizeOf(ks[0]).weight / whole + Sum(Shares(Weights(ks[1..]), spare, whole))
  {
    assert Weights(ks)[1..] == Weights(ks[1..]);
    assert Shares(Weights(ks), spare, whole)[1..] == Shares(Weights(ks[1..]), spare, whole);
  }

  lemma NextOff(ks: seq<Column>, take: int, whole: int)
    requires ks != [] && whole > 0
    ensures Sum(Shares(Gives(ks), take, whole))
            == take * (SizeOf(ks[0]).base - SizeOf(ks[0]).tight) / whole + Sum(Shares(Gives(ks[1..]), take, whole))
  {
    assert Gives(ks)[1..] == Gives(ks[1..]);
    assert Shares(Gives(ks), take, whole)[1..] == Shares(Gives(ks[1..]), take, whole);
  }

  lemma OrderOf(others: seq<Column>)
    requires Distinct(others)
    ensures Distinct(ByWeight(others)) && forall k :: k in ByWeight(others) <==> k in others
  {
    ByWeightMembers(others);
    DistinctByMultiset(others, ByWeight(others));
    forall k
      ensures k in ByWeight(others) <==> k in others
    {
      assert k in ByWeight(others) <==> k in multiset(ByWeight(others));
      assert k in others <==> k in multiset(others);
    }
  }

  lemma {:induction false} GiversSplit(a: seq<Column>, b: seq<Column>, others: seq<Column>, take: int)
    ensures Givers(a + b, others, take) == Givers(a, others, take) + Givers(b, others, take)
  {
    if a == [] {
      assert a + b == b;
    } else {
      assert (a + b)[1..] == a[1..] + b;
      GiversSplit(a[1..], b, others, take);
    }
  }

  method Shrink(others: seq<Column>, take: nat, sized: map<Column, int>) returns (out: map<Column, int>)
    requires Distinct(others) && (forall k :: k in others ==> k != Title && k !in sized) && take <= Sum(Gives(others))
    ensures forall k :: k in out <==> k in sized || k in others
    ensures forall k :: k in sized ==> out[k] == sized[k]
    ensures 0 <= LeftToTake(others, take) <= |Givers(others, others, take)| && ShrunkAll(out, others, take)
  {
    hide SizeOf, Sum, Gives, Givers, Off;
    LeftToTakeFits(others, take);
    var taken;
    out, taken := TakeShares(others, take, sized);
    out := TakeLeft(others, take, taken, out);
  }

  /** From each its whole share of what is to take, by what it can give. */
  method TakeShares(others: seq<Column>, take: nat, sized: map<Column, int>) returns (out: map<Column, int>, taken: int)
    requires Distinct(others) && (forall k :: k in others ==> k != Title && k !in sized) && take <= Sum(Gives(others))
    ensures forall k :: k in out <==> k in sized || k in others
    ensures forall k :: k in sized ==> out[k] == sized[k]
    ensures forall k :: k in others ==> out[k] == SizeOf(k).base - Off(others, take, k)
    ensures taken + LeftToTake(others, take) == take
  {
    hide SizeOf, Sum, Gives, Shares;
    var slack := Sum(Gives(others));
    out, taken := sized, 0;
    for j := 0 to |others|
      invariant forall k :: k in out <==> k in sized || k in others[..j]
      invariant forall k :: k in sized ==> out[k] == sized[k]
      invariant forall k :: k in others[..j] ==> out[k] == SizeOf(k).base - Off(others, take, k)
      invariant (if slack > 0 then taken + Sum(Shares(Gives(others[j..]), take, slack)) == Sum(Shares(Gives(others), take, slack))
                 else taken == 0)
    {
      var k := others[j];
      if slack > 0 {
        NextOff(others[j..], take, slack);
      }
      assert others[j..][0] == k && others[j..][1..] == others[j + 1..] && others[..j + 1] == others[..j] + [k];
      assert k !in others[..j] && k in others;
      var off := if slack > 0 then take * (SizeOf(k).base - SizeOf(k).tight) / slack else 0;
      out := out[k := SizeOf(k).base - off];
      taken := taken + off;
    }
    assert others[..|others|] == others && others[|others|..] == [];
    if slack > 0 {
      NoShares(take, slack);
    }
  }

  /** The pixels rounding did not take, one from each column still above its tight width: one pass over them is enough. */
  method TakeLeft(others: seq<Column>, take: nat, already: int, whole: map<Column, int>) returns (out: map<Column, int>)
    requires Distinct(others) && 0 <= LeftToTake(others, take) <= |Givers(others, others, take)|
    requires already + LeftToTake(others, take) == take
    requires forall k :: k in others ==> k in whole && whole[k] == SizeOf(k).base - Off(others, take, k)
    ensures (forall k :: k in out <==> k in whole) && forall k :: k in whole && k !in others ==> out[k] == whole[k]
    ensures ShrunkAll(out, others, take)
  {
    hide SizeOf, Off, LeftToTake, Givers, Distinct;
    out := whole;
    var taken := already;
    ghost var givers := Givers(others, others, take);
    var i := 0;
    ghost var given: seq<Column> := [];
    NoGivers(others, take);
    assert others[..0] == [];
    while taken < take
      invariant 0 <= i <= |others| && already <= taken <= take
      invariant given == Givers(others[..i], others, take)
      invariant given <= givers && |given| == taken - already
      invariant forall k :: k in out <==> k in whole
      invariant forall k :: k in whole && k !in others ==> out[k] == whole[k]
      invariant forall k :: k in others ==> out[k] == whole[k] - (if k in given then 1 else 0)
      decreases |others| - i
    {
      MoreToGive(others, i, take, taken - already);
      InOnePass(i, |others|);
      var k := others[i % |others|];
      NotYetCome(others, i, take);
      if out[k] > SizeOf(k).tight {
        out := out[k := out[k] - 1];
        taken := taken + 1;
        given := given + [k];
      }
      i := i + 1;
    }
    AllTaken(given, givers, LeftToTake(others, take));
  }

  lemma InOnePass(i: nat, n: nat)
    requires i < n
    ensures i % n == i
  {
  }

  lemma AllTaken(given: seq<Column>, givers: seq<Column>, n: nat)
    requires given <= givers && |given| == n
    ensures givers[..n] == given
  {
  }

  /** While any is left to take, some column not yet come to can give; and what the next one gives is next. */
  lemma MoreToGive(others: seq<Column>, i: nat, take: nat, got: nat)
    requires i <= |others| && got == |Givers(others[..i], others, take)| && got < |Givers(others, others, take)|
    ensures i < |others|
    ensures var k := others[i];
      Givers(others[..i + 1], others, take) ==
      Givers(others[..i], others, take) + (if SizeOf(k).base - Off(others, take, k) > SizeOf(k).tight then [k] else [])
    ensures Givers(others[..i + 1], others, take) <= Givers(others, others, take)
  {
    hide SizeOf, Off;
    assert others[..|others|] == others;
    if i < |others| {
      var k := others[i];
      assert others[..i + 1] == others[..i] + [k];
      GiversSplit(others[..i], [k], others, take);
      GiverAlone(k, others, take);
      assert others == others[..i + 1] + others[i + 1..];
      GiversSplit(others[..i + 1], others[i + 1..], others, take);
    }
  }

  lemma NotYetCome(others: seq<Column>, i: nat, take: nat)
    requires Distinct(others) && i < |others|
    ensures others[i] in others && others[i] !in Givers(others[..i], others, take)
  {
    assert others[i] !in others[..i];
  }

  lemma NoGivers(others: seq<Column>, take: nat)
    ensures Givers([], others, take) == []
  {
  }

  lemma GiverAlone(k: Column, others: seq<Column>, take: nat)
    ensures Givers([k], others, take) == if SizeOf(k).base - Off(others, take, k) > SizeOf(k).tight then [k] else []
  {
    assert Givers([k][1..], others, take) == [];
  }

  // ------------------------------------------------------------- widths kept, and fitted

  lemma ClampedStays(k: Column, w: real)
    ensures SizeOf(k).min <= ClampTo(k, w) <= SizeOf(k).max
    ensures ClampTo(k, ClampTo(k, w) as real) == ClampTo(k, w)
  {
  }

  /** Kept widths, as read back: each a column's, within its bounds. */
  function ReadKept(kept: map<Column, real>): map<Column, real> {
    map k | k in kept :: ClampTo(k, kept[k]) as real
  }

  /** Widths kept and read back draw the table as it was; and read twice are the same. */
  lemma KeptReadsBack(keys: seq<Column>, kept: map<Column, real>, out: map<Column, int>)
    ensures ReadKept(ReadKept(kept)) == ReadKept(kept)
    ensures KeptSet(out, keys, ReadKept(kept)) <==> KeptSet(out, keys, kept)
  {
    forall k | k in kept
      ensures ClampTo(k, ReadKept(kept)[k]) == ClampTo(k, kept[k])
    {
      ClampedStays(k, kept[k]);
    }
  }

  function Widest(widths: seq<real>): (r: real)
    ensures r >= 0.0 && forall w :: w in widths ==> w <= r
    ensures r == 0.0 || r in widths
  {
    if widths == [] then 0.0
    else
      assert forall w :: w in widths ==> w == widths[0] || w in widths[1..];
      var rest := Widest(widths[1..]);
      if widths[0] > rest then widths[0] else rest
  }

  function Ceil(w: real): int {
    if w.Floor as real == w then w.Floor else w.Floor + 1
  }

  function FitWidth(k: Column, widths: seq<real>): int {
    ClampTo(k, Ceil(Widest(widths)) as real)
  }

  /** A fitted column holds the widest of what it shows, whole, unless that is over its most; and is less than a pixel too wide, unless that is its least. */
  lemma FitHolds(k: Column, widths: seq<real>)
    ensures FitWidth(k, widths) == SizeOf(k).max || forall w :: w in widths ==> w <= FitWidth(k, widths) as real
    ensures FitWidth(k, widths) == SizeOf(k).min || (FitWidth(k, widths) - 1) as real < Widest(widths)
  {
    hide SizeOf;
    CeilHolds(Widest(widths));
  }

  lemma CeilHolds(w: real)
    ensures w <= Ceil(w) as real < w + 1.0 && Round(Ceil(w) as real) == Ceil(w)
  {
  }
}
