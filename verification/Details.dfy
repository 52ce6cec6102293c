/**
 * Numbers and amounts on a document's card (apps/web/src/details.tsx): printed to be typed
 * over, and read as typed; a number as its decimal digits and where its point is.
 */
module Details {
  import opened Text

  /** `0.d1 d2 … dk` times ten to the `point`: no zero first, none last. */
  datatype Decimal = Zero | Dec(neg: bool, digits: string, point: int)

  predicate Digit(c: char) {
    '0' <= c <= '9'
  }

  predicate Digits(s: string) {
    forall i :: 0 <= i < |s| ==> Digit(s[i])
  }

  predicate Normal(x: Decimal) {
    x.Dec? ==> x.digits != "" && Digits(x.digits) && x.digits[0] != '0' && x.digits[|x.digits| - 1] != '0'
  }

  function Zeros(n: nat): (s: string)
    ensures |s| == n && forall i :: 0 <= i < n ==> s[i] == '0'
  {
    seq(n, i => '0')
  }

  // ------------------------------------------------------------- printing

  function DigitOf(d: nat): char
    requires d < 10
  {
    "0123456789"[d]
  }

  function NatText(n: nat): (s: string)
    ensures s != ""
  {
    if n < 10 then [DigitOf(n)] else NatText(n / 10) + [DigitOf(n % 10)]
  }

  function Sign(neg: bool): string {
    if neg then "-" else ""
  }

  /** A number's digits with an exponent: where it is too big or too small to be written out. */
  function Exponent(d: string, n: int): string
    requires d != ""
  {
    [d[0]] + (if |d| > 1 then "." + d[1..] else "") + "e" + (if n > 0 then "+" + NatText(n - 1) else "-" + NatText(1 - n))
  }

  /** Digits written out, or with an exponent, as `String` writes a number. */
  function Written(d: string, n: int): string
    requires d != ""
  {
    if |d| <= n <= 21 then d + Zeros(n - |d|)
    else if 0 < n <= 21 then d[..n] + "." + d[n..]
    else if -6 < n <= 0 then "0." + Zeros(-n) + d
    else Exponent(d, n)
  }

  function NumberText(x: Decimal): string
    requires Normal(x)
  {
    if x.Zero? then "0" else Sign(x.neg) + Written(x.digits, x.point)
  }

  predicate Whole(x: Decimal) {
    x.Dec? ==> |x.digits| <= x.point
  }

  /** At most two decimals. */
  predicate Amount(x: Decimal) {
    Normal(x) && (x.Dec? ==> |x.digits| <= x.point + 2)
  }

  /** With two decimals, always, as `toFixed(2)` writes an amount that has some. */
  function Fixed(x: Decimal): string
    requires Amount(x) && !Whole(x)
  {
    var d, n := x.digits, x.point;
    Sign(x.neg)
    + (if n > 0 then d[..n] + "." + d[n..] + Zeros(n + 2 - |d|) else "0." + Zeros(-n) + d + Zeros(n + 2 - |d|))
  }

  /** An amount as the card shows it: `12`, `12.50`. */
  function MoneyText(x: Decimal): string
    requires Amount(x)
  {
    if Whole(x) then NumberText(x) else Fixed(x)
  }

  // ------------------------------------------------------------- reading

  function Without(s: string, gone: string): (r: string)
    ensures forall i :: 0 <= i < |r| ==> r[i] in s && r[i] !in gone
  {
    if s == "" then "" else (if s[0] in gone then "" else [s[0]]) + Without(s[1..], gone)
  }

  function NoSpaces(s: string): string {
    if s == "" then "" else (if IsSpace(s[0]) then "" else [s[0]]) + NoSpaces(s[1..])
  }

  function IndexOf(s: string, c: char): (r: nat)
    ensures r <= |s| && (forall i :: 0 <= i < r ==> s[i] != c) && (r < |s| ==> s[r] == c)
  {
    if s == "" || s[0] == c then 0 else IndexOf(s[1..], c) + 1
  }

  function Unsigned(s: string, signs: string): string {
    if s != "" && s[0] in signs then s[1..] else s
  }

  /** Groups of three after the first, each after its comma, to the end. */
  predicate Groups(s: string) {
    |s| >= 4 && s[0] == ',' && Digits(s[1..4]) && (|s| == 4 || Groups(s[4..]))
  }

  /** A comma only where it groups thousands: one to three digits, then groups of three, then a point and any digits. */
  predicate Thousands(s: string) {
    var u := Unsigned(s, "-+");
    var whole := u[..IndexOf(u, '.')];
    var lead := IndexOf(whole, ',');
    && 1 <= lead <= 3 && Digits(whole[..lead]) && Groups(whole[lead..])
    && (|whole| < |u| ==> Digits(u[|whole| + 1..]))
  }

  function ZerosFirst(s: string): (z: nat)
    ensures z <= |s| && (forall i :: 0 <= i < z ==> s[i] == '0') && (z < |s| ==> s[z] != '0')
  {
    if s != "" && s[0] == '0' then ZerosFirst(s[1..]) + 1 else 0
  }

  function NoZerosLast(s: string): (r: string)
    ensures r <= s && (r != "" ==> r[|r| - 1] != '0') && forall i :: |r| <= i < |s| ==> s[i] == '0'
  {
    if s != "" && s[|s| - 1] == '0' then NoZerosLast(s[..|s| - 1]) else s
  }

  /** The number of these digits, its point after the first `point` of them. */
  function Value(neg: bool, digits: string, point: int): (x: Decimal)
    requires Digits(digits)
    ensures Normal(x)
  {
    var z := ZerosFirst(digits);
    var d := NoZerosLast(digits[z..]);
    if d == "" then Zero else Dec(neg, d, point - z)
  }

  /** Nothing typed; a number; or words for why it cannot be read. */
  datatype Read = Nothing | Read(value: Decimal) | Refused

  /** A number: a sign, digits, and a point anywhere among or around them. */
  function ReadPlain(s: string): (r: Read)
    ensures r.Read? ==> Normal(r.value)
  {
    var u := Unsigned(s, "-+");
    var at := IndexOf(u, '.');
    var whole, rest := u[..at], if at < |u| then u[at + 1..] else "";
    if Digits(whole) && Digits(rest) && |whole| + |rest| > 0
    then Read(Value(s != "" && s[0] == '-', whole + rest, |whole|))
    else Refused
  }

  /** An amount: no plus, and one or two decimals after a point if there is one. */
  function ReadPence(s: string): (r: Read)
    ensures r.Read? ==> Normal(r.value)
  {
    var u := Unsigned(s, "-");
    var at := IndexOf(u, '.');
    var whole, rest := u[..at], if at < |u| then u[at + 1..] else "";
    if Digits(whole) && Digits(rest) && (if at < |u| then 1 <= |rest| <= 2 else whole != "")
    then Read(Value(s != "" && s[0] == '-', whole + rest, |whole|))
    else Refused
  }

  function ReadNumber(input: string): (r: Read)
    ensures r.Read? ==> Normal(r.value)
  {
    var typed := NoSpaces(input);
    if Blank(input) then Nothing
    else if ',' in typed && !Thousands(typed) then Refused else ReadPlain(Without(typed, ","))
  }

  function ReadMoney(input: string): (r: Read)
    ensures r.Read? ==> Normal(r.value)
  {
    var typed := Without(NoSpaces(input), "£$€");
    if Blank(input) then Nothing
    else if ',' in typed && !Thousands(typed) then Refused else ReadPence(Without(typed, ","))
  }

  // ------------------------------------------------------------- what is typed over reads back

  /** What printing writes: no space, no mark, no comma. */
  predicate Plain(s: string) {
    forall i :: 0 <= i < |s| ==> Digit(s[i]) || s[i] in "-.e+"
  }

  lemma PlainChar(c: char)
    requires Digit(c) || c in "-.e+"
    ensures !IsSpace(c) && c != ',' && c !in "£$€"
  {
  }

  lemma {:induction false} PlainStays(s: string)
    requires Plain(s)
    ensures NoSpaces(s) == s && Without(s, "£$€") == s && Without(s, ",") == s && ',' !in s
  {
    hide IsSpace, Digit;
    if s != "" {
      assert Plain(s[1..]);
      PlainStays(s[1..]);
      PlainChar(s[0]);
      assert s == [s[0]] + s[1..];
    }
  }

  lemma PlainIsRead(s: string)
    requires Plain(s) && s != ""
    ensures ReadNumber(s) == ReadPlain(s) && ReadMoney(s) == ReadPence(s)
  {
    hide IsSpace, ReadPlain, ReadPence, Thousands, Plain, Without, NoSpaces;
    PlainStays(s);
    assert !Blank(s) by {
      NotBlank(s);
    }
  }

  lemma NotBlank(s: string)
    requires Plain(s) && s != ""
    ensures !Blank(s)
  {
    PlainChar(s[0]);
    PlainChar(s[|s| - 1]);
    hide IsSpace, Digit;
  }

  lemma {:induction false} IndexIs(s: string, c: char, at: nat)
    requires at <= |s| && (forall i :: 0 <= i < at ==> s[i] != c) && (at < |s| ==> s[at] == c)
    ensures IndexOf(s, c) == at
  {
    var r := IndexOf(s, c);
  }

  lemma ZerosFirstIs(s: string, z: nat)
    requires z <= |s| && (forall i :: 0 <= i < z ==> s[i] == '0') && (z < |s| ==> s[z] != '0')
    ensures ZerosFirst(s) == z
  {
    var r := ZerosFirst(s);
  }

  lemma {:induction false} NoZerosLastIs(d: string, n: nat)
    requires d != "" && d[|d| - 1] != '0'
    ensures NoZerosLast(d + Zeros(n)) == d
    decreases n
  {
    var s := d + Zeros(n);
    if n > 0 {
      assert s[..|s| - 1] == d + Zeros(n - 1);
      NoZerosLastIs(d, n - 1);
    } else {
      assert s == d;
    }
  }

  /** Zeros before and after are of no account. */
  lemma ValueOf(neg: bool, z: nat, d: string, after: nat, point: int)
    requires d != "" && Digits(d) && d[0] != '0' && d[|d| - 1] != '0'
    ensures Digits(Zeros(z) + d + Zeros(after)) && Value(neg, Zeros(z) + d + Zeros(after), point) == Dec(neg, d, point - z)
  {
    var s := Zeros(z) + d + Zeros(after);
    assert s[z] == d[0];
    ZerosFirstIs(s, z);
    assert s[z..] == d + Zeros(after);
    NoZerosLastIs(d, after);
  }

  lemma ReadsSigned(neg: bool, body: string)
    requires body != "" && body[0] != '-' && body[0] != '+'
    ensures var s := Sign(neg) + body;
      && Unsigned(s, "-+") == body && Unsigned(s, "-") == body && (s != "" && s[0] == '-' <==> neg)
  {
    var s := Sign(neg) + body;
    if neg {
      assert s[1..] == body;
    } else {
      assert s == body;
    }
  }

  lemma SplitAt(neg: bool, whole: string, tail: string)
    requires Digits(whole) && whole != "" && (tail == "" || tail[0] == '.')
    ensures var s, body := Sign(neg) + (whole + tail), whole + tail;
      && Unsigned(s, "-+") == Unsigned(s, "-") == body && (s != "" && s[0] == '-' <==> neg)
      && IndexOf(body, '.') == |whole| && body[..|whole|] == whole
      && (tail != "" ==> |whole| < |body| && body[|whole| + 1..] == tail[1..])
  {
    var body := whole + tail;
    assert body[0] == whole[0] && Digit(whole[0]);
    ReadsSigned(neg, body);
    hide Unsigned;
    forall i | 0 <= i < |whole|
      ensures body[i] != '.'
    {
      assert body[i] == whole[i] && Digit(whole[i]);
    }
    IndexIs(body, '.', |whole|);
    if tail != "" {
      assert body[|whole| + 1..] == tail[1..];
    }
  }

  /** Digits with no point among them, read. */
  lemma ReadDigits(neg: bool, whole: string)
    requires Digits(whole) && whole != ""
    ensures ReadPlain(Sign(neg) + whole) == ReadPence(Sign(neg) + whole) == Read(Value(neg, whole, |whole|))
  {
    SplitAt(neg, whole, "");
    assert whole + "" == whole;
    hide Unsigned, IndexOf, Value, Digits, Sign;
  }

  /** Digits either side of a point, read. */
  lemma ReadParts(neg: bool, whole: string, rest: string)
    requires Digits(whole) && Digits(rest) && whole != ""
    ensures Digits(whole + rest)
    ensures ReadPlain(Sign(neg) + (whole + ("." + rest))) == Read(Value(neg, whole + rest, |whole|))
    ensures 1 <= |rest| <= 2 ==> ReadPence(Sign(neg) + (whole + ("." + rest))) == Read(Value(neg, whole + rest, |whole|))
  {
    hide Unsigned, IndexOf, Value, Sign;
    DigitsJoined(whole, rest);
    SplitAt(neg, whole, "." + rest);
    assert ("." + rest)[1..] == rest;
    hide Digits;
  }

  lemma DigitsJoined(a: string, b: string)
    requires Digits(a) && Digits(b)
    ensures Digits(a + b)
  {
  }

  lemma ReadWhole(neg: bool, d: string, n: nat)
    requires Normal(Dec(neg, d, n)) && |d| <= n
    ensures ReadPlain(Sign(neg) + (d + Zeros(n - |d|))) == ReadPence(Sign(neg) + (d + Zeros(n - |d|))) == Read(Dec(neg, d, n))
  {
    hide ReadPlain, ReadPence, Value;
    var body := d + Zeros(n - |d|);
    ValueOf(neg, 0, d, n - |d|, n);
    assert Zeros(0) + d + Zeros(n - |d|) == body;
    ReadDigits(neg, body);
  }

  /** Digits before and after a point, `after` zeros more: read as they are. */
  lemma ReadAcross(neg: bool, d: string, n: int, after: nat)
    requires Normal(Dec(neg, d, n)) && 0 < n < |d|
    ensures var s := Sign(neg) + (d[..n] + ("." + (d[n..] + Zeros(after))));
      ReadPlain(s) == Read(Dec(neg, d, n)) && (|d| - n + after <= 2 ==> ReadPence(s) == Read(Dec(neg, d, n)))
  {
    hide ReadPlain, ReadPence, Value;
    var whole, rest := d[..n], d[n..] + Zeros(after);
    assert whole + rest == Zeros(0) + d + Zeros(after);
    ValueOf(neg, 0, d, after, n);
    ReadParts(neg, whole, rest);
  }

  /** Digits all after a point, zeros before them and after. */
  lemma ReadBelow(neg: bool, d: string, n: int, after: nat)
    requires Normal(Dec(neg, d, n)) && n <= 0
    ensures var s := Sign(neg) + ("0" + ("." + (Zeros(-n) + d + Zeros(after))));
      ReadPlain(s) == Read(Dec(neg, d, n)) && (|d| - n + after <= 2 ==> ReadPence(s) == Read(Dec(neg, d, n)))
  {
    hide ReadPlain, ReadPence, Value;
    var rest := Zeros(-n) + d + Zeros(after);
    assert "0" + rest == Zeros(1 - n) + d + Zeros(after);
    ValueOf(neg, 1 - n, d, after, 1);
    ReadParts(neg, "0", rest);
  }

  lemma ReadZero()
    ensures ReadPlain("0") == ReadPence("0") == Read(Zero)
  {
    assert "0"[..1] == "0";
    IndexIs("0", '.', 1);
    ZerosFirstIs("0", 1);
    assert "0" + "" == "0";
  }

  lemma NotDigits(s: string, i: nat)
    requires i < |s| && !Digit(s[i])
    ensures !Digits(s)
  {
  }

  /** An exponent is no number: its letter is refused. */
  lemma ExponentRefused(neg: bool, d: string, n: int)
    requires Normal(Dec(neg, d, n))
    ensures ReadPlain(Sign(neg) + Exponent(d, n)) == ReadPence(Sign(neg) + Exponent(d, n)) == Refused
  {
    var body := Exponent(d, n);
    ReadsSigned(neg, body);
    var at := IndexOf(body, '.');
    ExponentSplit(d, n);
    hide Unsigned, IndexOf, Exponent, Value, Sign;
  }

  lemma ExponentSplit(d: string, n: int)
    requires d != "" && Digits(d)
    ensures var body := Exponent(d, n); var at := IndexOf(body, '.');
      !Digits(body[..at]) || (at < |body| && !Digits(body[at + 1..]))
  {
    var body := Exponent(d, n);
    var at := IndexOf(body, '.');
    var e := if |d| > 1 then |d| + 1 else 1;
    assert body[e] == 'e';
    if |d| > 1 {
      assert body[1] == '.';
      IndexIs(body, '.', 1);
      NotDigits(body[2..], e - 2);
    } else {
      assert body[0] == d[0] && Digit(d[0]);
      NotDigits(body[..at], 1);
    }
  }

  // ------------------------------------------------------------- round trips

  lemma Joined(a: string, b: string)
    requires Plain(a) && Plain(b)
    ensures Plain(a + b)
  {
  }

  lemma DigitsPlain(s: string)
    requires Digits(s)
    ensures Plain(s)
  {
  }

  lemma MarksPlain(neg: bool, n: nat)
    ensures Plain(Sign(neg)) && Plain(".") && Plain("0.") && Plain("e") && Plain("-") && Plain("+") && Plain("") && Plain(Zeros(n))
  {
  }

  lemma WrittenIsPlain(d: string, n: int, neg: bool)
    requires Normal(Dec(neg, d, n))
    ensures Plain(Sign(neg) + Written(d, n)) && Written(d, n) != ""
  {
    assert Plain(Written(d, n)) by {
      if |d| <= n <= 21 || -6 < n <= 21 {
        BodyIsPlain(d, n);
      } else {
        ExponentIsPlain(d, n);
      }
    }
    MarksPlain(neg, 0);
    hide Plain, Written, Sign;
    Joined(Sign(neg), Written(d, n));
    WrittenSome(d, n);
  }

  lemma WrittenSome(d: string, n: int)
    requires d != ""
    ensures Written(d, n) != ""
  {
  }

  lemma BodyIsPlain(d: string, n: int)
    requires d != "" && Digits(d) && -6 < n <= 21
    ensures Plain(Written(d, n))
  {
    hide Plain;
    DigitsPlain(d);
    MarksPlain(false, if n <= 0 then -n else if |d| <= n then n - |d| else 0);
    if n >= |d| {
      Joined(d, Zeros(n - |d|));
    } else if n > 0 {
      DigitsPlain(d[..n]);
      DigitsPlain(d[n..]);
      Joined(d[..n], ".");
      Joined(d[..n] + ".", d[n..]);
    } else {
      Joined("0.", Zeros(-n));
      Joined("0." + Zeros(-n), d);
    }
  }

  lemma ExponentIsPlain(d: string, n: int)
    requires d != "" && Digits(d)
    ensures Plain(Exponent(d, n))
  {
    var tail := if n > 0 then n - 1 else 1 - n;
    NatPlain(tail);
    DigitsPlain(NatText(tail));
    DigitsPlain([d[0]]);
    DigitsPlain(d[1..]);
    MarksPlain(false, 0);
    hide Plain;
    var mark := if n > 0 then "+" else "-";
    var rest := if |d| > 1 then "." + d[1..] else "";
    Joined(".", d[1..]);
    Joined([d[0]], rest);
    Joined([d[0]] + rest, "e");
    Joined(mark, NatText(tail));
    Joined([d[0]] + rest + "e", mark + NatText(tail));
  }

  lemma {:induction false} NatPlain(n: nat)
    ensures Digits(NatText(n))
  {
    if n >= 10 {
      NatPlain(n / 10);
    }
  }

  // ------------------------------------------------------------- round trips

  lemma WrittenReads(neg: bool, d: string, n: int)
    requires Normal(Dec(neg, d, n))
    ensures ReadPlain(Sign(neg) + Written(d, n)) == if -6 < n <= 21 then Read(Dec(neg, d, n)) else Refused
    ensures n > 21 ==> ReadPence(Sign(neg) + Written(d, n)) == Refused
    ensures |d| <= n <= 21 ==> ReadPence(Sign(neg) + Written(d, n)) == Read(Dec(neg, d, n))
  {
    hide ReadPlain, ReadPence, Exponent, Sign;
    if |d| <= n <= 21 {
      ReadWhole(neg, d, n);
    } else if 0 < n <= 21 {
      ReadAcross(neg, d, n, 0);
      assert Written(d, n) == d[..n] + ("." + (d[n..] + Zeros(0)));
    } else if -6 < n <= 0 {
      ReadBelow(neg, d, n, 0);
      assert Written(d, n) == "0" + ("." + (Zeros(-n) + d + Zeros(0)));
    } else {
      ExponentRefused(neg, d, n);
    }
  }

  /**
   * A number printed for the card reads back as the same number just when it is written out:
   * one with an exponent, of 22 digits or more, or under a millionth, is refused.
   */
  lemma NumberReadsBack(x: Decimal)
    requires Normal(x)
    ensures ReadNumber(NumberText(x)) == if x.Dec? && !(-6 < x.point <= 21) then Refused else Read(x)
  {
    hide ReadNumber, ReadPlain, ReadPence, Written, Plain, Sign;
    if x.Zero? {
      DigitsPlain("0");
      PlainIsRead("0");
      ReadZero();
    } else {
      WrittenIsPlain(x.digits, x.point, x.neg);
      PlainIsRead(NumberText(x));
      WrittenReads(x.neg, x.digits, x.point);
    }
  }

  lemma FixedIsPlain(x: Decimal)
    requires Amount(x) && !Whole(x)
    ensures Plain(Fixed(x)) && Fixed(x) != ""
  {
  }

  lemma FixedReads(x: Decimal)
    requires Amount(x) && !Whole(x)
    ensures ReadPence(Fixed(x)) == Read(x)
  {
    hide ReadPlain, ReadPence, Sign;
    var d, n := x.digits, x.point;
    if n > 0 {
      ReadAcross(x.neg, d, n, n + 2 - |d|);
      assert Fixed(x) == Sign(x.neg) + (d[..n] + ("." + (d[n..] + Zeros(n + 2 - |d|))));
    } else {
      ReadBelow(x.neg, d, n, n + 2 - |d|);
      assert Fixed(x) == Sign(x.neg) + ("0" + ("." + (Zeros(-n) + d + Zeros(n + 2 - |d|))));
    }
  }

  /** An amount of at most two decimals reads back as the same amount, unless it is whole and of 22 digits or more. */
  lemma MoneyReadsBack(x: Decimal)
    requires Amount(x)
    ensures ReadMoney(MoneyText(x)) == if x.Dec? && x.point > 21 && Whole(x) then Refused else Read(x)
  {
    hide ReadMoney, ReadPlain, ReadPence, Written, Fixed, Plain, Sign;
    if x.Zero? {
      DigitsPlain("0");
      PlainIsRead("0");
      ReadZero();
    } else if Whole(x) {
      WrittenIsPlain(x.digits, x.point, x.neg);
      PlainIsRead(NumberText(x));
      WrittenReads(x.neg, x.digits, x.point);
    } else {
      FixedIsPlain(x);
      PlainIsRead(Fixed(x));
      FixedReads(x);
    }
  }

  // ------------------------------------------------------------- commas

  /** From a comma on, every comma is followed by three digits, and then a comma or the end. */
  lemma {:induction false} GroupsOfThree(s: string, i: nat)
    requires Groups(s) && i < |s| && s[i] == ','
    ensures i + 4 <= |s| && Digits(s[i + 1..i + 4]) && (i + 4 < |s| ==> s[i + 4] == ',') && (|s| - i) % 4 == 0
    decreases |s|
  {
    hide Groups, Digits;
    GroupsLength(s);
    CommaPlace(s, i);
    FirstOfGroups(s);
    if i > 0 {
      GroupsOfThree(s[4..], i - 4);
      Shifted(s, i - 4 + 1, i);
    }
  }

  /** A comma and three digits; then more of the same, if there is more. */
  lemma FirstOfGroups(s: string)
    requires Groups(s)
    ensures |s| >= 4 && s[0] == ',' && Digits(s[1..4]) && (|s| > 4 ==> Groups(s[4..]) && s[4] == ',')
  {
    if |s| > 4 {
      assert s[4..][0] == s[4];
    }
  }

  lemma Shifted(s: string, a: nat, b: nat)
    requires 4 <= |s| && a <= b <= |s| - 4
    ensures s[4..][a..b] == s[a + 4..b + 4]
    ensures forall k :: 0 <= k < |s| - 4 ==> s[4..][k] == s[k + 4]
  {
  }

  /** Among the first four only the first is a comma. */
  lemma CommaPlace(s: string, i: nat)
    requires Groups(s) && i < |s| && s[i] == ','
    ensures i == 0 || i >= 4
  {
    forall k | 1 <= k < 4
      ensures Digit(s[k])
    {
      assert s[1..4][k - 1] == s[k];
    }
  }

  lemma {:induction false} GroupsLength(s: string)
    requires Groups(s)
    ensures |s| % 4 == 0
    decreases |s|
  {
    if |s| > 4 {
      GroupsLength(s[4..]);
    }
  }

  /** Of every four characters three are digits. */
  lemma {:induction false} GroupsStripped(s: string)
    requires Groups(s)
    ensures |Without(s, ",")| == |s| / 4 * 3
    decreases |s|
  {
    GroupsLength(s);
    WithoutSplit(s[..4], s[4..]);
    assert s == s[..4] + s[4..];
    ThreeLeft(s);
    if |s| > 4 {
      GroupsStripped(s[4..]);
    } else {
      assert s[4..] == "";
    }
  }

  lemma ThreeLeft(s: string)
    requires Groups(s)
    ensures |Without(s[..4], ",")| == 3
  {
    assert s[..4] == "," + s[1..4];
    WithoutSplit(",", s[1..4]);
    assert ","[1..] == "";
    DigitsStay(s[1..4]);
  }

  lemma {:induction false} DigitsStay(s: string)
    requires Digits(s)
    ensures Without(s, ",") == s
  {
    if s != "" {
      assert Digits(s[1..]) && Digit(s[0]);
      DigitsStay(s[1..]);
    }
  }

  lemma {:induction false} WithoutSplit(a: string, b: string)
    ensures Without(a + b, ",") == Without(a, ",") + Without(b, ",")
    decreases |a|
  {
    if a == "" {
      assert a + b == b;
    } else {
      assert (a + b)[1..] == a[1..] + b;
      WithoutSplit(a[1..], b);
    }
  }

  /** Where the whole part of a number ends: at its point, or its end. */
  function PointAt(s: string): nat {
    IndexOf(s, '.')
  }

  /**
   * Typed with commas and read: every comma has one to three digits before the first of them,
   * stands before the point, and as many digits after it up to the point as a whole number of
   * threes; so a comma taken off never moves a digit from thousands to hundreds.
   */
  lemma CommasGroupThousands(typed: string, i: nat)
    requires Thousands(typed) && i < |typed| && typed[i] == ','
    ensures i + 4 <= PointAt(typed) && Digits(typed[i + 1..i + 4])
    ensures |Without(typed[i + 1..PointAt(typed)], ",")| % 3 == 0
    ensures i > 0 && Digit(typed[i - 1])
  {
    var u := Unsigned(typed, "-+");
    var whole := u[..IndexOf(u, '.')];
    var lead := IndexOf(whole, ',');
    var off := |typed| - |u|;
    SignAside(typed);
    CommaInWhole(typed, i, off, whole);
    var j := i - off;
    InGroups(whole, lead, j);
    SliceOf(typed, off, whole, j);
    hide Without, Groups, Unsigned;
  }

  lemma SliceOf(typed: string, off: nat, whole: string, j: nat)
    requires off + |whole| <= |typed| && typed[off..off + |whole|] == whole && j + 4 <= |whole|
    ensures whole[j + 1..j + 4] == typed[off + j + 1..off + j + 4] && whole[j + 1..] == typed[off + j + 1..off + |whole|]
    ensures j > 0 ==> typed[off + j - 1] == whole[j - 1]
  {
    assert forall k :: 0 <= k < |whole| ==> whole[k] == typed[off + k];
  }

  lemma CommaInWhole(typed: string, i: nat, off: nat, whole: string)
    requires Thousands(typed) && i < |typed| && typed[i] == ','
    requires var u := Unsigned(typed, "-+"); off == |typed| - |u| && whole == u[..IndexOf(u, '.')]
    ensures off <= i < off + |whole| <= |typed| && typed[off..off + |whole|] == whole
  {
    var u := Unsigned(typed, "-+");
    UnsignedIs(typed);
    hide Unsigned, Groups, IndexOf;
    var at := IndexOf(u, '.');
    if at < |u| {
      DigitsAfter(u, at);
    }
    if off == 1 && i == 0 {
      SignIsNoComma(typed);
    }
  }

  lemma UnsignedIs(s: string)
    ensures |Unsigned(s, "-+")| <= |s| <= |Unsigned(s, "-+")| + 1
    ensures s[|s| - |Unsigned(s, "-+")|..] == Unsigned(s, "-+")
  {
  }

  lemma SignIsNoComma(s: string)
    requires s != "" && |Unsigned(s, "-+")| < |s|
    ensures s[0] != ','
  {
  }

  lemma DigitsAfter(u: string, at: nat)
    requires at < |u| && u[at] == '.' && Digits(u[at + 1..])
    ensures forall k :: at <= k < |u| ==> u[k] != ','
  {
    forall k | at < k < |u|
      ensures Digit(u[k])
    {
      assert u[at + 1..][k - at - 1] == u[k];
    }
  }

  lemma InGroups(whole: string, lead: nat, j: nat)
    requires 1 <= lead <= |whole| && Digits(whole[..lead]) && Groups(whole[lead..]) && j < |whole| && whole[j] == ','
    ensures lead <= j && j + 4 <= |whole| && Digits(whole[j + 1..j + 4]) && Digit(whole[j - 1])
    ensures |Without(whole[j + 1..], ",")| % 3 == 0
  {
    hide Groups, Without;
    NoCommaInLead(whole, lead);
    var groups := whole[lead..];
    GroupsOfThree(groups, j - lead);
    SliceOf(whole, lead, groups, j - lead);
    if j > lead {
      GroupsEnd(groups, j - lead);
    }
    GroupsFrom(groups, j - lead);
    CommaAt(whole, lead, j);
    GroupsStripped(whole[j..]);
    WithoutSplit(",", whole[j + 1..]);
    CommaGone();
  }

  lemma CommaAt(whole: string, lead: nat, j: nat)
    requires lead <= j < |whole| && whole[j] == ','
    ensures whole[lead..][j - lead..] == whole[j..] && whole[j..] == "," + whole[j + 1..]
  {
    var tail := whole[j..];
    assert tail == [tail[0]] + tail[1..] && tail[1..] == whole[j + 1..];
  }

  lemma NoCommaInLead(whole: string, lead: nat)
    requires lead <= |whole| && Digits(whole[..lead])
    ensures forall k :: 0 <= k < lead ==> Digit(whole[k])
  {
    forall k | 0 <= k < lead
      ensures Digit(whole[k])
    {
      assert whole[..lead][k] == whole[k];
    }
  }

  lemma CommaGone()
    ensures Without(",", ",") == ""
  {
    assert ","[1..] == "";
  }

  lemma SignAside(typed: string)
    ensures var u := Unsigned(typed, "-+"); PointAt(typed) == IndexOf(u, '.') + |typed| - |u|
  {
  }

  lemma {:induction false} GroupsFrom(s: string, i: nat)
    requires Groups(s) && i < |s| && s[i] == ','
    ensures Groups(s[i..])
    decreases |s|
  {
    CommaPlace(s, i);
    if i > 0 {
      GroupsFrom(s[4..], i - 4);
      assert s[4..][i - 4..] == s[i..];
    } else {
      assert s[0..] == s;
    }
  }

  lemma {:induction false} GroupsEnd(s: string, i: nat)
    requires Groups(s) && 0 < i < |s| && s[i] == ','
    ensures Digit(s[i - 1])
    decreases |s|
  {
    CommaPlace(s, i);
    if i == 4 {
      assert s[1..4][2] == s[3];
    } else {
      GroupsEnd(s[4..], i - 4);
      assert s[4..][i - 5] == s[i - 1];
    }
  }

  // ------------------------------------------------------------- the value of groups

  function DigitValue(c: char): nat
    requires Digit(c)
  {
    c as int - '0' as int
  }

  /** The number some digits are. */
  function NatValue(s: string): nat
    requires Digits(s)
  {
    if s == "" then 0 else NatValue(s[..|s| - 1]) * 10 + DigitValue(s[|s| - 1])
  }

  /** What leads, and groups of three after it: each a thousand times less than the one before. */
  function Grouped(lead: nat, groups: string): nat
    requires groups == "" || Groups(groups)
    decreases |groups|
  {
    if groups == "" then lead else Grouped(lead * 1000 + NatValue(groups[1..4]), groups[4..])
  }

  lemma OneMoreDigit(s: string, c: char)
    requires Digits(s) && Digit(c)
    ensures Digits(s + [c]) && NatValue(s + [c]) == NatValue(s) * 10 + DigitValue(c)
  {
    assert (s + [c])[..|s|] == s;
  }

  lemma ThreeMoreDigits(s: string, three: string)
    requires Digits(s) && Digits(three) && |three| == 3
    ensures Digits(s + three) && NatValue(s + three) == NatValue(s) * 1000 + NatValue(three)
  {
    hide NatValue;
    var a, b, c := three[0], three[1], three[2];
    OneMoreDigit(s, a);
    OneMoreDigit(s + [a], b);
    OneMoreDigit(s + [a] + [b], c);
    OneMoreDigit("", a);
    OneMoreDigit("" + [a], b);
    OneMoreDigit("" + [a] + [b], c);
    assert s + three == s + [a] + [b] + [c] && three == "" + [a] + [b] + [c];
    assert NatValue("") == 0 by {
      NothingIsZero();
    }
  }

  lemma NothingIsZero()
    ensures Digits("") && NatValue("") == 0
  {
  }

  lemma FirstGroup(s: string)
    requires Groups(s)
    ensures |s| >= 4 && s == s[..4] + s[4..] && Without(s[..4], ",") == s[1..4] && |s[1..4]| == 3 && Digits(s[1..4])
    ensures s[4..] == "" || Groups(s[4..])
  {
    FirstOfGroups(s);
    hide Groups, Without;
    assert s[..4] == "," + s[1..4];
    WithoutSplit(",", s[1..4]);
    CommaGone();
    DigitsStay(s[1..4]);
  }

  /** The commas taken off, the digits are the number the groups are. */
  lemma {:induction false} GroupedValue(lead: string, groups: string)
    requires Digits(lead) && (groups == "" || Groups(groups))
    ensures var w := Without(lead + groups, ","); Digits(w) && |w| >= |lead| && NatValue(w) == Grouped(NatValue(lead), groups)
    decreases |groups|
  {
    hide Without, Groups, NatValue;
    DigitsStay(lead);
    WithoutSplit(lead, groups);
    if groups == "" {
      assert lead + groups == lead;
    } else {
      FirstGroup(groups);
      var three, rest := groups[1..4], groups[4..];
      WithoutSplit(groups[..4], rest);
      ThreeMoreDigits(lead, three);
      DigitsStay(lead + three);
      WithoutSplit(lead + three, rest);
      assert lead + (three + Without(rest, ",")) == lead + three + Without(rest, ",");
      GroupedValue(lead + three, rest);
    }
  }

  /** The whole part of a number typed, and its decimals. */
  function WholeOf(typed: string): string {
    var u := Unsigned(typed, "-+");
    u[..IndexOf(u, '.')]
  }

  function DecimalsOf(typed: string): string {
    var u := Unsigned(typed, "-+");
    var at := IndexOf(u, '.');
    if at < |u| then u[at + 1..] else ""
  }

  /** The number a text with commas groups thousands of: its groups, and its decimals after them. */
  predicate IsGrouped(typed: string, x: Decimal) {
    var whole := WholeOf(typed);
    var lead := IndexOf(whole, ',');
    var digits := Without(whole, ",");
    && 1 <= lead <= 3 && Digits(whole[..lead]) && Groups(whole[lead..]) && Digits(digits) && Digits(DecimalsOf(typed))
    && NatValue(digits) == Grouped(NatValue(whole[..lead]), whole[lead..])
    && x == Value(typed != "" && typed[0] == '-', digits + DecimalsOf(typed), |digits|)
  }

  lemma {:induction false} CommaLess(s: string)
    requires ',' !in s
    ensures Without(s, ",") == s
  {
    if s != "" {
      CommaLess(s[1..]);
    }
  }

  /** Without its commas: its sign, its digits, its point and decimals. */
  lemma CommasOff(typed: string)
    requires Thousands(typed)
    ensures var u := Unsigned(typed, "-+");
      |u| <= |typed| &&
      Without(typed, ",") == typed[..|typed| - |u|] + Without(WholeOf(typed), ",") + u[IndexOf(u, '.')..]
  {
    hide Groups, Thousands, Unsigned, IndexOf, Without, WholeOf;
    var u := Unsigned(typed, "-+");
    Parted(typed);
    var sign, tail := typed[..|typed| - |u|], u[IndexOf(u, '.')..];
    WithoutSplit(sign, u);
    WithoutSplit(WholeOf(typed), tail);
    CommaLess(sign);
    CommaLess(tail);
    assert sign + (Without(WholeOf(typed), ",") + tail) == sign + Without(WholeOf(typed), ",") + tail;
  }

  /** A sign, the whole part, and the rest, with a comma in the whole part alone. */
  lemma Parted(typed: string)
    requires Thousands(typed)
    ensures var u := Unsigned(typed, "-+");
      && |u| <= |typed| && typed == typed[..|typed| - |u|] + u && u == WholeOf(typed) + u[IndexOf(u, '.')..]
      && ',' !in typed[..|typed| - |u|] && ',' !in u[IndexOf(u, '.')..]
  {
    hide Groups, Unsigned, IndexOf;
    var u := Unsigned(typed, "-+");
    var at := IndexOf(u, '.');
    TailHasNoComma(u, at);
    UnsignedIs(typed);
    SignHasNoComma(typed);
    hide Thousands, Digits;
    assert u == u[..at] + u[at..];
  }

  lemma TailHasNoComma(u: string, at: nat)
    requires at <= |u| && (at < |u| ==> u[at] == '.' && Digits(u[at + 1..]))
    ensures ',' !in u[at..]
  {
    if at < |u| {
      assert u[at..] == [u[at]] + u[at + 1..];
    }
  }

  lemma SignHasNoComma(typed: string)
    ensures ',' !in typed[..|typed| - |Unsigned(typed, "-+")|]
  {
  }

  /** Digits and a point after a sign, read. */
  lemma ReadsWith(sign: string, digits: string, tail: string)
    requires sign == "" || sign == "-" || sign == "+"
    requires digits != "" && Digits(digits) && (tail == "" || (tail[0] == '.' && Digits(tail[1..])))
    ensures var s, rest := sign + digits + tail, if tail == "" then "" else tail[1..];
      && Digits(digits + rest) && ReadPlain(s) == Read(Value(sign == "-", digits + rest, |digits|))
      && (ReadPence(s).Read? ==> ReadPence(s) == ReadPlain(s))
  {
    hide Unsigned, IndexOf, Value, Digits, ReadPlain, ReadPence;
    var body, rest := digits + tail, if tail == "" then "" else tail[1..];
    var s := sign + digits + tail;
    NoneAreDigits();
    DigitsJoined(digits, rest);
    BodySplit(digits, tail);
    SignedIs(sign, body);
    assert s == sign + body;
    ReadsAs(s, body, digits, rest, sign == "-");
    if sign == "+" {
      PlusIsNoAmount(s);
    }
  }

  lemma ReadsAs(s: string, u: string, whole: string, rest: string, neg: bool)
    requires Unsigned(s, "-+") == u && (s != "" && s[0] == '-' <==> neg)
    requires IndexOf(u, '.') == |whole| <= |u| && u[..|whole|] == whole && rest == if |whole| < |u| then u[|whole| + 1..] else ""
    requires whole != "" && Digits(whole) && Digits(rest) && Digits(whole + rest)
    ensures ReadPlain(s) == Read(Value(neg, whole + rest, |whole|))
    ensures Unsigned(s, "-") == u && ReadPence(s).Read? ==> ReadPence(s) == ReadPlain(s)
  {
    hide Unsigned, IndexOf, Value, Digits;
  }

  lemma BodySplit(digits: string, tail: string)
    requires digits != "" && Digits(digits) && (tail == "" || tail[0] == '.')
    ensures var body := digits + tail;
      && body != "" && body[0] != '-' && body[0] != '+' && IndexOf(body, '.') == |digits| && body[..|digits|] == digits
      && (if |digits| < |body| then body[|digits| + 1..] else "") == (if tail == "" then "" else tail[1..])
  {
    SplitAt(false, digits, tail);
    assert Sign(false) + (digits + tail) == digits + tail;
  }

  lemma SignedIs(sign: string, body: string)
    requires sign == "" || sign == "-" || sign == "+"
    requires body != "" && body[0] != '-' && body[0] != '+'
    ensures var s := sign + body;
      && Unsigned(s, "-+") == body && (sign != "+" ==> Unsigned(s, "-") == body) && s != "" && (s[0] == '-' <==> sign == "-")
      && (sign == "+" ==> s[0] == '+')
  {
    var s := sign + body;
    if sign == "" {
      assert s == body;
    } else {
      assert s[0] == sign[0] && s[1..] == body;
    }
  }

  lemma PlusIsNoAmount(s: string)
    requires s != "" && s[0] == '+'
    ensures !ReadPence(s).Read?
  {
    var whole := s[..IndexOf(s, '.')];
    assert IndexOf(s, '.') > 0;
    assert whole[0] == '+';
    hide Value;
  }

  lemma ThousandsLead(typed: string)
    requires Thousands(typed)
    ensures var whole := WholeOf(typed);
      var lead := IndexOf(whole, ',');
      1 <= lead <= 3 && lead <= |whole| && Digits(whole[..lead]) && Groups(whole[lead..]) && whole == whole[..lead] + whole[lead..]
    ensures var u := Unsigned(typed, "-+"); var tail := u[IndexOf(u, '.')..];
      (tail == "" || (tail[0] == '.' && Digits(tail[1..]))) && DecimalsOf(typed) == if tail == "" then "" else tail[1..]
    ensures |Unsigned(typed, "-+")| <= |typed|
    ensures var sign := typed[..|typed| - |Unsigned(typed, "-+")|];
      (sign == "" || sign == "-" || sign == "+") && (sign == "-" <==> typed != "" && typed[0] == '-')
  {
    hide Groups;
    var u := Unsigned(typed, "-+");
    var at := IndexOf(u, '.');
    if at < |u| {
      assert u[at..][1..] == u[at + 1..];
    }
    if |u| == |typed| {
      assert u[0] == WholeOf(typed)[0] && Digit(u[0]);
    }
  }

  /**
   * What is read of a text with commas is the number its groups are, each counting a
   * thousand times the next, with its decimals after it; and it is read only if it groups
   * thousands.
   */
  lemma CommasAreOnlyThousands(input: string)
    ensures ReadNumber(input).Read? && ',' in NoSpaces(input) ==> IsGrouped(NoSpaces(input), ReadNumber(input).value)
    ensures var typed := Without(NoSpaces(input), "£$€");
      ReadMoney(input).Read? && ',' in typed ==> IsGrouped(typed, ReadMoney(input).value)
  {
    hide IsGrouped, Thousands, ReadPlain, ReadPence, Without, NoSpaces, Blank;
    var typed, money := NoSpaces(input), Without(NoSpaces(input), "£$€");
    if Thousands(typed) {
      GroupedIsRead(typed);
    }
    if Thousands(money) {
      GroupedIsRead(money);
    }
  }

  lemma GroupedIsRead(typed: string)
    requires Thousands(typed)
    ensures ReadPlain(Without(typed, ",")).Read? && IsGrouped(typed, ReadPlain(Without(typed, ",")).value)
    ensures ReadPence(Without(typed, ",")).Read? ==> ReadPence(Without(typed, ",")) == ReadPlain(Without(typed, ","))
  {
    hide Without, Thousands, ReadPlain, ReadPence, DecimalsOf, Value, IsGrouped, Digits;
    var sign, digits, tail := PartsOf(typed);
    ReadsWith(sign, digits, tail);
  }

  /** Its sign, its digits without commas, and its point with what follows: what it reads as is of these. */
  lemma PartsOf(typed: string) returns (sign: string, digits: string, tail: string)
    requires Thousands(typed)
    ensures sign == "" || sign == "-" || sign == "+"
    ensures digits != "" && Digits(digits) && (tail == "" || (tail[0] == '.' && Digits(tail[1..])))
    ensures Without(typed, ",") == sign + digits + tail
    ensures var rest := if tail == "" then "" else tail[1..];
      Digits(digits + rest) && IsGrouped(typed, Value(sign == "-", digits + rest, |digits|))
  {
    hide Without, Thousands, Groups, NatValue, Grouped, IsGrouped, Digits, IndexOf, Unsigned, Value;
    ThousandsLead(typed);
    CommasOff(typed);
    var whole := WholeOf(typed);
    var lead := IndexOf(whole, ',');
    GroupedValue(whole[..lead], whole[lead..]);
    var u := Unsigned(typed, "-+");
    sign, digits, tail := typed[..|typed| - |u|], Without(whole, ","), u[IndexOf(u, '.')..];
    var rest := if tail == "" then "" else tail[1..];
    NoneAreDigits();
    DigitsJoined(digits, rest);
    IsGroupedIf(typed, sign, digits, rest);
  }

  lemma NoneAreDigits()
    ensures Digits("")
  {
  }

  lemma IsGroupedIf(typed: string, sign: string, digits: string, decimals: string)
    requires var whole := WholeOf(typed);
      var lead := IndexOf(whole, ',');
      && 1 <= lead <= 3 && Digits(whole[..lead]) && Groups(whole[lead..]) && digits == Without(whole, ",") && Digits(digits)
      && NatValue(digits) == Grouped(NatValue(whole[..lead]), whole[lead..])
    requires decimals == DecimalsOf(typed) && Digits(decimals) && Digits(digits + decimals)
    requires sign == "-" <==> typed != "" && typed[0] == '-'
    ensures IsGrouped(typed, Value(sign == "-", digits + decimals, |digits|))
  {
    hide Groups, Value, NatValue, Grouped, Without, WholeOf, IndexOf, DecimalsOf;
  }
}
