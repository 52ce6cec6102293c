/**
 * Just what is read as a number or an amount on a card, by the forms they may have: and that
 * spaces among them, and an amount's marks, are of no account.
 */
module DetailsReading {
  import opened Text
  import opened Details

  // ------------------------------------------------------------- a number, an amount

  /** Nothing; or a point, and digits after it. */
  predicate Decimals(tail: string) {
    tail == "" || (tail[0] == '.' && Digits(tail[1..]))
  }

  /** A sign or none; digits; a point and digits, or none: with a digit somewhere. */
  predicate NumberForm(s: string, sign: string, whole: string, tail: string) {
    && s == sign + (whole + tail) && (sign == "" || sign == "-" || sign == "+")
    && Digits(whole) && Decimals(tail) && (whole != "" || |tail| > 1)
  }

  /** A minus or none; digits; and a point with one decimal or two, or none. */
  predicate AmountForm(s: string, sign: string, whole: string, tail: string) {
    && s == sign + (whole + tail) && (sign == "" || sign == "-")
    && Digits(whole) && Decimals(tail) && (if tail == "" then whole != "" else 2 <= |tail| <= 3)
  }

  /** The digits of a form, and where its point is. */
  function FormValue(sign: string, whole: string, tail: string): Decimal
    requires Digits(whole) && Decimals(tail)
  {
    assert Digits(whole + if tail == "" then "" else tail[1..]);
    Value(sign == "-", whole + if tail == "" then "" else tail[1..], |whole|)
  }

  /** Where a text's sign, its digits and its decimals are. */
  lemma PartsAre(s: string, sign: string, whole: string, tail: string)
    requires s == sign + (whole + tail) && (sign == "" || sign == "-" || sign == "+")
    requires Digits(whole) && Decimals(tail) && whole + tail != ""
    ensures Unsigned(s, "-+") == whole + tail && (sign != "+" ==> Unsigned(s, "-") == whole + tail)
    ensures s != "" && (s[0] == '-' <==> sign == "-") && (s[0] == '+' <==> sign == "+")
    ensures var u := whole + tail;
      IndexOf(u, '.') == |whole| && u[..|whole|] == whole && u[|whole|..] == tail
      && (|whole| < |u| ==> u[|whole| + 1..] == tail[1..]) && (|whole| < |u| <==> tail != "")
  {
    var u := whole + tail;
    assert u[0] == if whole != "" then whole[0] else tail[0];
    SignedIs(sign, u);
    forall i | 0 <= i < |whole|
      ensures u[i] != '.'
    {
      assert u[i] == whole[i] && Digit(whole[i]);
    }
    IndexIs(u, '.', |whole|);
  }

  lemma PartsOfText(s: string, signs: string) returns (sign: string, whole: string, tail: string)
    requires signs == "-+" || signs == "-"
    ensures s == sign + (whole + tail) && (sign == "" || sign == "-" || (sign == "+" && signs == "-+"))
    ensures var u := Unsigned(s, signs); var at := IndexOf(u, '.');
      && whole == u[..at] && tail == u[at..] && (tail == "" || tail[0] == '.') && (tail == "" <==> at == |u|)
      && (tail != "" ==> tail[1..] == u[at + 1..])
    ensures sign == "-" <==> s != "" && s[0] == '-'
  {
    var u := Unsigned(s, signs);
    var at := IndexOf(u, '.');
    sign, whole, tail := s[..|s| - |u|], u[..at], u[at..];
    if s != "" {
      assert sign == [] || sign == [s[0]];
    }
    assert whole + tail == u;
  }

  /** Read as a number, without commas or spaces: just what has a number's form, with its value. */
  lemma PlainReadExactly(s: string)
    ensures ReadPlain(s).Read? <==> exists sign, whole, tail :: NumberForm(s, sign, whole, tail)
    ensures forall sign, whole, tail :: NumberForm(s, sign, whole, tail) ==> ReadPlain(s) == Read(FormValue(sign, whole, tail))
    ensures !ReadPlain(s).Nothing?
  {
    hide Value, IndexOf, Unsigned, Digits;
    if ReadPlain(s).Read? {
      var sign, whole, tail := PartsOfText(s, "-+");
      assert NumberForm(s, sign, whole, tail);
    }
    forall sign, whole, tail | NumberForm(s, sign, whole, tail)
      ensures ReadPlain(s) == Read(FormValue(sign, whole, tail))
    {
      PartsAre(s, sign, whole, tail);
      NoneAreDigits();
    }
  }

  /** Read as an amount: just what has an amount's form. */
  lemma PenceReadExactly(s: string)
    ensures ReadPence(s).Read? <==> exists sign, whole, tail :: AmountForm(s, sign, whole, tail)
    ensures forall sign, whole, tail :: AmountForm(s, sign, whole, tail) ==> ReadPence(s) == Read(FormValue(sign, whole, tail))
    ensures !ReadPence(s).Nothing?
  {
    hide Value, IndexOf, Unsigned, Digits;
    if ReadPence(s).Read? {
      var sign, whole, tail := PartsOfText(s, "-");
      assert AmountForm(s, sign, whole, tail);
    }
    forall sign, whole, tail | AmountForm(s, sign, whole, tail)
      ensures ReadPence(s) == Read(FormValue(sign, whole, tail))
    {
      PartsAre(s, sign, whole, tail);
      NoneAreDigits();
    }
  }

  // ------------------------------------------------------------- thousands

  predicate Threes(groups: seq<string>) {
    forall i :: 0 <= i < |groups| ==> |groups[i]| == 3 && Digits(groups[i])
  }

  /** Each group after a comma. */
  function Commaed(groups: seq<string>): string {
    if groups == [] then "" else "," + groups[0] + Commaed(groups[1..])
  }

  /** A sign or none; one to three digits; groups of three, one at least; and a point and digits, or none. */
  predicate ThousandsForm(s: string, sign: string, lead: string, groups: seq<string>, tail: string) {
    && s == sign + ((lead + Commaed(groups)) + tail) && (sign == "" || sign == "-" || sign == "+")
    && 1 <= |lead| <= 3 && Digits(lead) && groups != [] && Threes(groups) && Decimals(tail)
  }

  lemma {:induction false} GroupsOf(s: string) returns (groups: seq<string>)
    requires Groups(s)
    ensures groups != [] && Threes(groups) && s == Commaed(groups)
    decreases |s|
  {
    if |s| == 4 {
      groups := [s[1..4]];
      assert Commaed([s[1..4]][1..]) == "" && s == "," + s[1..4] + "";
    } else {
      var rest := GroupsOf(s[4..]);
      groups := [s[1..4]] + rest;
      assert groups[1..] == rest && s == "," + s[1..4] + s[4..];
    }
  }

  lemma {:induction false} CommaedIs(groups: seq<string>)
    requires groups != [] && Threes(groups)
    ensures Groups(Commaed(groups)) && '.' !in Commaed(groups)
    decreases |groups|
  {
    var s := Commaed(groups);
    var rest := Commaed(groups[1..]);
    assert s == "," + groups[0] + rest && s[1..4] == groups[0] && s[4..] == rest;
    assert forall i :: 0 <= i < 3 ==> Digit(groups[0][i]);
    if |groups| > 1 {
      CommaedIs(groups[1..]);
    } else {
      assert rest == "";
    }
    forall i | 0 <= i < |s|
      ensures s[i] != '.'
    {
      if 1 <= i < 4 {
        assert s[i] == groups[0][i - 1];
      } else if i >= 4 {
        assert s[i] == rest[i - 4];
      }
    }
  }

  lemma CommaedStarts(groups: seq<string>)
    requires groups != []
    ensures Commaed(groups) != "" && Commaed(groups)[0] == ','
  {
  }

  /** A comma is taken just where it groups thousands. */
  lemma ThousandsExactly(s: string)
    ensures Thousands(s) <==> exists sign, lead, groups, tail :: ThousandsForm(s, sign, lead, groups, tail)
  {
    if Thousands(s) {
      ThousandsHas(s);
    }
    forall sign, lead, groups, tail | ThousandsForm(s, sign, lead, groups, tail)
      ensures Thousands(s)
    {
      FormIsThousands(s, sign, lead, groups, tail);
    }
  }

  lemma ThousandsHas(s: string)
    requires Thousands(s)
    ensures exists sign, lead, groups, tail :: ThousandsForm(s, sign, lead, groups, tail)
  {
    hide IndexOf, Unsigned, Groups, Digits, Commaed, Threes;
    var sign, whole, tail := PartsOfText(s, "-+");
    var at := IndexOf(whole, ',');
    var groups := GroupsOf(whole[at..]);
    assert whole == whole[..at] + whole[at..];
    assert ThousandsForm(s, sign, whole[..at], groups, tail);
  }

  lemma FormIsThousands(s: string, sign: string, lead: string, groups: seq<string>, tail: string)
    requires ThousandsForm(s, sign, lead, groups, tail)
    ensures Thousands(s)
  {
    hide Commaed, Groups, Threes, IndexOf, Unsigned, Thousands;
    var whole := lead + Commaed(groups);
    var u := whole + tail;
    assert u[0] == lead[0] && Digit(lead[0]);
    SignedIs(sign, u);
    WholeIs(lead, groups);
    PointIs(whole, tail);
    ThousandsIf(s, u, whole, tail, lead, Commaed(groups));
  }

  lemma WholeIs(lead: string, groups: seq<string>)
    requires Digits(lead) && groups != [] && Threes(groups)
    ensures var whole := lead + Commaed(groups);
      && '.' !in whole && IndexOf(whole, ',') == |lead| && whole[..|lead|] == lead && whole[|lead|..] == Commaed(groups)
      && Groups(Commaed(groups))
  {
    CommaedIs(groups);
    CommaedStarts(groups);
    hide Commaed, Groups, Threes;
    var whole := lead + Commaed(groups);
    forall i | 0 <= i < |lead|
      ensures whole[i] != ',' && whole[i] != '.'
    {
      assert whole[i] == lead[i] && Digit(lead[i]);
    }
    IndexIs(whole, ',', |lead|);
  }

  lemma PointIs(whole: string, tail: string)
    requires '.' !in whole && (tail == "" || tail[0] == '.')
    ensures var u := whole + tail;
      IndexOf(u, '.') == |whole| && u[..|whole|] == whole && (|whole| < |u| <==> tail != "") && (tail != "" ==> u[|whole| + 1..] == tail[1..])
  {
    var u := whole + tail;
    assert forall i :: 0 <= i < |whole| ==> u[i] == whole[i];
    IndexIs(u, '.', |whole|);
  }

  lemma ThousandsIf(s: string, u: string, whole: string, tail: string, lead: string, groups: string)
    requires Unsigned(s, "-+") == u && IndexOf(u, '.') == |whole| <= |u| && u[..|whole|] == whole
    requires IndexOf(whole, ',') == |lead| <= |whole| && whole[..|lead|] == lead && whole[|lead|..] == groups
    requires 1 <= |lead| <= 3 && Digits(lead) && Groups(groups) && Decimals(tail)
    requires |whole| < |u| ==> tail != "" && u[|whole| + 1..] == tail[1..]
    ensures Thousands(s)
  {
    hide Groups, IndexOf, Unsigned, Digits;
  }

  // ------------------------------------------------------------- as typed

  ghost predicate IsNumber(s: string) {
    exists sign, whole, tail :: NumberForm(s, sign, whole, tail)
  }

  ghost predicate IsAmount(s: string) {
    exists sign, whole, tail :: AmountForm(s, sign, whole, tail)
  }

  ghost predicate IsThousands(s: string) {
    exists sign, lead, groups, tail :: ThousandsForm(s, sign, lead, groups, tail)
  }

  lemma AllExactly(s: string)
    ensures (Thousands(s) <==> IsThousands(s)) && (ReadPlain(s).Read? <==> IsNumber(s)) && (ReadPence(s).Read? <==> IsAmount(s))
    ensures !ReadPlain(s).Nothing? && !ReadPence(s).Nothing?
  {
    ThousandsExactly(s);
    PlainReadExactly(s);
    PenceReadExactly(s);
    hide Thousands, ReadPlain, ReadPence, NumberForm, AmountForm, ThousandsForm;
  }

  /** What is typed for a number: nothing; or refused, for a comma that groups no thousands, or no number's form; or read. */
  lemma NumberReadExactly(input: string)
    ensures var typed := NoSpaces(input);
      && (ReadNumber(input).Nothing? <==> Blank(input))
      && (ReadNumber(input).Read? <==> !Blank(input) && (',' in typed ==> IsThousands(typed)) && IsNumber(Without(typed, ",")))
  {
    hide Thousands, ReadPlain, ReadPence, IsNumber, IsAmount, IsThousands, Blank, Without;
    AllExactly(NoSpaces(input));
    AllExactly(Without(NoSpaces(input), ","));
  }

  /** And for an amount, its marks aside. */
  lemma AmountReadExactly(input: string)
    ensures var typed := Without(NoSpaces(input), "£$€");
      && (ReadMoney(input).Nothing? <==> Blank(input))
      && (ReadMoney(input).Read? <==> !Blank(input) && (',' in typed ==> IsThousands(typed)) && IsAmount(Without(typed, ",")))
  {
    hide Thousands, ReadPlain, ReadPence, IsNumber, IsAmount, IsThousands, Blank, Without;
    var typed := Without(NoSpaces(input), "£$€");
    AllExactly(typed);
    AllExactly(Without(typed, ","));
  }

  // ------------------------------------------------------------- spaces and marks

  lemma {:induction false} NoSpacesSplit(a: string, b: string)
    ensures NoSpaces(a + b) == NoSpaces(a) + NoSpaces(b)
  {
    hide IsSpace;
    if a == "" {
      assert a + b == b;
    } else {
      assert (a + b)[1..] == a[1..] + b;
      NoSpacesSplit(a[1..], b);
    }
  }

  lemma OneSpace(c: char)
    ensures NoSpaces([c]) == if IsSpace(c) then "" else [c]
  {
    assert [c][1..] == "";
  }

  lemma OneMark(c: char)
    ensures Without([c], "£$€") == if c in "£$€" then "" else [c]
  {
    assert [c][1..] == "";
  }

  lemma {:induction false} TrimStartAll(s: string)
    ensures AllSpace(s) <==> TrimStart(s) == ""
  {
    hide IsSpace;
    if s != "" && IsSpace(s[0]) {
      TrimStartAll(s[1..]);
      assert s == [s[0]] + s[1..];
    }
  }

  /** Blank is nothing but spaces. */
  lemma BlankIs(s: string)
    ensures Blank(s) <==> AllSpace(s)
  {
    TrimStartAll(s);
    TrimStartStarts(s);
    var t := TrimStart(s);
    if t != "" {
      TrimEndKeepsFirst(t);
    }
    hide IsSpace;
  }

  lemma SpaceBlank(a: string, c: char, b: string)
    requires IsSpace(c)
    ensures Blank(a + [c] + b) <==> Blank(a + b)
  {
    BlankIs(a + [c] + b);
    BlankIs(a + b);
    hide IsSpace;
    var s, t := a + [c] + b, a + b;
    assert forall i :: 0 <= i < |a| ==> s[i] == t[i] == a[i];
    assert forall i :: 0 <= i < |b| ==> s[|a| + 1 + i] == t[|a| + i] == b[i];
    if AllSpace(s) {
      forall i | 0 <= i < |t|
        ensures IsSpace(t[i])
      {
        assert t[i] == s[if i < |a| then i else i + 1];
      }
    }
  }

  /** Spaces among what is typed are of no account. */
  lemma SpacesDoNotMatter(a: string, c: char, b: string)
    requires IsSpace(c)
    ensures ReadNumber(a + [c] + b) == ReadNumber(a + b) && ReadMoney(a + [c] + b) == ReadMoney(a + b)
  {
    SpaceBlank(a, c, b);
    NoSpacesSplit(a + [c], b);
    NoSpacesSplit(a, [c]);
    NoSpacesSplit(a, b);
    OneSpace(c);
    hide IsSpace, Thousands, ReadPlain, ReadPence, Blank, NoSpaces;
    assert NoSpaces(a) + "" == NoSpaces(a);
  }

  lemma {:induction false} MarksSplit(a: string, b: string)
    ensures Without(a + b, "£$€") == Without(a, "£$€") + Without(b, "£$€")
  {
    if a == "" {
      assert a + b == b;
    } else {
      assert (a + b)[1..] == a[1..] + b;
      MarksSplit(a[1..], b);
    }
  }

  lemma MarkIsNoSpace(c: char)
    requires c in "£$€"
    ensures !IsSpace(c)
  {
  }

  lemma MarkBlank(a: string, c: char, b: string)
    requires !IsSpace(c)
    ensures !Blank(a + [c] + b)
  {
    BlankIs(a + [c] + b);
    assert (a + [c] + b)[|a|] == c;
  }

  /** And a mark of money with an amount. */
  lemma MarksDoNotMatter(a: string, c: char, b: string)
    requires c in "£$€" && !Blank(a + b)
    ensures ReadMoney(a + [c] + b) == ReadMoney(a + b)
  {
    MarkIsNoSpace(c);
    MarkBlank(a, c, b);
    NoSpacesSplit(a + [c], b);
    NoSpacesSplit(a, [c]);
    NoSpacesSplit(a, b);
    OneSpace(c);
    var x, y := NoSpaces(a), NoSpaces(b);
    MarksSplit(x + [c], y);
    MarksSplit(x, [c]);
    MarksSplit(x, y);
    OneMark(c);
    hide IsSpace, Thousands, ReadPlain, ReadPence, Blank, NoSpaces, Without;
    assert Without(x, "£$€") + "" == Without(x, "£$€");
  }

  // ------------------------------------------------------------- an exponent's digits

  /** A natural number's text is its digits. */
  lemma {:induction false} NatTextIs(n: nat)
    ensures Digits(NatText(n)) && NatValue(NatText(n)) == n
    decreases n
  {
    DigitOfIs(n % 10);
    if n < 10 {
      assert NatText(n)[..0] == "";
      NothingIsZero();
    } else {
      NatTextIs(n / 10);
      OneMoreDigit(NatText(n / 10), DigitOf(n % 10));
    }
  }

  lemma DigitOfIs(d: nat)
    requires d < 10
    ensures Digit(DigitOf(d)) && DigitValue(DigitOf(d)) == d
  {
  }
}
