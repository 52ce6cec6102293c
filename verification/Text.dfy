/** Strings as the web client treats them: trimming, capitals, and typed lists of codes. */
module Text {

  datatype Option<+T> = None | Some(value: T)

  /** White space and line ends, as `\s` and `String.trim` have them. */
  predicate IsSpace(c: char) {
    || c == ' ' || '\t' <= c <= '\r' || c == '\U{A0}' || c == '\U{1680}'
    || '\U{2000}' <= c <= '\U{200A}' || c == '\U{2028}' || c == '\U{2029}'
    || c == '\U{202F}' || c == '\U{205F}' || c == '\U{3000}' || c == '\U{FEFF}'
  }

  /** By code points: the white space and the line terminators of ECMAScript. */
  lemma SpaceIs(c: char)
    ensures var n := c as int;
      IsSpace(c) <==>
        9 <= n <= 13 || n == 32 || n == 160 || n == 5760 || 8192 <= n <= 8202 || n == 8232 || n == 8233 || n == 8239 || n == 8287
        || n == 12288 || n == 65279
  {
  }

  function TrimStart(s: string): string {
    if s != "" && IsSpace(s[0]) then TrimStart(s[1..]) else s
  }

  function TrimEnd(s: string): string {
    if s != "" && IsSpace(s[|s| - 1]) then TrimEnd(s[..|s| - 1]) else s
  }

  function Trim(s: string): string {
    TrimEnd(TrimStart(s))
  }

  predicate Blank(s: string) {
    Trim(s) == ""
  }

  /** Nothing for `Trim` to take off. */
  predicate Trimmed(s: string) {
    s == "" || (!IsSpace(s[0]) && !IsSpace(s[|s| - 1]))
  }

  lemma {:induction false} TrimEndKeepsStart(s: string)
    requires s == "" || !IsSpace(s[0])
    ensures Trimmed(TrimEnd(s))
    decreases |s|
  {
    if s != "" && IsSpace(s[|s| - 1]) {
      TrimEndKeepsStart(s[..|s| - 1]);
    }
  }

  lemma {:induction false} TrimStartStarts(s: string)
    ensures TrimStart(s) == "" || !IsSpace(TrimStart(s)[0])
    decreases |s|
  {
    if s != "" && IsSpace(s[0]) {
      TrimStartStarts(s[1..]);
    }
  }

  /** Trimming is done once: what comes out has nothing more to trim. */
  lemma TrimIsTrimmed(s: string)
    ensures Trimmed(Trim(s))
    ensures Trim(Trim(s)) == Trim(s)
  {
    TrimStartStarts(s);
    TrimEndKeepsStart(TrimStart(s));
  }

  predicate AllSpace(s: string) {
    forall i :: 0 <= i < |s| ==> IsSpace(s[i])
  }

  lemma {:induction false} TrimStartIs(s: string) returns (a: string)
    ensures s == a + TrimStart(s) && AllSpace(a)
    decreases |s|
  {
    hide IsSpace;
    if s != "" && IsSpace(s[0]) {
      var rest := TrimStartIs(s[1..]);
      a := [s[0]] + rest;
    } else {
      a := "";
    }
  }

  lemma {:induction false} TrimEndIs(s: string) returns (b: string)
    ensures s == TrimEnd(s) + b && AllSpace(b)
    decreases |s|
  {
    hide IsSpace;
    if s != "" && IsSpace(s[|s| - 1]) {
      var rest := TrimEndIs(s[..|s| - 1]);
      b := rest + [s[|s| - 1]];
      assert s == s[..|s| - 1] + [s[|s| - 1]];
    } else {
      b := "";
    }
  }

  /** Trimming takes white space off both ends, all of it, and nothing else. */
  lemma TrimIs(s: string) returns (a: string, b: string)
    ensures s == a + Trim(s) + b && AllSpace(a) && AllSpace(b) && Trimmed(Trim(s))
  {
    a := TrimStartIs(s);
    b := TrimEndIs(TrimStart(s));
    TrimIsTrimmed(s);
  }

  /** Capitals, for the letters of a country's code. */
  function UpperChar(c: char): char {
    if 'a' <= c <= 'z' then c - 'a' + 'A' else c
  }

  lemma UpperCharIs(c: char)
    ensures UpperChar(c) as int == if 97 <= c as int <= 122 then c as int - 32 else c as int
  {
  }

  function Upper(s: string): (r: string)
    ensures |r| == |s|
    ensures forall i :: 0 <= i < |s| ==> r[i] == UpperChar(s[i])
  {
    if s == "" then "" else [UpperChar(s[0])] + Upper(s[1..])
  }

  lemma UpperStays(s: string)
    ensures Upper(Upper(s)) == Upper(s)
  {
    assert forall i :: 0 <= i < |s| ==> Upper(Upper(s))[i] == Upper(s)[i];
  }

  lemma UpperTrimmed(s: string)
    requires Trimmed(s)
    ensures Trimmed(Upper(s))
  {
  }

  // ------------------------------------------------- codes, typed as a list

  predicate IsSeparator(c: char) {
    IsSpace(c) || c == ',' || c == ';'
  }

  /** The longest runs of what separates nothing; `run` is the one being read. */
  function Runs(s: string, run: string): seq<string>
    decreases |s|
  {
    if s == "" then (if run == "" then [] else [run])
    else if IsSeparator(s[0]) then (if run == "" then [] else [run]) + Runs(s[1..], "")
    else Runs(s[1..], run + [s[0]])
  }

  function UpperAll(words: seq<string>): (r: seq<string>)
    ensures |r| == |words|
    ensures forall i :: 0 <= i < |r| ==> r[i] == Upper(words[i])
  {
    if words == [] then [] else [Upper(words[0])] + UpperAll(words[1..])
  }

  /** Country codes typed as "GB, pk": GB and PK. */
  function Codes(typed: string): seq<string> {
    UpperAll(Runs(typed, ""))
  }

  /** Codes as the form shows them: one after another, a comma and a space between. */
  function Joined(codes: seq<string>): string {
    if codes == [] then ""
    else if |codes| == 1 then codes[0]
    else codes[0] + ", " + Joined(codes[1..])
  }

  predicate IsCode(c: string) {
    c != "" && Upper(c) == c && forall i :: 0 <= i < |c| ==> !IsSeparator(c[i])
  }

  lemma {:induction false} RunsOver(word: string, rest: string, run: string)
    requires forall i :: 0 <= i < |word| ==> !IsSeparator(word[i])
    ensures Runs(word + rest, run) == Runs(rest, run + word)
    decreases |word|
  {
    if word == "" {
      assert word + rest == rest && run + word == run;
    } else {
      assert (word + rest)[1..] == word[1..] + rest;
      assert run + word == (run + [word[0]]) + word[1..];
      RunsOver(word[1..], rest, run + [word[0]]);
    }
  }

  lemma {:induction false} RunsJoined(codes: seq<string>)
    requires forall i :: 0 <= i < |codes| ==> IsCode(codes[i])
    ensures Runs(Joined(codes), "") == codes
    decreases |codes|
  {
    if |codes| == 1 {
      assert codes[0] + "" == codes[0] && "" + codes[0] == codes[0];
      RunsOver(codes[0], "", "");
    } else if |codes| > 1 {
      var rest := Joined(codes[1..]);
      assert codes[0] + ", " + rest == codes[0] + (", " + rest);
      RunsOver(codes[0], ", " + rest, "");
      assert "" + codes[0] == codes[0];
      assert (", " + rest)[1..] == " " + rest;
      assert (" " + rest)[1..] == rest;
      RunsJoined(codes[1..]);
    }
  }

  /** Codes shown in the form and read back are the codes there were. */
  lemma CodesReadBack(codes: seq<string>)
    requires forall i :: 0 <= i < |codes| ==> IsCode(codes[i])
    ensures Codes(Joined(codes)) == codes
  {
    RunsJoined(codes);
    assert forall i :: 0 <= i < |codes| ==> Upper(codes[i]) == codes[i];
  }

  lemma {:induction false} RunsPart(a: string, c: char, b: string, run: string)
    requires IsSeparator(c)
    ensures Runs(a + [c] + b, run) == Runs(a, run) + Runs(b, "")
    decreases |a|
  {
    hide IsSeparator;
    if a == "" {
      assert a + [c] + b == [c] + b && ([c] + b)[1..] == b;
    } else {
      assert (a + [c] + b)[1..] == a[1..] + [c] + b;
      RunsPart(a[1..], c, b, if IsSeparator(a[0]) then "" else run + [a[0]]);
    }
  }

  /** A space, a comma or a semicolon parts what is typed: the codes before it, and those after. */
  lemma SeparatorsPart(a: string, c: char, b: string)
    requires IsSpace(c) || c == ',' || c == ';'
    ensures Codes(a + [c] + b) == Codes(a) + Codes(b)
  {
    RunsPart(a, c, b, "");
    hide IsSpace;
    assert forall i :: 0 <= i < |Codes(a)| ==> (Codes(a) + Codes(b))[i] == Codes(a)[i];
  }

  /** Typed with nothing of the kind in it, it is one code, in capitals. */
  lemma OneCode(word: string)
    requires word != "" && AllClear(word)
    ensures Codes(word) == [Upper(word)]
  {
    assert word + "" == word && "" + word == word;
    RunsOver(word, "", "");
    assert Runs("", word) == [word];
  }

  predicate AllClear(s: string) {
    forall i :: 0 <= i < |s| ==> !IsSeparator(s[i])
  }

  lemma {:induction false} RunsAreClear(s: string, run: string)
    requires AllClear(run)
    ensures forall i :: 0 <= i < |Runs(s, run)| ==> Runs(s, run)[i] != "" && AllClear(Runs(s, run)[i])
    decreases |s|
  {
    if s != "" {
      if IsSeparator(s[0]) {
        RunsAreClear(s[1..], "");
      } else {
        RunsAreClear(s[1..], run + [s[0]]);
      }
    }
  }

  /** Whatever is typed, what is read of it are codes. */
  lemma CodesAreCodes(typed: string)
    ensures forall i :: 0 <= i < |Codes(typed)| ==> IsCode(Codes(typed)[i])
  {
    RunsAreClear(typed, "");
    forall i | 0 <= i < |Codes(typed)|
      ensures IsCode(Codes(typed)[i])
    {
      UpperStays(Runs(typed, "")[i]);
    }
  }

  /** A list of codes is not blank. */
  lemma JoinedNotBlank(codes: seq<string>)
    requires codes != [] && forall i :: 0 <= i < |codes| ==> IsCode(codes[i])
    ensures !Blank(Joined(codes))
  {
    var s := Joined(codes);
    assert s != "" && s[0] == codes[0][0] && !IsSpace(s[0]);
    TrimEndKeepsFirst(s);
  }

  lemma {:induction false} TrimEndKeepsFirst(s: string)
    requires s != "" && !IsSpace(s[0])
    ensures TrimEnd(s) != ""
    decreases |s|
  {
    if IsSpace(s[|s| - 1]) {
      TrimEndKeepsFirst(s[..|s| - 1]);
    }
  }
}
