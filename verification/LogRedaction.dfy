/**
 * What the log may say (apps/api/src/log-redaction.ts): a URL with its secret and its query
 * cut, and a text with every address in it cut, as the regular expressions there match them.
 */
module LogRedaction {
  import opened Text

  const REDACTED := "[redacted]"
  const ADDRESS := "[address]"

  // ------------------------------------------------------------- addresses

  /** What a name and a domain are made of: no space, no `@`, none of the marks around them. */
  predicate InName(c: char) {
    !IsSpace(c) && c !in "@<>\"'(),;:[]/\\"
  }

  predicate Letter(c: char) {
    'A' <= c <= 'Z' || 'a' <= c <= 'z'
  }

  predicate InLastPart(c: char) {
    Letter(c) || '0' <= c <= '9' || c == '-'
  }

  predicate AllName(s: string) {
    forall i :: 0 <= i < |s| ==> InName(s[i])
  }

  /** An address: a name, an `@` at `at`, a domain, and from the dot at `dot` a last part that starts with a letter. */
  predicate AddressAt(s: string, at: nat, dot: nat) {
    && 0 < at < dot && dot + 1 < |s|
    && AllName(s[..at]) && s[at] == '@' && AllName(s[at + 1..dot]) && s[dot] == '.' && Letter(s[dot + 1])
    && forall i :: dot + 2 <= i < |s| ==> InLastPart(s[i])
  }

  predicate IsAddress(s: string) {
    exists at, dot :: 0 <= at < |s| && 0 <= dot < |s| && AddressAt(s, at, dot)
  }

  /** No part of it, however cut, is an address. */
  predicate NoAddress(s: string) {
    forall a, b :: 0 <= a <= b <= |s| ==> !IsAddress(s[a..b])
  }

  /** How far, from `from`, it is all of a name. */
  function NameEnd(s: string, from: nat): (r: nat)
    requires from <= |s|
    ensures from <= r <= |s| && (forall i :: from <= i < r ==> InName(s[i])) && (r < |s| ==> !InName(s[r]))
    decreases |s| - from
  {
    if from < |s| && InName(s[from]) then NameEnd(s, from + 1) else from
  }

  function LastPartEnd(s: string, from: nat): (r: nat)
    requires from <= |s|
    ensures from <= r <= |s| && (forall i :: from <= i < r ==> InLastPart(s[i])) && (r < |s| ==> !InLastPart(s[r]))
    decreases |s| - from
  {
    if from < |s| && InLastPart(s[from]) then LastPartEnd(s, from + 1) else from
  }

  predicate DotAt(s: string, i: nat) {
    i + 1 < |s| && s[i] == '.' && Letter(s[i + 1])
  }

  /** Backing off from `end`, the last dot before it that a letter follows, from `from` on. */
  function LastDot(s: string, from: nat, end: nat): (r: Option<nat>)
    requires end <= |s|
    ensures r.Some? ==> from <= r.value < end && DotAt(s, r.value) && (forall i :: r.value < i < end ==> !DotAt(s, i))
    ensures r.None? ==> (forall i :: from <= i < end ==> !DotAt(s, i))
    decreases end
  {
    if end <= from then None
    else if DotAt(s, end - 1) then Some(end - 1)
    else LastDot(s, from, end - 1)
  }

  /** Where the match that begins at the start of `s` ends, if one does: each part taking all it can, and giving back. */
  function MatchHere(s: string): (r: Option<nat>)
    ensures r.Some? ==> 0 < r.value <= |s|
  {
    var at := NameEnd(s, 0);
    if at == 0 || at == |s| || s[at] != '@' then None
    else
      match LastDot(s, at + 1, NameEnd(s, at + 1))
      case None => None
      case Some(dot) => Some(LastPartEnd(s, dot + 2))
  }

  /** Every match, the first one first, put as `[address]`; the rest as it is. */
  function Scrub(s: string): string
    decreases |s|
  {
    if s == "" then ""
    else
      match MatchHere(s)
      case Some(end) => ADDRESS + Scrub(s[end..])
      case None => [s[0]] + Scrub(s[1..])
  }

  /** A match found is an address. */
  lemma MatchIsAddress(s: string)
    requires MatchHere(s).Some?
    ensures IsAddress(s[..MatchHere(s).value])
  {
    var end := MatchHere(s).value;
    var at := NameEnd(s, 0);
    var dot := LastDot(s, at + 1, NameEnd(s, at + 1)).value;
    assert s[..end][..at] == s[..at] && s[..end][at + 1..dot] == s[at + 1..dot];
    assert AddressAt(s[..end], at, dot);
  }

  lemma DotInName(c: char)
    ensures c == '.' || Letter(c) || InLastPart(c) ==> InName(c)
  {
  }

  lemma NameEndIs(s: string, from: nat, end: nat)
    requires from <= end <= |s| && (forall i :: from <= i < end ==> InName(s[i]))
    ensures end <= NameEnd(s, from) && (end < |s| && !InName(s[end]) ==> NameEnd(s, from) == end)
  {
  }

  /** An address's parts, where they are. */
  lemma AddressParts(t: string, at: nat, dot: nat)
    requires AddressAt(t, at, dot)
    ensures forall i :: 0 <= i < dot && i != at ==> InName(t[i])
    ensures t[at] == '@' && DotAt(t, dot) && InName(t[dot]) && forall i :: dot < i < |t| ==> InLastPart(t[i])
  {
    forall i | 0 <= i < dot && i != at
      ensures InName(t[i])
    {
      if i < at {
        assert t[..at][i] == t[i];
      } else {
        assert t[at + 1..dot][i - at - 1] == t[i];
      }
    }
    DotInName(t[dot]);
  }

  /** Where an address begins a match is found, and the longest there is. */
  lemma AddressIsMatched(s: string, end: nat)
    requires end <= |s| && IsAddress(s[..end])
    ensures MatchHere(s).Some? && end <= MatchHere(s).value
  {
    var t := s[..end];
    var at, dot :| 0 <= at < |t| && 0 <= dot < |t| && AddressAt(t, at, dot);
    AddressParts(t, at, dot);
    assert forall i :: 0 <= i < end ==> t[i] == s[i];
    MatchedAt(s, end, at, dot);
  }

  lemma MatchedAt(s: string, end: nat, at: nat, dot: nat)
    requires 0 < at < dot && dot + 1 < end <= |s| && (forall i :: 0 <= i <= dot && i != at ==> InName(s[i])) && s[at] == '@'
    requires DotAt(s, dot) && forall i :: dot < i < end ==> InLastPart(s[i])
    ensures MatchHere(s).Some? && end <= MatchHere(s).value
  {
    hide IsSpace;
    NameEndIs(s, 0, at);
    NameEndIs(s, at + 1, dot + 1);
    var run := NameEnd(s, at + 1);
    var last := LastDot(s, at + 1, run);
    assert last.Some? && dot <= last.value;
    if dot == last.value {
      LastPartReaches(s, dot + 2, end);
    } else {
      assert !InLastPart(s[last.value]);
    }
  }

  lemma LastPartReaches(s: string, from: nat, end: nat)
    requires from <= end <= |s| && forall i :: from <= i < end ==> InLastPart(s[i])
    ensures end <= LastPartEnd(s, from)
  {
  }

  lemma ScrubStep(s: string)
    requires s != ""
    ensures MatchHere(s).Some? ==> |Scrub(s)| > 0 && Scrub(s)[0] == '['
    ensures MatchHere(s).None? ==> Scrub(s) == [s[0]] + Scrub(s[1..])
  {
    hide MatchHere;
  }

  /** Up to the first mark put in, what comes out is what went in. */
  lemma {:induction false} ScrubKeeps(s: string, n: nat)
    requires n <= |Scrub(s)| && forall i :: 0 <= i < n ==> Scrub(s)[i] != '['
    ensures n <= |s| && Scrub(s)[..n] == s[..n]
    decreases |s|
  {
    hide MatchHere;
    if n > 0 {
      assert s != "";
      ScrubStep(s);
      hide Scrub;
      if MatchHere(s).None? {
        var rest := Scrub(s[1..]);
        assert forall i :: 0 <= i < |rest| ==> Scrub(s)[i + 1] == rest[i];
        ScrubKeeps(s[1..], n - 1);
        assert Scrub(s)[..n] == [s[0]] + rest[..n - 1];
        assert s[..n] == [s[0]] + s[1..][..n - 1];
      }
    }
  }

  lemma AddressMarks(t: string)
    requires IsAddress(t)
    ensures |t| > 0 && '[' !in t && ']' !in t && '@' in t
  {
    var at, dot :| 0 <= at < |t| && 0 <= dot < |t| && AddressAt(t, at, dot);
    forall i | 0 <= i < |t|
      ensures t[i] != '[' && t[i] != ']'
    {
      if i < at {
        assert InName(t[..at][i]);
      } else if at < i < dot {
        assert InName(t[at + 1..dot][i - at - 1]);
      }
    }
  }

  lemma NotWithMarks(t: string)
    requires ']' in t || '@' !in t
    ensures !IsAddress(t)
  {
    if IsAddress(t) {
      AddressMarks(t);
    }
  }

  /** Neither before a mark, across it nor after it is there an address, if there is none on either side. */
  lemma AfterMark(rest: string)
    requires NoAddress(rest)
    ensures NoAddress(ADDRESS + rest)
  {
    var t := ADDRESS + rest;
    forall a, b | 0 <= a <= b <= |t|
      ensures !IsAddress(t[a..b])
    {
      if a >= |ADDRESS| {
        assert t[a..b] == rest[a - |ADDRESS|..b - |ADDRESS|];
      } else if b >= |ADDRESS| {
        assert t[a..b][|ADDRESS| - 1 - a] == ']';
        NotWithMarks(t[a..b]);
      } else {
        assert t[a..b] == ADDRESS[a..b];
        NoAtInMark(a, b);
        NotWithMarks(t[a..b]);
      }
    }
  }

  lemma NoAtInMark(a: nat, b: nat)
    requires a <= b <= |ADDRESS|
    ensures '@' !in ADDRESS[a..b]
  {
    assert '@' !in ADDRESS;
    assert forall i :: a <= i < b ==> ADDRESS[i] in ADDRESS;
  }

  /** Scrubbed, no part of a text is an address. */
  lemma {:induction false} ScrubLeavesNoAddress(s: string)
    ensures NoAddress(Scrub(s))
    decreases |s|
  {
    hide MatchHere, NoAddress;
    if s == "" {
      NothingThere();
    } else if MatchHere(s).Some? {
      ScrubLeavesNoAddress(s[MatchHere(s).value..]);
      AfterMark(Scrub(s[MatchHere(s).value..]));
    } else {
      ScrubLeavesNoAddress(s[1..]);
      UnmarkedHasNone(s);
    }
  }

  lemma NothingThere()
    ensures NoAddress("")
  {
    assert forall a, b :: 0 <= a <= b <= 0 ==> !IsAddress(""[a..b]);
  }

  /** A text with no match at its start, and no address in the rest once scrubbed. */
  lemma UnmarkedHasNone(s: string)
    requires s != "" && MatchHere(s).None? && NoAddress(Scrub(s[1..]))
    ensures NoAddress(Scrub(s))
  {
    hide MatchHere, IsAddress;
    ScrubStep(s);
    var out, rest := Scrub(s), Scrub(s[1..]);
    hide Scrub;
    forall a, b | 0 <= a <= b <= |out|
      ensures !IsAddress(out[a..b])
    {
      if a > 0 {
        assert out[1..] == rest && out[1..][a - 1..b - 1] == out[a..b];
      } else {
        assert out[a..b] == out[..b];
        NoneAtStart(s, b);
      }
    }
  }

  lemma NoneAtStart(s: string, b: nat)
    requires MatchHere(s).None? && b <= |Scrub(s)|
    ensures !IsAddress(Scrub(s)[..b])
  {
    hide MatchHere, Scrub;
    var out := Scrub(s);
    if IsAddress(out[..b]) {
      AddressMarks(out[..b]);
      hide IsAddress;
      assert forall i :: 0 <= i < b ==> out[i] == out[..b][i];
      ScrubKeeps(s, b);
      AddressIsMatched(s, b);
    }
  }

  /** A text with no address in it is left as it is: no package, no path is touched. */
  lemma {:induction false} NothingToScrub(s: string)
    requires NoAddress(s)
    ensures Scrub(s) == s
    decreases |s|
  {
    if s != "" {
      NoMatch(s);
      ScrubStep(s);
      hide Scrub, IsAddress, MatchHere;
      forall a, b | 0 <= a <= b <= |s[1..]|
        ensures !IsAddress(s[1..][a..b])
      {
        assert s[1..][a..b] == s[a + 1..b + 1];
      }
      NothingToScrub(s[1..]);
    }
  }

  lemma NoMatch(s: string)
    requires NoAddress(s)
    ensures MatchHere(s).None?
  {
    if MatchHere(s).Some? {
      var end := MatchHere(s).value;
      assert s[0..end] == s[..end];
      MatchIsAddress(s);
    }
  }

  /** Scrubbing is done once; and touches just the texts that hold an address. */
  lemma ScrubTwice(s: string)
    ensures Scrub(Scrub(s)) == Scrub(s)
    ensures Scrub(s) == s <==> NoAddress(s)
  {
    ScrubLeavesNoAddress(s);
    NothingToScrub(Scrub(s));
    if NoAddress(s) {
      NothingToScrub(s);
    }
  }

  /** What an address's last part starts with, and goes on with, by code points: A to Z and a to z; digits and a hyphen too. */
  lemma LettersAre(c: char)
    ensures Letter(c) <==> 65 <= c as int <= 90 || 97 <= c as int <= 122
    ensures InLastPart(c) <==> 65 <= c as int <= 90 || 97 <= c as int <= 122 || 48 <= c as int <= 57 || c == '-'
  {
  }

  /** A text put together: one kept, then one of those between, and so on. */
  function Woven(kept: seq<string>, between: seq<string>): string
    requires |kept| == |between| + 1
  {
    if between == [] then kept[0] else kept[0] + between[0] + Woven(kept[1..], between[1..])
  }

  function Marks(n: nat): (r: seq<string>)
    ensures |r| == n && forall i :: 0 <= i < n ==> r[i] == ADDRESS
  {
    if n == 0 then [] else [ADDRESS] + Marks(n - 1)
  }

  /** A text is scrubbed of addresses, each put as a mark in its place, and of nothing else. */
  lemma {:induction false} ScrubCutsAddresses(s: string) returns (kept: seq<string>, cut: seq<string>)
    ensures |kept| == |cut| + 1 && forall i :: 0 <= i < |cut| ==> IsAddress(cut[i])
    ensures s == Woven(kept, cut) && Scrub(s) == Woven(kept, Marks(|cut|))
    decreases |s|
  {
    hide MatchHere, IsAddress, Scrub, Woven;
    ScrubAt(s);
    if s == "" {
      kept, cut := [""], [];
      WovenAlone();
    } else if MatchHere(s).Some? {
      var end := MatchHere(s).value;
      MatchIsAddress(s);
      var k, c := ScrubCutsAddresses(s[end..]);
      kept, cut := [""] + k, [s[..end]] + c;
      WovenFirst(k, s[..end], c);
      WovenFirst(k, ADDRESS, Marks(|c|));
      assert s == s[..end] + s[end..];
    } else {
      var k, c := ScrubCutsAddresses(s[1..]);
      kept, cut := [[s[0]] + k[0]] + k[1..], c;
      WovenMore(s[0], k, c);
      WovenMore(s[0], k, Marks(|c|));
      assert s == [s[0]] + s[1..];
    }
  }

  lemma ScrubAt(s: string)
    ensures s == "" ==> Scrub(s) == ""
    ensures s != "" && MatchHere(s).Some? ==> Scrub(s) == ADDRESS + Scrub(s[MatchHere(s).value..])
    ensures s != "" && MatchHere(s).None? ==> Scrub(s) == [s[0]] + Scrub(s[1..])
  {
    hide MatchHere;
  }

  lemma WovenAlone()
    ensures Woven([""], []) == "" && Marks(0) == []
  {
  }

  lemma WovenFirst(kept: seq<string>, first: string, between: seq<string>)
    requires |kept| == |between| + 1
    ensures Woven([""] + kept, [first] + between) == first + Woven(kept, between)
  {
    var a, b := [""] + kept, [first] + between;
    assert a[1..] == kept && b[1..] == between && a[0] == "" && b[0] == first;
    assert "" + first == first;
    assert Woven(a, b) == a[0] + b[0] + Woven(kept, between);
  }

  lemma WovenMore(first: char, kept: seq<string>, between: seq<string>)
    requires |kept| == |between| + 1
    ensures Woven([[first] + kept[0]] + kept[1..], between) == [first] + Woven(kept, between)
  {
    assert ([[first] + kept[0]] + kept[1..])[1..] == kept[1..];
    if between != [] {
      assert ([first] + kept[0]) + between[0] + Woven(kept[1..], between[1..])
          == [first] + (kept[0] + between[0] + Woven(kept[1..], between[1..]));
    }
  }

  // ------------------------------------------------------------- an error

  /** An error as it was thrown: its kind, its words, and whatever else it carries. */
  datatype Thrown = Thrown(kind: string, message: string, stack: Option<string>, fields: map<string, string>)

  datatype Logged = Logged(kind: string, message: string, stack: Option<string>, fields: map<string, string>)

  const ERROR_FIELDS := {"code", "statusCode", "constraint", "table", "column", "routine", "severity"}

  function ErrorForLog(e: Thrown): Logged {
    Logged(e.kind, Scrub(e.message), if e.stack.Some? then Some(Scrub(e.stack.value)) else None,
           map k | k in e.fields && k in ERROR_FIELDS :: e.fields[k])
  }

  /** No address is left in a logged error's words, and of its fields only names of what failed: never the row refused. */
  lemma ErrorKeepsNoAddress(e: Thrown)
    ensures var out := ErrorForLog(e);
      && NoAddress(out.message) && (out.stack.Some? <==> e.stack.Some?) && (out.stack.Some? ==> NoAddress(out.stack.value))
      && (forall k :: k in out.fields <==>
            k in e.fields && k in {"code", "statusCode", "constraint", "table", "column", "routine", "severity"})
      && "detail" !in out.fields
      && out.kind == e.kind && (forall k :: k in out.fields ==> out.fields[k] == e.fields[k])
      && (NoAddress(e.message) ==> out.message == e.message)
      && (e.stack.Some? && NoAddress(e.stack.value) ==> out.stack == e.stack)
  {
    hide Scrub, NoAddress;
    ScrubLeavesNoAddress(e.message);
    ScrubTwice(e.message);
    assert "detail" !in ERROR_FIELDS by {
      DetailIsNoField();
    }
    if e.stack.Some? {
      ScrubLeavesNoAddress(e.stack.value);
      ScrubTwice(e.stack.value);
    }
  }

  lemma DetailIsNoField()
    ensures "detail" !in ERROR_FIELDS
  {
    assert |"detail"| == 6 && |"code"| == 4 && |"statusCode"| == 10 && |"constraint"| == 10 && |"table"| == 5;
    assert |"routine"| == 7 && |"severity"| == 8 && "column"[0] == 'c' && "detail"[0] == 'd';
  }

  // ------------------------------------------------------------- a URL

  /** A path with a secret after it, and the names of routes under it that are none. */
  datatype Route = Route(prefix: string, kept: seq<string>)

  const ROUTES := [
    Route("/api/v1/shared/", ["preview", "unlock", "items", "code"]),
    Route("/api/v1/password-resets/", ["lookup", "complete"]),
    Route("/api/v1/invitations/", ["lookup", "accept"]),
    Route("/api/v1/drop/", ["preview", "code", "unlock", "session", "files", "finish"]),
    Route("/shared/", []),
    Route("/reset/", []),
    Route("/join/", []),
    Route("/drop/", [])
  ]

  predicate Ends(c: char) {
    c == '/' || c == '?' || c == '#'
  }

  function SegmentEnd(s: string, from: nat): (r: nat)
    requires from <= |s|
    ensures from <= r <= |s| && (forall i :: from <= i < r ==> !Ends(s[i])) && (r < |s| ==> Ends(s[r]))
    decreases |s| - from
  {
    if from < |s| && !Ends(s[from]) then SegmentEnd(s, from + 1) else from
  }

  /** Exactly a name that is kept comes next: not a token that merely starts like one. */
  predicate KeptNext(s: string, from: nat, kept: seq<string>)
    requires from <= |s|
  {
    exists n :: n in kept && n <= s[from..] && (from + |n| == |s| || Ends(s[from + |n|]))
  }

  predicate Cuts(path: string, r: Route) {
    r.prefix <= path && !KeptNext(path, |r.prefix|, r.kept) && SegmentEnd(path, |r.prefix|) > |r.prefix|
  }

  /** The first of these routes that the path is one of, with a secret to cut. */
  function RouteOf(path: string, routes: seq<Route>): (r: Option<Route>)
    ensures r.Some? ==> r.value in routes && Cuts(path, r.value)
    ensures r.None? ==> forall x :: x in routes ==> !Cuts(path, x)
  {
    if routes == [] then None
    else if Cuts(path, routes[0]) then Some(routes[0])
    else RouteOf(path, routes[1..])
  }

  function CutSecret(path: string): string {
    match RouteOf(path, ROUTES)
    case None => path
    case Some(r) => r.prefix + REDACTED + path[SegmentEnd(path, |r.prefix|)..]
  }

  function IndexOf(s: string, c: char): (r: nat)
    ensures r <= |s| && (forall i :: 0 <= i < r ==> s[i] != c) && (r < |s| ==> s[r] == c)
  {
    if s == "" || s[0] == c then 0 else IndexOf(s[1..], c) + 1
  }

  function LoggableUrl(url: string): string {
    var q := IndexOf(url, '?');
    if q == |url| then CutSecret(url) else CutSecret(url[..q]) + "?" + REDACTED
  }

  /** A text without any of what ends a segment. */
  predicate Segment(s: string) {
    forall i :: 0 <= i < |s| ==> !Ends(s[i])
  }

  /** What may come after a segment: nothing, or what ends it. */
  predicate Follows(s: string) {
    s == "" || Ends(s[0])
  }

  lemma SegmentEndIs(s: string, from: nat, end: nat)
    requires from <= end <= |s| && (forall i :: from <= i < end ==> !Ends(s[i])) && (end < |s| ==> Ends(s[end]))
    ensures SegmentEnd(s, from) == end
  {
  }

  lemma SegmentOf(prefix: string, segment: string, rest: string)
    requires Segment(segment) && Follows(rest)
    ensures SegmentEnd(prefix + segment + rest, |prefix|) == |prefix| + |segment|
  {
    var s := prefix + segment + rest;
    assert forall i :: 0 <= i < |segment| ==> s[|prefix| + i] == segment[i];
    forall i | |prefix| <= i < |prefix| + |segment|
      ensures !Ends(s[i])
    {
      assert s[i] == segment[i - |prefix|];
    }
    SegmentEndIs(s, |prefix|, |prefix| + |segment|);
  }

  /** A name is kept just when it is the whole segment. */
  lemma KeptIsWhole(prefix: string, segment: string, rest: string, kept: seq<string>)
    requires Segment(segment) && Follows(rest) && forall n :: n in kept ==> Segment(n)
    ensures KeptNext(prefix + segment + rest, |prefix|, kept) <==> segment in kept
  {
    var s := prefix + segment + rest;
    assert s[|prefix|..] == segment + rest;
    if segment in kept {
      assert segment <= s[|prefix|..];
    }
    if KeptNext(s, |prefix|, kept) {
      var n :| n in kept && n <= s[|prefix|..] && (|prefix| + |n| == |s| || Ends(s[|prefix| + |n|]));
      forall i | |prefix| <= i < |prefix| + |n|
        ensures !Ends(s[i])
      {
        assert s[i] == s[|prefix|..][i - |prefix|] == n[i - |prefix|];
      }
      SegmentEndIs(s, |prefix|, |prefix| + |n|);
      SegmentOf(prefix, segment, rest);
      assert n == s[|prefix|..][..|n|] == segment;
    }
  }

  predicate RouteOk(r: Route) {
    (forall n :: n in r.kept ==> Segment(n)) && REDACTED !in r.kept && '?' !in r.prefix && |r.prefix| > 1
  }

  lemma ManyNamesOk(prefix: string)
    requires '?' !in prefix && |prefix| > 1
    ensures RouteOk(Route(prefix, ["preview", "unlock", "items", "code"])) && RouteOk(Route(prefix, []))
    ensures RouteOk(Route(prefix, ["preview", "code", "unlock", "session", "files", "finish"]))
  {
    assert Segment("preview") && Segment("unlock") && Segment("items") && Segment("code");
    assert Segment("session") && Segment("files") && Segment("finish");
    assert |REDACTED| == 10;
  }

  lemma TwoNamesOk(prefix: string)
    requires '?' !in prefix && |prefix| > 1
    ensures RouteOk(Route(prefix, ["lookup", "complete"])) && RouteOk(Route(prefix, ["lookup", "accept"]))
  {
    assert Segment("lookup") && Segment("complete") && Segment("accept");
    assert |REDACTED| == 10;
  }

  lemma LongRoutesOk()
    ensures RouteOk(ROUTES[0]) && RouteOk(ROUTES[1])
  {
    assert '?' !in "/api/v1/shared/";
    assert '?' !in "/api/v1/password-resets/";
    hide RouteOk;
    ManyNamesOk("/api/v1/shared/");
    TwoNamesOk("/api/v1/password-resets/");
  }

  lemma OtherRoutesOk()
    ensures RouteOk(ROUTES[2]) && RouteOk(ROUTES[3])
  {
    assert '?' !in "/api/v1/invitations/";
    assert '?' !in "/api/v1/drop/";
    hide RouteOk;
    TwoNamesOk("/api/v1/invitations/");
    ManyNamesOk("/api/v1/drop/");
  }

  lemma PagesOk()
    ensures RouteOk(ROUTES[4]) && RouteOk(ROUTES[5]) && RouteOk(ROUTES[6]) && RouteOk(ROUTES[7])
  {
    assert '?' !in "/shared/" && '?' !in "/reset/" && '?' !in "/join/" && '?' !in "/drop/";
    hide RouteOk;
    ManyNamesOk("/shared/");
    ManyNamesOk("/reset/");
    ManyNamesOk("/join/");
    ManyNamesOk("/drop/");
  }

  lemma RoutesOk()
    ensures forall r :: r in ROUTES ==> RouteOk(r)
  {
    LongRoutesOk();
    OtherRoutesOk();
    PagesOk();
    hide RouteOk;
    forall r | r in ROUTES
      ensures RouteOk(r)
    {
      var i :| 0 <= i < |ROUTES| && ROUTES[i] == r;
      assert |ROUTES| == 8;
      assert i == 0 || i == 1 || i == 2 || i == 3 || i == 4 || i == 5 || i == 6 || i == 7;
    }
  }

  /** What tells a route's paths from every other's. */
  predicate MarkOf(path: string, i: nat) {
    if i < 4 then |path| > 8 && path[1] == 'a' && path[8] == "spid"[i]
    else i < 8 && |path| > 1 && path[1] == "srjd"[i - 4]
  }

  lemma RouteMarks(path: string, i: nat)
    requires i < |ROUTES| && ROUTES[i].prefix <= path
    ensures MarkOf(path, i)
  {
    assert |ROUTES| == 8;
    assert MarkOf("/api/v1/shared/", 0) && MarkOf("/api/v1/password-resets/", 1) && MarkOf("/api/v1/invitations/", 2);
    assert MarkOf("/api/v1/drop/", 3) && MarkOf("/shared/", 4) && MarkOf("/reset/", 5) && MarkOf("/join/", 6) && MarkOf("/drop/", 7);
    assert MarkOf(ROUTES[i].prefix, i);
  }

  /** No route begins another. */
  lemma RoutesApart(path: string, r: Route, q: Route)
    requires r in ROUTES && q in ROUTES && r.prefix <= path && q.prefix <= path
    ensures r == q
  {
    var i :| 0 <= i < |ROUTES| && ROUTES[i] == r;
    var j :| 0 <= j < |ROUTES| && ROUTES[j] == q;
    RouteMarks(path, i);
    RouteMarks(path, j);
  }

  /** A path of a route, its secret cut; one with a kept name, or none, as it is. */
  lemma CutIs(r: Route, segment: string, rest: string)
    requires r in ROUTES && Segment(segment) && Follows(rest)
    ensures CutSecret(r.prefix + segment + rest) ==
            if segment == "" || segment in r.kept then r.prefix + segment + rest else r.prefix + REDACTED + rest
  {
    hide ROUTES;
    var path := r.prefix + segment + rest;
    assert r.prefix <= path;
    RoutesOk();
    KeptIsWhole(r.prefix, segment, rest, r.kept);
    SegmentOf(r.prefix, segment, rest);
    var found := RouteOf(path, ROUTES);
    if found.Some? {
      RoutesApart(path, r, found.value);
      assert path[SegmentEnd(path, |r.prefix|)..] == rest;
    } else {
      assert !Cuts(path, r);
    }
  }

  /** Two paths that differ only in a route's secret are the same line. */
  lemma SecretsAreOneLine(r: Route, secret: string, other: string, rest: string)
    requires r in ROUTES && Segment(secret) && Segment(other) && Follows(rest) && '?' !in rest
    requires secret != "" && other != "" && secret !in r.kept && other !in r.kept
    ensures LoggableUrl(r.prefix + secret + rest) == LoggableUrl(r.prefix + other + rest)
    ensures forall query :: LoggableUrl(r.prefix + secret + rest + "?" + query) == LoggableUrl(r.prefix + other + rest + "?" + query)
  {
    RoutesOk();
    hide ROUTES;
    CutIs(r, secret, rest);
    CutIs(r, other, rest);
    NoQuery(r.prefix + secret + rest);
    NoQuery(r.prefix + other + rest);
    forall query
      ensures LoggableUrl(r.prefix + secret + rest + "?" + query) == LoggableUrl(r.prefix + other + rest + "?" + query)
    {
      WithQuery(r.prefix + secret + rest, query);
      WithQuery(r.prefix + other + rest, query);
    }
  }

  lemma {:induction false} IndexIs(s: string, rest: string, c: char)
    requires c !in s && (rest == "" || rest[0] == c)
    ensures IndexOf(s + rest, c) == |s|
    decreases |s|
  {
    if s == "" {
      assert s + rest == rest;
    } else {
      assert (s + rest)[1..] == s[1..] + rest && s[0] in s;
      IndexIs(s[1..], rest, c);
    }
  }

  lemma NoQuery(path: string)
    requires '?' !in path
    ensures LoggableUrl(path) == CutSecret(path)
  {
    assert path + "" == path;
    IndexIs(path, "", '?');
  }

  /** Of a query only that there was one is kept. */
  lemma WithQuery(path: string, query: string)
    requires '?' !in path
    ensures LoggableUrl(path + "?" + query) == CutSecret(path) + "?" + REDACTED
  {
    hide ROUTES;
    var url := path + "?" + query;
    assert url == path + ("?" + query);
    IndexIs(path, "?" + query, '?');
    assert url[..|path|] == path;
  }

  /** The path split where its route's secret is. */
  lemma Split(path: string, r: Route) returns (segment: string, rest: string)
    requires r.prefix <= path
    ensures path == r.prefix + segment + rest && Segment(segment) && Follows(rest)
  {
    var end := SegmentEnd(path, |r.prefix|);
    segment, rest := path[|r.prefix|..end], path[end..];
  }

  lemma CutTwice(path: string)
    requires '?' !in path
    ensures CutSecret(CutSecret(path)) == CutSecret(path) && '?' !in CutSecret(path)
  {
    RoutesOk();
    hide ROUTES;
    assert Segment(REDACTED) && '?' !in REDACTED;
    var found := RouteOf(path, ROUTES);
    if found.Some? {
      var r := found.value;
      var segment, rest := Split(path, r);
      CutIs(r, segment, rest);
      CutIs(r, REDACTED, rest);
      assert forall c :: c in rest ==> c in path;
    }
  }

  /** What the log keeps of a URL it keeps of itself; and whatever follows a query's mark is one word. */
  lemma LoggedOnce(url: string)
    ensures LoggableUrl(LoggableUrl(url)) == LoggableUrl(url)
    ensures '?' !in url ==> '?' !in LoggableUrl(url)
    ensures '?' in url ==> exists path :: '?' !in path && LoggableUrl(url) == path + "?" + REDACTED
  {
    hide ROUTES;
    var q := IndexOf(url, '?');
    var path := url[..q];
    CutTwice(path);
    if q == |url| {
      assert path == url;
      NoQuery(CutSecret(path));
    } else {
      assert url[q] in url;
      WithQuery(CutSecret(path), REDACTED);
    }
  }

  /** Two URLs that differ only after the first `?` are the same line. */
  lemma QueriesAreOneLine(path: string, query: string, other: string)
    requires '?' !in path
    ensures LoggableUrl(path + "?" + query) == LoggableUrl(path + "?" + other)
  {
    WithQuery(path, query);
    WithQuery(path, other);
  }

  /** A path is left as it is just when it has no secret to cut, or has it cut already. */
  lemma LeftAsItIs(path: string)
    requires '?' !in path
    ensures LoggableUrl(path) == path <==>
      forall r :: r in ROUTES && Cuts(path, r) ==> path[|r.prefix|..SegmentEnd(path, |r.prefix|)] == REDACTED
  {
    hide ROUTES;
    NoQuery(path);
    var found := RouteOf(path, ROUTES);
    if found.Some? {
      var r := found.value;
      var segment, rest := Split(path, r);
      SegmentOf(r.prefix, segment, rest);
      assert path[|r.prefix|..SegmentEnd(path, |r.prefix|)] == segment;
      assert CutSecret(path) == r.prefix + REDACTED + rest;
      if r.prefix + REDACTED + rest == r.prefix + segment + rest {
        assert |segment| == |REDACTED|;
        assert (r.prefix + segment + rest)[|r.prefix|..|r.prefix| + |segment|] == segment;
        assert (r.prefix + REDACTED + rest)[|r.prefix|..|r.prefix| + |REDACTED|] == REDACTED;
      }
      forall x | x in ROUTES && Cuts(path, x)
        ensures x == r
      {
        RoutesApart(path, x, r);
      }
    }
  }
}
