/**
 * `natural_key`: a file name split into text and digit runs, the text
 * lower-cased and the runs read as numbers, so that names sort as people
 * read them ("p2" before "p10"). Digits are ASCII.
 */
module NaturalKey {
  import opened Text
  import opened Sorting

  /** One element of the key: lower-cased text or a number. */
  datatype Part = Str(s: string) | Num(n: nat)

  predicate NoDigits(s: string) {
    forall k :: 0 <= k < |s| ==> !IsDigit(s[k])
  }

  /** Text, then any number of (digit run, text) pairs: the shape `re.split` with one group gives. */
  predicate Alternating(r: seq<string>) {
    |r| % 2 == 1 && NoDigits(r[0]) &&
    (|r| > 1 ==> r[1] != [] && AllDigits(r[1]) && Alternating(r[2..]))
  }

  /**
   * `re.split(r'(\d+)', s)`, built from the last character back: the first
   * text of the rest grows by a non-digit; a digit joins the digit run the
   * rest starts with, or starts a new one after an empty text.
   */
  function Split(s: string): (r: seq<string>)
    ensures Alternating(r)
    ensures (r[0] == [] && |r| > 1) <==> (s != [] && IsDigit(s[0]))
  {
    if s == [] then [""]
    else
      var rest := Split(s[1..]);
      if !IsDigit(s[0]) then
        var r := [[s[0]] + rest[0]] + rest[1..];
        assert |r| > 1 ==> r[1] == rest[1] && r[2..] == rest[2..];
        r
      else if rest[0] == [] && |rest| > 1 then
        var r := ["", [s[0]] + rest[1]] + rest[2..];
        assert r[2..] == rest[2..];
        r
      else
        var r := ["", [s[0]]] + rest;
        assert r[2..] == rest;
        r
  }

  /** Joined back together, the parts are the name again: `re.split` loses no character. */
  lemma {:induction false} SplitJoins(s: string)
    ensures Flatten(Split(s)) == s
  {
    if s != [] {
      var c, t := s[0], s[1..];
      assert s == [c] + t;
      SplitJoins(t);
      if !IsDigit(c) {
        SplitConsText(c, t);
        JoinIntoText(c, Split(t));
      } else if Split(t)[0] == [] && |Split(t)| > 1 {
        SplitConsJoin(c, t);
        JoinIntoRun(c, Split(t));
      } else {
        SplitConsNew(c, t);
        JoinNewRun(c, Split(t));
      }
    }
  }

  /** A character put in front of the first text is in front of the join. */
  lemma JoinIntoText(c: char, rest: seq<string>)
    requires |rest| > 0
    ensures Flatten([[c] + rest[0]] + rest[1..]) == [c] + Flatten(rest)
  {
    var r := [[c] + rest[0]] + rest[1..];
    assert r[1..] == rest[1..];
    assert Flatten(rest) == rest[0] + Flatten(rest[1..]);
  }

  /** A digit put in front of the first run, after an empty text, is in front of the join. */
  lemma JoinIntoRun(c: char, rest: seq<string>)
    requires |rest| > 1 && rest[0] == []
    ensures Flatten(["", [c] + rest[1]] + rest[2..]) == [c] + Flatten(rest)
  {
    var after := rest[1..];
    assert after[0] == rest[1] && after[1..] == rest[2..];
    JoinIntoText(c, after);
    JoinEmptyHead(rest);
    JoinEmptyFront([c] + rest[1], rest[2..]);
  }

  lemma JoinEmptyHead(parts: seq<string>)
    requires |parts| > 0 && parts[0] == []
    ensures Flatten(parts) == Flatten(parts[1..])
  {
    assert Flatten(parts) == parts[0] + Flatten(parts[1..]);
  }

  lemma JoinEmptyFront(x: string, tail: seq<string>)
    ensures Flatten(["", x] + tail) == Flatten([x] + tail)
  {
    var r := ["", x] + tail;
    assert r[1..] == [x] + tail;
    JoinEmptyHead(r);
  }

  /** A digit that opens a new run, after an empty text, is in front of the join. */
  lemma JoinNewRun(c: char, rest: seq<string>)
    ensures Flatten(["", [c]] + rest) == [c] + Flatten(rest)
  {
    FlattenAppend(["", [c]], rest);
    JoinPair("", [c]);
  }

  lemma JoinPair(a: string, b: string)
    ensures Flatten([a, b]) == a + b
  {
    var pair: seq<string> := [a, b];
    assert pair[1..] == [b];
    assert Flatten([b]) == b + Flatten([]);
    assert Flatten(pair) == a + Flatten([b]);
  }

  /** `Alternating` spelt out by position. */
  lemma {:induction false} AlternatingAt(r: seq<string>)
    requires Alternating(r)
    ensures forall k :: 0 <= k < |r| && k % 2 == 0 ==> NoDigits(r[k])
    ensures forall k :: 0 <= k < |r| && k % 2 == 1 ==> r[k] != [] && AllDigits(r[k])
  {
    if |r| > 1 {
      AlternatingAt(r[2..]);
      assert forall k :: 2 <= k < |r| ==> r[k] == r[2..][k - 2] && k % 2 == (k - 2) % 2;
    }
  }

  /** `int(s) if s.isdigit() else s.lower()`. */
  function Convert(t: string): Part {
    if t != [] && AllDigits(t) then Num(DigitsValue(t)) else Str(Lower(t))
  }

  /** `natural_key(string)`. */
  function Key(s: string): (r: seq<Part>)
    ensures |r| == |Split(s)|
  {
    var parts := Split(s);
    seq(|parts|, i requires 0 <= i < |parts| => Convert(parts[i]))
  }

  /** Lower-casing keeps digits digits and other characters not digits. */
  lemma LowerKeepsDigits(t: string)
    ensures NoDigits(t) ==> NoDigits(Lower(t))
    ensures AllDigits(t) ==> Lower(t) == t
  {
  }

  /** Even positions hold lower-case text without digits, odd positions numbers. */
  lemma KeyAlternates(s: string)
    ensures var r := Key(s);
            |r| % 2 == 1 &&
            (forall k :: 0 <= k < |r| && k % 2 == 0 ==> r[k].Str? && NoDigits(r[k].s) && Lower(r[k].s) == r[k].s) &&
            (forall k :: 0 <= k < |r| && k % 2 == 1 ==> r[k].Num?)
  {
    var parts := Split(s);
    AlternatingAt(parts);
    forall k | 0 <= k < |parts| && k % 2 == 0
      ensures Key(s)[k].Str? && NoDigits(Key(s)[k].s) && Lower(Key(s)[k].s) == Key(s)[k].s
    {
      LowerKeepsDigits(parts[k]);
      LowerIdempotent(parts[k]);
    }
  }

  // ---------------------------------------------------------------------------
  // The number of digit runs
  // ---------------------------------------------------------------------------

  /** The digit runs that start in `s`, the character before it being a digit when `afterDigit`. */
  function RunStarts(s: string, afterDigit: bool): nat {
    if s == [] then 0
    else (if IsDigit(s[0]) && !afterDigit then 1 else 0) + RunStarts(s[1..], IsDigit(s[0]))
  }

  /** The number of maximal digit runs. */
  function DigitRuns(s: string): nat {
    RunStarts(s, false)
  }

  /** After a digit, a run at the start of `s` is not a new one. */
  lemma RunStartsAfterDigit(s: string)
    ensures RunStarts(s, false) == RunStarts(s, true) + (if s != [] && IsDigit(s[0]) then 1 else 0)
  {
  }

  /** `re.split` gives one text more than there are digit runs. */
  lemma {:induction false} SplitLength(s: string)
    ensures |Split(s)| == 2 * DigitRuns(s) + 1
  {
    if s != [] {
      SplitLength(s[1..]);
      RunStartsAfterDigit(s[1..]);
    }
  }

  /** The key has `2k + 1` elements for `k` digit runs. */
  lemma KeyLength(s: string)
    ensures |Key(s)| == 2 * DigitRuns(s) + 1
  {
    SplitLength(s);
  }

  // ---------------------------------------------------------------------------
  // Case insensitivity
  // ---------------------------------------------------------------------------

  /** Each part lower-cased. */
  function LowerAll(ps: seq<string>): (r: seq<string>)
    ensures |r| == |ps|
  {
    seq(|ps|, i requires 0 <= i < |ps| => Lower(ps[i]))
  }

  lemma LowerCons(c: char, s: string)
    ensures Lower([c] + s) == [LowerChar(c)] + Lower(s)
  {
  }

  /** The three ways `Split` grows by one character in front. */
  lemma SplitConsText(c: char, t: string)
    requires !IsDigit(c)
    ensures Split([c] + t) == [[c] + Split(t)[0]] + Split(t)[1..]
  {
    assert ([c] + t)[0] == c && ([c] + t)[1..] == t;
  }

  lemma SplitConsJoin(c: char, t: string)
    requires IsDigit(c) && Split(t)[0] == [] && |Split(t)| > 1
    ensures Split([c] + t) == ["", [c] + Split(t)[1]] + Split(t)[2..]
  {
    assert ([c] + t)[0] == c && ([c] + t)[1..] == t;
  }

  lemma SplitConsNew(c: char, t: string)
    requires IsDigit(c) && !(Split(t)[0] == [] && |Split(t)| > 1)
    ensures Split([c] + t) == ["", [c]] + Split(t)
  {
    assert ([c] + t)[0] == c && ([c] + t)[1..] == t;
  }

  /** The three shapes of `Split`'s result, lower-cased part by part. */
  lemma LowerAllText(c: char, r: seq<string>)
    requires |r| >= 1
    ensures LowerAll([[c] + r[0]] + r[1..]) == [[LowerChar(c)] + LowerAll(r)[0]] + LowerAll(r)[1..]
  {
    LowerCons(c, r[0]);
  }

  lemma LowerAllJoin(c: char, r: seq<string>)
    requires |r| >= 2
    ensures LowerAll(["", [c] + r[1]] + r[2..]) == ["", [LowerChar(c)] + LowerAll(r)[1]] + LowerAll(r)[2..]
  {
    LowerCons(c, r[1]);
  }

  lemma LowerAllNew(c: char, r: seq<string>)
    ensures LowerAll(["", [c]] + r) == ["", [LowerChar(c)]] + LowerAll(r)
  {
    assert Lower([c]) == [LowerChar(c)];
  }

  lemma LowerAllHead(r: seq<string>)
    requires |r| >= 1
    ensures LowerAll(r)[0] == [] <==> r[0] == []
  {
    assert |LowerAll(r)[0]| == |r[0]|;
  }

  lemma SplitLowerText(c: char, t: string)
    requires !IsDigit(c) && Split(Lower(t)) == LowerAll(Split(t))
    ensures Split(Lower([c] + t)) == LowerAll(Split([c] + t))
  {
    LowerCons(c, t);
    SplitConsText(c, t);
    SplitConsText(LowerChar(c), Lower(t));
    LowerAllText(c, Split(t));
  }

  lemma SplitLowerJoin(c: char, t: string)
    requires IsDigit(c) && Split(t)[0] == [] && |Split(t)| > 1 && Split(Lower(t)) == LowerAll(Split(t))
    ensures Split(Lower([c] + t)) == LowerAll(Split([c] + t))
  {
    LowerCons(c, t);
    SplitConsJoin(c, t);
    LowerAllHead(Split(t));
    SplitConsJoin(LowerChar(c), Lower(t));
    LowerAllJoin(c, Split(t));
  }

  lemma SplitLowerNewRun(c: char, t: string)
    requires IsDigit(c) && !(Split(t)[0] == [] && |Split(t)| > 1) && Split(Lower(t)) == LowerAll(Split(t))
    ensures Split(Lower([c] + t)) == LowerAll(Split([c] + t))
  {
    LowerCons(c, t);
    SplitConsNew(c, t);
    LowerAllHead(Split(t));
    SplitConsNew(LowerChar(c), Lower(t));
    LowerAllNew(c, Split(t));
  }

  /** Lower-casing first splits at the same places. */
  lemma {:induction false} SplitLower(s: string)
    ensures Split(Lower(s)) == LowerAll(Split(s))
  {
    if s != [] {
      var c, t := s[0], s[1..];
      assert s == [c] + t;
      SplitLower(t);
      if !IsDigit(c) {
        SplitLowerText(c, t);
      } else if Split(t)[0] == [] && |Split(t)| > 1 {
        SplitLowerJoin(c, t);
      } else {
        SplitLowerNewRun(c, t);
      }
    }
  }

  /** A part converts the same whatever its case. */
  lemma ConvertLower(t: string)
    ensures Convert(Lower(t)) == Convert(t)
  {
    LowerKeepsDigits(t);
    LowerIdempotent(t);
  }

  /** Upper and lower case give the same key. */
  lemma KeyCaseInsensitive(s: string)
    ensures Key(Lower(s)) == Key(s)
  {
    SplitLower(s);
    forall k | 0 <= k < |Split(s)| ensures Key(Lower(s))[k] == Key(s)[k] {
      ConvertLower(Split(s)[k]);
    }
  }

  // ---------------------------------------------------------------------------
  // Comparison
  // ---------------------------------------------------------------------------

  /** Python's `<` on strings: code-point lexicographic order. */
  predicate StrLess(a: string, b: string) {
    if a == [] then b != []
    else if b == [] then false
    else if a[0] != b[0] then a[0] < b[0]
    else StrLess(a[1..], b[1..])
  }

  /** `<` on two elements at the same position (the same kind, since keys alternate). */
  predicate PartLess(x: Part, y: Part) {
    match (x, y)
    case (Num(m), Num(n)) => m < n
    case (Str(a), Str(b)) => StrLess(a, b)
    case _ => false
  }

  /** Python's `<` on lists: the first difference decides, a proper prefix is smaller. */
  predicate KeyLess(a: seq<Part>, b: seq<Part>) {
    if a == [] then b != []
    else if b == [] then false
    else if a[0] != b[0] then PartLess(a[0], b[0])
    else KeyLess(a[1..], b[1..])
  }

  /** A digit run alone splits into an empty text, the run and an empty text. */
  lemma {:induction false} SplitNumber(x: string)
    requires x != [] && AllDigits(x)
    ensures Split(x) == ["", x, ""]
  {
    if x[1..] != [] {
      SplitNumber(x[1..]);
      assert [x[0]] + x[1..] == x;
    } else {
      assert Split(x[1..]) == [""];
      assert x == [x[0]];
    }
  }

  /** Text without digits in front joins the first text of the rest. */
  lemma {:induction false} SplitAfterText(p: string, y: string)
    requires NoDigits(p)
    ensures Split(p + y) == [p + Split(y)[0]] + Split(y)[1..]
  {
    if p != [] {
      assert (p + y)[1..] == p[1..] + y;
      SplitAfterText(p[1..], y);
      assert [p[0]] + (p[1..] + Split(y)[0]) == p + Split(y)[0];
    } else {
      assert p + y == y && p + Split(y)[0] == Split(y)[0];
      assert Split(y) == [Split(y)[0]] + Split(y)[1..];
    }
  }

  /** Text followed by one digit run splits into the text, the run and an empty tail. */
  lemma SplitTextNumber(p: string, x: string)
    requires NoDigits(p) && x != [] && AllDigits(x)
    ensures Split(p + x) == [p, x, ""]
  {
    SplitNumber(x);
    SplitAfterText(p, x);
    assert p + "" == p;
  }

  /** Names that differ only in a trailing number sort by that number. */
  lemma NumbersCompareNumerically(p: string, x: string, y: string)
    requires NoDigits(p) && x != [] && AllDigits(x) && y != [] && AllDigits(y)
    requires DigitsValue(x) < DigitsValue(y)
    ensures KeyLess(Key(p + x), Key(p + y))
  {
    SplitTextNumber(p, x);
    SplitTextNumber(p, y);
    var a := Key(p + x);
    var b := Key(p + y);
    assert a[0] == Convert(p) == b[0];
    assert a[1..][0] == Num(DigitsValue(x)) && b[1..][0] == Num(DigitsValue(y));
  }

  /** "p2" sorts before "p10", though as plain strings "p10" comes first. */
  lemma P2BeforeP10()
    ensures KeyLess(Key("p2"), Key("p10")) && StrLess("p10", "p2")
  {
    assert "p2" == "p" + "2" && "p10" == "p" + "10";
    assert DigitsValue("10") == 10 by {
      assert "10"[..1] == "1";
      assert DigitsValue("1") == 1 by { assert "1"[..0] == ""; }
    }
    assert DigitsValue("2") == 2 by { assert "2"[..0] == ""; }
    NumbersCompareNumerically("p", "2", "10");
    assert "p10"[1..] == "10" && "p2"[1..] == "2";
  }
}
