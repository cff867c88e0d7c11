/**
 * The handful of Python string operations the core relies on: `str.lower`,
 * `str.strip`, `str.isdigit`, substring tests, `os.path.basename`,
 * `os.path.splitext` and the decimal rendering of a number.
 */
module Text {
  import opened Wrappers

  /** An ASCII decimal digit (the model of `\d` and `str.isdigit`). */
  predicate IsDigit(c: char) {
    '0' <= c <= '9'
  }

  /** `str.lower` on one character: ASCII and the Russian alphabet. */
  function LowerChar(c: char): (r: char)
    ensures IsDigit(r) <==> IsDigit(c)
  {
    if 'A' <= c <= 'Z' then (c as int + 32) as char
    else if '\U{0410}' <= c <= '\U{042F}' then (c as int + 32) as char
    else if c == '\U{0401}' then '\U{0451}'
    else c
  }

  function Lower(s: string): (r: string)
    ensures |r| == |s|
  {
    seq(|s|, i requires 0 <= i < |s| => LowerChar(s[i]))
  }

  lemma LowerCharIdempotent(c: char)
    ensures LowerChar(LowerChar(c)) == LowerChar(c)
  {
  }

  lemma LowerIdempotent(s: string)
    ensures Lower(Lower(s)) == Lower(s)
  {
    forall i | 0 <= i < |s| ensures Lower(Lower(s))[i] == Lower(s)[i] {
      LowerCharIdempotent(s[i]);
    }
  }

  /** Python's `str.isspace` on one character. */
  predicate IsSpace(c: char) {
    c == ' ' || '\t' <= c <= '\r' || '\U{1C}' <= c <= '\U{1F}' || c == '\U{85}' || c == '\U{A0}'
    || c == '\U{1680}' || '\U{2000}' <= c <= '\U{200A}' || c == '\U{2028}' || c == '\U{2029}'
    || c == '\U{202F}' || c == '\U{205F}' || c == '\U{3000}'
  }

  function TrimLeft(s: string): (r: string)
    ensures |r| <= |s| && r == s[|s| - |r|..]
    ensures r == [] || !IsSpace(r[0])
  {
    if s != [] && IsSpace(s[0]) then TrimLeft(s[1..]) else s
  }

  function TrimRight(s: string): (r: string)
    ensures |r| <= |s| && r == s[..|r|]
    ensures r == [] || !IsSpace(r[|r| - 1])
  {
    if s != [] && IsSpace(s[|s| - 1]) then TrimRight(s[..|s| - 1]) else s
  }

  /** `str.strip()`: drop leading and trailing white space. */
  function Strip(s: string): (r: string)
    ensures |r| <= |s|
    ensures r == [] || (!IsSpace(r[0]) && !IsSpace(r[|r| - 1]))
  {
    TrimRight(TrimLeft(s))
  }

  /**
   * `strip()` is the input without its white-space prefix and suffix: the
   * result starts after the longest white-space prefix, everything around it
   * is white space, and it neither starts nor ends with white space, so both
   * runs are maximal.
   */
  lemma StripIsTrim(s: string)
    ensures LeadingSpace(s) + |Strip(s)| <= |s| && Strip(s) == s[LeadingSpace(s)..LeadingSpace(s) + |Strip(s)|]
    ensures forall k :: 0 <= k < LeadingSpace(s) ==> IsSpace(s[k])
    ensures forall k :: LeadingSpace(s) + |Strip(s)| <= k < |s| ==> IsSpace(s[k])
  {
    var n, t, r := LeadingSpace(s), TrimLeft(s), Strip(s);
    TrimLeftDrops(s);
    TrimRightDrops(t);
    SuffixPrefix(s, n, t, r);
  }

  /** What `TrimRight` drops is white space. */
  lemma {:induction false} TrimRightDrops(s: string)
    ensures forall k :: |TrimRight(s)| <= k < |s| ==> IsSpace(s[k])
  {
    if s != [] && IsSpace(s[|s| - 1]) {
      TrimRightDrops(s[..|s| - 1]);
    }
  }

  /**
   * A prefix `r` of the suffix `t == s[n..]`, followed in `t` only by white
   * space, is the slice `s[n..n + |r|]`, followed in `s` only by white space.
   */
  lemma SuffixPrefix(s: string, n: nat, t: string, r: string)
    requires n <= |s| && t == s[n..] && |r| <= |t| && r == t[..|r|]
    requires forall k :: |r| <= k < |t| ==> IsSpace(t[k])
    ensures n + |r| <= |s| && r == s[n..n + |r|]
    ensures forall k :: n + |r| <= k < |s| ==> IsSpace(s[k])
  {
    forall k | n + |r| <= k < |s| ensures IsSpace(s[k]) {
      assert s[k] == t[k - n];
    }
  }

  lemma {:induction false} TrimLeftDrops(s: string)
    ensures TrimLeft(s) == s[LeadingSpace(s)..]
  {
    if s != [] && IsSpace(s[0]) {
      TrimLeftDrops(s[1..]);
      assert s[1..][LeadingSpace(s[1..])..] == s[1 + LeadingSpace(s[1..])..];
    }
  }

  /** The length of the longest white-space prefix of `s`. */
  function LeadingSpace(s: string): (n: nat)
    ensures n <= |s| && (forall k :: 0 <= k < n ==> IsSpace(s[k])) && (n == |s| || !IsSpace(s[n]))
  {
    if s != [] && IsSpace(s[0]) then 1 + LeadingSpace(s[1..]) else 0
  }

  /** `sub in s` for strings. */
  predicate HasSubstring(s: string, sub: string)
    decreases |s|
  {
    (|sub| <= |s| && s[..|sub|] == sub) || (s != [] && HasSubstring(s[1..], sub))
  }

  /** The last position of `c` in `s`, as `str.rfind` (None for -1). */
  function LastIndexOf(s: string, c: char): (r: Option<nat>)
    ensures r.Some? ==> r.value < |s| && s[r.value] == c
    ensures r.Some? ==> forall k :: r.value < k < |s| ==> s[k] != c
    ensures r.None? ==> forall k :: 0 <= k < |s| ==> s[k] != c
  {
    if s == [] then None
    else if s[|s| - 1] == c then Some(|s| - 1)
    else LastIndexOf(s[..|s| - 1], c)
  }

  /** `os.path.basename` with `/` as the separator: everything after the last `/`. */
  function Basename(p: string): (r: string)
    ensures |r| <= |p| && r == p[|p| - |r|..]
    ensures forall k :: 0 <= k < |r| ==> r[k] != '/'
    ensures |r| < |p| ==> p[|p| - |r| - 1] == '/'
  {
    match LastIndexOf(p, '/')
    case None => p
    case Some(i) => p[i + 1..]
  }

  /** True when some character of `s` before position `d` is not a dot. */
  predicate HasNonDotBefore(s: string, d: nat)
    requires d <= |s|
  {
    exists k :: 0 <= k < d && s[k] != '.'
  }

  /**
   * The position, inside the base name, of the dot that `os.path.splitext`
   * splits at: the last dot, provided the base name has something other than
   * dots before it.
   */
  function ExtensionDot(p: string): (r: Option<nat>)
    ensures r.Some? ==> r.value < |Basename(p)| && Basename(p)[r.value] == '.'
  {
    var b := Basename(p);
    match LastIndexOf(b, '.')
    case None => None
    case Some(d) => if HasNonDotBefore(b, d) then Some(d) else None
  }

  /** `os.path.splitext(p)[1]`: the extension with its dot, or "". */
  function Extension(p: string): (r: string)
    ensures r == [] || r[0] == '.'
  {
    var b := Basename(p);
    match ExtensionDot(p)
    case None => ""
    case Some(d) => b[d..]
  }

  /** `os.path.splitext(os.path.basename(p))[0]`: the base name without its extension. */
  function Stem(p: string): (r: string)
    ensures |r| <= |Basename(p)|
  {
    var b := Basename(p);
    match ExtensionDot(p)
    case None => b
    case Some(d) => b[..d]
  }

  lemma StemAndExtension(p: string)
    ensures Stem(p) + Extension(p) == Basename(p)
  {
    var b := Basename(p);
    match ExtensionDot(p)
    case None =>
    case Some(d) => assert b[..d] + b[d..] == b;
  }

  predicate AllDigits(s: string) {
    forall k :: 0 <= k < |s| ==> IsDigit(s[k])
  }

  /** `int` of a digit run. */
  function DigitsValue(s: string): nat
    requires AllDigits(s)
  {
    if s == [] then 0 else DigitsValue(s[..|s| - 1]) * 10 + (s[|s| - 1] as int - '0' as int)
  }

  /**
   * The decimal digits of `n`, as `str(n)` / `f"{n}"`: digits that denote
   * `n`, with no leading zero except in "0" itself.
   */
  function NatToString(n: nat): (r: string)
    ensures |r| > 0 && AllDigits(r) && DigitsValue(r) == n
    ensures r[0] == '0' ==> r == "0"
  {
    var d := ['0' + (n % 10) as char];
    if n < 10 then
      assert d[..0] == [];
      d
    else
      var h := NatToString(n / 10);
      assert (h + d)[..|h|] == h;
      h + d
  }
}
