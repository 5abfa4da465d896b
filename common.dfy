/** Shared vocabulary: an option type and the handful of Ruby string and path
    operations that the commands rely on (String#strip, String#each_line,
    String#split, String#to_i, File.join, File.dirname). */
module Common {

  datatype Option<T> = None | Some(value: T)

  predicate StartsWith(s: string, prefix: string)
  {
    |prefix| <= |s| && s[..|prefix|] == prefix
  }

  predicate EndsWith(s: string, suffix: string)
  {
    |suffix| <= |s| && s[|s| - |suffix|..] == suffix
  }

  /** The characters String#strip removes: null, horizontal tab, line feed,
      vertical tab, form feed, carriage return and space. */
  predicate IsSpace(c: char)
  {
    c == '\0' || c == '\t' || c == '\n' || c == '\U{B}' || c == '\U{C}' || c == '\r' || c == ' '
  }

  /** Removes leading whitespace: the result is a suffix of `s`, everything cut
      off is whitespace, and the result does not start with whitespace. */
  function StripLeft(s: string): (r: string)
    ensures |r| <= |s| && r == s[|s| - |r|..]
    ensures forall k :: 0 <= k < |s| - |r| ==> IsSpace(s[k])
    ensures r == [] || !IsSpace(r[0])
  {
    if s != [] && IsSpace(s[0]) then StripLeft(s[1..]) else s
  }

  /** Removes trailing whitespace: the result is a prefix of `s`, everything cut
      off is whitespace, and the result does not end with whitespace. */
  function StripRight(s: string): (r: string)
    ensures |r| <= |s| && r == s[..|r|]
    ensures forall k :: |r| <= k < |s| ==> IsSpace(s[k])
    ensures r == [] || !IsSpace(r[|r| - 1])
  {
    if s != [] && IsSpace(s[|s| - 1]) then StripRight(s[..|s| - 1]) else s
  }

  /** String#strip. */
  function Strip(s: string): (r: string)
    ensures r == [] || (!IsSpace(r[0]) && !IsSpace(r[|r| - 1]))
  {
    StripRight(StripLeft(s))
  }

  /** A string without whitespace at either end is its own strip. */
  lemma StripUnchanged(s: string)
    requires s != [] && !IsSpace(s[0]) && !IsSpace(s[|s| - 1])
    ensures Strip(s) == s
  {
  }

  /** Stripping a string that ends in a line feed removes the line feed when the
      rest has no whitespace at its ends. */
  lemma StripLine(s: string)
    requires s != [] && !IsSpace(s[0]) && !IsSpace(s[|s| - 1])
    ensures Strip(s + "\n") == s
  {
    assert StripLeft(s + "\n") == s + "\n";
    assert (s + "\n")[..|s|] == s;
    assert StripRight(s + "\n") == StripRight(s);
  }

  /** A string with a character other than whitespace does not strip to
      nothing. */
  lemma StripKeepsNonSpace(s: string, i: nat)
    requires i < |s| && !IsSpace(s[i])
    ensures Strip(s) != []
  {
    var l := StripLeft(s);
    assert |s| - |l| <= i;
    assert l[i - (|s| - |l|)] == s[i];
  }

  /** Index just past the first line feed of `s`, or |s| when there is none. */
  function LineEnd(s: string): (k: nat)
    requires s != []
    ensures 0 < k <= |s|
    ensures forall i :: 0 <= i < k - 1 ==> s[i] != '\n'
    ensures k < |s| ==> s[k - 1] == '\n'
  {
    if s[0] == '\n' || |s| == 1 then 1 else 1 + LineEnd(s[1..])
  }

  function Concat(ls: seq<string>): string
  {
    if ls == [] then [] else ls[0] + Concat(ls[1..])
  }

  /** String#each_line with the default separator: the pieces keep their line
      feeds, only the last piece may lack one (LinesTerminated), and together
      they spell `s`. */
  function Lines(s: string): (r: seq<string>)
    ensures Concat(r) == s
    ensures forall i :: 0 <= i < |r| ==> r[i] != []
    decreases |s|
  {
    if s == [] then [] else
      var k := LineEnd(s);
      assert s == s[..k] + s[k..];
      [s[..k]] + Lines(s[k..])
  }

  /** Each piece has a line feed at most as its last character, and every
      piece but the last ends with one. */
  lemma {:induction false} LinesTerminated(s: string)
    ensures var r := Lines(s);
            && (forall i :: 0 <= i < |r| ==> '\n' !in r[i][..|r[i]| - 1])
            && (forall i :: 0 <= i < |r| - 1 ==> r[i][|r[i]| - 1] == '\n')
    decreases |s|
  {
    if s != [] {
      var k := LineEnd(s);
      var r := Lines(s);
      LinesTerminated(s[k..]);
      assert r == [s[..k]] + Lines(s[k..]);
      assert s[..k][..k - 1] == s[..k - 1];
      if k < |s| {
        assert Lines(s[k..]) != [];
      }
      forall i | 1 <= i < |r|
        ensures r[i] == Lines(s[k..])[i - 1]
      {
      }
    }
  }

  /** A line that contains no line feed of its own, followed by a line feed,
      is split off as the first line. */
  lemma {:induction false} LinesCons(line: string, rest: string)
    requires '\n' !in line
    ensures Lines(line + "\n" + rest) == [line + "\n"] + Lines(rest)
  {
    var s := line + "\n" + rest;
    LineEndAt(line, rest);
    assert s[..|line| + 1] == line + "\n";
    assert s[|line| + 1..] == rest;
  }

  lemma {:induction false} LineEndAt(line: string, rest: string)
    requires '\n' !in line
    ensures LineEnd(line + "\n" + rest) == |line| + 1
    decreases |line|
  {
    var s := line + "\n" + rest;
    if line != [] {
      assert s[1..] == line[1..] + "\n" + rest;
      LineEndAt(line[1..], rest);
    }
  }

  /** All fields of `s` between occurrences of `sep`, empty ones included. */
  function Fields(s: string, sep: char): (r: seq<string>)
    ensures |r| >= 1
    ensures forall i :: 0 <= i < |r| ==> sep !in r[i]
  {
    if s == [] then [[]]
    else if s[0] == sep then [[]] + Fields(s[1..], sep)
    else
      var t := Fields(s[1..], sep);
      [[s[0]] + t[0]] + t[1..]
  }

  function DropTrailingEmpty(fs: seq<string>): (r: seq<string>)
    ensures |r| <= |fs| && r == fs[..|r|]
    ensures r == [] || r[|r| - 1] != []
  {
    if fs != [] && fs[|fs| - 1] == [] then DropTrailingEmpty(fs[..|fs| - 1]) else fs
  }

  /** String#split with a one-character separator other than a space: the
      fields between separators, with trailing empty fields removed. */
  function Split(s: string, sep: char): seq<string>
  {
    DropTrailingEmpty(Fields(s, sep))
  }

  /** Two separator-free, non-empty pieces joined by the separator split back
      into exactly those two pieces. */
  lemma {:induction false} SplitPair(a: string, b: string, sep: char)
    requires a != [] && b != [] && sep !in a && sep !in b
    ensures Split(a + [sep] + b, sep) == [a, b]
  {
    FieldsPlain(b, sep);
    FieldsPair(a, b, sep);
  }

  lemma {:induction false} FieldsPlain(a: string, sep: char)
    requires sep !in a
    ensures Fields(a, sep) == [a]
  {
    if a != [] {
      NotInTail(a, sep);
      FieldsPlain(a[1..], sep);
      assert [a[0]] + a[1..] == a;
    }
  }

  lemma {:induction false} FieldsPair(a: string, b: string, sep: char)
    requires sep !in a && Fields(b, sep) == [b]
    ensures Fields(a + [sep] + b, sep) == [a, b]
    decreases |a|
  {
    var s := a + [sep] + b;
    if a == [] {
      assert s == [sep] + b;
      assert s[1..] == b;
    } else {
      assert s[1..] == a[1..] + [sep] + b;
      NotInTail(a, sep);
      FieldsPair(a[1..], b, sep);
      var t := Fields(s[1..], sep);
      assert s[0] == a[0] != sep;
      assert Fields(s, sep) == [[a[0]] + t[0]] + t[1..];
      assert [a[0]] + a[1..] == a;
    }
  }

  lemma NotInTail(a: string, sep: char)
    requires a != [] && sep !in a
    ensures sep !in a[1..]
  {
    forall i | 0 <= i < |a[1..]| ensures a[1..][i] != sep { assert a[1..][i] == a[i + 1]; }
  }

  predicate IsDigit(c: char)
  {
    '0' <= c <= '9'
  }

  /** The longest prefix of `s` made of decimal digits. */
  function LeadingDigits(s: string): (r: string)
    ensures |r| <= |s| && r == s[..|r|]
    ensures forall i :: 0 <= i < |r| ==> IsDigit(r[i])
    ensures |r| < |s| ==> !IsDigit(s[|r|])
  {
    if s != [] && IsDigit(s[0]) then [s[0]] + LeadingDigits(s[1..]) else []
  }

  function DigitsValue(ds: string): (n: nat)
    requires forall i :: 0 <= i < |ds| ==> IsDigit(ds[i])
  {
    if ds == [] then 0 else
      assert IsDigit(ds[|ds| - 1]);
      10 * DigitsValue(ds[..|ds| - 1]) + (ds[|ds| - 1] as int - '0' as int)
  }

  /** The whitespace Ruby's integer conversion skips before a number. */
  predicate IsNumberSpace(c: char)
  {
    c == ' ' || c == '\t' || c == '\n' || c == '\U{B}' || c == '\U{C}' || c == '\r'
  }

  function SkipNumberSpace(s: string): (r: string)
    ensures |r| <= |s| && r == s[|s| - |r|..]
    ensures r == [] || !IsNumberSpace(r[0])
  {
    if s != [] && IsNumberSpace(s[0]) then SkipNumberSpace(s[1..]) else s
  }

  /** String#to_i (base 10): optional leading whitespace and sign, then the
      longest run of digits; 0 when there are none. */
  function ToI(s: string): int
  {
    var t := SkipNumberSpace(s);
    if t != [] && t[0] == '-' then -(DigitsValue(LeadingDigits(t[1..])) as int)
    else if t != [] && t[0] == '+' then DigitsValue(LeadingDigits(t[1..]))
    else DigitsValue(LeadingDigits(t))
  }

  function DigitChar(d: nat): (c: char)
    requires d < 10
    ensures IsDigit(c) && c as int - '0' as int == d
  {
    ('0' as int + d) as char
  }

  /** Integer#to_s for a non-negative integer. */
  function NatToString(n: nat): (s: string)
    ensures s != [] && forall i :: 0 <= i < |s| ==> IsDigit(s[i])
  {
    if n < 10 then [DigitChar(n)] else NatToString(n / 10) + [DigitChar(n % 10)]
  }

  /** Printing a count and reading it back with String#to_i gives the count. */
  lemma {:induction false} ToINatToString(n: nat)
    ensures ToI(NatToString(n)) == n
  {
    var s := NatToString(n);
    assert SkipNumberSpace(s) == s;
    AllDigitsLeading(s);
    DigitsValueNatToString(n);
  }

  lemma {:induction false} AllDigitsLeading(s: string)
    requires forall i :: 0 <= i < |s| ==> IsDigit(s[i])
    ensures LeadingDigits(s) == s
  {
  }

  lemma {:induction false} DigitsValueNatToString(n: nat)
    ensures DigitsValue(NatToString(n)) == n
  {
    if n >= 10 {
      var s := NatToString(n);
      assert s[..|s| - 1] == NatToString(n / 10);
      DigitsValueNatToString(n / 10);
    }
  }

  /** `s` without one trailing '/', if it has one. */
  function DropTrailingSlash(s: string): string
  {
    if s != [] && s[|s| - 1] == '/' then s[..|s| - 1] else s
  }

  /** `s` without one leading '/', if it has one. */
  function DropLeadingSlash(s: string): string
  {
    if s != [] && s[0] == '/' then s[1..] else s
  }

  /** File.join of two parts, modelled as concatenation with exactly one '/'
      at the seam. */
  function Join(a: string, b: string): (r: string)
    ensures r == DropTrailingSlash(a) + "/" + DropLeadingSlash(b)
  {
    var aSlash := a != [] && a[|a| - 1] == '/';
    var bSlash := b != [] && b[0] == '/';
    if aSlash && bSlash then a + b[1..]
    else if aSlash || bSlash then a + b
    else a + "/" + b
  }

  /** Index of the last '/' in `s`, if any. */
  function LastSlash(s: string): (r: Option<nat>)
    ensures r.Some? ==> r.value < |s| && s[r.value] == '/' && '/' !in s[r.value + 1..]
    ensures r.None? ==> '/' !in s
  {
    if s == [] then None
    else if s[|s| - 1] == '/' then Some(|s| - 1)
    else
      var r := LastSlash(s[..|s| - 1]);
      assert s == s[..|s| - 1] + [s[|s| - 1]];
      r
  }

  /** File.dirname for a path without trailing or doubled separators:
      everything before the last '/', "/" when that is the first character,
      and "." when there is no '/'. */
  function Dirname(p: string): string
  {
    match LastSlash(p)
    case None => "."
    case Some(i) => if i == 0 then "/" else p[..i]
  }

  /** Dropping a last component that holds no '/' gives back the directory. */
  lemma DirnameOfChild(dir: string, name: string)
    requires dir != [] && '/' !in name
    ensures Dirname(dir + "/" + name) == dir
  {
    var p := dir + "/" + name;
    assert p[|dir|] == '/';
    assert forall k :: |dir| < k < |p| ==> p[k] == name[k - |dir| - 1];
    assert LastSlash(p) == Some(|dir|);
    assert p[..|dir|] == dir;
  }
}
