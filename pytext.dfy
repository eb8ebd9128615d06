/** The Python string built-ins the bot relies on to build callback data and
    to read it back: `str.startswith`, `str.split`, `str(int)`, `int(str)`
    and slicing. */
module PyText {
  import opened Wrappers

  /** `s.startswith(prefix)` */
  predicate StartsWith(s: string, prefix: string) {
    |prefix| <= |s| && s[..|prefix|] == prefix
  }

  /** `s.split(sep)`: every occurrence of `sep` cuts, empty pieces are kept,
      so a string with k separators gives k + 1 pieces. */
  function Split(s: string, sep: char): (parts: seq<string>)
    ensures |parts| >= 1
    ensures forall i :: 0 <= i < |parts| ==> sep !in parts[i]
  {
    if s == [] then [""]
    else
      var rest := Split(s[1..], sep);
      if s[0] == sep then [""] + rest
      else [[s[0]] + rest[0]] + rest[1..]
  }

  /** `sep.join(parts)` */
  function Join(parts: seq<string>, sep: char): string
    requires |parts| >= 1
  {
    if |parts| == 1 then parts[0] else parts[0] + [sep] + Join(parts[1..], sep)
  }

  /** `s.split(sep)[-1]`: the longest tail of `s` without the separator. */
  function LastSegment(s: string, sep: char): (r: string)
    ensures sep !in r
    ensures |r| <= |s| && s[|s| - |r|..] == r
    ensures |r| < |s| ==> s[|s| - |r| - 1] == sep
  {
    var parts := Split(s, sep);
    JoinSplit(s, sep);
    if |parts| >= 2 then
      JoinLast(parts, sep);
      parts[|parts| - 1]
    else
      parts[0]
  }

  /** The last piece of a join follows the last separator. */
  lemma {:induction false} JoinLast(parts: seq<string>, sep: char)
    requires |parts| >= 2
    ensures Join(parts, sep) == Join(parts[..|parts| - 1], sep) + [sep] + parts[|parts| - 1]
  {
    var n := |parts| - 1;
    if |parts| > 2 {
      JoinLast(parts[1..], sep);
      assert parts[1..][..n - 1] == parts[..n][1..];
    }
  }

  /** Splitting loses nothing: joining the pieces back gives the original string. */
  lemma {:induction false} JoinSplit(s: string, sep: char)
    ensures Join(Split(s, sep), sep) == s
  {
    if s != [] {
      var rest := Split(s[1..], sep);
      JoinSplit(s[1..], sep);
      if s[0] == sep {
        JoinAfterEmpty(rest, sep);
      } else {
        JoinExtendFirst(s[0], rest, sep);
      }
      assert s == [s[0]] + s[1..];
    }
  }

  /** An empty first piece contributes only its separator. */
  lemma JoinAfterEmpty(parts: seq<string>, sep: char)
    requires |parts| >= 1
    ensures Join([""] + parts, sep) == [sep] + Join(parts, sep)
  {
    assert ([""] + parts)[1..] == parts;
  }

  /** A character put in front of the first piece comes first in the join. */
  lemma JoinExtendFirst(c: char, parts: seq<string>, sep: char)
    requires |parts| >= 1
    ensures Join([[c] + parts[0]] + parts[1..], sep) == [c] + Join(parts, sep)
  {
    var ext := [[c] + parts[0]] + parts[1..];
    if |parts| > 1 {
      assert ext[1..] == parts[1..];
    }
  }

  /** A string without the separator is a single piece. */
  lemma {:induction false} SplitWithoutSeparator(t: string, sep: char)
    requires sep !in t
    ensures Split(t, sep) == [t]
  {
    if t != [] {
      SplitWithoutSeparator(t[1..], sep);
      assert [t[0]] + t[1..] == t;
    }
  }

  /** Appending a separator and a separator-free tail adds exactly one piece. */
  lemma {:induction false} SplitAppend(s: string, t: string, sep: char)
    requires sep !in t
    ensures Split(s + [sep] + t, sep) == Split(s, sep) + [t]
  {
    if s == [] {
      assert s + [sep] + t == [sep] + t;
      SplitWithoutSeparator(t, sep);
      assert ([sep] + t)[1..] == t;
    } else {
      SplitAppend(s[1..], t, sep);
      assert (s + [sep] + t)[1..] == s[1..] + [sep] + t;
    }
  }

  /** The last piece after a separator is the separator-free tail. */
  lemma LastSegmentAfter(s: string, t: string, sep: char)
    requires sep !in t
    ensures LastSegment(s + [sep] + t, sep) == t
  {
    SplitAppend(s, t, sep);
  }

  /** `s.split(sep, 1)[1]`: the text after the first separator. Python raises
      IndexError when `sep` does not occur; callers check first. */
  function AfterFirst(s: string, sep: char): string
    requires sep in s
  {
    if s[0] == sep then s[1..] else AfterFirst(s[1..], sep)
  }

  /** Only the first separator cuts: the tail may itself hold separators. */
  lemma {:induction false} AfterFirstOfJoin(head: string, tail: string, sep: char)
    requires sep !in head
    ensures sep in head + [sep] + tail
    ensures AfterFirst(head + [sep] + tail, sep) == tail
  {
    var s := head + [sep] + tail;
    assert s[|head|] == sep;
    if head != [] {
      AfterFirstOfJoin(head[1..], tail, sep);
      assert s[1..] == head[1..] + [sep] + tail;
    }
  }

  /** `s[:n] + '...' if len(s) > n else s`, as the config buttons shorten
      their data. */
  function Shorten(s: string, n: nat): (r: string)
    ensures |s| <= n ==> r == s
    ensures |s| > n ==> |r| == n + 3 && r[..n] == s[..n] && r[n..] == "..."
  {
    if |s| > n then s[..n] + "..." else s
  }

  predicate IsDigit(c: char) {
    '0' <= c <= '9'
  }

  predicate AllDigits(s: string) {
    forall i :: 0 <= i < |s| ==> IsDigit(s[i])
  }

  function DigitChar(d: nat): char
    requires d < 10
  {
    (('0' as int) + d) as char
  }

  /** `str(n)` for a non-negative n: its decimal digits, most significant first. */
  function NatToString(n: nat): (s: string)
    ensures |s| >= 1 && AllDigits(s)
  {
    if n < 10 then [DigitChar(n)] else NatToString(n / 10) + [DigitChar(n % 10)]
  }

  /** `str(n)`: decimal digits, after a minus sign when n is negative. */
  function IntToString(n: int): (s: string)
    ensures n >= 0 ==> |s| >= 1 && AllDigits(s)
    ensures n < 0 ==> |s| >= 2 && s[0] == '-' && AllDigits(s[1..])
  {
    if n < 0 then "-" + NatToString(-n) else NatToString(n)
  }

  /** The number a string of decimal digits denotes. */
  function DigitsValue(s: string): nat
    requires AllDigits(s)
  {
    if s == [] then 0 else DigitsValue(s[..|s| - 1]) * 10 + (s[|s| - 1] as int - '0' as int)
  }

  /** `int(s)`: an optional sign followed by at least one decimal digit;
      anything else raises ValueError, here `None`. */
  function ParseInt(s: string): (r: Option<int>)
    ensures r.Some? ==> |s| >= 1 && forall i :: 1 <= i < |s| ==> IsDigit(s[i])
    ensures |s| >= 1 && AllDigits(s) ==> r.Some? && r.value >= 0
  {
    if |s| >= 2 && (s[0] == '-' || s[0] == '+') && AllDigits(s[1..]) then
      Some(if s[0] == '-' then -(DigitsValue(s[1..]) as int) else DigitsValue(s[1..]) as int)
    else if |s| >= 1 && AllDigits(s) then Some(DigitsValue(s))
    else None
  }

  lemma {:induction false} NatToStringValue(n: nat)
    ensures DigitsValue(NatToString(n)) == n
  {
    var s := NatToString(n);
    if n < 10 {
      assert s[..|s| - 1] == [];
    } else {
      NatToStringValue(n / 10);
      assert s[..|s| - 1] == NatToString(n / 10);
    }
  }

  /** `int(str(n)) == n` for every integer, negative ones included. */
  lemma ParseIntToString(n: int)
    ensures ParseInt(IntToString(n)) == Some(n)
  {
    if n < 0 {
      NatToStringValue(-n);
      assert IntToString(n)[1..] == NatToString(-n);
    } else {
      NatToStringValue(n);
    }
  }

  /** `str(n)` never holds '_' or ':', the separators the callbacks use. */
  lemma NoSeparatorInNumber(n: int, sep: char)
    requires sep == '_' || sep == ':'
    ensures sep !in IntToString(n)
  {
    var s := IntToString(n);
    if n < 0 {
      assert s == "-" + NatToString(-n);
      assert forall i :: 1 <= i < |s| ==> IsDigit(s[i]);
    }
  }

  /** `c.isspace()`: the characters `str.split()` without arguments cuts at. */
  predicate IsSpace(c: char) {
    || ('\t' <= c <= '\r') || ('\U{1c}' <= c <= '\U{1f}') || c == ' '
    || c == '\U{85}' || c == '\U{a0}' || c == '\U{1680}'
    || ('\U{2000}' <= c <= '\U{200a}') || c == '\U{2028}' || c == '\U{2029}'
    || c == '\U{202f}' || c == '\U{205f}' || c == '\U{3000}'
  }

  /** `s.lstrip()` */
  function TrimStart(s: string): (r: string)
    ensures |r| <= |s| && r == s[|s| - |r|..]
    ensures forall i :: 0 <= i < |s| - |r| ==> IsSpace(s[i])
    ensures r != [] ==> !IsSpace(r[0])
  {
    if s != [] && IsSpace(s[0]) then TrimStart(s[1..]) else s
  }

  /** The longest prefix of `s` without whitespace. */
  function Word(s: string): (w: string)
    ensures |w| <= |s| && w == s[..|w|]
    ensures forall i :: 0 <= i < |w| ==> !IsSpace(w[i])
    ensures |w| < |s| ==> IsSpace(s[|w|])
  {
    if s == [] || IsSpace(s[0]) then [] else [s[0]] + Word(s[1..])
  }

  /** `s.split(maxsplit=1)[0]`; `None` when `s` is blank and the split is empty. */
  function FirstWord(s: string): (w: Option<string>)
    ensures w.None? <==> forall i :: 0 <= i < |s| ==> IsSpace(s[i])
    ensures w.Some? ==> w.value != [] && forall i :: 0 <= i < |w.value| ==> !IsSpace(w.value[i])
    ensures w.Some? ==> StartsWith(TrimStart(s), w.value)
  {
    var t := TrimStart(s);
    if t == [] then None else Some(Word(t))
  }

  /** A text that opens with a whole word has that word first. */
  lemma FirstWordOfPrefix(s: string, w: string)
    ensures && w != [] && (forall i :: 0 <= i < |w| ==> !IsSpace(w[i]))
            && StartsWith(s, w) && (|s| == |w| || IsSpace(s[|w|]))
            ==> FirstWord(s) == Some(w)
  {
    if && w != [] && (forall i :: 0 <= i < |w| ==> !IsSpace(w[i]))
       && StartsWith(s, w) && (|s| == |w| || IsSpace(s[|w|])) {
      assert s[0] == w[0];
      assert TrimStart(s) == s;
      assert Word(s) == w;
    }
  }
}
