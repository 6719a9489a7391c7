/**
 * The Python string operations the gate-string translation relies on: `str.index`, `strip`,
 * `upper`, `split`, `join`, `str(int)` and `int(str)`, on ASCII text.
 */
module Text {
  import opened Common

  /** The ASCII characters `str.isspace` accepts. */
  predicate IsSpace(c: char)
  {
    c == ' ' || c == '\t' || c == '\n' || c == '\r' || c == '\U{B}' || c == '\U{C}' ||
    ('\U{1C}' <= c <= '\U{1F}')
  }

  predicate IsDigit(c: char)
  {
    '0' <= c <= '9'
  }

  /** `s.index(c)`: the position of the first `c`, a ValueError when there is none. */
  function IndexOf(s: string, c: char): (r: Result<nat>)
    ensures r.Ok? <==> c in s
    ensures r.Err? ==> r.error == ValueError
    ensures r.Ok? ==> r.value < |s| && s[r.value] == c && c !in s[..r.value]
  {
    if s == [] then Err(ValueError)
    else if s[0] == c then Ok(0)
    else
      var t :- IndexOf(s[1..], c);
      assert s[..t + 1] == [s[0]] + s[1..][..t];
      Ok(t + 1)
  }

  /** `s.lstrip()`. */
  function StripLeft(s: string): (r: string)
    ensures |r| <= |s|
    ensures forall k :: 0 <= k < |s| - |r| ==> IsSpace(s[k])
    ensures r != [] ==> !IsSpace(r[0])
  {
    if s != [] && IsSpace(s[0]) then StripLeft(s[1..]) else s
  }

  /** What `lstrip` leaves is a suffix of the text. */
  lemma {:induction false} StripLeftSuffix(s: string)
    ensures StripLeft(s) == s[|s| - |StripLeft(s)|..]
    decreases |s|
  {
    if s != [] && IsSpace(s[0]) {
      StripLeftSuffix(s[1..]);
      assert s[1..][|s| - 1 - |StripLeft(s)|..] == s[|s| - |StripLeft(s)|..];
    }
  }

  /** `s.rstrip()`. */
  function StripRight(s: string): (r: string)
    ensures |r| <= |s| && r == s[..|r|]
    ensures forall k :: |r| <= k < |s| ==> IsSpace(s[k])
    ensures r != [] ==> !IsSpace(r[|r| - 1])
  {
    if s != [] && IsSpace(s[|s| - 1]) then StripRight(s[..|s| - 1]) else s
  }

  /** `s.strip()`. */
  function Strip(s: string): string
  {
    StripRight(StripLeft(s))
  }

  /** Text with no surrounding whitespace is its own strip, and leading whitespace is dropped. */
  lemma {:induction false} StripSpaced(pad: string, s: string)
    requires forall k :: 0 <= k < |pad| ==> IsSpace(pad[k])
    requires s != [] && !IsSpace(s[0]) && !IsSpace(s[|s| - 1])
    ensures Strip(pad + s) == s
  {
    StripLeftSpaced(pad, s);
  }

  lemma {:induction false} StripLeftSpaced(pad: string, s: string)
    requires forall k :: 0 <= k < |pad| ==> IsSpace(pad[k])
    requires s != [] && !IsSpace(s[0])
    ensures StripLeft(pad + s) == s
  {
    if pad != [] {
      assert (pad + s)[1..] == pad[1..] + s;
      StripLeftSpaced(pad[1..], s);
    }
  }

  function UpperChar(c: char): (r: char)
    ensures 'a' <= c <= 'z' ==> 'A' <= r <= 'Z'
    ensures !('a' <= c <= 'z') ==> r == c
  {
    if 'a' <= c <= 'z' then (c as int - 32) as char else c
  }

  /** `s.upper()` on ASCII letters. */
  function Upper(s: string): (r: string)
    ensures |r| == |s| && forall k :: 0 <= k < |s| ==> r[k] == UpperChar(s[k])
  {
    seq(|s|, k requires 0 <= k < |s| => UpperChar(s[k]))
  }

  /** Text with no lower-case letter is its own upper-case form. */
  lemma {:induction false} UpperFixed(s: string)
    requires forall k :: 0 <= k < |s| ==> !('a' <= s[k] <= 'z')
    ensures Upper(s) == s
  {
  }

  /** `sep.join(parts)`. */
  function Join(parts: seq<string>, sep: string): string
  {
    if parts == [] then "" else if |parts| == 1 then parts[0] else parts[0] + sep + Join(parts[1..], sep)
  }

  /** `s.split(c)`: the pieces between the occurrences of `c`; never empty. */
  function Split(s: string, c: char): (r: seq<string>)
    ensures |r| >= 1
    decreases |s|
  {
    match IndexOf(s, c)
    case Err(_) => [s]
    case Ok(i) => [s[..i]] + Split(s[i + 1..], c)
  }

  /** No piece of a split contains the separator. */
  lemma {:induction false} SplitPieces(s: string, c: char)
    ensures forall k :: 0 <= k < |Split(s, c)| ==> c !in Split(s, c)[k]
    decreases |s|
  {
    match IndexOf(s, c)
    case Err(_) =>
    case Ok(i) =>
      SplitPieces(s[i + 1..], c);
      SplitAt(s, c, i, s[..i], s[i + 1..]);
  }

  /** Joining the pieces of a split with the separator gives back the original text. */
  lemma {:induction false} JoinSplit(s: string, c: char)
    ensures Join(Split(s, c), [c]) == s
    decreases |s|
  {
    match IndexOf(s, c)
    case Err(_) =>
    case Ok(i) =>
      var pieces := Split(s[i + 1..], c);
      JoinSplit(s[i + 1..], c);
      assert Split(s, c) == [s[..i]] + pieces;
      assert ([s[..i]] + pieces)[1..] == pieces;
      assert Join([s[..i]] + pieces, [c]) == s[..i] + [c] + Join(pieces, [c]);
      assert s == s[..i] + [c] + s[i + 1..];
  }

  /** Splitting `parts` joined by a separator that starts with `c` gives each part, prefixed with the rest of the separator. */
  lemma {:induction false} SplitJoin(parts: seq<string>, c: char, rest: string)
    requires parts != []
    requires c !in rest && forall k :: 0 <= k < |parts| ==> c !in parts[k]
    ensures |Split(Join(parts, [c] + rest), c)| == |parts|
    ensures Split(Join(parts, [c] + rest), c)[0] == parts[0]
    ensures forall k :: 1 <= k < |parts| ==> Split(Join(parts, [c] + rest), c)[k] == rest + parts[k]
  {
    var sep := [c] + rest;
    if |parts| == 1 {
      assert Split(parts[0], c) == [parts[0]];
    } else {
      var inner := Join(parts[1..], sep);
      assert Join(parts, sep) == parts[0] + [c] + (rest + inner);
      SplitCons(parts[0], c, rest + inner);
      SplitPrefix(rest, inner, c);
      SplitJoin(parts[1..], c, rest);
      var r := Split(Join(parts, sep), c);
      var pieces := Split(inner, c);
      ShiftPieces(r, parts, parts[1..], rest, pieces);
    }
  }

  /** The pieces of `rest + inner` when those of `inner` are the later parts prefixed with `rest`. */
  lemma {:induction false} ShiftPieces(r: seq<string>, parts: seq<string>, tail: seq<string>, rest: string, pieces: seq<string>)
    requires |parts| >= 2 && tail == parts[1..]
    requires |pieces| == |tail| && pieces[0] == tail[0]
    requires forall k :: 1 <= k < |tail| ==> pieces[k] == rest + tail[k]
    requires r == [parts[0]] + ([rest + pieces[0]] + pieces[1..])
    ensures |r| == |parts| && r[0] == parts[0]
    ensures forall k :: 1 <= k < |parts| ==> r[k] == rest + parts[k]
  {
    forall k | 1 <= k < |parts|
      ensures r[k] == rest + parts[k]
    {
      if k > 1 {
        assert r[k] == pieces[k - 1] && tail[k - 1] == parts[k];
      }
    }
  }

  /** Splitting at a first `c` that follows `a` gives `a`, then the pieces of the rest. */
  lemma {:induction false} SplitCons(a: string, c: char, tail: string)
    requires c !in a
    ensures Split(a + [c] + tail, c) == [a] + Split(tail, c)
  {
    var s := a + [c] + tail;
    assert s[..|a|] == a;
    IndexOfFirst(s, c, |a|);
    assert s[|a| + 1..] == tail;
  }

  /** A joined list starts with its first part, which holds no separator character. */
  lemma {:induction false} JoinHead(parts: seq<string>, sep: string)
    requires parts != []
    ensures |Join(parts, sep)| >= |parts[0]| && Join(parts, sep)[..|parts[0]|] == parts[0]
  {
  }

  /** Text without `c` glued in front of `s` only lengthens the first piece of the split. */
  lemma {:induction false} SplitPrefix(p: string, s: string, c: char)
    requires c !in p
    ensures Split(p + s, c) == [p + Split(s, c)[0]] + Split(s, c)[1..]
  {
    match IndexOf(s, c)
    case Err(_) =>
      assert c !in p + s;
    case Ok(i) =>
      SplitPrefixAt(p, s, c, i);
  }

  lemma {:induction false} SplitPrefixAt(p: string, s: string, c: char, i: nat)
    requires c !in p && IndexOf(s, c) == Ok(i)
    ensures Split(p + s, c) == [p + Split(s, c)[0]] + Split(s, c)[1..]
  {
    var a := s[..i];
    var rest := s[i + 1..];
    assert s == a + [c] + rest;
    assert p + s == (p + a) + [c] + rest;
    assert c !in p + a;
    SplitCons(p + a, c, rest);
    SplitCons(a, c, rest);
    HeadTail(Split(s, c), a, Split(rest, c));
  }

  lemma {:induction false} HeadTail<T>(x: seq<T>, h: T, rest: seq<T>)
    requires x == [h] + rest
    ensures x[0] == h && x[1..] == rest
  {
  }

  /** Where `index` finds `c`, the split is the text before it and the split of the rest. */
  lemma {:induction false} SplitAt(t: string, c: char, k: nat, head: string, tail: string)
    requires IndexOf(t, c) == Ok(k) && k < |t|
    requires head == t[..k] && tail == t[k + 1..]
    ensures Split(t, c) == [head] + Split(tail, c)
  {
  }

  /** The first `c` of a text is found by `index`. */
  lemma {:induction false} IndexOfFirst(s: string, c: char, i: nat)
    requires i < |s| && s[i] == c && c !in s[..i]
    ensures IndexOf(s, c) == Ok(i)
  {
  }

  // ---------------------------------------------------------------------------------------------
  // Decimal integers.

  function DigitChar(d: nat): (r: char)
    requires d < 10
    ensures IsDigit(r) && !IsSpace(r)
  {
    (48 + d) as char
  }

  function DigitValue(c: char): (r: nat)
    requires IsDigit(c)
    ensures r < 10
  {
    c as int - 48
  }

  /** `str(n)` for a natural number: its decimal digits, without leading zeros. */
  function NatToString(n: nat): (r: string)
    ensures r != [] && forall k :: 0 <= k < |r| ==> IsDigit(r[k])
  {
    if n < 10 then [DigitChar(n)] else NatToString(n / 10) + [DigitChar(n % 10)]
  }

  /** `str(i)`. */
  function IntToString(i: int): (r: string)
    ensures r != [] && !IsSpace(r[0]) && !IsSpace(r[|r| - 1])
    ensures forall k :: 0 <= k < |r| ==> r[k] != ',' && r[k] != '(' && r[k] != ')'
  {
    if i < 0 then "-" + NatToString(-i) else NatToString(i)
  }

  /** The number a non-empty run of decimal digits denotes. */
  function DigitsValue(s: string): nat
    requires forall k :: 0 <= k < |s| ==> IsDigit(s[k])
  {
    if s == [] then 0 else DigitsValue(s[..|s| - 1]) * 10 + DigitValue(s[|s| - 1])
  }

  predicate AllDigits(s: string)
  {
    forall k :: 0 <= k < |s| ==> IsDigit(s[k])
  }

  /** `int(s)`: surrounding whitespace, an optional sign, then decimal digits; a ValueError otherwise. */
  function ParseInt(s: string): (r: Result<int>)
    ensures r.Err? ==> r.error == ValueError
    ensures r.Ok? <==> var t := Strip(s);
      t != [] &&
      ((t[0] == '-' || t[0] == '+') ==> |t| > 1 && AllDigits(t[1..])) &&
      (t[0] != '-' && t[0] != '+' ==> AllDigits(t))
  {
    ParseDecimal(Strip(s))
  }

  /** `int` on text without surrounding whitespace: an optional sign, then decimal digits. */
  function ParseDecimal(t: string): (r: Result<int>)
    ensures r.Err? ==> r.error == ValueError
    ensures r.Ok? <==>
      t != [] &&
      ((t[0] == '-' || t[0] == '+') ==> |t| > 1 && AllDigits(t[1..])) &&
      (t[0] != '-' && t[0] != '+' ==> AllDigits(t))
  {
    if t == [] then Err(ValueError)
    else if t[0] == '-' || t[0] == '+' then
      var ds := t[1..];
      if ds != [] && AllDigits(ds) then
        var v: int := DigitsValue(ds);
        Ok(if t[0] == '-' then -v else v)
      else Err(ValueError)
    else if AllDigits(t) then Ok(DigitsValue(t))
    else Err(ValueError)
  }

  lemma {:induction false} NatDigits(n: nat)
    ensures DigitsValue(NatToString(n)) == n
  {
    if n >= 10 {
      var s := NatToString(n);
      NatDigits(n / 10);
      assert s[..|s| - 1] == NatToString(n / 10);
    }
  }

  /** `int(str(i)) == i`, also after leading whitespace such as the blank `", ".join` inserts. */
  lemma {:induction false} ParseIntToString(pad: string, i: int)
    requires forall k :: 0 <= k < |pad| ==> IsSpace(pad[k])
    ensures ParseInt(pad + IntToString(i)) == Ok(i)
  {
    StripSpaced(pad, IntToString(i));
    DecimalToString(i);
  }

  /** The digits `str` prints read back as the same integer. */
  lemma {:induction false} DecimalToString(i: int)
    ensures ParseDecimal(IntToString(i)) == Ok(i)
  {
    if i < 0 {
      NatDigits(-i);
      assert IntToString(i)[1..] == NatToString(-i);
    } else {
      NatDigits(i);
    }
  }
}
