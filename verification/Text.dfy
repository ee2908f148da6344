/** Python string operations the runtime relies on: splitting on one character, and printing integers. */
module Text {
  import opened Wrappers

  /** `s.split(c)` for a one-character separator: always at least one part. */
  function Split(s: string, c: char): (parts: seq<string>)
    ensures |parts| > 0
  {
    if s == "" then [""]
    else
      var rest := Split(s[1..], c);
      if s[0] == c then [""] + rest else [[s[0]] + rest[0]] + rest[1..]
  }

  /** A separator-free head is cut off exactly at the first separator. */
  lemma {:induction false} SplitHead(a: string, b: string, c: char)
    requires c !in a
    ensures Split(a + [c] + b, c) == [a] + Split(b, c)
  {
    var s := a + [c] + b;
    if a == "" {
      assert s[1..] == b;
    } else {
      assert s[1..] == a[1..] + [c] + b;
      SplitHead(a[1..], b, c);
      assert [a[0]] + a[1..] == a;
    }
  }

  lemma {:induction false} SplitFree(a: string, c: char)
    requires c !in a
    ensures Split(a, c) == [a]
  {
    if a != "" {
      SplitFree(a[1..], c);
      assert [a[0]] + a[1..] == a;
    }
  }

  function Join(parts: seq<string>, c: char): string
  {
    if parts == [] then "" else if |parts| == 1 then parts[0] else parts[0] + [c] + Join(parts[1..], c)
  }

  lemma JoinThree(a: string, b: string, d: string, c: char)
    ensures Join([a] + [b] + [d], c) == a + [c] + b + [c] + d
  {
    var parts := [a] + [b] + [d];
    assert parts[1..] == [b] + [d] && ([b] + [d])[1..] == [d];
    assert Join([d], c) == d;
    assert Join([b] + [d], c) == b + [c] + d;
    assert a + [c] + (b + [c] + d) == a + [c] + b + [c] + d;
  }

  /** Nothing is lost in splitting. */
  lemma {:induction false} SplitJoins(s: string, c: char)
    ensures Join(Split(s, c), c) == s
  {
    if s != "" {
      SplitJoins(s[1..], c);
      var rest := Split(s[1..], c);
      if s[0] == c {
        assert Split(s, c)[1..] == rest;
        assert "" + [c] + Join(rest, c) == [c] + s[1..] == s;
      } else {
        assert Split(s, c)[1..] == rest[1..];
        assert [s[0]] + s[1..] == s;
        if |rest| > 1 {
          assert ([s[0]] + rest[0]) + [c] + Join(rest[1..], c) == [s[0]] + (rest[0] + [c] + Join(rest[1..], c));
        }
      }
    }
  }

  lemma {:induction false} SplitPartsAreFree(s: string, c: char)
    ensures forall part :: part in Split(s, c) ==> c !in part
  {
    if s != "" {
      SplitPartsAreFree(s[1..], c);
      var rest := Split(s[1..], c);
      assert rest[0] in rest;
    }
  }

  /** Two strings cut at their first separator agree exactly when both pieces agree. */
  lemma {:induction false} CutIsInjective(a: string, b: string, a': string, b': string, c: char)
    requires c !in a && c !in a'
    requires a + [c] + b == a' + [c] + b'
    ensures a == a' && b == b'
  {
    var s, s' := a + [c] + b, a' + [c] + b';
    assert s[|a|] == c && s'[|a'|] == c;
    assert forall i :: 0 <= i < |a| ==> s[i] == a[i] && a[i] != c;
    assert forall i :: 0 <= i < |a'| ==> s'[i] == a'[i] && a'[i] != c;
    assert |a| == |a'|;
    assert a == s[..|a|] == s'[..|a'|] == a';
    assert b == s[|a| + 1..] == s'[|a'| + 1..] == b';
  }

  function PrintNat(n: nat): string
  {
    if n < 10 then [(n as char) + '0'] else PrintNat(n / 10) + [((n % 10) as char) + '0']
  }

  /** `f"{n}"` for an integer. */
  function PrintInt(n: int): string
  {
    if n < 0 then "-" + PrintNat(-n) else PrintNat(n)
  }

  predicate IsDigit(c: char) { '0' <= c <= '9' }

  lemma {:induction false} PrintNatIsDigits(n: nat)
    ensures PrintNat(n) != "" && forall c :: c in PrintNat(n) ==> IsDigit(c)
  {
    if n >= 10 {
      PrintNatIsDigits(n / 10);
    }
  }

  /** The usual decimal text: no leading zero, and the last digit is the last digit. */
  lemma {:induction false} PrintNatIsDecimal(n: nat)
    ensures |PrintNat(n)| > 0
    ensures n > 0 ==> PrintNat(n)[0] != '0'
    ensures PrintNat(n)[|PrintNat(n)| - 1] == "0123456789"[n % 10]
    ensures n >= 10 ==> PrintNat(n)[..|PrintNat(n)| - 1] == PrintNat(n / 10)
  {
    if n >= 10 {
      PrintNatIsDecimal(n / 10);
    }
  }

  lemma PrintIntHasNoColon(n: int)
    ensures ':' !in PrintInt(n)
  {
    PrintNatIsDigits(if n < 0 then -n else n);
  }

  /** The strict decimal reading, a part of what Python's `int()` accepts. */
  function ParseNat(s: string): Option<nat>
  {
    if s == "" || !IsDigit(s[|s| - 1]) then None
    else
      var last := (s[|s| - 1] - '0') as nat;
      if |s| == 1 then Some(last)
      else match ParseNat(s[..|s| - 1])
        case None => None
        case Some(n) => Some(10 * n + last)
  }

  function ParseDecimal(s: string): Option<int>
  {
    if s != "" && s[0] == '-' then
      var m := ParseNat(s[1..]);
      if m.None? then None else Some(0 - m.value)
    else
      match ParseNat(s) case None => None case Some(n) => Some(n)
  }

  lemma {:induction false} ParseNatInvertsPrint(n: nat)
    ensures ParseNat(PrintNat(n)) == Some(n)
  {
    if n >= 10 {
      ParseNatInvertsPrint(n / 10);
      PrintNatIsDigits(n / 10);
      var s := PrintNat(n);
      assert s[..|s| - 1] == PrintNat(n / 10);
    }
  }

  lemma ParseDecimalInvertsPrint(n: int)
    ensures ParseDecimal(PrintInt(n)) == Some(n)
  {
    var m: nat := if n < 0 then -n else n;
    ParseNatInvertsPrint(m);
    PrintNatIsDigits(m);
    var digits := PrintNat(m);
    assert digits[0] in digits;
    hide PrintNat, ParseNat;
    assert ("-" + digits)[1..] == digits;
  }

  /** The characters `str.isspace` accepts, which `strip()` and `split()` treat as blanks. */
  predicate IsSpace(c: char)
  {
    || '\t' <= c <= '\r' || '\U{1c}' <= c <= ' ' || c == '\U{85}' || c == '\U{a0}' || c == '\U{1680}'
    || '\U{2000}' <= c <= '\U{200a}' || c == '\U{2028}' || c == '\U{2029}' || c == '\U{202f}'
    || c == '\U{205f}' || c == '\U{3000}'
  }

  /** The blanks among the ASCII characters. */
  lemma AsciiBlanks(c: char)
    requires c < 128 as char
    ensures IsSpace(c) <==> c in {' ', '\t', '\n', '\U{b}', '\U{c}', '\r', '\U{1c}', '\U{1d}', '\U{1e}', '\U{1f}'}
  {
  }

  predicate Blank(s: string)
  {
    forall c :: c in s ==> IsSpace(c)
  }

  function StripLeft(s: string): string
  {
    if s != "" && IsSpace(s[0]) then StripLeft(s[1..]) else s
  }

  function StripRight(s: string): string
  {
    if s != "" && IsSpace(s[|s| - 1]) then StripRight(s[..|s| - 1]) else s
  }

  /** `s.strip()`. */
  function Strip(s: string): string
  {
    StripRight(StripLeft(s))
  }

  function WordLength(s: string): (n: nat)
    ensures n <= |s| && (n < |s| ==> IsSpace(s[n])) && forall i :: 0 <= i < n ==> !IsSpace(s[i])
  {
    if s == "" || IsSpace(s[0]) then 0 else 1 + WordLength(s[1..])
  }

  /** `s.split()`. */
  function Words(s: string): seq<string>
  {
    if s == "" then []
    else if IsSpace(s[0]) then Words(s[1..])
    else [s[..WordLength(s)]] + Words(s[WordLength(s)..])
  }

  predicate IsWord(s: string)
  {
    s != "" && forall c :: c in s ==> !IsSpace(c)
  }

  predicate At(s: string, i: nat, k: string)
  {
    i + |k| <= |s| && s[i..i + |k|] == k
  }

  /** `k in s` for strings. */
  predicate Contains(s: string, k: string)
  {
    exists i :: 0 <= i <= |s| && At(s, i, k)
  }

  /** Only blanks are cut off, and nothing at or before a character that is none. */
  lemma {:induction false} StripRightCuts(s: string, i: nat)
    requires i < |s| && !IsSpace(s[i])
    ensures StripRight(s) <= s && i < |StripRight(s)| && Blank(s[|StripRight(s)|..])
  {
    var n := |s| - 1;
    if IsSpace(s[n]) {
      StripRightCuts(s[..n], i);
      var t := StripRight(s[..n]);
      assert StripRight(s) == t;
      assert t <= s[..n] <= s;
      assert s[|t|..] == s[..n][|t|..] + [s[n]];
    }
  }

  lemma FirstWord(w: string, rest: string)
    requires IsWord(w) && (rest != "" ==> IsSpace(rest[0]))
    ensures Words(w + rest) == [w] + Words(rest)
  {
    var s := w + rest;
    var n := WordLength(s);
    assert forall i :: 0 <= i < |w| ==> s[i] == w[i] && w[i] in w;
    assert rest != "" ==> s[|w|] == rest[0];
    assert s[..n] == w && s[n..] == rest;
  }

  lemma AtInside(a: string, s: string, b: string, i: nat, k: string)
    requires i + |k| <= |s|
    ensures At(a + s + b, |a| + i, k) <==> At(s, i, k)
  {
    assert (a + s + b)[|a| + i..|a| + i + |k|] == s[i..i + |k|];
  }

  lemma ContainsAcross(a: string, c: char, b: string, k: string)
    requires c !in k && k != ""
    ensures Contains(a + [c] + b, k) <==> Contains(a, k) || Contains(b, k)
  {
    var s := a + [c] + b;
    assert s == "" + a + ([c] + b) && s == (a + [c]) + b + "";
    if Contains(s, k) {
      var i :| 0 <= i <= |s| && At(s, i, k);
      assert s[|a|] == c;
      assert forall p :: i <= p < i + |k| ==> s[p] == k[p - i] && s[p] != c;
      if i + |k| <= |a| {
        AtInside("", a, [c] + b, i, k);
      } else {
        AtInside(a + [c], b, "", i - |a| - 1, k);
      }
    }
    if Contains(a, k) {
      var i :| 0 <= i <= |a| && At(a, i, k);
      AtInside("", a, [c] + b, i, k);
    }
    if Contains(b, k) {
      var i :| 0 <= i <= |b| && At(b, i, k);
      AtInside(a + [c], b, "", i, k);
    }
  }

  lemma LacksCharacter(s: string, k: string, c: char)
    requires c in k && c !in s
    ensures !Contains(s, k)
  {
    var j :| 0 <= j < |k| && k[j] == c;
    forall i | 0 <= i <= |s| ensures !At(s, i, k) {
      assert i + |k| <= |s| ==> s[i + j] == s[i..i + |k|][j];
    }
  }

  lemma {:induction false} StripLeftCuts(s: string)
    ensures |StripLeft(s)| <= |s| && StripLeft(s) == s[|s| - |StripLeft(s)|..] && Blank(s[..|s| - |StripLeft(s)|])
    ensures StripLeft(s) != "" ==> !IsSpace(StripLeft(s)[0])
  {
    if s != "" && IsSpace(s[0]) {
      hide IsSpace;
      StripLeftCuts(s[1..]);
      var k := |s| - |StripLeft(s)|;
      assert s[..k] == [s[0]] + s[1..][..k - 1];
    }
  }

  lemma {:induction false} StripRightEnds(s: string)
    ensures StripRight(s) <= s && Blank(s[|StripRight(s)|..])
    ensures StripRight(s) != "" ==> !IsSpace(StripRight(s)[|StripRight(s)| - 1])
  {
    if s != "" && IsSpace(s[|s| - 1]) {
      hide IsSpace;
      var init := s[..|s| - 1];
      StripRightEnds(init);
      var k := |StripRight(init)|;
      assert StripRight(s) == StripRight(init) <= init <= s;
      assert s[k..] == init[k..] + [s[|s| - 1]];
    }
  }

  /** Stripping takes blanks off both ends, all of them and nothing else. */
  lemma StripIs(s: string)
    ensures exists head, tail :: Blank(head) && Blank(tail) && s == head + Strip(s) + tail
    ensures Strip(s) != "" ==> !IsSpace(Strip(s)[0]) && !IsSpace(Strip(s)[|Strip(s)| - 1])
  {
    StripLeftCuts(s);
    StripRightEnds(StripLeft(s));
    hide IsSpace, StripLeft, StripRight;
    var left, mid := StripLeft(s), Strip(s);
    var head, tail := s[..|s| - |left|], left[|mid|..];
    assert left == mid + tail && s == head + left;
    assert s == head + mid + tail;
    assert Blank(head) && Blank(tail);
  }

  lemma {:induction false} WordsAfterBlanks(b: string, s: string)
    requires Blank(b)
    ensures Words(b + s) == Words(s)
  {
    if b == "" {
      assert b + s == s;
    } else {
      assert b[0] in b;
      assert (b + s)[1..] == b[1..] + s;
      WordsAfterBlanks(b[1..], s);
    }
  }
}
