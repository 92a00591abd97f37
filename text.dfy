/** The string operations the integration relies on, written out as Python
    defines them: prefix tests, `str.split(sep)`, `sep.join(parts)`,
    `str.replace` of one character, `str.title()` over ASCII letters, and the
    decimal rendering of a natural number. */
module Text {

  predicate StartsWith(s: string, prefix: string) {
    |prefix| <= |s| && s[..|prefix|] == prefix
  }

  lemma StartsWithAt(s: string, prefix: string, i: nat)
    requires StartsWith(s, prefix) && i < |prefix|
    ensures s[i] == prefix[i]
  {
    assert s[..|prefix|][i] == s[i];
  }

  /** Number of occurrences of `c` in `s`. */
  function Count(s: string, c: char): nat {
    if s == [] then 0 else (if s[0] == c then 1 else 0) + Count(s[1..], c)
  }

  /** `s.split(sep)`: the pieces between occurrences of `sep`, empty pieces
      included; a string without `sep` is a single piece. */
  function Split(s: string, sep: char): (parts: seq<string>)
    ensures |parts| >= 1
  {
    if s == [] then [""]
    else
      var rest := Split(s[1..], sep);
      if s[0] == sep then [""] + rest else [[s[0]] + rest[0]] + rest[1..]
  }

  /** `sep.join(parts)`. */
  function Join(parts: seq<string>, sep: string): string {
    if parts == [] then ""
    else if |parts| == 1 then parts[0]
    else parts[0] + sep + Join(parts[1..], sep)
  }

  /** `str.split` yields one more piece than there are separators. */
  lemma {:induction false} SplitCount(s: string, sep: char)
    ensures |Split(s, sep)| == Count(s, sep) + 1
  {
    if s != [] {
      SplitCount(s[1..], sep);
    }
  }

  /** No piece of a split contains the separator. */
  lemma {:induction false} SplitPiecesFree(s: string, sep: char)
    ensures forall k :: 0 <= k < |Split(s, sep)| ==> sep !in Split(s, sep)[k]
  {
    if s != [] {
      SplitPiecesFree(s[1..], sep);
      var rest := Split(s[1..], sep);
      if s[0] != sep {
        assert Split(s, sep) == [[s[0]] + rest[0]] + rest[1..];
        forall k | 0 <= k < |Split(s, sep)|
          ensures sep !in Split(s, sep)[k]
        {
          if k > 0 {
            assert Split(s, sep)[k] == rest[k];
          }
        }
      }
    }
  }

  /** Joining the pieces of a split with the separator gives back the string. */
  lemma {:induction false} JoinSplit(s: string, sep: char)
    ensures Join(Split(s, sep), [sep]) == s
  {
    if s != [] {
      JoinSplit(s[1..], sep);
      var rest := Split(s[1..], sep);
      if s[0] != sep {
        var parts := Split(s, sep);
        assert parts == [[s[0]] + rest[0]] + rest[1..];
        if |rest| == 1 {
          assert Join(parts, [sep]) == [s[0]] + rest[0];
        } else {
          assert parts[1..] == rest[1..];
          calc {
            Join(parts, [sep]);
            [s[0]] + rest[0] + [sep] + Join(rest[1..], [sep]);
            [s[0]] + (rest[0] + [sep] + Join(rest[1..], [sep]));
            [s[0]] + Join(rest, [sep]);
          }
        }
      }
    }
  }

  /** Splitting a string made by joining separator-free pieces gives back
      the pieces. */
  lemma {:induction false} SplitJoin(parts: seq<string>, sep: char)
    requires |parts| >= 1
    requires forall k :: 0 <= k < |parts| ==> sep !in parts[k]
    ensures Split(Join(parts, [sep]), sep) == parts
  {
    if |parts| == 1 {
      SplitFree(parts[0], sep);
    } else {
      SplitJoin(parts[1..], sep);
      SplitPrefix(parts[0], [sep] + Join(parts[1..], [sep]), sep);
      assert parts[0] + [sep] + Join(parts[1..], [sep]) == parts[0] + ([sep] + Join(parts[1..], [sep]));
    }
  }

  lemma {:induction false} SplitFree(s: string, sep: char)
    requires sep !in s
    ensures Split(s, sep) == [s]
  {
    if s != [] {
      assert s[0] in s && s[0] != sep;
      assert forall c :: c in s[1..] ==> c in s;
      SplitFree(s[1..], sep);
      assert [s[0]] + s[1..] == s;
    }
  }

  /** A separator-free head glues onto the first piece of what follows. */
  lemma {:induction false} SplitPrefix(head: string, tail: string, sep: char)
    requires sep !in head
    requires |tail| > 0 && tail[0] == sep
    ensures Split(head + tail, sep) == [head] + Split(tail[1..], sep)
  {
    if head == [] {
      assert head + tail == tail;
    } else {
      assert head[0] in head;
      assert (head + tail)[0] == head[0] != sep;
      assert (head + tail)[1..] == head[1..] + tail;
      assert forall c :: c in head[1..] ==> c in head;
      SplitPrefix(head[1..], tail, sep);
      var rest := Split((head + tail)[1..], sep);
      assert rest == [head[1..]] + Split(tail[1..], sep);
      assert [head[0]] + head[1..] == head;
    }
  }

  /** `s.replace(from, to)` for single characters. */
  function ReplaceChar(s: string, from: char, to: char): (r: string)
    ensures |r| == |s|
    ensures forall i :: 0 <= i < |s| ==> r[i] == if s[i] == from then to else s[i]
  {
    if s == [] then [] else [if s[0] == from then to else s[0]] + ReplaceChar(s[1..], from, to)
  }

  predicate IsLower(c: char) { 'a' <= c <= 'z' }
  predicate IsUpper(c: char) { 'A' <= c <= 'Z' }
  predicate IsLetter(c: char) { IsLower(c) || IsUpper(c) }

  function ToUpper(c: char): char {
    if IsLower(c) then (c as int - 'a' as int + 'A' as int) as char else c
  }

  function ToLower(c: char): char {
    if IsUpper(c) then (c as int - 'A' as int + 'a' as int) as char else c
  }

  /** `str.title()` over ASCII: a letter is upper-cased when the character
      before it is not a letter, and lower-cased otherwise. */
  function Title(s: string): string {
    TitleAfter(s, false)
  }

  function TitleAfter(s: string, afterLetter: bool): (r: string)
    ensures |r| == |s|
  {
    if s == [] then []
    else [if afterLetter then ToLower(s[0]) else ToUpper(s[0])] + TitleAfter(s[1..], IsLetter(s[0]))
  }

  /** Title-casing a concatenation: the second part is title-cased knowing
      whether the first ended in a letter. */
  lemma {:induction false} TitleAfterAppend(a: string, b: string, afterLetter: bool)
    ensures TitleAfter(a + b, afterLetter) ==
            TitleAfter(a, afterLetter) + TitleAfter(b, if a == [] then afterLetter else IsLetter(a[|a| - 1]))
  {
    if a == [] {
      assert a + b == b;
    } else {
      assert (a + b)[0] == a[0] && (a + b)[1..] == a[1..] + b;
      TitleAfterAppend(a[1..], b, IsLetter(a[0]));
    }
  }

  /** A word of lower-case letters keeps its case after a letter, and gets a
      capital initial otherwise. */
  lemma {:induction false} TitleLowerWord(w: string, afterLetter: bool)
    requires forall i :: 0 <= i < |w| ==> IsLower(w[i])
    ensures afterLetter ==> TitleAfter(w, afterLetter) == w
    ensures w != [] && !afterLetter ==> TitleAfter(w, afterLetter) == [ToUpper(w[0])] + w[1..]
  {
    if w != [] {
      TitleLowerWord(w[1..], true);
      assert ToLower(w[0]) == w[0];
      assert [w[0]] + w[1..] == w;
    }
  }

  /** Replacing a character that does not occur changes nothing. */
  lemma ReplaceAbsent(s: string, from: char, to: char)
    requires from !in s
    ensures ReplaceChar(s, from, to) == s
  {
    assert forall i :: 0 <= i < |s| ==> s[i] != from;
  }

  /** Replacement works piece by piece across one occurrence. */
  lemma ReplaceAround(a: string, b: string, from: char, to: char)
    ensures ReplaceChar(a + [from] + b, from, to) == ReplaceChar(a, from, to) + [to] + ReplaceChar(b, from, to)
  {
    var s := a + [from] + b;
    var r := ReplaceChar(a, from, to) + [to] + ReplaceChar(b, from, to);
    assert forall i :: 0 <= i < |s| ==> s[i] == if i < |a| then a[i] else if i == |a| then from else b[i - |a| - 1];
    assert forall i :: 0 <= i < |s| ==> r[i] == if i < |a| then ReplaceChar(a, from, to)[i] else if i == |a| then to else ReplaceChar(b, from, to)[i - |a| - 1];
  }

  function DigitChar(d: nat): (c: char)
    requires d < 10
    ensures '0' <= c <= '9' && c as int - '0' as int == d
  {
    ('0' as int + d) as char
  }

  /** The decimal digits of `n`, most significant first, without leading
      zeros ("0" for zero). */
  function NatToString(n: nat): (r: string)
    ensures |r| >= 1
    ensures forall i :: 0 <= i < |r| ==> '0' <= r[i] <= '9'
    ensures n > 0 ==> r[0] != '0'
  {
    if n < 10 then [DigitChar(n)] else NatToString(n / 10) + [DigitChar(n % 10)]
  }
}
