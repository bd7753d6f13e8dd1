/** Character and string helpers standing in for the JavaScript string methods the services call. */
module Text {

  predicate IsDigit(c: char) { '0' <= c <= '9' }

  predicate IsUpper(c: char) { 'A' <= c <= 'Z' }

  /** `String.prototype.toLowerCase` restricted to ASCII letters. */
  function LowerChar(c: char): (r: char)
    ensures !IsUpper(r)
    ensures IsUpper(c) ==> r as int == c as int + 32
    ensures !IsUpper(c) ==> r == c
  {
    if IsUpper(c) then (c as int + 32) as char else c
  }

  /** `s.toLowerCase()` on ASCII letters; every other character is kept. */
  function ToLower(s: string): (r: string)
    ensures |r| == |s|
    ensures forall i :: 0 <= i < |s| ==> r[i] == LowerChar(s[i])
  {
    seq(|s|, i requires 0 <= i < |s| => LowerChar(s[i]))
  }

  /** `s.replace(/x/g, y)` for single characters `x` and `y`. */
  function ReplaceAll(s: string, x: char, y: char): (r: string)
    ensures |r| == |s|
    ensures forall i :: 0 <= i < |s| ==> r[i] == if s[i] == x then y else s[i]
  {
    seq(|s|, i requires 0 <= i < |s| => if s[i] == x then y else s[i])
  }

  /** `s.replace(/\D/g, '')`: keeps the ASCII digits of `s`, in order. */
  function Digits(s: string): (r: string)
    ensures |r| <= |s|
    ensures forall i :: 0 <= i < |r| ==> IsDigit(r[i])
    ensures (forall i :: 0 <= i < |s| ==> IsDigit(s[i])) ==> r == s
  {
    if s == [] then []
    else if IsDigit(s[0]) then [s[0]] + Digits(s[1..])
    else Digits(s[1..])
  }

  /** `s.slice(-n)` for n > 0: the last `n` characters, or all of `s` when it is shorter. */
  function LastN(s: string, n: nat): (r: string)
    ensures |r| == if |s| < n then |s| else n
    ensures s == s[..|s| - |r|] + r
  {
    if |s| <= n then s else s[|s| - n..]
  }

  /** `s.split(sep)`: the pieces between occurrences of `sep`; never empty. */
  function Split(s: string, sep: char): (r: seq<string>)
    ensures |r| >= 1
    ensures forall i :: 0 <= i < |r| ==> sep !in r[i]
  {
    if s == [] then [[]]
    else
      var rest := Split(s[1..], sep);
      if s[0] == sep then [[]] + rest
      else [[s[0]] + rest[0]] + rest[1..]
  }

  /** `pieces.join(sep)`; joining no pieces gives the empty string. */
  function Join(pieces: seq<string>, sep: char): string
  {
    if pieces == [] then []
    else if |pieces| == 1 then pieces[0]
    else pieces[0] + [sep] + Join(pieces[1..], sep)
  }

  /** Index of the first occurrence of `c` in `s`, if any. */
  function IndexOf(s: string, c: char): (r: int)
    ensures -1 <= r < |s|
    ensures r == -1 <==> c !in s
    ensures r >= 0 ==> s[r] == c && c !in s[..r]
  {
    if s == [] then -1
    else if s[0] == c then 0
    else
      var k := IndexOf(s[1..], c);
      if k == -1 then -1 else k + 1
  }

  /** Joining what `Split` produced gives back the original string. */
  lemma {:induction false} JoinSplit(s: string, sep: char)
    ensures Join(Split(s, sep), sep) == s
  {
    if s != [] {
      var rest := Split(s[1..], sep);
      JoinSplit(s[1..], sep);
      if s[0] == sep {
        assert Split(s, sep) == [[]] + rest;
        assert s == [sep] + s[1..];
      } else {
        var r := Split(s, sep);
        assert r == [[s[0]] + rest[0]] + rest[1..];
        if |rest| == 1 {
          assert s == [s[0]] + s[1..];
        } else {
          assert r[1..] == rest[1..];
          assert Join(rest, sep) == rest[0] + [sep] + Join(rest[1..], sep);
          assert s == [s[0]] + s[1..];
        }
      }
    }
  }

  /** Without a separator, `Split` gives the whole string as its only piece. */
  lemma {:induction false} SplitWithoutSeparator(s: string, sep: char)
    requires sep !in s
    ensures Split(s, sep) == [s]
  {
    if s != [] {
      assert sep !in s[1..];
      SplitWithoutSeparator(s[1..], sep);
      assert s == [s[0]] + s[1..];
    }
  }

  /** The first piece of `Split` is everything before the first separator,
      and the remaining pieces re-joined are everything after it. */
  lemma {:induction false} SplitAtFirst(s: string, sep: char)
    requires sep in s
    ensures var k := IndexOf(s, sep);
      Split(s, sep)[0] == s[..k] && Join(Split(s, sep)[1..], sep) == s[k + 1..]
  {
    var rest := Split(s[1..], sep);
    if s[0] == sep {
      JoinSplit(s[1..], sep);
      assert Split(s, sep)[1..] == rest;
    } else {
      assert sep in s[1..] by {
        var j :| 0 <= j < |s| && s[j] == sep;
        assert s[1..][j - 1] == sep;
      }
      SplitAtFirst(s[1..], sep);
      var k := IndexOf(s[1..], sep);
      assert s[..k + 1] == [s[0]] + s[1..][..k];
      assert s[k + 2..] == s[1..][k + 1..];
      assert Split(s, sep)[1..] == rest[1..];
    }
  }
}
