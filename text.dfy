/**
 * The string operations the dashboard uses: `Array.prototype.join` and
 * `String.prototype.split` with a one-character separator, `includes`, and
 * `toLowerCase` restricted to ASCII letters.
 */
module Text {

  /** `parts.join(sep)`; joining an empty list gives the empty string. */
  function JoinOn(parts: seq<string>, sep: char): string {
    if parts == [] then ""
    else if |parts| == 1 then parts[0]
    else parts[0] + [sep] + JoinOn(parts[1..], sep)
  }

  /** `s.split(sep)`: always at least one piece, one more than the separators in `s`. */
  function SplitOn(s: string, sep: char): (r: seq<string>)
    ensures |r| == CountChar(s, sep) + 1
  {
    if s == [] then [""]
    else if s[0] == sep then [""] + SplitOn(s[1..], sep)
    else
      var rest := SplitOn(s[1..], sep);
      [[s[0]] + rest[0]] + rest[1..]
  }

  /** Number of occurrences of `c` in `s`. */
  function CountChar(s: string, c: char): nat {
    if s == [] then 0 else (if s[0] == c then 1 else 0) + CountChar(s[1..], c)
  }

  /** Total number of occurrences of `c` over all `parts`. */
  function CountCharAll(parts: seq<string>, c: char): nat {
    if parts == [] then 0 else CountChar(parts[0], c) + CountCharAll(parts[1..], c)
  }

  /** `s.includes(sub)`. */
  predicate Contains(s: string, sub: string) {
    if |s| < |sub| then false
    else s[..|sub|] == sub || Contains(s[1..], sub)
  }

  function ToLowerChar(c: char): char {
    if 'A' <= c <= 'Z' then (c as int + 32) as char else c
  }

  /** `s.toLowerCase()` on ASCII letters. */
  function ToLower(s: string): string {
    seq(|s|, i requires 0 <= i < |s| => ToLowerChar(s[i]))
  }

  lemma {:induction false} CountCharZero(s: string, c: char)
    ensures CountChar(s, c) == 0 <==> c !in s
  {
    if s != [] {
      CountCharZero(s[1..], c);
      assert s == [s[0]] + s[1..];
    }
  }

  lemma {:induction false} CountCharAppend(s: string, t: string, c: char)
    ensures CountChar(s + t, c) == CountChar(s, c) + CountChar(t, c)
  {
    if s != [] {
      assert (s + t)[1..] == s[1..] + t;
      CountCharAppend(s[1..], t, c);
    } else {
      assert s + t == t;
    }
  }

  /** Joining adds exactly one separator between consecutive parts. */
  lemma {:induction false} CountCharJoin(parts: seq<string>, c: char)
    requires parts != []
    ensures CountChar(JoinOn(parts, c), c) == |parts| - 1 + CountCharAll(parts, c)
  {
    if |parts| > 1 {
      CountCharJoin(parts[1..], c);
      CountCharAppend(parts[0] + [c], JoinOn(parts[1..], c), c);
      CountCharAppend(parts[0], [c], c);
      assert CountChar([c], c) == 1;
    } else {
      assert CountCharAll(parts[1..], c) == 0;
    }
  }

  lemma {:induction false} CountCharAllZero(parts: seq<string>, c: char)
    ensures CountCharAll(parts, c) == 0 <==> forall i :: 0 <= i < |parts| ==> c !in parts[i]
  {
    if parts != [] {
      CountCharAllZero(parts[1..], c);
      CountCharZero(parts[0], c);
      assert forall i :: 1 <= i < |parts| ==> parts[i] == parts[1..][i - 1];
    }
  }

  /** Text without the separator splits into itself. */
  lemma {:induction false} SplitWithoutSeparator(s: string, sep: char)
    requires sep !in s
    ensures SplitOn(s, sep) == [s]
  {
    if s != [] {
      SplitWithoutSeparator(s[1..], sep);
      assert [s[0]] + s[1..] == s;
    }
  }

  /** Splitting `p + sep + t` yields `p` followed by the pieces of `t`, when `p` has no separator. */
  lemma {:induction false} SplitAfterPiece(p: string, t: string, sep: char)
    requires sep !in p
    ensures SplitOn(p + [sep] + t, sep) == [p] + SplitOn(t, sep)
  {
    if p == [] {
      assert p + [sep] + t == [sep] + t;
      assert ([sep] + t)[1..] == t;
    } else {
      var s := p + [sep] + t;
      assert s[0] == p[0] && s[1..] == p[1..] + [sep] + t;
      SplitAfterPiece(p[1..], t, sep);
      assert [p[0]] + p[1..] == p;
    }
  }

  /** `split` undoes `join` when no part contains the separator. */
  lemma {:induction false} SplitJoin(parts: seq<string>, sep: char)
    requires parts != []
    requires forall i :: 0 <= i < |parts| ==> sep !in parts[i]
    ensures SplitOn(JoinOn(parts, sep), sep) == parts
  {
    if |parts| == 1 {
      SplitWithoutSeparator(parts[0], sep);
    } else {
      SplitJoin(parts[1..], sep);
      SplitAfterPiece(parts[0], JoinOn(parts[1..], sep), sep);
      assert [parts[0]] + parts[1..] == parts;
    }
  }

  /**
   * Joining `n >= 1` parts gives text that splits back into exactly `n` pieces
   * if and only if no part contains the separator.
   */
  lemma JoinedPieceCount(parts: seq<string>, sep: char)
    requires parts != []
    ensures |SplitOn(JoinOn(parts, sep), sep)| == |parts|
            <==> forall i :: 0 <= i < |parts| ==> sep !in parts[i]
  {
    CountCharJoin(parts, sep);
    CountCharAllZero(parts, sep);
  }

  lemma ToLowerIdempotent(s: string)
    ensures ToLower(ToLower(s)) == ToLower(s)
  {
  }

  /** A character other than the separator occurs in the joined text as often as in all parts together. */
  lemma {:induction false} CountOtherCharJoin(parts: seq<string>, sep: char, c: char)
    requires c != sep
    ensures CountChar(JoinOn(parts, sep), c) == CountCharAll(parts, c)
  {
    if |parts| == 1 {
      assert CountCharAll(parts[1..], c) == 0;
    } else if |parts| > 1 {
      CountOtherCharJoin(parts[1..], sep, c);
      CountCharAppend(parts[0] + [sep], JoinOn(parts[1..], sep), c);
      CountCharAppend(parts[0], [sep], c);
      assert CountChar([sep], c) == 0;
    }
  }

  /** Joining neither introduces nor hides a character other than the separator. */
  lemma JoinOnAvoids(parts: seq<string>, sep: char, c: char)
    requires c != sep
    ensures c !in JoinOn(parts, sep) <==> forall i :: 0 <= i < |parts| ==> c !in parts[i]
  {
    CountOtherCharJoin(parts, sep, c);
    CountCharZero(JoinOn(parts, sep), c);
    CountCharAllZero(parts, c);
  }
}
