/**
 * The few pieces of `java.lang.String` behaviour the exporters rely on:
 * `String.valueOf` of booleans and non-negative ints, `String.split` with a
 * one-character pattern, and `AbstractCollection.toString`.
 */
module JavaText {

  /** `String.valueOf(boolean)`. */
  function BoolToString(b: bool): string
  {
    if b then "true" else "false"
  }

  predicate IsDigit(c: char)
  {
    '0' <= c <= '9'
  }

  predicate AllDigits(s: string)
  {
    forall i :: 0 <= i < |s| ==> IsDigit(s[i])
  }

  function DigitChar(d: nat): (c: char)
    requires d < 10
    ensures IsDigit(c) && c as int - '0' as int == d
  {
    ('0' as int + d) as char
  }

  /**
   * `String.valueOf(int)` for a non-negative int: the shortest decimal
   * numeral, so only "0" itself starts with a zero.
   */
  function NatToString(n: nat): (s: string)
    ensures |s| >= 1 && AllDigits(s)
    ensures s[0] == '0' ==> n == 0
    decreases n
  {
    if n < 10 then [DigitChar(n)] else NatToString(n / 10) + [DigitChar(n % 10)]
  }

  /** The value of a decimal numeral: the inverse of NatToString. */
  function DecimalValue(s: string): nat
    requires AllDigits(s)
  {
    if |s| == 0 then 0
    else DecimalValue(s[..|s| - 1]) * 10 + (s[|s| - 1] as int - '0' as int)
  }

  lemma {:induction false} DecimalRoundTrip(n: nat)
    ensures DecimalValue(NatToString(n)) == n
    decreases n
  {
    if n >= 10 {
      var s := NatToString(n);
      assert s[..|s| - 1] == NatToString(n / 10);
      DecimalRoundTrip(n / 10);
    }
  }

  /** Distinct numbers print differently (so `"filter " + i` headers never collide). */
  lemma {:induction false} NatToStringInjective(m: nat, n: nat)
    requires NatToString(m) == NatToString(n)
    ensures m == n
  {
    DecimalRoundTrip(m);
    DecimalRoundTrip(n);
  }

  /**
   * The pieces of `s` between the occurrences of `c`: k occurrences give
   * k + 1 pieces, empty ones included.
   */
  function Pieces(s: string, c: char): (r: seq<string>)
    ensures |r| >= 1
    ensures forall i :: 0 <= i < |r| ==> c !in r[i]
  {
    if |s| == 0 then [""]
    else
      var rest := Pieces(s[1..], c);
      if s[0] == c then [""] + rest else [[s[0]] + rest[0]] + rest[1..]
  }

  /** Glue pieces back together with `c` between them. */
  function Join(ps: seq<string>, c: char): string
    requires |ps| >= 1
  {
    if |ps| == 1 then ps[0] else ps[0] + [c] + Join(ps[1..], c)
  }

  lemma {:induction false} JoinPieces(s: string, c: char)
    ensures Join(Pieces(s, c), c) == s
  {
    if |s| > 0 {
      var rest := Pieces(s[1..], c);
      JoinPieces(s[1..], c);
      if s[0] == c {
        assert ([""] + rest)[1..] == rest;
      } else {
        var r := [[s[0]] + rest[0]] + rest[1..];
        if |rest| == 1 {
          assert s == [s[0]] + s[1..];
        } else {
          assert r[1..] == rest[1..];
          assert Join(rest, c) == rest[0] + [c] + Join(rest[1..], c);
          assert s == [s[0]] + s[1..];
        }
      }
    }
  }

  /** Splitting a string that starts with a c-free head and then `c`. */
  lemma {:induction false} PiecesAfterHead(a: string, c: char, t: string)
    requires c !in a
    ensures Pieces(a + [c] + t, c) == [a] + Pieces(t, c)
    decreases |a|
  {
    if |a| == 0 {
      assert a + [c] + t == [c] + t;
      assert ([c] + t)[1..] == t;
    } else {
      PiecesAfterHead(a[1..], c, t);
      assert (a + [c] + t)[1..] == a[1..] + [c] + t;
      assert [a[0]] + a[1..] == a;
    }
  }

  /** Removes the empty strings at the end, as `split` with limit 0 does. */
  function DropTrailingEmpty(ps: seq<string>): (r: seq<string>)
    ensures |r| <= |ps| && r == ps[..|r|]
    ensures |r| > 0 ==> r[|r| - 1] != ""
    ensures forall i :: |r| <= i < |ps| ==> ps[i] == ""
  {
    if |ps| == 0 then []
    else if ps[|ps| - 1] == "" then DropTrailingEmpty(ps[..|ps| - 1])
    else ps
  }

  /**
   * `s.split(p)` where the regular expression `p` matches exactly the
   * character `c` (`","` or `"\\."`): the input itself when `c` does not
   * occur, otherwise the pieces without the trailing empty ones.
   */
  function Split(s: string, c: char): (r: seq<string>)
    ensures forall i :: 0 <= i < |r| ==> c !in r[i]
  {
    if c !in s then [s] else DropTrailingEmpty(Pieces(s, c))
  }

  lemma {:induction false} PiecesWithoutSeparator(s: string, c: char)
    requires c !in s
    ensures Pieces(s, c) == [s]
  {
    if |s| > 0 {
      PiecesWithoutSeparator(s[1..], c);
      assert [s[0]] + s[1..] == s;
    }
  }

  /** Split keeps every non-empty piece and what comes before it. */
  lemma {:induction false} SplitKeepsPiece(s: string, c: char, k: nat)
    requires k < |Pieces(s, c)| && Pieces(s, c)[k] != ""
    ensures k < |Split(s, c)| && Split(s, c)[k] == Pieces(s, c)[k]
  {
    if c !in s {
      PiecesWithoutSeparator(s, c);
    }
  }

  /**
   * The second field of a dotted name `a.b.rest` (or `a.b`) is `b`, as long
   * as `a` and `b` hold no dot and `b` is not empty.
   */
  lemma {:induction false} SecondField(a: string, b: string, rest: string)
    requires '.' !in a && '.' !in b && b != ""
    ensures |Split(a + "." + b + "." + rest, '.')| >= 2
    ensures Split(a + "." + b + "." + rest, '.')[1] == b
  {
    var s := a + "." + b + "." + rest;
    assert s == a + ['.'] + (b + ['.'] + rest);
    PiecesAfterHead(a, '.', b + ['.'] + rest);
    PiecesAfterHead(b, '.', rest);
    SplitKeepsPiece(s, '.', 1);
  }

  /** A name without any dot splits into itself only. */
  lemma {:induction false} SplitWithoutSeparator(s: string, c: char)
    requires c !in s
    ensures Split(s, c) == [s]
  {
  }

  /** `", "`-joined items, the body of `AbstractCollection.toString`. */
  function CommaList(items: seq<string>): string
  {
    if |items| == 0 then ""
    else if |items| == 1 then items[0]
    else items[0] + ", " + CommaList(items[1..])
  }

  /** `AbstractCollection.toString` of a collection iterated as `items`. */
  function CollectionToString(items: seq<string>): string
  {
    "[" + CommaList(items) + "]"
  }
}
