/** The prefix key the backend gives a request: equal keys mean equal prefixes, so a cache hit never
    shares blocks between prompts that start differently. */
module PrefixKey {
  function Digit(n: int): char
    requires 0 <= n < 10
  {
    ('0' as int + n) as char
  }

  function Decimal(n: nat): string {
    if n < 10 then [Digit(n)] else Decimal(n / 10) + [Digit(n % 10)]
  }

  /** An `int` as an output stream renders it. */
  function Shown(n: int): string {
    if n < 0 then "-" + Decimal(-n) else Decimal(n)
  }

  function Tail(ids: seq<int>): string {
    if ids == [] then "" else ":" + Shown(ids[0]) + Tail(ids[1..])
  }

  function KeyOf(ids: seq<int>, prefixTokens: int): string {
    if prefixTokens <= 0 || |ids| < prefixTokens then "" else "tiny_llm" + Tail(ids[..prefixTokens])
  }

  method PrefixCacheKey(ids: seq<int>, prefixTokens: int) returns (key: string)
    ensures key == KeyOf(ids, prefixTokens)
  {
    hide Shown;
    if prefixTokens <= 0 || |ids| < prefixTokens {
      return "";
    }
    key := "tiny_llm";
    ghost var all := ids[..prefixTokens];
    assert all[0..] == all;
    for index := 0 to prefixTokens
      invariant "tiny_llm" + Tail(all) == key + Tail(all[index..])
    {
      assert all[index..][0] == ids[index] && all[index..][1..] == all[index + 1..];
      key := key + ":" + Shown(ids[index]);
    }
  }

  predicate Tame(s: string) {
    s != "" && forall i | 0 <= i < |s| :: s[i] != ':'
  }

  lemma {:induction false} DecimalIsTame(n: nat)
    ensures Tame(Decimal(n)) && forall i | 0 <= i < |Decimal(n)| :: Decimal(n)[i] != '-'
  {
    if n >= 10 {
      DecimalIsTame(n / 10);
    }
  }

  lemma {:induction false} DecimalIsInjective(a: nat, b: nat)
    requires Decimal(a) == Decimal(b)
    ensures a == b
  {
    var x, y := Decimal(a), Decimal(b);
    assert x[|x| - 1] == Digit(a % 10) && y[|y| - 1] == Digit(b % 10);
    if a >= 10 && b >= 10 {
      assert x[..|x| - 1] == Decimal(a / 10) && y[..|y| - 1] == Decimal(b / 10);
      DecimalIsInjective(a / 10, b / 10);
    } else if a >= 10 {
      DecimalIsTame(a / 10);
    } else if b >= 10 {
      DecimalIsTame(b / 10);
    }
  }

  lemma ShownIsInjective(a: int, b: int)
    requires Shown(a) == Shown(b)
    ensures a == b
  {
    var x, y := if a < 0 then -a else a, if b < 0 then -b else b;
    DecimalIsTame(x);
    DecimalIsTame(y);
    assert a < 0 <==> Shown(a)[0] == '-';
    assert b < 0 <==> Shown(b)[0] == '-';
    assert a < 0 ==> Shown(a)[1..] == Decimal(x);
    assert b < 0 ==> Shown(b)[1..] == Decimal(y);
    DecimalIsInjective(x, y);
  }

  lemma ShownIsTame(n: int)
    ensures Tame(Shown(n))
  {
    DecimalIsTame(if n < 0 then -n else n);
  }

  /** The part of a key up to the first colon. */
  function Head(s: string): string {
    if s == "" || s[0] == ':' then "" else [s[0]] + Head(s[1..])
  }

  lemma {:induction false} HeadOfWord(a: string, x: string)
    requires (forall i | 0 <= i < |a| :: a[i] != ':') && (x == "" || x[0] == ':')
    ensures Head(a + x) == a
  {
    if a == "" {
      assert a + x == x;
    } else {
      assert (a + x)[1..] == a[1..] + x;
      HeadOfWord(a[1..], x);
    }
  }

  /** Two colon-free words followed by nothing or a colon are split the same way. */
  lemma SplitAtColon(a: string, x: string, b: string, y: string)
    requires Tame(a) && Tame(b) && a + x == b + y
    requires (x == "" || x[0] == ':') && (y == "" || y[0] == ':')
    ensures a == b && x == y
  {
    HeadOfWord(a, x);
    HeadOfWord(b, y);
    assert x == (a + x)[|a|..] && y == (b + y)[|b|..];
  }

  lemma TailShape(ids: seq<int>)
    requires ids != []
    ensures Tail(ids) != "" && Tail(ids)[1..] == Shown(ids[0]) + Tail(ids[1..])
    ensures Tail(ids[1..]) == "" || Tail(ids[1..])[0] == ':'
  {
    hide Shown;
    Colon(Shown(ids[0]), Tail(ids[1..]));
    if ids[1..] != [] {
      Colon(Shown(ids[1]), Tail(ids[2..]));
      assert ids[1..][0] == ids[1] && ids[1..][1..] == ids[2..];
    }
  }

  lemma Colon(a: string, b: string)
    ensures ":" + a + b != "" && (":" + a + b)[0] == ':' && (":" + a + b)[1..] == a + b
  {
    assert ":" + a + b == ":" + (a + b);
  }

  lemma {:induction false} TailIsInjective(a: seq<int>, b: seq<int>)
    requires Tail(a) == Tail(b)
    ensures a == b
  {
    hide Shown, Tame;
    if a != [] && b != [] {
      TailShape(a);
      TailShape(b);
      hide Tail;
      ShownIsTame(a[0]);
      ShownIsTame(b[0]);
      SplitAtColon(Shown(a[0]), Tail(a[1..]), Shown(b[0]), Tail(b[1..]));
      ShownIsInjective(a[0], b[0]);
      TailIsInjective(a[1..], b[1..]);
      assert a == [a[0]] + a[1..] && b == [b[0]] + b[1..];
    }
  }

  /** Two prompts get the same prefix key exactly when both are long enough and start with the same tokens. */
  lemma EqualKeysMeanEqualPrefixes(a: seq<int>, b: seq<int>, n: int)
    ensures KeyOf(a, n) == KeyOf(b, n) != "" <==> 0 < n <= |a| && n <= |b| && a[..n] == b[..n]
  {
    if 0 < n <= |a| && n <= |b| {
      assert KeyOf(a, n)[8..] == Tail(a[..n]) && KeyOf(b, n)[8..] == Tail(b[..n]);
      if KeyOf(a, n) == KeyOf(b, n) {
        TailIsInjective(a[..n], b[..n]);
      }
    }
  }

  /** What a key looks like. */
  lemma KeyExample()
    ensures KeyOf([1, -2, 30], 2) == "tiny_llm:1:-2" && KeyOf([1], 2) == "" && KeyOf([1], 0) == ""
  {
    assert [1, -2, 30][..2] == [1, -2];
    assert [1, -2][1..] == [-2] && [-2][1..] == [];
    assert Tail([-2]) == ":" + Shown(-2) + "" && Shown(-2) == "-" + Decimal(2) && Decimal(2) == "2";
    assert Tail([1, -2]) == ":" + Shown(1) + Tail([-2]) && Shown(1) == Decimal(1) == "1";
  }
}
