/** Text the system builds: decimal numerals, and the order of strings. */
module Text {

  predicate IsDigit(c: char) {
    '0' <= c <= '9'
  }

  function Digit(n: nat): (c: char)
    requires n < 10
    ensures IsDigit(c)
  {
    '0' + n as char
  }

  /** A number in decimal. */
  function Decimal(n: nat): (s: string)
    ensures s != [] && forall i | 0 <= i < |s| :: IsDigit(s[i])
  {
    if n < 10 then [Digit(n)] else Decimal(n / 10) + [Digit(n % 10)]
  }

  function Value(s: string): nat
    requires forall i | 0 <= i < |s| :: IsDigit(s[i])
  {
    if s == [] then 0
    else
      assert IsDigit(s[|s| - 1]);
      10 * Value(s[..|s| - 1]) + (s[|s| - 1] - '0') as nat
  }

  lemma {:induction false} DecimalValue(n: nat)
    ensures Value(Decimal(n)) == n
  {
    if n < 10 {
      assert Decimal(n)[..0] == [];
    } else {
      DecimalValue(n / 10);
      assert Decimal(n)[..|Decimal(n)| - 1] == Decimal(n / 10);
    }
  }

  // ---------------------------------------------------------------- replacing

  /** `str.replace` of one character. */
  function ReplaceChar(s: string, c: char, with: string): string {
    if s == [] then [] else (if s[0] == c then with else [s[0]]) + ReplaceChar(s[1..], c, with)
  }

  lemma ReplaceStep(s: string, c: char, with: string)
    requires s != []
    ensures ReplaceChar(s, c, with) == (if s[0] == c then with else [s[0]]) + ReplaceChar(s[1..], c, with)
  {
  }

  lemma {:induction false} ReplaceConcat(a: string, b: string, c: char, with: string)
    ensures ReplaceChar(a + b, c, with) == ReplaceChar(a, c, with) + ReplaceChar(b, c, with)
  {
    if a == [] {
      assert a + b == b;
    } else {
      ReplaceConcat(a[1..], b, c, with);
      JoinStep(a, b, c, with);
    }
  }

  lemma JoinStep(a: string, b: string, c: char, with: string)
    requires a != []
    requires ReplaceChar(a[1..] + b, c, with) == ReplaceChar(a[1..], c, with) + ReplaceChar(b, c, with)
    ensures ReplaceChar(a + b, c, with) == ReplaceChar(a, c, with) + ReplaceChar(b, c, with)
  {
    hide ReplaceChar;
    var x, y, rest := ReplaceChar(a[1..], c, with), ReplaceChar(b, c, with), ReplaceChar(a[1..] + b, c, with);
    var head := if a[0] == c then with else [a[0]];
    ReplaceStep(a, c, with);
    ReplaceStep(a + b, c, with);
    assert (a + b)[1..] == a[1..] + b;
    assert head + (x + y) == (head + x) + y;
  }

  // ---------------------------------------------------------------- order

  /** Python's order on strings: the first difference decides, a prefix comes first. */
  predicate Below(a: string, b: string) {
    if a == [] then b != []
    else b != [] && (a[0] < b[0] || (a[0] == b[0] && Below(a[1..], b[1..])))
  }

  /** The first `n` characters agree, and then `a` ends or has the smaller character. */
  predicate BelowAt(a: string, b: string, n: nat) {
    n <= |a| && n < |b| && a[..n] == b[..n] && (n == |a| || a[n] < b[n])
  }

  lemma SameFirst(a: string, b: string, n: nat)
    requires BelowAt(a, b, n)
    ensures n == 0 || a[0] == b[0]
  {
    if n > 0 { assert a[..n][0] == b[..n][0]; }
  }

  lemma {:induction false} BelowIff(a: string, b: string)
    ensures Below(a, b) <==> exists n: nat :: BelowAt(a, b, n)
  {
    if a == [] || b == [] || a[0] != b[0] {
      assert BelowAt(a, b, 0) <==> Below(a, b);
      if n: nat :| BelowAt(a, b, n) { SameFirst(a, b, n); }
    } else {
      BelowIff(a[1..], b[1..]);
      if n: nat :| BelowAt(a[1..], b[1..], n) {
        assert a[..n + 1] == [a[0]] + a[1..][..n] && b[..n + 1] == [b[0]] + b[1..][..n];
        assert BelowAt(a, b, n + 1);
      }
      if n: nat :| BelowAt(a, b, n) {
        assert a[1..][..n - 1] == a[..n][1..] && b[1..][..n - 1] == b[..n][1..];
        assert BelowAt(a[1..], b[1..], n - 1);
      }
    }
  }

  lemma {:induction false} BelowIsStrict(a: string)
    ensures !Below(a, a)
  {
    if a != [] { BelowIsStrict(a[1..]); }
  }

  lemma {:induction false} BelowIsTransitive(a: string, b: string, c: string)
    requires Below(a, b) && Below(b, c)
    ensures Below(a, c)
  {
    if a != [] && a[0] == b[0] == c[0] {
      BelowIsTransitive(a[1..], b[1..], c[1..]);
    }
  }

  lemma {:induction false} BelowIsTotal(a: string, b: string)
    ensures Below(a, b) || a == b || Below(b, a)
  {
    if a != [] && b != [] && a[0] == b[0] {
      BelowIsTotal(a[1..], b[1..]);
      assert a == [a[0]] + a[1..] && b == [b[0]] + b[1..];
    }
  }

  // ---------------------------------------------------------------- sorting

  predicate IsLeast(m: string, s: set<string>) {
    m in s && forall x | x in s :: x == m || Below(m, x)
  }

  lemma {:induction false} LeastExists(s: set<string>)
    requires s != {}
    ensures exists m :: IsLeast(m, s)
  {
    var x :| x in s;
    if s == {x} {
      assert IsLeast(x, s);
    } else {
      LeastExists(s - {x});
      var m :| IsLeast(m, s - {x});
      BelowIsTotal(x, m);
      if Below(x, m) {
        forall y | y in s && y != x ensures Below(x, y) {
          if y != m { BelowIsTransitive(x, m, y); }
        }
        assert IsLeast(x, s);
      } else {
        assert IsLeast(m, s);
      }
    }
  }

  lemma LeastIsUnique(s: set<string>, m: string, n: string)
    requires IsLeast(m, s) && IsLeast(n, s)
    ensures m == n
  {
    if m != n {
      BelowIsTransitive(m, n, m);
      BelowIsStrict(m);
    }
  }

  function Least(s: set<string>): (m: string)
    requires s != {}
    ensures IsLeast(m, s)
  {
    LeastExists(s);
    assert forall m, n | IsLeast(m, s) && IsLeast(n, s) :: m == n by {
      forall m, n | IsLeast(m, s) && IsLeast(n, s) ensures m == n { LeastIsUnique(s, m, n); }
    }
    var m :| IsLeast(m, s);
    m
  }

  /** Python's `sorted` of a set of strings. */
  function Sorted(s: set<string>): seq<string> {
    if s == {} then [] else [Least(s)] + Sorted(s - {Least(s)})
  }

  predicate Ascending(list: seq<string>) {
    forall i, j | 0 <= i < j < |list| :: Below(list[i], list[j])
  }

  /** Sorting keeps exactly the elements, each once, in ascending order. */
  lemma {:induction false} SortedKeeps(s: set<string>)
    ensures forall x :: x in Sorted(s) <==> x in s
    ensures Ascending(Sorted(s))
  {
    if s != {} {
      var m := Least(s);
      SortedKeeps(s - {m});
      var rest := Sorted(s - {m});
      forall i | 0 <= i < |rest| ensures Below(m, rest[i]) {
        assert rest[i] in rest;
      }
    }
  }

  /** Selection sort, one least element at a time. */
  method SortStrings(s: set<string>) returns (list: seq<string>)
    ensures list == Sorted(s)
    ensures forall x | x in list :: x in s
  {
    list := [];
    var left := s;
    while left != {}
      invariant left <= s
      invariant Sorted(s) == list + Sorted(left)
      decreases left
    {
      var least :| least in left;
      var others := left - {least};
      while others != {}
        invariant least in left && others < left
        invariant forall x | x in left && x !in others :: x == least || Below(least, x)
        decreases others
      {
        var x :| x in others;
        others := others - {x};
        BelowIsTotal(x, least);
        if Below(x, least) {
          forall y | y in left && y !in others && y != x ensures Below(x, y) {
            if y != least { BelowIsTransitive(x, least, y); }
          }
          least := x;
        }
      }
      LeastIsUnique(left, least, Least(left));
      list := list + [least];
      left := left - {least};
    }
    SortedKeeps(s);
  }
}
