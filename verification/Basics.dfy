/** Text, optional values and results shared by every module. Machine integers are mathematical
    integers here; each module says where a width matters. */
module Basics {

  const U64_MAX: int := 0xFFFF_FFFF_FFFF_FFFF

  /** Nanoseconds since the Unix epoch. */
  type Time = int

  datatype Option<+T> = None | Some(value: T)

  datatype Result<+T, +E> = Ok(value: T) | Err(error: E)

  predicate NulFree(text: string) {
    '\0' !in text
  }

  /** `std::to_string` of an unsigned number. */
  function Decimal(n: nat): (digits: string)
    ensures 1 <= |digits| && NulFree(digits)
  {
    if n < 10 then [('0' as int + n) as char] else Decimal(n / 10) + [('0' as int + n % 10) as char]
  }

  /** The number that digits stand for. */
  function NumberIn(digits: string): int {
    if digits == "" then 0
    else 10 * NumberIn(digits[..|digits| - 1]) + (digits[|digits| - 1] as int - '0' as int)
  }

  /** `digits` is the shortest way to write `n`. */
  predicate Numeral(digits: string, n: int) {
    && digits != "" && (forall i :: 0 <= i < |digits| ==> '0' <= digits[i] <= '9') && NumberIn(digits) == n
    && (|digits| > 1 ==> digits[0] != '0')
  }

  lemma {:induction false} DecimalReads(n: nat)
    ensures Numeral(Decimal(n), n)
  {
    if n >= 10 {
      DecimalReads(n / 10);
      assert Decimal(n)[..|Decimal(n)| - 1] == Decimal(n / 10);
      assert n / 10 >= 1;
    }
  }

  function Pow10(k: nat): nat {
    if k == 0 then 1 else 10 * Pow10(k - 1)
  }

  /** A number below ten to the `k` prints in at most `k` digits. */
  lemma {:induction false} DecimalLength(n: nat, k: nat)
    requires 1 <= k && n < Pow10(k)
    ensures |Decimal(n)| <= k
  {
    if n >= 10 {
      DecimalLength(n / 10, k - 1);
    }
  }

  /** Lexicographic order, the order of `std::string` keys. */
  predicate TextLess(a: string, b: string) {
    if b == [] then false
    else if a == [] then true
    else a[0] < b[0] || (a[0] == b[0] && TextLess(a[1..], b[1..]))
  }

  lemma {:induction false} TextLessTotal(a: string, b: string)
    ensures a == b || TextLess(a, b) || TextLess(b, a)
    ensures !(TextLess(a, b) && TextLess(b, a))
  {
    if a != [] && b != [] {
      assert a == [a[0]] + a[1..] && b == [b[0]] + b[1..];
      TextLessTotal(a[1..], b[1..]);
    }
  }

  lemma {:induction false} TextLessTransitive(a: string, b: string, c: string)
    requires TextLess(a, b) && TextLess(b, c)
    ensures TextLess(a, c)
  {
    if a != [] && a[0] == b[0] == c[0] {
      TextLessTransitive(a[1..], b[1..], c[1..]);
    }
  }

  lemma Pick<T>(s: set<T>) returns (x: T)
    requires s != {}
    ensures x in s
  {
    x :| x in s;
  }

  lemma {:induction false} LeastExists(ids: set<int>) returns (m: int)
    requires ids != {}
    ensures m in ids && forall k :: k in ids ==> m <= k
  {
    m := Pick(ids);
    if ids != {m} {
      var rest := ids - {m};
      var least := LeastExists(rest);
      forall k | k in ids ensures k == m || least <= k {
        assert k == m || k in rest;
      }
      m := if least < m then least else m;
    }
  }

  function Least(ids: set<int>): (m: int)
    requires ids != {}
    ensures m in ids && forall k :: k in ids ==> m <= k
  {
    assert exists m :: m in ids && forall k :: k in ids ==> m <= k by {
      var m := LeastExists(ids);
    }
    var m :| m in ids && forall k :: k in ids ==> m <= k;
    m
  }

  /** The keys of a `std::map` in iteration order. */
  function InOrder(ids: set<int>): (order: seq<int>)
    ensures |order| == |ids|
    ensures forall k :: k in order <==> k in ids
    ensures forall i, j :: 0 <= i < j < |order| ==> order[i] < order[j]
  {
    if ids == {} then []
    else
      var m := Least(ids);
      var rest := InOrder(ids - {m});
      assert forall i :: 0 <= i < |rest| ==> rest[i] in rest;
      assert forall i :: 0 <= i < |rest| ==> m < rest[i];
      [m] + rest
  }

  predicate IsFirstText(m: string, texts: set<string>) {
    m in texts && forall t :: t in texts ==> t == m || TextLess(m, t)
  }

  lemma {:induction false} FirstTextExists(texts: set<string>) returns (m: string)
    requires texts != {}
    ensures IsFirstText(m, texts)
  {
    m := Pick(texts);
    if texts != {m} {
      var rest := texts - {m};
      var first := FirstTextExists(rest);
      TextLessTotal(m, first);
      assert forall t :: t in texts ==> t == m || t in rest;
      if TextLess(m, first) {
        forall t | t in rest ensures TextLess(m, t) {
          if t != first {
            TextLessTransitive(m, first, t);
          }
        }
      } else {
        m := first;
      }
    }
  }

  lemma FirstTextUnique(texts: set<string>, a: string, b: string)
    requires IsFirstText(a, texts) && IsFirstText(b, texts)
    ensures a == b
  {
    TextLessTotal(a, b);
  }

  function FirstText(texts: set<string>): (m: string)
    requires texts != {}
    ensures IsFirstText(m, texts)
  {
    assert exists m :: IsFirstText(m, texts) by {
      var m := FirstTextExists(texts);
    }
    assert forall a, b :: IsFirstText(a, texts) && IsFirstText(b, texts) ==> a == b by {
      forall a, b | IsFirstText(a, texts) && IsFirstText(b, texts) ensures a == b {
        FirstTextUnique(texts, a, b);
      }
    }
    var m :| IsFirstText(m, texts);
    m
  }
}
