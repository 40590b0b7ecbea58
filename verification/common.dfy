/**
 * Helpers shared by the two race engines and the betting ledger: visiting
 * lanes in ascending order, contiguous lane numbers, summing the values of a
 * map, and the few string operations the source relies on (lower-casing,
 * substring search, decimal rendering of a lane number).
 */
module Common {

  // ---------------------------------------------------------------------
  // Lanes

  /** The two random values drawn for one horse in one tick, in the order the
      race draws them: first the one that decides whether the horse moves,
      then the one that decides whether it falls. */
  datatype Draw = Draw(move: real, fall: real)

  /** A horse's place on the track, the part of its state a tick changes. */
  datatype Position = Position(distance: nat, fallen: bool)

  /** Every non-empty set of lane numbers has a lowest lane. */
  lemma {:induction false} LowestLaneExists(s: set<int>)
    requires s != {}
    ensures exists l :: l in s && forall k :: k in s ==> l <= k
  {
    if forall y :: y !in s {
      assert false;
    }
    var x :| x in s;
    if s != {x} {
      LowestLaneExists(s - {x});
      var m :| m in s - {x} && forall k :: k in s - {x} ==> m <= k;
      var low := if x < m then x else m;
      forall k | k in s
        ensures low <= k
      {
        if k != x {
          assert k in s - {x};
        }
      }
    } else {
      assert forall k :: k in s ==> x <= k;
    }
  }

  /** The next lane a HashMap with small integer keys visits: the lowest one. */
  method LowestLane(s: set<int>) returns (l: int)
    requires s != {}
    ensures l in s
    ensures forall k :: k in s ==> l <= k
  {
    LowestLaneExists(s);
    l :| l in s && forall k :: k in s ==> l <= k;
  }

  // ---------------------------------------------------------------------
  // Sums over the values of a map

  /** The sum of the values of a map, in no particular order. */
  ghost function Total<K>(m: map<K, real>): real
    decreases |m|
  {
    if |m| == 0 then 0.0 else var k :| k in m; m[k] + Total(m - {k})
  }

  /** The sum does not depend on which key is taken out first. */
  lemma {:induction false} TotalRemove<K>(m: map<K, real>, k: K)
    requires k in m
    ensures Total(m) == m[k] + Total(m - {k})
    decreases |m|, 1
  {
    assert |m| != 0;
    var j :| j in m && Total(m) == m[j] + Total(m - {j});
    if j != k {
      TotalSwap(m, j, k);
    }
  }

  lemma {:induction false} TotalSwap<K>(m: map<K, real>, j: K, k: K)
    requires j in m && k in m && j != k
    ensures m[j] + Total(m - {j}) == m[k] + Total(m - {k})
    decreases |m|, 0
  {
    var mj, mk := m - {j}, m - {k};
    assert |mj| < |m| && |mk| < |m|;
    assert mj - {k} == mk - {j};
    TotalRemove(mj, k);
    TotalRemove(mk, j);
  }

  /** Storing v under k changes the sum by v minus what k held before. */
  lemma TotalUpdate<K>(m: map<K, real>, k: K, v: real)
    ensures Total(m[k := v]) == Total(m) - (if k in m then m[k] else 0.0) + v
  {
    TotalRemove(m[k := v], k);
    assert m[k := v] - {k} == m - {k};
    if k in m {
      TotalRemove(m, k);
    } else {
      assert m - {k} == m;
    }
  }

  lemma {:induction false} TotalNonNegative<K>(m: map<K, real>)
    requires forall j :: j in m ==> m[j] >= 0.0
    ensures Total(m) >= 0.0
    decreases |m|
  {
    if |m| != 0 {
      var k :| k in m;
      TotalRemove(m, k);
      TotalNonNegative(m - {k});
    }
  }

  // ---------------------------------------------------------------------
  // Strings (ASCII only: Java's locale-dependent case mapping is not modelled)

  function LowerChar(c: char): (r: char)
    ensures 'A' <= c <= 'Z' ==> r as int == c as int + 32
    ensures !('A' <= c <= 'Z') ==> r == c
  {
    if 'A' <= c <= 'Z' then (c as int + 32) as char else c
  }

  function Lower(s: string): (r: string)
    ensures |r| == |s|
    ensures forall i :: 0 <= i < |s| ==> r[i] == LowerChar(s[i])
  {
    seq(|s|, i requires 0 <= i < |s| => LowerChar(s[i]))
  }

  /** A quotient by a positive number lies between two bounds whose
      multiples enclose the dividend. */
  lemma QuotientBounds(a: real, b: real, lo: real, hi: real)
    requires b > 0.0 && lo * b <= a <= hi * b
    ensures lo <= a / b <= hi
  {
    var q := a / b;
    assert q * b == a;
    assert (q - lo) * b >= 0.0 && (hi - q) * b >= 0.0;
  }

  lemma MulPositive(x: real, y: real)
    requires x > 0.0 && y > 0.0
    ensures x * y > 0.0
  {
  }

  /** Lower-casing twice is lower-casing once. */
  lemma LowerIdempotent(s: string)
    ensures Lower(Lower(s)) == Lower(s)
  {
    assert forall i :: 0 <= i < |s| ==> LowerChar(LowerChar(s[i])) == LowerChar(s[i]);
  }

  /** Whether sub occurs in s starting at position i. */
  ghost predicate OccursAt(s: string, sub: string, i: int)
  {
    0 <= i <= |s| - |sub| && s[i..i + |sub|] == sub
  }

  /** Whether sub occurs in s at some position. */
  ghost predicate Occurs(s: string, sub: string)
  {
    exists i :: OccursAt(s, sub, i)
  }

  /** Whether sub occurs in s (Java's String.contains), by a left-to-right scan. */
  predicate Contains(s: string, sub: string)
    decreases |s|
  {
    if |sub| > |s| then false
    else if s[..|sub|] == sub then true
    else Contains(s[1..], sub)
  }

  /** The scan finds an occurrence exactly when there is one. */
  lemma {:induction false} ContainsOccurs(s: string, sub: string)
    ensures Contains(s, sub) <==> exists i :: OccursAt(s, sub, i)
    decreases |s|
  {
    if |sub| > |s| {
    } else if s[..|sub|] == sub {
      assert OccursAt(s, sub, 0);
    } else {
      ContainsOccurs(s[1..], sub);
      forall i | OccursAt(s, sub, i)
        ensures OccursAt(s[1..], sub, i - 1)
      {
        assert i != 0;
        assert s[1..][i - 1..i - 1 + |sub|] == s[i..i + |sub|];
      }
      forall i | OccursAt(s[1..], sub, i)
        ensures OccursAt(s, sub, i + 1)
      {
        assert s[1..][i..i + |sub|] == s[i + 1..i + 1 + |sub|];
      }
    }
  }

  /** Decimal rendering of a non-negative number, as string concatenation in
      Java renders an int. */
  function Decimal(n: nat): (r: string)
    ensures |r| >= 1
    ensures forall i :: 0 <= i < |r| ==> '0' <= r[i] <= '9'
    decreases n
  {
    var d := ((n % 10) + '0' as int) as char;
    if n < 10 then [d] else Decimal(n / 10) + [d]
  }

  /** The number a string of decimal digits denotes. */
  function DigitsValue(s: string): nat
    requires forall i :: 0 <= i < |s| ==> '0' <= s[i] <= '9'
  {
    if s == [] then 0 else DigitsValue(s[..|s| - 1]) * 10 + (s[|s| - 1] as int - '0' as int)
  }

  /** Reading the rendering back gives the number. */
  lemma {:induction false} DecimalRoundTrip(n: nat)
    ensures DigitsValue(Decimal(n)) == n
    decreases n
  {
    if n >= 10 {
      DecimalRoundTrip(n / 10);
      var r := Decimal(n);
      assert r[..|r| - 1] == Decimal(n / 10);
    }
  }
}
