/** The comparator `applySorting` passes to the array sort: one named property, one direction. */
module Comparator {
  import opened Jobs

  /** JavaScript's `<` on two strings: lexicographic order of their characters. */
  predicate StrLess(a: string, b: string)
    decreases |a|
  {
    if |a| == 0 then |b| > 0
    else |b| > 0 && (a[0] < b[0] || (a[0] == b[0] && StrLess(a[1..], b[1..])))
  }

  lemma {:induction false} StrLessIrreflexive(a: string)
    ensures !StrLess(a, a)
    decreases |a|
  {
    if |a| > 0 {
      StrLessIrreflexive(a[1..]);
    }
  }

  lemma {:induction false} StrLessAsymmetric(a: string, b: string)
    ensures !(StrLess(a, b) && StrLess(b, a))
    decreases |a|
  {
    if |a| > 0 && |b| > 0 && a[0] == b[0] {
      StrLessAsymmetric(a[1..], b[1..]);
    }
  }

  lemma {:induction false} StrLessTransitive(a: string, b: string, c: string)
    requires StrLess(a, b) && StrLess(b, c)
    ensures StrLess(a, c)
    decreases |a|
  {
    if |a| > 0 && a[0] == b[0] && b[0] == c[0] {
      StrLessTransitive(a[1..], b[1..], c[1..]);
    }
  }

  /** Two different strings are always ordered one way or the other. */
  lemma {:induction false} StrLessTotal(a: string, b: string)
    ensures a == b || StrLess(a, b) || StrLess(b, a)
    decreases |a|
  {
    if |a| > 0 && |b| > 0 && a[0] == b[0] {
      StrLessTotal(a[1..], b[1..]);
      if a[1..] == b[1..] {
        assert a == [a[0]] + a[1..] && b == [b[0]] + b[1..];
      }
    }
  }

  /** `(x > y) - (x < y)`: the sign of the comparison of two strings. */
  function Sign(x: string, y: string): (r: int)
    ensures -1 <= r <= 1
    ensures r < 0 <==> StrLess(x, y)
    ensures r > 0 <==> StrLess(y, x)
    ensures r == 0 <==> x == y
  {
    StrLessTotal(x, y);
    StrLessAsymmetric(x, y);
    StrLessIrreflexive(x);
    (if StrLess(y, x) then 1 else 0) - (if StrLess(x, y) then 1 else 0)
  }

  /** The value a job is sorted by: `a[sortedBy]` when it is truthy, otherwise `''`. */
  function SortValue(j: Job, field: string): (v: string)
    ensures v == "" <==> !Truthy(Get(j, field))
    ensures v != "" ==> Get(j, field) == Some(Str(v))
  {
    if Truthy(Get(j, field)) then Get(j, field).value.s else ""
  }

  /** The comparator: ascending on the sort values when `direction` is `'asc'`, descending for any
      other direction. */
  function Compare(field: string, direction: string, a: Job, b: Job): (r: int)
    ensures -1 <= r <= 1
    ensures r == 0 <==> SortValue(a, field) == SortValue(b, field)
    ensures direction == "asc" ==> (r < 0 <==> StrLess(SortValue(a, field), SortValue(b, field)))
    ensures direction != "asc" ==> (r < 0 <==> StrLess(SortValue(b, field), SortValue(a, field)))
  {
    var x := SortValue(a, field);
    var y := SortValue(b, field);
    if direction == "asc" then Sign(x, y) else Sign(y, x)
  }

  /** Swapping the operands negates the result. */
  lemma CompareAntisymmetric(field: string, direction: string, a: Job, b: Job)
    ensures Compare(field, direction, a, b) == -Compare(field, direction, b, a)
  {
    StrLessAsymmetric(SortValue(a, field), SortValue(b, field));
  }

  /** Every direction other than `'asc'` is the ascending order reversed. */
  lemma CompareOtherDirectionReverses(field: string, direction: string, a: Job, b: Job)
    requires direction != "asc"
    ensures Compare(field, direction, a, b) == Compare(field, "asc", b, a)
    ensures Compare(field, direction, a, b) == -Compare(field, "asc", a, b)
  {
    StrLessAsymmetric(SortValue(a, field), SortValue(b, field));
  }

  /** Jobs whose property is missing, `null` or `''` compare equal to each other. */
  lemma CompareFalsyAsEmpty(field: string, direction: string, a: Job, b: Job)
    requires !Truthy(Get(a, field)) && !Truthy(Get(b, field))
    ensures Compare(field, direction, a, b) == 0
  {
  }

  /** "Not after" is a total preorder: every pair is ordered one way or the other, and it is transitive. */
  lemma CompareTotal(field: string, direction: string, a: Job, b: Job)
    ensures Compare(field, direction, a, b) <= 0 || Compare(field, direction, b, a) <= 0
  {
    CompareAntisymmetric(field, direction, a, b);
  }

  lemma CompareTransitive(field: string, direction: string, a: Job, b: Job, c: Job)
    requires Compare(field, direction, a, b) <= 0 && Compare(field, direction, b, c) <= 0
    ensures Compare(field, direction, a, c) <= 0
  {
    var x, y, z := SortValue(a, field), SortValue(b, field), SortValue(c, field);
    if direction == "asc" {
      if StrLess(x, y) && StrLess(y, z) {
        StrLessTransitive(x, y, z);
      }
    } else {
      if StrLess(z, y) && StrLess(y, x) {
        StrLessTransitive(z, y, x);
      }
    }
  }
}
