/**
 * Sort keys and sorting. A sort key is a sequence of extended integers compared
 * lexicographically, as an ORDER BY list compares its expressions one after another.
 * `Bottom` and `Top` give absent (NULL) values a place below or above every number.
 */
module Ordering {

  datatype Ext = Bottom | Fin(v: int) | Top

  /** Strict order on extended integers: Bottom < every Fin < Top. */
  predicate ExtLt(a: Ext, b: Ext) {
    match a
    case Bottom => !b.Bottom?
    case Fin(x) => (b.Fin? && x < b.v) || b.Top?
    case Top => false
  }

  /** Lexicographic order on keys; a proper prefix comes first. */
  predicate LexLeq(a: seq<Ext>, b: seq<Ext>)
    decreases |a|
  {
    |a| == 0 || (|b| > 0 && (ExtLt(a[0], b[0]) || (a[0] == b[0] && LexLeq(a[1..], b[1..]))))
  }

  /** One step of the lexicographic comparison. */
  lemma LexLeqStep(a: seq<Ext>, b: seq<Ext>)
    requires |a| > 0 && |b| > 0
    ensures LexLeq(a, b) <==> ExtLt(a[0], b[0]) || (a[0] == b[0] && LexLeq(a[1..], b[1..]))
  {
  }

  lemma {:induction false} LexLeqReflexive(a: seq<Ext>)
    ensures LexLeq(a, a)
    decreases |a|
  {
    if |a| > 0 {
      LexLeqReflexive(a[1..]);
    }
  }

  lemma {:induction false} LexLeqTotal(a: seq<Ext>, b: seq<Ext>)
    ensures LexLeq(a, b) || LexLeq(b, a)
    decreases |a|
  {
    if |a| > 0 && |b| > 0 && a[0] == b[0] {
      LexLeqTotal(a[1..], b[1..]);
    }
  }

  lemma {:induction false} LexLeqTransitive(a: seq<Ext>, b: seq<Ext>, c: seq<Ext>)
    requires LexLeq(a, b) && LexLeq(b, c)
    ensures LexLeq(a, c)
    decreases |a|
  {
    if |a| > 0 && a[0] == b[0] && b[0] == c[0] {
      LexLeqTransitive(a[1..], b[1..], c[1..]);
    }
  }

  /** Adjacent elements are in key order. */
  predicate SortedBy<T>(s: seq<T>, key: T -> seq<Ext>) {
    forall i :: 0 < i < |s| ==> LexLeq(key(s[i - 1]), key(s[i]))
  }

  /** Inserts `x` before the first element whose key is not below `x`'s. */
  function Insert<T>(x: T, s: seq<T>, key: T -> seq<Ext>): seq<T> {
    if |s| == 0 || LexLeq(key(x), key(s[0])) then [x] + s else [s[0]] + Insert(x, s[1..], key)
  }

  /** Insertion sort by key. */
  function SortBy<T>(s: seq<T>, key: T -> seq<Ext>): seq<T> {
    if |s| == 0 then [] else Insert(s[0], SortBy(s[1..], key), key)
  }

  lemma {:induction false} InsertCorrect<T>(x: T, s: seq<T>, key: T -> seq<Ext>)
    requires SortedBy(s, key)
    ensures SortedBy(Insert(x, s, key), key)
    ensures multiset(Insert(x, s, key)) == multiset(s) + multiset{x}
    ensures |Insert(x, s, key)| == |s| + 1
    ensures Insert(x, s, key)[0] == x || (|s| > 0 && Insert(x, s, key)[0] == s[0])
  {
    if |s| == 0 || LexLeq(key(x), key(s[0])) {
    } else {
      var rest := Insert(x, s[1..], key);
      assert SortedBy(s[1..], key) by {
        forall i | 0 < i < |s[1..]| ensures LexLeq(key(s[1..][i - 1]), key(s[1..][i])) {
          assert s[1..][i - 1] == s[i] && s[1..][i] == s[i + 1];
        }
      }
      InsertCorrect(x, s[1..], key);
      LexLeqTotal(key(x), key(s[0]));
      assert LexLeq(key(s[0]), key(rest[0]));
      var out := [s[0]] + rest;
      forall i | 0 < i < |out| ensures LexLeq(key(out[i - 1]), key(out[i])) {
        if i > 1 {
          assert out[i - 1] == rest[i - 2] && out[i] == rest[i - 1];
        }
      }
      assert s == [s[0]] + s[1..];
    }
  }

  lemma {:induction false} SortByCorrect<T>(s: seq<T>, key: T -> seq<Ext>)
    ensures SortedBy(SortBy(s, key), key)
    ensures multiset(SortBy(s, key)) == multiset(s)
    ensures |SortBy(s, key)| == |s|
  {
    if |s| > 0 {
      var rest := SortBy(s[1..], key);
      assert SortBy(s, key) == Insert(s[0], rest, key);
      SortByCorrect(s[1..], key);
      InsertCorrect(s[0], rest, key);
      assert s == [s[0]] + s[1..];
      assert multiset(s) == multiset{s[0]} + multiset(s[1..]);
    }
  }

  /** Adjacent order extends to every pair, by transitivity. */
  lemma {:induction false} SortedAllPairs<T>(s: seq<T>, key: T -> seq<Ext>)
    requires SortedBy(s, key)
    ensures forall i, j :: 0 <= i < j < |s| ==> LexLeq(key(s[i]), key(s[j]))
  {
    forall i, j | 0 <= i < j < |s| ensures LexLeq(key(s[i]), key(s[j])) {
      SortedPair(s, key, i, j);
    }
  }

  lemma {:induction false} SortedPair<T>(s: seq<T>, key: T -> seq<Ext>, i: nat, j: nat)
    requires SortedBy(s, key)
    requires i <= j < |s|
    ensures LexLeq(key(s[i]), key(s[j]))
    decreases j - i
  {
    if i == j {
      LexLeqReflexive(key(s[i]));
    } else {
      SortedPair(s, key, i, j - 1);
      LexLeqTransitive(key(s[i]), key(s[j - 1]), key(s[j]));
    }
  }
}
