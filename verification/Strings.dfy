// Lexical order on strings, and the two standard-library orderings the
// repository relies on: sort.Strings and sets.List.
module Strings {

  // Byte-wise lexical order, as used by sort.Strings and sets.List.
  predicate Less(a: string, b: string) {
    b != "" && (a == "" || a[0] < b[0] || (a[0] == b[0] && Less(a[1..], b[1..])))
  }

  ghost predicate StrictlySorted(s: seq<string>) {
    forall i, j :: 0 <= i < j < |s| ==> Less(s[i], s[j])
  }

  predicate Distinct(s: seq<string>) {
    forall i, j :: 0 <= i < j < |s| ==> s[i] != s[j]
  }

  function Elements(s: seq<string>): set<string> {
    set x | x in s
  }

  lemma {:induction false} LessTotal(a: string, b: string)
    ensures Less(a, b) || Less(b, a) || a == b
    ensures !(Less(a, b) && Less(b, a))
    ensures !Less(a, a)
    decreases |a|
  {
    if a != "" {
      LessTotal(a[1..], a[1..]);
      if b != "" {
        LessTotal(a[1..], b[1..]);
        assert a == [a[0]] + a[1..] && b == [b[0]] + b[1..];
      }
    }
  }

  // At the first place where the strings differ the smaller character decides; a proper prefix comes first.
  lemma {:induction false} LessAt(a: string, b: string, k: nat)
    requires k <= |a| && k <= |b| && a[..k] == b[..k]
    requires k < |a| && k < |b| ==> a[k] != b[k]
    ensures Less(a, b) <==> k < |b| && (k == |a| || a[k] < b[k])
  {
    if k > 0 {
      assert a[0] == a[..k][0] == b[..k][0] == b[0];
      assert a[1..][..k - 1] == a[..k][1..] && b[1..][..k - 1] == b[..k][1..];
      LessAt(a[1..], b[1..], k - 1);
    }
  }

  lemma {:induction false} LessTransitive(a: string, b: string, c: string)
    requires Less(a, b) && Less(b, c)
    ensures Less(a, c)
    decreases |a|
  {
    if a != "" && a[0] == b[0] == c[0] {
      LessTransitive(a[1..], b[1..], c[1..]);
    }
  }

  // Inserts x in order; a value already present is kept once.
  function Insert(x: string, s: seq<string>): (r: seq<string>) {
    if s == [] || Less(x, s[0]) then [x] + s
    else if x == s[0] then s
    else [s[0]] + Insert(x, s[1..])
  }

  // The distinct values of s in increasing order.
  function SortedSet(s: seq<string>): (r: seq<string>) {
    if s == [] then [] else Insert(s[0], SortedSet(s[1..]))
  }

  lemma {:induction false} InsertSorted(x: string, s: seq<string>)
    requires StrictlySorted(s)
    ensures StrictlySorted(Insert(x, s))
    ensures Elements(Insert(x, s)) == Elements(s) + {x}
  {
    if s == [] {
    } else if Less(x, s[0]) {
      forall j | 0 < j < |s| ensures Less(x, s[j]) {
        LessTransitive(x, s[0], s[j]);
      }
      assert Elements([x] + s) == Elements(s) + {x};
    } else if x == s[0] {
      assert x in s;
    } else {
      LessTotal(x, s[0]);
      InsertSorted(x, s[1..]);
      var t := Insert(x, s[1..]);
      forall j | 0 <= j < |t| ensures Less(s[0], t[j]) {
        assert t[j] in Elements(t);
        if t[j] != x {
          var k :| 0 <= k < |s[1..]| && s[1..][k] == t[j];
          assert s[1 + k] == t[j];
        }
      }
      assert s == [s[0]] + s[1..];
      assert Elements(s) == Elements(s[1..]) + {s[0]};
      assert Elements([s[0]] + t) == Elements(t) + {s[0]};
    }
  }

  lemma {:induction false} SortedSetCorrect(s: seq<string>)
    ensures StrictlySorted(SortedSet(s))
    ensures Elements(SortedSet(s)) == Elements(s)
  {
    if s != [] {
      SortedSetCorrect(s[1..]);
      InsertSorted(s[0], SortedSet(s[1..]));
      assert s == [s[0]] + s[1..];
      assert Elements(s) == Elements(s[1..]) + {s[0]};
    }
  }

  lemma FirstIsLeast(s: seq<string>, x: string)
    requires StrictlySorted(s) && x in Elements(s)
    ensures |s| > 0 && s[0] in Elements(s)
    ensures x == s[0] || (Less(s[0], x) && x in Elements(s[1..]))
  {
    var k :| 0 <= k < |s| && s[k] == x;
    if k > 0 { assert s[1..][k - 1] == x; }
  }

  // The values after the first are exactly the other values.
  lemma RestElements(s: seq<string>)
    requires StrictlySorted(s) && s != []
    ensures StrictlySorted(s[1..])
    ensures Elements(s[1..]) == Elements(s) - {s[0]}
  {
    forall x | x in Elements(s[1..]) ensures x in Elements(s) && x != s[0] {
      var k :| 0 <= k < |s[1..]| && s[1..][k] == x;
      assert x == s[k + 1] && Less(s[0], s[k + 1]);
      LessTotal(x, x);
    }
    forall x | x in Elements(s) && x != s[0] ensures x in Elements(s[1..]) {
      FirstIsLeast(s, x);
    }
  }

  // A set has exactly one strictly increasing listing.
  lemma {:induction false} SortedUnique(a: seq<string>, b: seq<string>)
    requires StrictlySorted(a) && StrictlySorted(b)
    requires Elements(a) == Elements(b)
    ensures a == b
  {
    if a != [] && b != [] {
      FirstIsLeast(a, a[0]);
      FirstIsLeast(b, b[0]);
      FirstIsLeast(a, b[0]);
      FirstIsLeast(b, a[0]);
      LessTotal(a[0], b[0]);
      RestElements(a);
      RestElements(b);
      SortedUnique(a[1..], b[1..]);
      assert a == [a[0]] + a[1..] && b == [b[0]] + b[1..];
    } else {
      assert forall s: seq<string> :: s != [] ==> s[0] in Elements(s);
    }
  }

  // sets.List: a set's values in increasing order, drawn in any order.
  method SetList(s: set<string>) returns (l: seq<string>)
    ensures StrictlySorted(l) && Elements(l) == s
  {
    l := [];
    var rest := s;
    while rest != {}
      invariant rest <= s && StrictlySorted(l) && Elements(l) == s - rest
      decreases rest
    {
      var x :| x in rest;
      InsertSorted(x, l);
      l := Insert(x, l);
      rest := rest - {x};
    }
  }
}
