/** The order of code unit strings, and sorting by it. */
module Order {
  type Text = seq<int>

  /** Unit by unit; a proper prefix comes first. */
  predicate Less(a: Text, b: Text)
    decreases |a|
  {
    if b == [] then false
    else if a == [] then true
    else a[0] < b[0] || (a[0] == b[0] && Less(a[1..], b[1..]))
  }

  lemma {:induction false} Irreflexive(a: Text)
    ensures !Less(a, a)
  {
    if a != [] {
      Irreflexive(a[1..]);
    }
  }

  lemma {:induction false} Transitive(a: Text, b: Text, c: Text)
    requires Less(a, b) && Less(b, c)
    ensures Less(a, c)
  {
    if a != [] && a[0] == b[0] == c[0] {
      Transitive(a[1..], b[1..], c[1..]);
    }
  }

  lemma {:induction false} Total(a: Text, b: Text)
    requires a != b
    ensures Less(a, b) || Less(b, a)
  {
    if a != [] && b != [] && a[0] == b[0] {
      assert a == [a[0]] + a[1..];
      assert b == [b[0]] + b[1..];
      Total(a[1..], b[1..]);
    }
  }

  lemma Asymmetric(a: Text, b: Text)
    requires Less(a, b)
    ensures !Less(b, a)
  {
    if Less(b, a) {
      Transitive(a, b, a);
      Irreflexive(a);
    }
  }

  /** Strictly increasing, so without repetition. */
  ghost predicate Increasing(s: seq<Text>) {
    forall i, j :: 0 <= i < j < |s| ==> Less(s[i], s[j])
  }

  /** An increasing sequence is determined by its elements. */
  lemma {:induction false} IncreasingIsUnique(s: seq<Text>, t: seq<Text>)
    requires Increasing(s) && Increasing(t) && forall x :: x in s <==> x in t
    ensures s == t
    decreases |s|
  {
    hide Less;
    assert |t| > 0 ==> t[0] in s;
    if s != [] {
      assert s[0] in t;
      FirstIsLeast(s, t[0]);
      FirstIsLeast(t, s[0]);
      if s[0] != t[0] {
        Asymmetric(s[0], t[0]);
      }
      forall x ensures x in s[1..] <==> x in t[1..] {
        RestExcludesFirst(s, x);
        RestExcludesFirst(t, x);
      }
      IncreasingIsUnique(s[1..], t[1..]);
      assert s == [s[0]] + s[1..] && t == [t[0]] + t[1..];
    }
  }

  lemma FirstIsLeast(s: seq<Text>, x: Text)
    requires Increasing(s) && x in s
    ensures x == s[0] || Less(s[0], x)
  {
    var i :| 0 <= i < |s| && s[i] == x;
  }

  lemma RestExcludesFirst(s: seq<Text>, x: Text)
    requires Increasing(s) && s != []
    ensures x in s[1..] <==> x in s && x != s[0]
  {
    hide Less;
    if x in s[1..] {
      var i :| 0 <= i < |s[1..]| && s[1..][i] == x;
      assert s[i + 1] == x;
      Irreflexive(x);
    }
  }

  function Insert(x: Text, sorted: seq<Text>): (r: seq<Text>)
    ensures forall y :: y in r <==> y == x || y in sorted
  {
    if sorted == [] || Less(x, sorted[0]) then [x] + sorted
    else [sorted[0]] + Insert(x, sorted[1..])
  }

  lemma {:induction false} InsertIncreases(x: Text, sorted: seq<Text>)
    requires Increasing(sorted) && x !in sorted
    ensures Increasing(Insert(x, sorted))
  {
    hide Less;
    if sorted != [] {
      if Less(x, sorted[0]) {
        forall y | y in sorted ensures Less(x, y) {
          FirstIsLeast(sorted, y);
          if y != sorted[0] { Transitive(x, sorted[0], y); }
        }
      } else {
        Total(x, sorted[0]);
        var rest := Insert(x, sorted[1..]);
        InsertIncreases(x, sorted[1..]);
        forall y | y in rest ensures Less(sorted[0], y) {
          assert y == x || y in sorted[1..];
        }
      }
    }
  }

  function Sort(s: seq<Text>): (r: seq<Text>)
    ensures forall y :: y in r <==> y in s
  {
    if s == [] then [] else Insert(s[0], Sort(s[1..]))
  }

  ghost predicate Distinct(s: seq<Text>) {
    forall i, j :: 0 <= i < j < |s| ==> s[i] != s[j]
  }

  lemma {:induction false} SortIncreases(s: seq<Text>)
    requires Distinct(s)
    ensures Increasing(Sort(s))
  {
    if s != [] {
      SortIncreases(s[1..]);
      InsertIncreases(s[0], Sort(s[1..]));
    }
  }
}
