// Small vocabulary shared by every module.
module Common {
  datatype Option<+T> = None | Some(value: T)

  datatype Result<+T> = Ok(value: T) | Err

  // Sequences used as lists of distinct things: block ids, sequence ids, dictionary keys.
  ghost predicate NoDup<T>(s: seq<T>) {
    forall i, j :: 0 <= i < j < |s| ==> s[i] != s[j]
  }

  ghost predicate Disjoint<T>(s: seq<T>, t: seq<T>) {
    forall x :: x in s ==> x !in t
  }

  lemma NoDupConcat<T>(s: seq<T>, t: seq<T>)
    ensures NoDup(s + t) <==> NoDup(s) && NoDup(t) && Disjoint(s, t)
  {
    var st := s + t;
    if NoDup(st) {
      forall i, j | 0 <= i < j < |s| ensures s[i] != s[j] { assert st[i] != st[j]; }
      forall i, j | 0 <= i < j < |t| ensures t[i] != t[j] { assert st[|s| + i] != st[|s| + j]; }
      forall x | x in s ensures x !in t {
        var i :| 0 <= i < |s| && s[i] == x;
        forall j | 0 <= j < |t| ensures t[j] != x { assert st[i] != st[|s| + j]; }
      }
    }
    if NoDup(s) && NoDup(t) && Disjoint(s, t) {
      forall i, j | 0 <= i < j < |st| ensures st[i] != st[j] {
        if i < |s| <= j { assert s[i] in s && t[j - |s|] in t; }
      }
    }
  }

  // A duplicate-free list of everything below n has exactly n elements.
  lemma {:induction false} PigeonHole(s: seq<nat>, n: nat)
    requires NoDup(s)
    requires forall b: nat :: b in s <==> b < n
    ensures |s| == n
  {
    if n == 0 {
      assert forall i :: 0 <= i < |s| ==> s[i] in s;
    } else {
      var last: nat := n - 1;
      assert last in s;
      var i :| 0 <= i < |s| && s[i] == last;
      var rest := s[..i] + s[i + 1..];
      assert forall j :: 0 <= j < |rest| ==> rest[j] == if j < i then s[j] else s[j + 1];
      forall b: nat ensures b in rest <==> b < n - 1 {
        if b in s && b != n - 1 {
          var j :| 0 <= j < |s| && s[j] == b;
          assert rest[if j < i then j else j - 1] == b;
        }
        if b in rest { var j :| 0 <= j < |rest| && rest[j] == b; }
      }
      PigeonHole(rest, n - 1);
    }
  }
}
