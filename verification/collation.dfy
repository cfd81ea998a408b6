/** SQLite's default BINARY collation on text: comparison character by character, a proper
    prefix sorting first. It is the order of `ORDER BY timestamp` on the stored ISO-8601
    strings. */
module Collation {

  /** `a` sorts strictly before `b`. */
  predicate Below(a: string, b: string)
  {
    if |a| == 0 then |b| > 0
    else if |b| == 0 then false
    else if a[0] == b[0] then Below(a[1..], b[1..])
    else a[0] < b[0]
  }

  lemma {:induction false} Irreflexive(a: string)
    ensures !Below(a, a)
  {
    if |a| > 0 {
      Irreflexive(a[1..]);
    }
  }

  lemma {:induction false} Asymmetric(a: string, b: string)
    ensures !(Below(a, b) && Below(b, a))
  {
    if |a| > 0 && |b| > 0 && a[0] == b[0] {
      Asymmetric(a[1..], b[1..]);
    }
  }

  lemma {:induction false} Transitive(a: string, b: string, c: string)
    requires Below(a, b) && Below(b, c)
    ensures Below(a, c)
  {
    if |a| > 0 && a[0] == b[0] && b[0] == c[0] {
      Transitive(a[1..], b[1..], c[1..]);
    }
  }

  /** Two different strings are always ordered one way or the other. */
  lemma {:induction false} Total(a: string, b: string)
    requires a != b
    ensures Below(a, b) || Below(b, a)
  {
    if |a| > 0 && |b| > 0 && a[0] == b[0] {
      assert a == [a[0]] + a[1..] && b == [b[0]] + b[1..];
      Total(a[1..], b[1..]);
    }
  }

  /** Every non-empty finite set of strings has a first element. */
  lemma {:induction false} HasFirst(s: set<string>)
    requires s != {}
    ensures exists m :: m in s && forall u :: u in s ==> !Below(u, m)
  {
    var x :| x in s;
    var rest := s - {x};
    if rest == {} {
      assert s == {x};
      Irreflexive(x);
    } else {
      HasFirst(rest);
      var m :| m in rest && forall u :: u in rest ==> !Below(u, m);
      if Below(x, m) {
        forall u | u in s
          ensures !Below(u, x)
        {
          if u == x {
            Irreflexive(x);
          } else if Below(u, x) {
            Transitive(u, x, m);
          }
        }
      } else {
        assert forall u :: u in s ==> !Below(u, m);
      }
    }
  }
}
