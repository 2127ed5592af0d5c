/** Strings in byte order, the order in which query encoding writes its keys. */
module KeyOrder {
  import opened Sorting

  predicate Lex(a: string, b: string) {
    b != "" && (a == "" || a[0] < b[0] || (a[0] == b[0] && Lex(a[1..], b[1..])))
  }

  lemma {:induction false} LexTotal(a: string, b: string)
    ensures Lex(a, b) || Lex(b, a) || a == b
    ensures !(Lex(a, b) && Lex(b, a)) && !Lex(a, a)
  {
    if a != "" {
      LexTotal(a[1..], a[1..]);
    }
    if a != "" && b != "" && a[0] == b[0] {
      LexTotal(a[1..], b[1..]);
      assert a == [a[0]] + a[1..] && b == [b[0]] + b[1..];
    }
  }

  lemma {:induction false} LexTransitive(a: string, b: string, c: string)
    requires Lex(a, b) && Lex(b, c)
    ensures Lex(a, c)
  {
    if a != "" && a[0] == b[0] == c[0] {
      LexTransitive(a[1..], b[1..], c[1..]);
    }
  }

  lemma {:induction false} LexLonger(a: string, b: string)
    requires b != ""
    ensures Lex(a, a + b)
  {
    if a == "" {
      assert a + b == b;
    } else {
      assert (a + b)[1..] == a[1..] + b;
      LexLonger(a[1..], b);
    }
  }

  lemma LexIsWeakOrder()
    ensures WeakOrder(Lex)
  {
    hide Lex;
    forall a, b ensures !(Lex(a, b) && Lex(b, a)) {
      LexTotal(a, b);
    }
    forall a, b, c | !Lex(b, a) && !Lex(c, b) ensures !Lex(c, a) {
      LexTotal(a, b);
      LexTotal(b, c);
      LexTotal(a, c);
      if Lex(a, b) && Lex(b, c) {
        LexTransitive(a, b, c);
      }
    }
  }

  ghost predicate Strict(keys: seq<string>) {
    forall i, j :: 0 <= i < j < |keys| ==> Lex(keys[i], keys[j])
  }

  /** A set of keys in byte order. */
  method SortKeys(keys: set<string>) returns (s: seq<string>)
    ensures Strict(s) && forall k :: k in s <==> k in keys
  {
    hide Lex;
    s := [];
    var left := keys;
    while left != {}
      invariant left <= keys && multiset(s) == multiset(keys - left)
      decreases left
    {
      var k :| k in left;
      OneMoreKey(s, keys - left, k);
      left := left - {k};
      assert keys - left == keys - (left + {k}) + {k};
      s := s + [k];
    }
    assert keys - left == keys;
    LexIsWeakOrder();
    s := Sort(s, Lex);
    SortedStrict(s, keys);
  }

  lemma OneMoreKey(s: seq<string>, done: set<string>, k: string)
    requires multiset(s) == multiset(done) && k !in done
    ensures multiset(s + [k]) == multiset(done + {k})
  {
  }

  lemma SortedStrict(s: seq<string>, keys: set<string>)
    requires SortedBy(s, Lex) && multiset(s) == multiset(keys)
    ensures Strict(s) && forall k :: k in s <==> k in keys
  {
    hide Lex;
    assert forall k :: k in s <==> k in multiset(s);
    forall i, j | 0 <= i < j < |s| ensures Lex(s[i], s[j]) {
      LexTotal(s[i], s[j]);
      if s[i] == s[j] {
        Twice(s, i, j);
      }
    }
  }

  lemma Twice(s: seq<string>, i: nat, j: nat)
    requires i < j < |s| && s[i] == s[j]
    ensures multiset(s)[s[i]] >= 2
  {
    assert s == s[..j] + s[j..] && s[..j][i] == s[i] && s[j..][0] == s[i];
    assert multiset(s) == multiset(s[..j]) + multiset(s[j..]);
    assert s[i] in multiset(s[..j]) && s[i] in multiset(s[j..]);
  }
}
