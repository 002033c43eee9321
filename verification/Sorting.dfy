/** The order of Go's sort.Strings, and the one list in that order of a set of texts. */
module Sorting {

  predicate Less(a: string, b: string) {
    if b == "" then false
    else if a == "" then true
    else a[0] < b[0] || (a[0] == b[0] && Less(a[1..], b[1..]))
  }

  lemma {:induction false} LessOrders(a: string, b: string)
    ensures Less(a, b) ==> a != b && !Less(b, a)
    ensures a == b || Less(a, b) || Less(b, a)
    decreases |a|
  {
    if a != "" && b != "" {
      LessOrders(a[1..], b[1..]);
      assert a == [a[0]] + a[1..] && b == [b[0]] + b[1..];
    }
  }

  lemma {:induction false} LessTransitive(a: string, b: string, c: string)
    requires Less(a, b) && Less(b, c)
    ensures Less(a, c)
    decreases |a|
  {
    if a != "" && a[0] == b[0] == c[0] {
      LessTransitive(a[1..], b[1..], c[1..]);
    }
  }

  /** At the first difference, the smaller character or the end comes first. */
  lemma {:induction false} LessExactly(a: string, b: string)
    ensures Less(a, b) <==> exists k: nat :: DiffersAt(a, b, k)
    decreases |a|
  {
    if Less(a, b) {
      if a == "" || a[0] < b[0] {
        assert DiffersAt(a, b, 0);
      } else {
        LessExactly(a[1..], b[1..]);
        var k: nat :| DiffersAt(a[1..], b[1..], k);
        assert a[..k + 1] == [a[0]] + a[1..][..k] && b[..k + 1] == [b[0]] + b[1..][..k];
        assert DiffersAt(a, b, k + 1);
      }
    }
    if k: nat :| DiffersAt(a, b, k) {
      if k > 0 {
        assert a[0] == a[..k][0] && b[0] == b[..k][0];
        assert a[1..][..k - 1] == a[..k][1..] && b[1..][..k - 1] == b[..k][1..];
        assert DiffersAt(a[1..], b[1..], k - 1);
        LessExactly(a[1..], b[1..]);
      }
    }
  }

  /** The texts agree on k characters, and then a ends or goes on with a smaller one. */
  ghost predicate DiffersAt(a: string, b: string, k: nat) {
    && k <= |a| && k < |b| && a[..k] == b[..k]
    && (k == |a| || a[k] < b[k])
  }

  ghost predicate Ascending(keys: seq<string>) {
    forall i, j | 0 <= i < j < |keys| :: Less(keys[i], keys[j])
  }

  ghost predicate Lists(keys: seq<string>, s: set<string>) {
    Ascending(keys) && forall k :: k in keys <==> k in s
  }

  function Insert(key: string, keys: seq<string>): seq<string> {
    if keys == [] then [key]
    else if Less(keys[0], key) then [keys[0]] + Insert(key, keys[1..])
    else [key] + keys
  }

  /** sort.Strings */
  function SortStrings(keys: seq<string>): seq<string> {
    if keys == [] then [] else Insert(keys[0], SortStrings(keys[1..]))
  }

  lemma {:induction false} InsertKeepsOrder(key: string, keys: seq<string>)
    requires Ascending(keys) && key !in keys
    ensures Ascending(Insert(key, keys))
    ensures forall k :: k in Insert(key, keys) <==> k == key || k in keys
  {
    if keys == [] {
    } else {
      assert forall k :: k in keys <==> k == keys[0] || k in keys[1..];
      if Less(keys[0], key) {
        InsertKeepsOrder(key, keys[1..]);
        var rest := Insert(key, keys[1..]);
        forall i | 0 <= i < |rest| ensures Less(keys[0], rest[i]) {
          assert rest[i] in rest;
        }
      } else {
        LessOrders(key, keys[0]);
        forall j | 0 <= j < |keys| ensures Less(key, keys[j]) {
          if j > 0 {
            LessTransitive(key, keys[0], keys[j]);
          }
        }
      }
    }
  }

  /** Sorting distinct keys lists them in ascending order. */
  lemma {:induction false} SortLists(keys: seq<string>, s: set<string>)
    requires forall i, j | 0 <= i < j < |keys| :: keys[i] != keys[j]
    requires forall k :: k in keys <==> k in s
    ensures Lists(SortStrings(keys), s)
  {
    if keys == [] {
    } else {
      SortLists(keys[1..], s - {keys[0]});
      InsertKeepsOrder(keys[0], SortStrings(keys[1..]));
    }
  }

  /** There is one such list only: the order in which a map is iterated does not matter once its keys are sorted. */
  lemma {:induction false} ListedOnce(a: seq<string>, b: seq<string>, s: set<string>)
    requires Lists(a, s) && Lists(b, s)
    ensures a == b
    decreases |a|
  {
    assert b != [] ==> b[0] in b;
    if a == [] {
    } else {
      assert a[0] in a;
      assert a[0] in b;
      assert b[0] in a;
      LessOrders(a[0], b[0]);
      assert a[0] == b[0];
      forall k ensures k in a[1..] <==> k in s - {a[0]} {
        LessOrders(a[0], a[0]);
        assert k in a <==> k == a[0] || k in a[1..];
      }
      forall k ensures k in b[1..] <==> k in s - {a[0]} {
        LessOrders(a[0], a[0]);
        assert k in b <==> k == b[0] || k in b[1..];
      }
      ListedOnce(a[1..], b[1..], s - {a[0]});
      assert a == [a[0]] + a[1..] && b == [b[0]] + b[1..];
    }
  }

  lemma {:induction false} ListExists(s: set<string>) returns (keys: seq<string>)
    ensures Lists(keys, s)
  {
    if s == {} {
      keys := [];
    } else {
      var k :| k in s;
      var rest := ListExists(s - {k});
      InsertKeepsOrder(k, rest);
      keys := Insert(k, rest);
    }
  }

  ghost predicate HasList(s: set<string>) {
    exists keys :: Lists(keys, s)
  }

  /** The keys in ascending order. */
  ghost function SortedKeys(s: set<string>): (keys: seq<string>)
    ensures Lists(keys, s)
  {
    assert HasList(s) by {
      var keys := ListExists(s);
      assert Lists(keys, s);
    }
    var keys :| Lists(keys, s);
    keys
  }
}
