/**
 * The `back_to_enum!` macro (messages/src/back_to_enum.rs): it declares a
 * C-like enumeration and generates a `TryFrom<i32>` whose `match` tries one
 * guard arm per variant, in declaration order, and falls back to `Err(())`.
 *
 * An enumeration is given by its variant lines; a variant is identified by
 * its name `N`.
 */
module BackToEnum {
  import opened Wrappers

  /** One line `Name = value,` or `Name,` of the macro's input. */
  datatype Variant<N> = Variant(name: N, explicit: Option<int>)

  /**
   * The discriminant Rust gives each variant: its explicit value, or one more
   * than the previous variant's, or 0 for a first variant without a value.
   */
  function Resolve<N>(decls: seq<Variant<N>>): (table: seq<(N, int)>)
    ensures |table| == |decls|
    ensures forall i :: 0 <= i < |decls| ==> table[i].0 == decls[i].name
    ensures forall i :: 0 <= i < |decls| && decls[i].explicit.Some? ==>
              table[i].1 == decls[i].explicit.value
    ensures forall i :: 0 < i < |decls| && decls[i].explicit.None? ==>
              table[i].1 == table[i - 1].1 + 1
    ensures |decls| > 0 && decls[0].explicit.None? ==> table[0].1 == 0
  {
    if |decls| == 0 then []
    else
      var prefix := Resolve(decls[..|decls| - 1]);
      var last := decls[|decls| - 1];
      var value :=
        if last.explicit.Some? then last.explicit.value
        else if |prefix| == 0 then 0
        else prefix[|prefix| - 1].1 + 1;
      prefix + [(last.name, value)]
  }

  /** No two variants share a discriminant (Rust rejects an enumeration otherwise). */
  predicate Distinct<N>(table: seq<(N, int)>) {
    forall i, j :: 0 <= i < j < |table| ==> table[i].1 != table[j].1
  }

  /**
   * The generated `try_from(v)`: the first variant, in declaration order,
   * whose discriminant equals `v`; `Err(())` when there is none.
   */
  function TryFrom<N>(table: seq<(N, int)>, v: int): (r: Result<N, ()>)
    ensures r.Ok? ==> exists i :: 0 <= i < |table| && table[i] == (r.value, v)
                        && forall j :: 0 <= j < i ==> table[j].1 != v
    ensures r.Err? <==> forall i :: 0 <= i < |table| ==> table[i].1 != v
  {
    if |table| == 0 then Err(())
    else if table[0].1 == v then Ok(table[0].0)
    else
      var r := TryFrom(table[1..], v);
      assert r.Ok? ==> exists i :: 1 <= i < |table| && table[i] == (r.value, v)
                         && forall j :: 0 <= j < i ==> table[j].1 != v by {
        if r.Ok? {
          var k :| 0 <= k < |table[1..]| && table[1..][k] == (r.value, v)
                   && forall j :: 0 <= j < k ==> table[1..][j].1 != v;
          assert table[k + 1] == (r.value, v);
          forall j | 0 <= j < k + 1 ensures table[j].1 != v {
            if j > 0 { assert table[j] == table[1..][j - 1]; }
          }
        }
      }
      r
  }

  /** Round trip: converting a variant's own discriminant gives that variant back. */
  lemma {:induction false} TryFromDiscriminant<N>(table: seq<(N, int)>, i: nat)
    requires Distinct(table)
    requires i < |table|
    ensures TryFrom(table, table[i].1) == Ok(table[i].0)
  {
    if i > 0 {
      assert table[0].1 != table[i].1;
      assert Distinct(table[1..]) by {
        forall a, b | 0 <= a < b < |table[1..]| ensures table[1..][a].1 != table[1..][b].1 {
          assert table[1..][a] == table[a + 1] && table[1..][b] == table[b + 1];
        }
      }
      TryFromDiscriminant(table[1..], i - 1);
    }
  }

  /** A variant found in one table is found, with the same value, in any table holding the same pairs. */
  lemma FoundInBoth<N>(t1: seq<(N, int)>, t2: seq<(N, int)>, v: int)
    requires Distinct(t2)
    requires forall p :: p in t1 <==> p in t2
    requires TryFrom(t1, v).Ok?
    ensures TryFrom(t2, v) == TryFrom(t1, v)
  {
    var r1 := TryFrom(t1, v);
    var i :| 0 <= i < |t1| && t1[i] == (r1.value, v);
    assert t1[i] in t2;
    var k :| 0 <= k < |t2| && t2[k] == t1[i];
    TryFromDiscriminant(t2, k);
  }

  /**
   * With distinct discriminants the result does not depend on the order of
   * the variants: two tables holding the same (variant, value) pairs agree.
   */
  lemma OrderIndependent<N>(t1: seq<(N, int)>, t2: seq<(N, int)>, v: int)
    requires Distinct(t1) && Distinct(t2)
    requires forall p :: p in t1 <==> p in t2
    ensures TryFrom(t1, v) == TryFrom(t2, v)
  {
    if TryFrom(t1, v).Ok? {
      FoundInBoth(t1, t2, v);
    } else if TryFrom(t2, v).Ok? {
      FoundInBoth(t2, t1, v);
    } else {
      var e1, e2 := TryFrom(t1, v).error, TryFrom(t2, v).error;
      assert e1 == () == e2;
    }
  }
}
