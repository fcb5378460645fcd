/**
 * Rule tables: an ordered list of items, each guarded by a condition on the
 * options. The generator's nested `if`s push items in one fixed order; a table
 * lists that order once, with the condition under which each item is pushed.
 */
module RuleTables {
  import opened ProjectOptions

  datatype Entry<T> = Entry(item: T, when: Cond)

  ghost predicate Distinct<T>(s: seq<T>) {
    forall i, j :: 0 <= i < j < |s| ==> s[i] != s[j]
  }

  /** The items of a table, in order, whatever their conditions. */
  function Items<T>(t: seq<Entry<T>>): (r: seq<T>)
    ensures |r| == |t| && forall i :: 0 <= i < |t| ==> r[i] == t[i].item
  {
    seq(|t|, i requires 0 <= i < |t| => t[i].item)
  }

  ghost predicate DistinctItems<T>(t: seq<Entry<T>>) {
    Distinct(Items(t))
  }

  /** What one row contributes: its item when its condition holds, nothing otherwise. */
  function Fire<T>(o: Options, e: Entry<T>): seq<T> {
    if Holds(o, e.when) then [e.item] else []
  }

  /** The items whose condition holds, in table order. */
  function Select<T>(o: Options, t: seq<Entry<T>>): (r: seq<T>)
    ensures |r| <= |t|
  {
    if |t| == 0 then [] else Select(o, t[..|t| - 1]) + Fire(o, t[|t| - 1])
  }

  /** An item is selected iff some row carrying it fires. */
  lemma {:induction false} SelectMember<T>(o: Options, t: seq<Entry<T>>, x: T)
    ensures x in Select(o, t) <==> exists i :: 0 <= i < |t| && t[i].item == x && Holds(o, t[i].when)
  {
    if |t| > 0 {
      var init := t[..|t| - 1];
      SelectMember(o, init, x);
      if x in Select(o, init) {
        var i :| 0 <= i < |init| && init[i].item == x && Holds(o, init[i].when);
        assert t[i] == init[i];
      }
      if exists i :: 0 <= i < |t| && t[i].item == x && Holds(o, t[i].when) {
        var i :| 0 <= i < |t| && t[i].item == x && Holds(o, t[i].when);
        if i < |init| {
          assert init[i] == t[i];
        }
      }
    }
  }

  /** With distinct items, row `i`'s item is selected exactly when row `i` fires. */
  lemma SelectedAt<T>(o: Options, t: seq<Entry<T>>, i: nat)
    requires DistinctItems(t)
    requires i < |t|
    ensures t[i].item in Select(o, t) <==> Holds(o, t[i].when)
  {
    SelectMember(o, t, t[i].item);
  }

  /** A five-row table selects each row's item in turn. */
  lemma SelectFive<T>(o: Options, a: Entry<T>, b: Entry<T>, c: Entry<T>, d: Entry<T>, e: Entry<T>)
    ensures Select(o, [a, b, c, d, e]) == Fire(o, a) + Fire(o, b) + Fire(o, c) + Fire(o, d) + Fire(o, e)
  {
    assert [a, b, c, d, e][..4] == [a, b, c, d] && [a, b, c, d][..3] == [a, b, c];
    assert [a, b, c][..2] == [a, b] && [a, b][..1] == [a] && [a][..0] == [];
    assert Select(o, [a, b]) == Fire(o, a) + Fire(o, b);
    assert Select(o, [a, b, c]) == Fire(o, a) + Fire(o, b) + Fire(o, c);
    assert Select(o, [a, b, c, d]) == Fire(o, a) + Fire(o, b) + Fire(o, c) + Fire(o, d);
  }

  /** Distinct rows select distinct items. */
  lemma {:induction false} SelectDistinct<T>(o: Options, t: seq<Entry<T>>)
    requires DistinctItems(t)
    ensures Distinct(Select(o, t))
  {
    if |t| > 0 {
      var init := t[..|t| - 1];
      var last := t[|t| - 1];
      SelectDistinct(o, init);
      SelectMember(o, init, last.item);
    }
  }

  /** Selecting from two tables one after the other is selecting from their concatenation. */
  lemma {:induction false} SelectAppend<T>(o: Options, a: seq<Entry<T>>, b: seq<Entry<T>>)
    ensures Select(o, a + b) == Select(o, a) + Select(o, b)
    decreases |b|
  {
    if |b| > 0 {
      var ab := a + b;
      assert ab[..|ab| - 1] == a + b[..|b| - 1];
      SelectAppend(o, a, b[..|b| - 1]);
    } else {
      assert a + b == a;
    }
  }

  /** Rows that all carry the same condition. */
  function Rows<T>(c: Cond, items: seq<T>): (r: seq<Entry<T>>)
    ensures |r| == |items|
    ensures forall i :: 0 <= i < |items| ==> r[i] == Entry(items[i], c)
  {
    seq(|items|, i requires 0 <= i < |items| => Entry(items[i], c))
  }

  /**
   * The rows of a block `if (f) { push(outer...); if (g) { push(inner...); } }`:
   * the outer items on `f`, the inner ones on `f` and `g` together.
   */
  function Nested<T>(f: Flag, g: Flag, outer: seq<T>, inner: seq<T>): seq<Entry<T>> {
    Rows(When(f), outer) + Rows(WhenBoth(f, g), inner)
  }

  /** Rows sharing one condition select all their items or none. */
  lemma {:induction false} SelectRows<T>(o: Options, c: Cond, items: seq<T>)
    ensures Select(o, Rows(c, items)) == if Holds(o, c) then items else []
    decreases |items|
  {
    if |items| > 0 {
      var n := |items| - 1;
      var rows := Rows(c, items);
      assert rows[..n] == Rows(c, items[..n]);
      SelectRows(o, c, items[..n]);
      assert rows[n] == Entry(items[n], c);
      assert Select(o, rows) == Select(o, rows[..n]) + Fire(o, rows[n]);
      if Holds(o, c) {
        assert items[..n] + [items[n]] == items;
      } else {
        assert Select(o, rows) == [] + [];
      }
    }
  }

  /** A flat `if (f) { push(items...); }` appends the selection of its rows. */
  lemma FlatPush<T>(o: Options, f: Flag, items: seq<T>, before: seq<T>, after: seq<T>)
    requires after == if IsOn(o, f) then before + items else before
    ensures after == before + Select(o, Rows(When(f), items))
  {
    SelectRows(o, When(f), items);
  }

  /** A nested block selects its outer items when `f` holds, followed by its inner ones when `g` holds too. */
  lemma NestedSelect<T>(o: Options, f: Flag, g: Flag, outer: seq<T>, inner: seq<T>)
    ensures Select(o, Nested(f, g, outer, inner))
         == if IsOn(o, f) then outer + (if IsOn(o, g) then inner else []) else []
  {
    SelectAppend(o, Rows(When(f), outer), Rows(WhenBoth(f, g), inner));
    SelectRows(o, When(f), outer);
    SelectRows(o, WhenBoth(f, g), inner);
    if IsOn(o, f) && !IsOn(o, g) {
      assert outer + [] == outer;
    }
  }

  /** A nested block appends the selection of its rows. */
  lemma NestedPush<T>(o: Options, f: Flag, g: Flag, outer: seq<T>, inner: seq<T>, before: seq<T>, after: seq<T>)
    requires after == if IsOn(o, f) then (if IsOn(o, g) then before + outer + inner else before + outer) else before
    ensures after == before + Select(o, Nested(f, g, outer, inner))
  {
    NestedSelect(o, f, g, outer, inner);
    var s := Select(o, Nested(f, g, outer, inner));
    if !IsOn(o, f) {
      assert s == [];
      assert after == before + s;
    } else if IsOn(o, g) {
      assert s == outer + inner;
      assert before + outer + inner == before + (outer + inner);
    } else {
      assert s == outer + [];
      assert outer + [] == outer;
    }
  }

  /** `if (f) { push(items...); }` */
  method PushWhen<T>(o: Options, f: Flag, items: seq<T>, before: seq<T>) returns (after: seq<T>)
    ensures after == before + Select(o, Rows(When(f), items))
  {
    after := before;
    if IsOn(o, f) {
      after := after + items;
    }
    FlatPush(o, f, items, before, after);
  }

  /** `if (f) { push(outer...); if (g) { push(inner...); } }` */
  method PushNested<T>(o: Options, f: Flag, g: Flag, outer: seq<T>, inner: seq<T>, before: seq<T>) returns (after: seq<T>)
    ensures after == before + Select(o, Nested(f, g, outer, inner))
  {
    after := before;
    if IsOn(o, f) {
      after := after + outer;
      if IsOn(o, g) {
        after := after + inner;
      }
    }
    NestedPush(o, f, g, outer, inner, before, after);
  }
}
