/**
 * The list update performed by the checkbox handler of the vendor form
 * (src/components/vendor-form.tsx, `handleCheckboxChange`): checking a
 * service appends its title to the selection, unchecking it filters every
 * occurrence of the title out. Nothing prevents a title from being appended
 * twice.
 */
module Selection {

  /** Number of occurrences of `t` in `s`. */
  function Count(s: seq<string>, t: string): nat
  {
    multiset(s)[t]
  }

  /** `[...prev, title]`: the selection after the box of `title` is checked. */
  function Checked(prev: seq<string>, title: string): (r: seq<string>)
    ensures |r| == |prev| + 1
    ensures r[..|prev|] == prev && r[|prev|] == title
    ensures Count(r, title) == Count(prev, title) + 1
  {
    prev + [title]
  }

  /** `prev.filter(s => s !== title)`: the selection after the box of `title` is unchecked. */
  function Unchecked(prev: seq<string>, title: string): (r: seq<string>)
    ensures title !in r
    ensures forall x :: x in r <==> x in prev && x != title
    ensures |r| == |prev| - Count(prev, title)
  {
    if prev == [] then []
    else
      assert prev == [prev[0]] + prev[1..];
      var rest := Unchecked(prev[1..], title);
      if prev[0] == title then rest else [prev[0]] + rest
  }

  /** The handler's ternary: check or uncheck according to `checked`. */
  function Toggled(prev: seq<string>, title: string, checked: bool): (r: seq<string>)
    ensures title in r <==> checked
    ensures forall x :: x != title ==> (x in r <==> x in prev)
  {
    if checked then Checked(prev, title) else Unchecked(prev, title)
  }

  /**
   * Unchecking is a filter: it distributes over concatenation and keeps a
   * single entry exactly when it differs from the title. Together these
   * two facts say that every other entry keeps its place relative to the
   * others.
   */
  lemma {:induction false} UncheckedConcat(a: seq<string>, b: seq<string>, title: string)
    ensures Unchecked(a + b, title) == Unchecked(a, title) + Unchecked(b, title)
  {
    if a == [] {
      assert a + b == b;
    } else {
      assert (a + b)[0] == a[0];
      assert (a + b)[1..] == a[1..] + b;
      UncheckedConcat(a[1..], b, title);
    }
  }

  lemma UncheckedSingleton(x: string, title: string)
    ensures Unchecked([x], title) == if x == title then [] else [x]
  {
    assert [x][1..] == [];
  }

  /** Unchecking removes every occurrence of the title and no occurrence of any other entry. */
  lemma {:induction false} UncheckedCounts(prev: seq<string>, title: string, x: string)
    ensures Count(Unchecked(prev, title), x) == if x == title then 0 else Count(prev, x)
  {
    if prev != [] {
      assert prev == [prev[0]] + prev[1..];
      UncheckedCounts(prev[1..], title, x);
    }
  }

  /** Unchecking a title that is not selected leaves the selection as it was. */
  lemma {:induction false} UncheckedAbsent(prev: seq<string>, title: string)
    requires title !in prev
    ensures Unchecked(prev, title) == prev
  {
    if prev != [] {
      assert prev == [prev[0]] + prev[1..];
      UncheckedAbsent(prev[1..], title);
    }
  }

  /** Unchecking is idempotent. */
  lemma UncheckedTwice(prev: seq<string>, title: string)
    ensures Unchecked(Unchecked(prev, title), title) == Unchecked(prev, title)
  {
    UncheckedAbsent(Unchecked(prev, title), title);
  }

  /** Unchecking right after checking the same title undoes the check, and removes older copies too. */
  lemma CheckThenUncheck(prev: seq<string>, title: string)
    ensures Unchecked(Checked(prev, title), title) == Unchecked(prev, title)
  {
    UncheckedConcat(prev, [title], title);
    UncheckedSingleton(title, title);
  }

  /** Checking a title twice puts it in the selection twice; one uncheck removes both copies. */
  lemma CheckTwiceDuplicates(prev: seq<string>, title: string)
    ensures Count(Checked(Checked(prev, title), title), title) == Count(prev, title) + 2
    ensures title !in Unchecked(Checked(Checked(prev, title), title), title)
  {
  }

  /**
   * Checking `a`, then `b`, then unchecking `a` leaves the earlier selection
   * without `a`, followed by `b`; from an empty selection that is exactly `[b]`.
   */
  lemma CheckCheckUncheck(prev: seq<string>, a: string, b: string)
    requires a != b
    ensures Toggled(Toggled(Toggled(prev, a, true), b, true), a, false) == Unchecked(prev, a) + [b]
    ensures prev == [] ==> Toggled(Toggled(Toggled(prev, a, true), b, true), a, false) == [b]
  {
    var once := Checked(prev, a);
    var twice := Checked(once, b);
    assert twice == (prev + [a]) + [b];
    UncheckedConcat(prev + [a], [b], a);
    UncheckedConcat(prev, [a], a);
    UncheckedSingleton(a, a);
    UncheckedSingleton(b, a);
    assert Unchecked(prev + [a], a) == Unchecked(prev, a);
  }
}
