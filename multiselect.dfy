/** The multi-select lists of the forms: a checkbox either appends its
    option (`[...list, opt]`) or removes every occurrence of it
    (`list.filter(v => v !== opt)`). The class form and the volunteer form
    follow the checkbox's new state (components/admin/class-form.tsx:82-87,
    components/volunteer-form.tsx:75-80); the intake form's `toggle`
    looks at the list instead (app/intake/page.tsx:115-116). */
module MultiSelect {

  /** `xs.filter(v => v !== x)`. */
  function Without(xs: seq<string>, x: string): (r: seq<string>)
    ensures x !in r
    ensures forall y :: y != x ==> (y in r <==> y in xs)
    ensures |r| <= |xs|
  {
    if xs == [] then []
    else if xs[0] == x then Without(xs[1..], x)
    else [xs[0]] + Without(xs[1..], x)
  }

  /** `a` is `b` with some elements left out, the rest in the same order. */
  predicate IsSubsequence(a: seq<string>, b: seq<string>)
    decreases |b|
  {
    if a == [] then true
    else if b == [] then false
    else (a[0] == b[0] && IsSubsequence(a[1..], b[1..])) || IsSubsequence(a, b[1..])
  }

  /** Removing an option keeps every other element, the same number of
      times, in the same relative order. */
  lemma {:induction false} WithoutKeepsOthers(xs: seq<string>, x: string)
    ensures multiset(Without(xs, x)) == multiset(xs)[x := 0]
    ensures IsSubsequence(Without(xs, x), xs)
  {
    if xs != [] {
      WithoutKeepsOthers(xs[1..], x);
      assert xs == [xs[0]] + xs[1..];
      assert multiset(xs) == multiset{xs[0]} + multiset(xs[1..]);
      var r := Without(xs, x);
      if xs[0] != x {
        assert r[1..] == Without(xs[1..], x);
      } else {
        SubsequenceSkip(r, xs);
      }
    }
  }

  lemma {:induction false} SubsequenceSkip(a: seq<string>, b: seq<string>)
    requires b != [] && IsSubsequence(a, b[1..])
    ensures IsSubsequence(a, b)
  {
  }

  /** Removing an option that is not there changes nothing. */
  lemma {:induction false} WithoutAbsent(xs: seq<string>, x: string)
    requires x !in xs
    ensures Without(xs, x) == xs
  {
    if xs != [] {
      WithoutAbsent(xs[1..], x);
      assert xs == [xs[0]] + xs[1..];
    }
  }

  /** Removing after appending the same option is removing it alone. */
  lemma {:induction false} WithoutAppend(xs: seq<string>, x: string)
    ensures Without(xs + [x], x) == Without(xs, x)
  {
    if xs == [] {
      assert [] + [x] == [x];
      assert [x][1..] == [];
    } else {
      assert (xs + [x])[1..] == xs[1..] + [x];
      WithoutAppend(xs[1..], x);
    }
  }

  /** The checkbox handler: checked appends, unchecked removes every
      occurrence. */
  function CheckedChange(xs: seq<string>, x: string, checked: bool): (r: seq<string>)
    ensures checked ==> r == xs + [x]
    ensures !checked ==> x !in r && forall y :: y != x ==> (y in r <==> y in xs)
  {
    if checked then xs + [x] else Without(xs, x)
  }

  /** The intake form's `toggle`: removes every occurrence of a present
      option, appends an absent one. */
  function Toggle(xs: seq<string>, x: string): (r: seq<string>)
    ensures x in r <==> x !in xs
    ensures forall y :: y != x ==> (y in r <==> y in xs)
  {
    if x in xs then Without(xs, x) else xs + [x]
  }

  /** Toggling an absent option twice gives back the original list. */
  lemma {:induction false} ToggleTwice(xs: seq<string>, x: string)
    requires x !in xs
    ensures Toggle(Toggle(xs, x), x) == xs
  {
    WithoutAppend(xs, x);
    WithoutAbsent(xs, x);
  }

  /** The other selected options keep their relative order through a
      toggle, whichever way it goes. */
  lemma {:induction false} ToggleKeepsOrder(xs: seq<string>, x: string)
    ensures IsSubsequence(Without(Toggle(xs, x), x), xs)
  {
    if x in xs {
      WithoutKeepsOthers(xs, x);
      WithoutAbsent(Without(xs, x), x);
    } else {
      WithoutAppend(xs, x);
      WithoutAbsent(xs, x);
      SubsequenceRefl(xs);
    }
  }

  lemma {:induction false} SubsequenceRefl(xs: seq<string>)
    ensures IsSubsequence(xs, xs)
  {
    if xs != [] {
      SubsequenceRefl(xs[1..]);
    }
  }
}
