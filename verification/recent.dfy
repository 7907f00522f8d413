/**
 * The "most recent first" lists of the history and stats views: the last
 * few entries of a record list, newest first, or a placeholder line when
 * the list is empty.
 */
module Recent {

  /** `reversed(s)` */
  function Reverse<T>(s: seq<T>): (r: seq<T>)
    ensures |r| == |s|
    ensures forall i :: 0 <= i < |s| ==> r[i] == s[|s| - 1 - i]
  {
    if s == [] then [] else Reverse(s[1..]) + [s[0]]
  }

  /** `reversed(xs[-n:])` for a positive `n`: at most `n` entries, the newest first. */
  function LastNewestFirst<T>(xs: seq<T>, n: nat): (r: seq<T>)
    requires n >= 1
    ensures |r| == (if |xs| < n then |xs| else n)
    ensures forall i :: 0 <= i < |r| ==> r[i] == xs[|xs| - 1 - i]
  {
    var k := if |xs| < n then |xs| else n;
    Reverse(xs[|xs| - k..])
  }

  /** Recording a new entry puts it at the top and pushes the others down by one, dropping the oldest shown when the list is full. */
  lemma NewestOnTop<T>(xs: seq<T>, x: T, n: nat)
    requires n >= 1
    ensures var shown := LastNewestFirst(xs, n);
      LastNewestFirst(xs + [x], n) == [x] + (if |shown| == n then shown[..n - 1] else shown)
  {
    var shown := LastNewestFirst(xs, n);
    var after := LastNewestFirst(xs + [x], n);
    var expected := [x] + (if |shown| == n then shown[..n - 1] else shown);
    assert |after| == |expected|;
    forall i | 0 <= i < |after|
      ensures after[i] == expected[i]
    {
      if i > 0 {
        assert after[i] == (xs + [x])[|xs| - i] == xs[|xs| - 1 - (i - 1)];
      }
    }
  }

  /** A list view: a placeholder line for an empty list, else the rows shown. */
  datatype ListView<T> = Placeholder(text: string) | Rows(rows: seq<T>)

  /** `v` shows the placeholder for no records, else the last `n` of `xs`, newest first. */
  ghost predicate ShowsLast<T>(v: ListView<T>, xs: seq<T>, n: nat, placeholder: string)
  {
    if xs == [] then v == Placeholder(placeholder)
    else
      v.Rows? && |v.rows| == (if |xs| < n then |xs| else n) &&
      forall i :: 0 <= i < |v.rows| ==> v.rows[i] == xs[|xs| - 1 - i]
  }

  /** An `_update_*_list` method: the placeholder when there are no records, else the last `n`, newest first. */
  function Shown<T>(xs: seq<T>, n: nat, placeholder: string): (v: ListView<T>)
    requires n >= 1
    ensures ShowsLast(v, xs, n, placeholder)
    ensures v.Rows? ==> v.rows[0] == xs[|xs| - 1]
  {
    if xs == [] then Placeholder(placeholder) else Rows(LastNewestFirst(xs, n))
  }
}
