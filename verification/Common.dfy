/** Definitions shared by the models of the server's in-memory stores. */
module Common {

  datatype Option<+T> = None | Some(value: T)

  /** The error values the stores distinguish, whatever text they wrap. */
  datatype Error = NotFound | Conflict | InvalidState | InvalidStatus | InvalidInput

  datatype Result<+T> = Ok(value: T) | Err(error: Error)

  // ------------------------------------------------------------ first match

  /** Index of the first element of `xs` that satisfies `p`. */
  function FirstIndex<T>(xs: seq<T>, p: T -> bool): (r: Option<nat>)
    ensures r.Some? ==> r.value < |xs| && p(xs[r.value]) && forall j | 0 <= j < r.value :: !p(xs[j])
    ensures r.None? ==> forall j | 0 <= j < |xs| :: !p(xs[j])
  {
    if xs == [] then None
    else
      var k := |xs| - 1;
      match FirstIndex(xs[..k], p)
      case Some(i) => Some(i)
      case None => if p(xs[k]) then Some(k) else None
  }

  /** The scan that every store method starts with. */
  method Scan<T>(xs: seq<T>, p: T -> bool) returns (r: Option<nat>)
    ensures r == FirstIndex(xs, p)
  {
    r := None;
    for index := 0 to |xs|
      invariant r.None? && forall j | 0 <= j < index :: !p(xs[j])
    {
      if p(xs[index]) {
        return Some(index);
      }
    }
  }

  /** The only match is the first one. */
  lemma FirstIsOnly<T>(xs: seq<T>, p: T -> bool, i: nat)
    requires i < |xs| && p(xs[i])
    requires forall j | 0 <= j < |xs| && p(xs[j]) :: j == i
    ensures FirstIndex(xs, p) == Some(i)
  {
    var r := FirstIndex(xs, p);
    assert r.Some?;
  }

  /** Index of the last element of `xs` that satisfies `p`: what a lookup table filled in order keeps. */
  function LastIndex<T>(xs: seq<T>, p: T -> bool): (r: Option<nat>)
    ensures r.Some? ==> r.value < |xs| && p(xs[r.value]) && forall j | r.value < j < |xs| :: !p(xs[j])
    ensures r.None? ==> forall j | 0 <= j < |xs| :: !p(xs[j])
  {
    if xs == [] then None
    else if p(xs[|xs| - 1]) then Some(|xs| - 1)
    else LastIndex(xs[..|xs| - 1], p)
  }

  /** Where matches are unique the two lookups agree. */
  lemma FirstIsLast<T>(xs: seq<T>, p: T -> bool)
    requires forall i, j | 0 <= i < j < |xs| :: !(p(xs[i]) && p(xs[j]))
    ensures FirstIndex(xs, p) == LastIndex(xs, p)
  {
  }

  /** The elements that satisfy `p`, in order. */
  function Select<T>(xs: seq<T>, p: T -> bool): (r: seq<T>)
    ensures forall y | y in r :: y in xs && p(y)
    ensures forall x | x in xs && p(x) :: x in r
  {
    if xs == [] then []
    else
      var init, x := xs[..|xs| - 1], xs[|xs| - 1];
      assert xs == init + [x];
      if p(x) then Select(init, p) + [x] else Select(init, p)
  }

  method Filter<T>(xs: seq<T>, p: T -> bool) returns (r: seq<T>)
    ensures r == Select(xs, p)
  {
    r := [];
    for i := 0 to |xs|
      invariant r == Select(xs[..i], p)
    {
      assert xs[..i + 1][..i] == xs[..i];
      if p(xs[i]) {
        r := r + [xs[i]];
      }
    }
    assert xs[..|xs|] == xs;
  }

  lemma SelectOneMore<T>(xs: seq<T>, x: T, p: T -> bool)
    ensures Select(xs + [x], p) == Select(xs, p) + if p(x) then [x] else []
  {
    assert (xs + [x])[..|xs|] == xs;
  }

  lemma {:induction false} SelectPrepend<T>(x: T, xs: seq<T>, p: T -> bool)
    ensures Select([x] + xs, p) == (if p(x) then [x] else []) + Select(xs, p)
  {
    var all := [x] + xs;
    if xs == [] {
      assert all[..0] == [];
    } else {
      assert all[..|xs|] == [x] + xs[..|xs| - 1];
      SelectPrepend(x, xs[..|xs| - 1], p);
    }
  }

  /** Two selections in a row are one. */
  lemma {:induction false} SelectTwice<T>(xs: seq<T>, p: T -> bool, q: T -> bool, both: T -> bool)
    requires forall x | x in xs :: both(x) <==> p(x) && q(x)
    ensures Select(Select(xs, p), q) == Select(xs, both)
  {
    if xs != [] {
      var init, x := xs[..|xs| - 1], xs[|xs| - 1];
      assert xs == init + [x];
      SelectTwice(init, p, q, both);
      if p(x) { SelectOneMore(Select(init, p), x, q); }
    }
  }

  /** The places of `xs` that satisfy `p`. */
  ghost function Places<T>(xs: seq<T>, p: T -> bool): set<nat> { set k: nat | k < |xs| && p(xs[k]) }

  lemma PlacesOneMore<T>(xs: seq<T>, x: T, p: T -> bool)
    ensures Places(xs + [x], p) == Places(xs, p) + if p(x) then {|xs|} else {}
  {
    var all := xs + [x];
    assert all[|xs|] == x;
    forall k: nat ensures k in Places(all, p) <==> k in Places(xs, p) || (k == |xs| && p(x)) {
      if k < |xs| { assert all[k] == xs[k]; }
    }
  }

  /** A selection is as long as there are places that satisfy the predicate. */
  lemma {:induction false} SelectCounts<T>(xs: seq<T>, p: T -> bool)
    ensures |Select(xs, p)| == |Places(xs, p)|
  {
    if xs != [] {
      var init, x := xs[..|xs| - 1], xs[|xs| - 1];
      assert xs == init + [x];
      SelectCounts(init, p);
      PlacesOneMore(init, x, p);
    }
  }

  // ------------------------------------------------- first occurrences only

  function Keys<T>(xs: seq<T>, key: T -> nat): set<nat> { set i | 0 <= i < |xs| :: key(xs[i]) }

  lemma KeysAppend<T>(xs: seq<T>, x: T, key: T -> nat)
    ensures Keys(xs + [x], key) == Keys(xs, key) + {key(x)}
  {
    forall i | 0 <= i < |xs| ensures key(xs[i]) in Keys(xs + [x], key) {
      assert (xs + [x])[i] == xs[i];
    }
    assert (xs + [x])[|xs|] == x;
  }

  ghost predicate DistinctKeys<T>(xs: seq<T>, key: T -> nat) {
    forall i, j | 0 <= i < j < |xs| :: key(xs[i]) != key(xs[j])
  }

  /** The elements of `xs` with a nonzero key that no earlier element has. */
  function DistinctBy<T>(xs: seq<T>, key: T -> nat): (d: seq<T>)
    ensures forall i | 0 <= i < |d| :: key(d[i]) != 0 && d[i] in xs
    ensures DistinctKeys(d, key) && Keys(d, key) == Keys(xs, key) - {0}
  {
    if xs == [] then []
    else
      var init, x := xs[..|xs| - 1], xs[|xs| - 1];
      var d := DistinctBy(init, key);
      assert xs == init + [x];
      KeysAppend(init, x, key);
      KeysAppend(d, x, key);
      if key(x) == 0 || key(x) in Keys(d, key) then d else d + [x]
  }

  lemma NonzeroKeyRemains<T>(xs: seq<T>, key: T -> nat, i: nat)
    requires i < |xs| && key(xs[i]) != 0
    ensures DistinctBy(xs, key) != []
  {
    assert key(xs[i]) in Keys(DistinctBy(xs, key), key);
  }

  /** What is kept is the first element that has its key. */
  lemma {:induction false} KeptIsFirst<T(!new)>(xs: seq<T>, key: T -> nat, y: T)
    requires y in DistinctBy(xs, key)
    ensures IsFirst(xs, key, y)
  {
    var init, x := xs[..|xs| - 1], xs[|xs| - 1];
    if y in DistinctBy(init, key) {
      KeptIsFirst(init, key, y);
      var i :| 0 <= i < |init| && init[i] == y && forall j | 0 <= j < i :: key(init[j]) != key(y);
      assert xs[i] == y && forall j | 0 <= j < i :: xs[j] == init[j];
    } else {
      assert y == x;
      forall j | 0 <= j < |init| ensures key(xs[j]) != key(y) { assert key(init[j]) in Keys(init, key); }
      assert xs[|xs| - 1] == y;
    }
  }

  ghost predicate IsFirst<T(!new)>(xs: seq<T>, key: T -> nat, y: T) {
    exists i :: 0 <= i < |xs| && xs[i] == y && forall j | 0 <= j < i :: key(xs[j]) != key(y)
  }

  /** The loop the stores run: a set of the keys seen so far. */
  method Distinct<T>(xs: seq<T>, key: T -> nat) returns (d: seq<T>)
    ensures d == DistinctBy(xs, key)
  {
    d := [];
    var seen: set<nat> := {};
    for i := 0 to |xs|
      invariant d == DistinctBy(xs[..i], key) && seen == Keys(d, key)
    {
      assert xs[..i + 1][..i] == xs[..i];
      if key(xs[i]) == 0 || key(xs[i]) in seen {
        continue;
      }
      seen := seen + {key(xs[i])};
      KeysAppend(d, xs[i], key);
      d := d + [xs[i]];
    }
    assert xs[..|xs|] == xs;
  }

  // ------------------------------------------------------------------- text

  /** Go's unicode.IsSpace, which strings.TrimSpace cuts with. */
  predicate IsSpace(c: char) {
    || '\U{9}' <= c <= '\U{D}' || c == ' ' || c == '\U{85}' || c == '\U{A0}' || c == '\U{1680}'
    || '\U{2000}' <= c <= '\U{200A}' || c == '\U{2028}' || c == '\U{2029}' || c == '\U{202F}'
    || c == '\U{205F}' || c == '\U{3000}'
  }

  predicate Trimmed(s: string) {
    s == "" || (!IsSpace(s[0]) && !IsSpace(s[|s| - 1]))
  }

  function Trim(s: string): string {
    if s != "" && IsSpace(s[0]) then Trim(s[1..])
    else if s != "" && IsSpace(s[|s| - 1]) then Trim(s[..|s| - 1])
    else s
  }

  lemma {:induction false} TrimIsTrimmed(s: string)
    ensures Trimmed(Trim(s)) && (Trimmed(s) ==> Trim(s) == s) && Trim(Trim(s)) == Trim(s)
  {
    if s != "" && IsSpace(s[0]) {
      TrimIsTrimmed(s[1..]);
    } else if s != "" && IsSpace(s[|s| - 1]) {
      TrimIsTrimmed(s[..|s| - 1]);
    }
  }
}
