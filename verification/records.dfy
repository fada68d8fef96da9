/**
 * Plain JavaScript objects whose keys and values are strings (a request
 * body, the request's headers), kept as key/value pairs in the order
 * `Object.keys` and `for ... in` visit them.
 */
module Records {
  import opened Wrappers

  type Field = (string, string)
  type Record = seq<Field>

  /** The keys of a record, in iteration order. */
  function Keys(r: Record): (ks: seq<string>)
    ensures |ks| == |r|
    ensures forall i :: 0 <= i < |r| ==> ks[i] == r[i].0
  {
    if r == [] then [] else Keys(r[..|r| - 1]) + [r[|r| - 1].0]
  }

  /** Some field is named `k`. */
  ghost predicate HasKey(r: Record, k: string) {
    exists i :: 0 <= i < |r| && r[i].0 == k
  }

  /** No key occurs twice: every JavaScript object has this shape. */
  ghost predicate UniqueKeys(r: Record) {
    forall i, j :: 0 <= i < j < |r| ==> r[i].0 != r[j].0
  }

  /** The position of the first field named `k`, if any. */
  function KeyIndex(r: Record, k: string): (o: Option<nat>)
    ensures o.None? <==> !HasKey(r, k)
    ensures o.Some? ==> o.value < |r| && r[o.value].0 == k
    ensures o.Some? ==> forall j :: 0 <= j < o.value ==> r[j].0 != k
  {
    if r == [] then None
    else if r[0].0 == k then Some(0)
    else
      match KeyIndex(r[1..], k)
      case None =>
        assert forall i :: 1 <= i < |r| ==> r[i] == r[1..][i - 1];
        None
      case Some(i) => Some(i + 1)
  }

  /** `obj[k]`: the value of the field named `k`, or `undefined`. */
  function Lookup(r: Record, k: string): (v: Option<string>)
    ensures v.None? <==> !HasKey(r, k)
    ensures v.Some? ==> exists i :: 0 <= i < |r| && r[i] == (k, v.value)
  {
    match KeyIndex(r, k)
    case None => None
    case Some(i) => Some(r[i].1)
  }

  /** In a record without repeated keys, a field's value is what `Lookup` finds. */
  lemma LookupUnique(r: Record, i: nat)
    requires UniqueKeys(r)
    requires i < |r|
    ensures Lookup(r, r[i].0) == Some(r[i].1)
  {
    var o := KeyIndex(r, r[i].0);
    assert HasKey(r, r[i].0);
  }

  /**
   * `obj[k] = v`: an existing field named `k` keeps its place and takes
   * the new value; otherwise the field is appended at the end.
   */
  function Assign(r: Record, k: string, v: string): (r': Record)
    ensures Lookup(r', k) == Some(v)
    ensures HasKey(r, k) ==> Keys(r') == Keys(r)
    ensures !HasKey(r, k) ==> r' == r + [(k, v)] && Keys(r') == Keys(r) + [k]
    ensures UniqueKeys(r) ==> UniqueKeys(r')
  {
    match KeyIndex(r, k)
    case None =>
      var r' := r + [(k, v)];
      assert r'[|r|] == (k, v);
      assert Keys(r') == Keys(r) + [k];
      assert KeyIndex(r', k) == Some(|r|);
      r'
    case Some(i) =>
      var r' := r[i := (k, v)];
      assert Keys(r') == Keys(r);
      assert KeyIndex(r', k) == Some(i);
      r'
  }

  /** Assigning `k` keeps the keys, or appends `k` when it was missing. */
  lemma AssignKeys(r: Record, k: string, v: string)
    ensures Keys(Assign(r, k, v)) == Keys(r) + (if HasKey(r, k) then [] else [k])
  {
    if HasKey(r, k) {
      assert Keys(r) + [] == Keys(r);
    }
  }

  /** Assigning `k` adds `k` to the keys and no other. */
  lemma AssignHasKey(r: Record, k: string, v: string, k': string)
    ensures HasKey(Assign(r, k, v), k') <==> HasKey(r, k') || k' == k
  {
    if k' != k {
      AssignOtherKeys(r, k, v, k');
    }
  }

  /** The first field named `k` is the one `KeyIndex` finds. */
  lemma KeyIndexFirst(r: Record, k: string, i: nat)
    requires i < |r| && r[i].0 == k
    requires forall j :: 0 <= j < i ==> r[j].0 != k
    ensures KeyIndex(r, k) == Some(i)
  {
    assert HasKey(r, k);
  }

  /** Assigning one key leaves every other key's value as it was. */
  lemma AssignOtherKeys(r: Record, k: string, v: string, k': string)
    requires k' != k
    ensures Lookup(Assign(r, k, v), k') == Lookup(r, k')
  {
    var r' := Assign(r, k, v);
    assert |r| <= |r'|;
    assert forall j :: 0 <= j < |r| ==> (r'[j].0 == k' <==> r[j].0 == k') by {
      match KeyIndex(r, k)
      case None =>
      case Some(m) =>
    }
    match KeyIndex(r, k')
    case None =>
      forall j | 0 <= j < |r'|
        ensures r'[j].0 != k'
      {
        if j >= |r| {
          assert r' == r + [(k, v)];
        }
      }
    case Some(i) =>
      match KeyIndex(r, k)
      case None =>
        assert r'[i] == r[i];
        KeyIndexFirst(r', k', i);
      case Some(m) =>
        assert r'[i] == r[i];
        KeyIndexFirst(r', k', i);
  }
}
