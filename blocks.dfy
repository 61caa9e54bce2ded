/**
 * Grouping of classified lines into blocks: a line that opens an exercise starts a block,
 * the content lines after it (up to the next opener) belong to it, and content before the
 * first opener belongs to no block. Both parsers' line loops compute this grouping.
 */
module Blocks {

  /** A classified line: it opens a block, carries content, or is ignored. */
  datatype Tagged<T> = Open(name: string) | Item(item: T) | Skip

  datatype Group<T> = Group(name: string, items: seq<T>)

  /** The content before the first opener. */
  function Pending<T>(ts: seq<Tagged<T>>): seq<T>
    decreases |ts|
  {
    if |ts| == 0 then []
    else match ts[0]
      case Open(_) => []
      case Item(x) => [x] + Pending(ts[1..])
      case Skip => Pending(ts[1..])
  }

  /** One group per opener, in order, holding the content up to the next opener. */
  function Groups<T>(ts: seq<Tagged<T>>): seq<Group<T>>
    decreases |ts|
  {
    if |ts| == 0 then []
    else match ts[0]
      case Open(n) => [Group(n, Pending(ts[1..]))] + Groups(ts[1..])
      case _ => Groups(ts[1..])
  }

  /** `Pending` and `Groups` of tags with one more in front. */
  lemma TagsCons<T>(t: Tagged<T>, ts: seq<Tagged<T>>)
    ensures t.Open? ==> Pending([t] + ts) == [] && Groups([t] + ts) == [Group(t.name, Pending(ts))] + Groups(ts)
    ensures t.Item? ==> Pending([t] + ts) == [t.item] + Pending(ts) && Groups([t] + ts) == Groups(ts)
    ensures t.Skip? ==> Pending([t] + ts) == Pending(ts) && Groups([t] + ts) == Groups(ts)
  {
    assert ([t] + ts)[1..] == ts;
  }

  /** The names of the openers, in order. */
  function OpenNames<T>(ts: seq<Tagged<T>>): seq<string>
    decreases |ts|
  {
    if |ts| == 0 then []
    else match ts[0]
      case Open(n) => [n] + OpenNames(ts[1..])
      case _ => OpenNames(ts[1..])
  }

  function GroupNames<T>(gs: seq<Group<T>>): (names: seq<string>)
    ensures |names| == |gs|
    ensures forall k :: 0 <= k < |gs| ==> names[k] == gs[k].name
  {
    seq(|gs|, k requires 0 <= k < |gs| => gs[k].name)
  }

  /** There is exactly one group per opener, named as the opener, in the same order. */
  lemma {:induction false} GroupsFollowOpeners<T>(ts: seq<Tagged<T>>)
    ensures GroupNames(Groups(ts)) == OpenNames(ts)
    decreases |ts|
  {
    if |ts| > 0 {
      GroupsFollowOpeners(ts[1..]);
      match ts[0]
      case Open(n) =>
        assert Groups(ts) == [Group(n, Pending(ts[1..]))] + Groups(ts[1..]);
        assert GroupNames(Groups(ts)) == [n] + GroupNames(Groups(ts[1..]));
      case Item(_) =>
      case Skip =>
    }
  }

  /** Without an opener there are no groups, whatever content there is. */
  lemma {:induction false} NoOpenerNoGroups<T>(ts: seq<Tagged<T>>)
    requires forall i :: 0 <= i < |ts| ==> !ts[i].Open?
    ensures Groups(ts) == []
    ensures Pending(ts) == Items(ts)
    decreases |ts|
  {
    if |ts| > 0 {
      assert forall i :: 0 <= i < |ts[1..]| ==> ts[1..][i] == ts[i + 1];
      NoOpenerNoGroups(ts[1..]);
    }
  }

  /** All content, in order. */
  function Items<T>(ts: seq<Tagged<T>>): seq<T>
    decreases |ts|
  {
    if |ts| == 0 then []
    else match ts[0]
      case Item(x) => [x] + Items(ts[1..])
      case _ => Items(ts[1..])
  }

  /** Each element mapped together with its position counted from `base`. */
  function Numbered<D, E>(f: (D, nat) -> E, base: nat, ds: seq<D>): (r: seq<E>)
    ensures |r| == |ds|
    ensures forall k :: 0 <= k < |ds| ==> r[k] == f(ds[k], base + k)
  {
    seq(|ds|, k requires 0 <= k < |ds| => f(ds[k], base + k))
  }

  /** Pushing one more element numbers it with the next position. */
  lemma NumberedPush<D, E>(f: (D, nat) -> E, base: nat, ds: seq<D>, d: D)
    ensures Numbered(f, base, ds + [d]) == Numbered(f, base, ds) + [f(d, base + |ds|)]
  {
    var l := Numbered(f, base, ds + [d]);
    var r := Numbered(f, base, ds) + [f(d, base + |ds|)];
    forall k | 0 <= k < |l| ensures l[k] == r[k] {
      if k < |ds| {
        assert (ds + [d])[k] == ds[k];
      }
    }
  }

  lemma Associate<T>(a: seq<T>, b: seq<T>, c: seq<T>)
    ensures (a + b) + c == a + (b + c)
  {
  }
}
