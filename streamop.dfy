/** Bulk buffer transfer of src/streamop.rs: a stream hands its next
    `out.len()` items to a caller's buffer, overwriting, adding to or
    multiplying what is there. Items are reals. */
module StreamOp {

  /** `Op`: how an item is combined with the buffer slot it lands in. */
  datatype Op = Set | Add | Mul

  /** The new value of a slot holding `slot` when `item` arrives. */
  function Apply(op: Op, slot: real, item: real): real {
    match op
    case Set => item
    case Add => slot + item
    case Mul => slot * item
  }

  /** A whole buffer `out` combined slot by slot with the items `xs`. */
  function ApplyAll(op: Op, out: seq<real>, xs: seq<real>): (r: seq<real>)
    requires |xs| == |out|
    ensures |r| == |out|
    ensures forall i :: 0 <= i < |out| ==> r[i] == Apply(op, out[i], xs[i])
  {
    seq(|out|, i requires 0 <= i < |out| => Apply(op, out[i], xs[i]))
  }

  /** Setting forgets what the buffer held: the result is the items. */
  lemma ApplyAllSet(out: seq<real>, xs: seq<real>)
    requires |xs| == |out|
    ensures ApplyAll(Set, out, xs) == xs
  {
  }

  /** `IterStream`: a stream over an exact-size iterator, modelled by the
      items it still has to yield. */
  class IterStream {
    var items: seq<real>

    constructor (xs: seq<real>)
      ensures items == xs
    {
      items := xs;
    }

    /** `len`: the number of items left. */
    function Len(): nat
      reads this
    {
      |items|
    }

    /** `take(out, op, can_set)`: slot `i` of `out` is combined with the
        `i`th next item, and those `out.len()` items are consumed. Setting
        when `can_set` is true fails the source's `assert!(!can_set)`
        before anything is touched (`ok` false). The caller must not ask
        for more items than are left (the trait's documented invariant;
        `next().unwrap()` would panic). */
    method Take(out: array<real>, op: Op, canSet: bool) returns (ok: bool)
      requires out.Length <= Len()
      modifies this, out
      ensures ok == !(op == Set && canSet)
      ensures !ok ==> items == old(items) && out[..] == old(out[..])
      ensures ok ==> items == old(items)[out.Length..]
      ensures ok ==> out[..] == ApplyAll(op, old(out[..]), old(items)[..out.Length])
      ensures ok ==> Len() == old(Len()) - out.Length
    {
      if op == Set && canSet {
        return false;
      }
      ghost var items0, out0 := items, out[..];
      var i := 0;
      while i < out.Length
        invariant 0 <= i <= out.Length
        invariant items == items0[i..]
        invariant forall j :: 0 <= j < i ==> out[j] == Apply(op, out0[j], items0[j])
        invariant forall j :: i <= j < out.Length ==> out[j] == out0[j]
      {
        out[i] := Apply(op, out[i], items[0]);
        items := items[1..];
        i := i + 1;
      }
      assert out[..] == ApplyAll(op, out0, items0[..out.Length]);
      return true;
    }
  }

  /** `CombinedStream { a, op, b }`: the items of `a` combined with those
      of `b` by `op`. Both parts are iterator streams here, and distinct
      objects, as the owned fields of the Rust struct are. */
  class CombinedStream {
    const a: IterStream
    const op: Op
    const b: IterStream

    constructor (a: IterStream, op: Op, b: IterStream)
      requires a != b
      ensures this.a == a && this.op == op && this.b == b
    {
      this.a := a;
      this.op := op;
      this.b := b;
    }

    predicate Valid()
      reads this
    {
      a != b
    }

    /** `len`: as many items as the shorter part has left. */
    function Len(): nat
      reads this, a, b
    {
      if a.Len() <= b.Len() then a.Len() else b.Len()
    }

    /** `take(out, op, can_set)`: `a` sets the buffer, then `b` is combined
        into it with the stream's own `op`; the `op` argument is ignored and
        `b` is always called with `can_set` false. So slot `i` ends up
        `a_i (self.op) b_i`, whatever the buffer held, and the call fails
        exactly when `can_set` is true. */
    method Take(out: array<real>, op: Op, canSet: bool) returns (ok: bool)
      requires Valid()
      requires out.Length <= Len()
      modifies a, b, out
      ensures ok == !canSet
      ensures !ok ==> a.items == old(a.items) && b.items == old(b.items) && out[..] == old(out[..])
      ensures ok ==> a.items == old(a.items)[out.Length..] && b.items == old(b.items)[out.Length..]
      ensures ok ==> out[..] == ApplyAll(this.op, old(a.items)[..out.Length], old(b.items)[..out.Length])
      ensures ok ==> Len() == old(Len()) - out.Length
    {
      ok := a.Take(out, Set, canSet);
      if !ok {
        return;
      }
      ghost var setOut := out[..];
      ApplyAllSet(old(out[..]), old(a.items)[..out.Length]);
      var okB := b.Take(out, this.op, false);
      assert okB;
      assert out[..] == ApplyAll(this.op, setOut, old(b.items)[..out.Length]);
    }
  }
}
