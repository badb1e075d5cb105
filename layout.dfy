/** Where a node places its ports: the ports of one role are spread evenly down one edge of
    the node's rectangle, below the header. Heights are measured from 0 in the node's own
    coordinates, not from the rectangle's top. */
module Layout {
  /** The gap between neighbouring ports when `k` ports share the body below the header. */
  function Spacing(header: real, height: real, k: nat): real
  {
    (height - header) / (k + 1) as real
  }

  /** The height the `i`-th of `k` ports of one role is placed at. */
  function SlotY(header: real, height: real, i: nat, k: nat): real
  {
    header + (i + 1) as real * Spacing(header, height, k)
  }

  lemma NextSlot(header: real, height: real, i: nat, k: nat)
    ensures SlotY(header, height, i + 1, k) == SlotY(header, height, i, k) + Spacing(header, height, k)
  {
    var s := Spacing(header, height, k);
    assert (i + 2) as real * s == (i + 1) as real * s + s;
  }

  lemma SpacingFills(header: real, height: real, k: nat)
    ensures (k + 1) as real * Spacing(header, height, k) == height - header
  {
  }

  /** Ports of one role are evenly spaced: the first is one gap below the header, each next
      one a gap lower, and the last one gap above the node's height. */
  lemma {:induction false} EvenlySpaced(header: real, height: real, k: nat)
    ensures forall i: nat :: i + 1 < k ==>
      SlotY(header, height, i + 1, k) - SlotY(header, height, i, k) == Spacing(header, height, k)
    ensures k > 0 ==> SlotY(header, height, 0, k) - header == Spacing(header, height, k)
    ensures k > 0 ==> height - SlotY(header, height, k - 1, k) == Spacing(header, height, k)
  {
    forall i: nat | i + 1 < k
      ensures SlotY(header, height, i + 1, k) - SlotY(header, height, i, k) == Spacing(header, height, k)
    {
      NextSlot(header, height, i, k);
    }
    if k > 0 {
      SpacingFills(header, height, k);
      assert SlotY(header, height, k - 1, k) == header + k as real * Spacing(header, height, k);
    }
  }

  /** When the node is taller than its header, every port lies strictly between the header
      and the bottom, even a role's only port. */
  lemma {:induction false} SlotInsideBody(header: real, height: real, i: nat, k: nat)
    requires header < height && i < k
    ensures header < SlotY(header, height, i, k) < height
  {
    var s := Spacing(header, height, k);
    assert 0.0 < s by {
      assert (k + 1) as real > 0.0;
    }
    assert 0.0 < (i + 1) as real * s;
    SpacingFills(header, height, k);
    assert (i + 1) as real * s < (k + 1) as real * s;
  }

  /** When the node is taller than its header, later ports of a role lie lower. */
  lemma {:induction false} SlotsInOrder(header: real, height: real, i: nat, j: nat, k: nat)
    requires header < height && i < j < k
    ensures SlotY(header, height, i, k) < SlotY(header, height, j, k)
  {
    var s := Spacing(header, height, k);
    assert 0.0 < s by {
      assert (k + 1) as real > 0.0;
    }
    assert (i + 1) as real * s < (j + 1) as real * s;
  }
}
