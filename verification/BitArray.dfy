// The packed bit array of the allocator: eight nodes of the tree to a byte.
module BitArray {

  /** The mask `0x01 << pos`. */
  function Flag(pos: nat): (f: bv8)
    requires pos < 8
  {
    match pos
    case 0 => 0x01
    case 1 => 0x02
    case 2 => 0x04
    case 3 => 0x08
    case 4 => 0x10
    case 5 => 0x20
    case 6 => 0x40
    case _ => 0x80
  }

  /** Bit `i` of an array of bytes. */
  predicate Bit(a: seq<bv8>, i: nat)
    requires i / 8 < |a|
  {
    a[i / 8] & Flag(i % 8) != 0
  }

  lemma FlagsApart(v: bv8, p: nat, q: nat)
    requires p < 8 && q < 8
    ensures ((v | Flag(p)) & Flag(q) != 0) == (p == q || v & Flag(q) != 0)
    ensures ((v & !Flag(p)) & Flag(q) != 0) == (p != q && v & Flag(q) != 0)
  {
  }

  lemma SetAt(a: seq<bv8>, index: nat, j: nat)
    requires index / 8 < |a| && j / 8 < |a|
    ensures Bit(a[index / 8 := a[index / 8] | Flag(index % 8)], j) == (j == index || Bit(a, j))
  {
    hide Flag;
    if j / 8 == index / 8 {
      FlagsApart(a[index / 8], index % 8, j % 8);
    }
  }

  lemma ClearAt(a: seq<bv8>, index: nat, j: nat)
    requires index / 8 < |a| && j / 8 < |a|
    ensures Bit(a[index / 8 := a[index / 8] & !Flag(index % 8)], j) == (j != index && Bit(a, j))
  {
    hide Flag;
    if j / 8 == index / 8 {
      FlagsApart(a[index / 8], index % 8, j % 8);
    }
  }

  method SetBit(a: array<bv8>, index: nat)
    requires index / 8 < a.Length
    modifies a
    ensures forall j: nat :: j / 8 < a.Length ==> Bit(a[..], j) == (j == index || old(Bit(a[..], j)))
  {
    var i, pos := index / 8, index % 8;
    ghost var was := a[..];
    a[i] := a[i] | Flag(pos);
    assert a[..] == was[i := was[i] | Flag(pos)];
    forall j: nat | j / 8 < a.Length
      ensures Bit(a[..], j) == (j == index || Bit(was, j))
    {
      SetAt(was, index, j);
    }
  }

  method ClearBit(a: array<bv8>, index: nat)
    requires index / 8 < a.Length
    modifies a
    ensures forall j: nat :: j / 8 < a.Length ==> Bit(a[..], j) == (j != index && old(Bit(a[..], j)))
  {
    var i, pos := index / 8, index % 8;
    ghost var was := a[..];
    a[i] := a[i] & !Flag(pos);
    assert a[..] == was[i := was[i] & !Flag(pos)];
    forall j: nat | j / 8 < a.Length
      ensures Bit(a[..], j) == (j != index && Bit(was, j))
    {
      ClearAt(was, index, j);
    }
  }

  method CheckBit(a: array<bv8>, index: nat) returns (status: nat)
    requires index / 8 < a.Length
    ensures status == if Bit(a[..], index) then 1 else 0
  {
    status := if a[index / 8] & Flag(index % 8) != 0 then 1 else 0;
  }
}
