// Messages, and the ring buffer of bytes that a mailbox keeps them in.
module Messages {

  type Byte = x: int | 0 <= x < 256

  /** Size of the packed header: a 32-bit length, the sender, the type. */
  const HDR: nat := 6

  /** The length field, little-endian. */
  function LengthField(m: seq<Byte>): nat
    requires |m| >= HDR
  {
    var b0: int, b1: int, b2: int, b3: int := m[0], m[1], m[2], m[3];
    b0 + 0x100 * b1 + 0x1_0000 * b2 + 0x100_0000 * b3
  }

  function SenderField(m: seq<Byte>): nat
    requires |m| >= HDR
  {
    m[4]
  }

  /** A number in so many bytes, the lowest first. */
  function LittleEndian(n: nat, width: nat): (bs: seq<Byte>)
    ensures |bs| == width
    decreases width
  {
    if width == 0 then [] else [n % 0x100] + LittleEndian(n / 0x100, width - 1)
  }

  /** The fields of a header are those that it was laid out with: four bytes of length, the sender, the
      type. */
  lemma HeaderFields(length: nat, sender: Byte, kind: Byte, body: seq<Byte>)
    requires length < 0x1_0000_0000
    ensures var m := LittleEndian(length, 4) + [sender, kind] + body;
      |m| == HDR + |body| && LengthField(m) == length && SenderField(m) == sender
  {
    var n1, n2, n3 := length / 0x100, length / 0x100 / 0x100, length / 0x100 / 0x100 / 0x100;
    assert LittleEndian(n3, 1) == [n3 % 0x100] + [];
    assert LittleEndian(length, 4) == [length % 0x100, n1 % 0x100, n2 % 0x100, n3 % 0x100];
  }

  /** A whole message: its length field counts its header and its body. */
  predicate Whole(m: seq<Byte>) {
    |m| >= HDR && LengthField(m) == |m|
  }

  type Message = m: seq<Byte> | Whole(m) witness [6, 0, 0, 0, 0, 0]

  datatype Fit = Full | TooBig | Fits

  /** `can_fit`, with its three answers. */
  function CanFit(capacity: nat, used: nat, size: nat): Fit
    requires used <= capacity
  {
    if used == capacity then Full
    else if capacity - used < size then TooBig
    else Fits
  }

  function Flatten(ms: seq<Message>): seq<Byte> {
    if ms == [] then [] else ms[0] + Flatten(ms[1..])
  }

  lemma {:induction false} FlattenAppend(ms: seq<Message>, m: Message)
    ensures Flatten(ms + [m]) == Flatten(ms) + m
  {
    if ms == [] {
      assert ms + [m] == [m];
      assert Flatten([m]) == m + Flatten([]);
    } else {
      assert (ms + [m])[1..] == ms[1..] + [m];
      FlattenAppend(ms[1..], m);
    }
  }

  /** The bytes determine the messages: length prefixes make the concatenation uniquely readable. */
  lemma {:induction false} FlattenInjective(ms: seq<Message>, ns: seq<Message>)
    requires Flatten(ms) == Flatten(ns)
    ensures ms == ns
  {
    if ms == [] || ns == [] {
    } else {
      var f := Flatten(ms);
      assert f[..HDR] == ms[0][..HDR] == ns[0][..HDR];
      HeaderTellsLength(ms[0], ns[0]);
      assert ms[0] == f[..|ms[0]|] == ns[0];
      assert Flatten(ms[1..]) == f[|ms[0]|..] == Flatten(ns[1..]);
      FlattenInjective(ms[1..], ns[1..]);
      assert ms == [ms[0]] + ms[1..] && ns == [ns[0]] + ns[1..];
    }
  }

  lemma HeaderTellsLength(m: Message, n: Message)
    requires m[..HDR] == n[..HDR]
    ensures |m| == |n|
  {
    assert forall i :: 0 <= i < HDR ==> m[i] == m[..HDR][i] && n[i] == n[..HDR][i];
  }
}

module Ring {
  import opened Messages

  /** The `n` bytes of a memory from `start` on, going around the end. */
  function Window(mem: seq<Byte>, start: nat, n: nat): (w: seq<Byte>)
    requires start <= |mem| && n <= |mem|
    ensures |w| == n
  {
    if start + n <= |mem| then mem[start..start + n] else mem[start..] + mem[..start + n - |mem|]
  }

  /** Where those bytes stop.  The end of the memory is kept as such, not folded to its start. */
  function Advance(cap: nat, start: nat, n: nat): (p: nat)
    requires start <= cap && n <= cap
    ensures p <= cap
  {
    if start + n <= cap then start + n else start + n - cap
  }

  /** A memory with `m` copied to position `d`. */
  function Splice(mem: seq<Byte>, d: nat, m: seq<Byte>): (r: seq<Byte>)
    requires d + |m| <= |mem|
    ensures |r| == |mem|
  {
    mem[..d] + m + mem[d + |m|..]
  }

  lemma SpliceNone(mem: seq<Byte>, d: nat)
    requires d <= |mem|
    ensures Splice(mem, d, []) == mem
  {
  }

  lemma SpliceOne(mem: seq<Byte>, d: nat, m: seq<Byte>, b: Byte)
    requires d + |m| + 1 <= |mem|
    ensures Splice(mem, d, m)[d + |m| := b] == Splice(mem, d, m + [b])
  {
  }

  lemma SpliceTwice(mem: seq<Byte>, d: nat, m: seq<Byte>, n: seq<Byte>)
    requires d + |m| + |n| <= |mem|
    ensures Splice(Splice(mem, d, m), d + |m|, n) == Splice(mem, d, m + n)
  {
  }

  /** The memory after `m` was written from `start` on, going around the end. */
  function Written(mem: seq<Byte>, start: nat, m: seq<Byte>): (r: seq<Byte>)
    requires start <= |mem| && |m| <= |mem|
    ensures |r| == |mem|
  {
    if start + |m| <= |mem| then Splice(mem, start, m)
    else Splice(Splice(mem, start, m[..|mem| - start]), 0, m[|mem| - start..])
  }

  /** Reading a piece and then the next piece is reading both. */
  lemma WindowSplit(mem: seq<Byte>, start: nat, a: nat, b: nat)
    requires start <= |mem| && a + b <= |mem|
    ensures Window(mem, start, a + b) == Window(mem, start, a) + Window(mem, Advance(|mem|, start, a), b)
    ensures Advance(|mem|, Advance(|mem|, start, a), b) == Advance(|mem|, start, a + b)
  {
    hide Window;
    var both, front, back :=
      Window(mem, start, a + b), Window(mem, start, a), Window(mem, Advance(|mem|, start, a), b);
    forall i | 0 <= i < a + b
      ensures both[i] == (front + back)[i]
    {
      WindowAt(mem, start, a + b, i);
      if i < a {
        WindowAt(mem, start, a, i);
      } else {
        WindowAt(mem, Advance(|mem|, start, a), b, i - a);
      }
    }
  }

  lemma WindowAt(mem: seq<Byte>, start: nat, n: nat, i: nat)
    requires start <= |mem| && i < n <= |mem|
    ensures Window(mem, start, n)[i] == mem[if start + i < |mem| then start + i else start + i - |mem|]
  {
  }

  /** A message written behind the contents is read after them, and does not touch them. */
  lemma WriteBehind(mem: seq<Byte>, head: nat, used: nat, m: seq<Byte>)
    requires head <= |mem| && used + |m| <= |mem|
    ensures var tail := Advance(|mem|, head, used);
      && Window(Written(mem, tail, m), head, used + |m|) == Window(mem, head, used) + m
      && Advance(|mem|, tail, |m|) == Advance(|mem|, head, used + |m|)
  {
    var tail := Advance(|mem|, head, used);
    var r := Written(mem, tail, m);
    WindowSplit(r, head, used, |m|);
    ReadBack(mem, tail, m);
    Untouched(mem, head, used, m);
  }

  lemma ReadBack(mem: seq<Byte>, start: nat, m: seq<Byte>)
    requires start <= |mem| && |m| <= |mem|
    ensures Window(Written(mem, start, m), start, |m|) == m
  {
    if start + |m| > |mem| {
      var k := |mem| - start;
      var first := Splice(mem, start, m[..k]);
      var r := Splice(first, 0, m[k..]);
      assert r[start..] == first[start..] == m[..k];
      assert r[..|m| - k] == m[k..];
      assert m == m[..k] + m[k..];
    } else {
      assert Splice(mem, start, m)[start..start + |m|] == m;
    }
  }

  lemma Untouched(mem: seq<Byte>, head: nat, used: nat, m: seq<Byte>)
    requires head <= |mem| && used + |m| <= |mem|
    ensures Window(Written(mem, Advance(|mem|, head, used), m), head, used) == Window(mem, head, used)
  {
    var r := Written(mem, Advance(|mem|, head, used), m);
    if head + used <= |mem| {
      forall i | head <= i < head + used
        ensures r[i] == mem[i]
      {
      }
    } else {
      forall i | 0 <= i < head + used - |mem| || head <= i < |mem|
        ensures r[i] == mem[i]
      {
      }
    }
    hide Written, Advance;
    if head + used <= |mem| {
      assert r[head..head + used] == mem[head..head + used];
    } else {
      assert r[head..] == mem[head..];
      assert r[..head + used - |mem|] == mem[..head + used - |mem|];
    }
  }

  /** What reading a non-empty ring finds: the header, then the body, then the other messages. */
  lemma Front(mem: seq<Byte>, head: nat, msgs: seq<Message>)
    requires msgs != [] && head <= |mem| && |Flatten(msgs)| <= |mem|
    requires Window(mem, head, |Flatten(msgs)|) == Flatten(msgs)
    ensures var m, cap, used := msgs[0], |mem|, |Flatten(msgs)|;
      && |m| <= used && used == |m| + |Flatten(msgs[1..])|
      && Window(mem, head, HDR) == m[..HDR]
      && Window(mem, Advance(cap, head, HDR), |m| - HDR) == m[HDR..]
      && Advance(cap, Advance(cap, head, HDR), |m| - HDR) == Advance(cap, head, |m|)
      && Window(mem, Advance(cap, head, |m|), used - |m|) == Flatten(msgs[1..])
      && Advance(cap, Advance(cap, head, |m|), used - |m|) == Advance(cap, head, used)
  {
    var m: seq<Byte> := msgs[0];
    var rest: seq<Byte> := Flatten(msgs[1..]);
    hide Window, Advance;
    assert Flatten(msgs) == m + rest;
    WindowSplit(mem, head, |m|, |rest|);
    SamePieces(Window(mem, head, |m|), Window(mem, Advance(|mem|, head, |m|), |rest|), m, rest);
    WindowSplit(mem, head, HDR, |m| - HDR);
    assert m == m[..HDR] + m[HDR..];
    SamePieces(Window(mem, head, HDR), Window(mem, Advance(|mem|, head, HDR), |m| - HDR), m[..HDR], m[HDR..]);
  }

  lemma SamePieces(a: seq<Byte>, b: seq<Byte>, c: seq<Byte>, d: seq<Byte>)
    requires a + b == c + d && |a| == |c|
    ensures a == c && b == d
  {
    assert a == (a + b)[..|a|] && b == (a + b)[|a|..];
    assert c == (c + d)[..|c|] && d == (c + d)[|c|..];
  }

  /** The length is read from the header alone. */
  lemma HeaderCopied(buf: seq<Byte>, m: Message)
    requires |m| >= HDR && HDR <= |buf|
    ensures LengthField(Splice(buf, 0, m[..HDR])) == |m|
  {
    var s := Splice(buf, 0, m[..HDR]);
    assert forall i :: 0 <= i < HDR ==> s[i] == m[..HDR][i] == m[i];
  }

  /** Copy `n` bytes from one array to another. */
  method MemCpy(dest: array<Byte>, d: nat, src: array<Byte>, s: nat, n: nat)
    requires dest != src && d + n <= dest.Length && s + n <= src.Length
    modifies dest
    ensures dest[..] == Splice(old(dest[..]), d, src[s..s + n])
  {
    hide Splice;
    SpliceNone(dest[..], d);
    assert src[s..s] == [];
    for i := 0 to n
      invariant dest[..] == Splice(old(dest[..]), d, src[s..s + i])
    {
      SpliceOne(old(dest[..]), d, src[s..s + i], src[s + i]);
      dest[d + i] := src[s + i];
      assert src[s..s + i] + [src[s + i]] == src[s..s + i + 1];
    }
  }

  /** Positions are offsets from `memory_start`; `memory_end` is the position `mem.Length`. */
  class Buffer {
    const mem: array<Byte>
    var head: nat
    var tail: nat
    var currentSize: nat
    ghost var msgs: seq<Message>   // the messages inside, oldest first

    ghost predicate Valid()
      reads this, mem
    {
      && HDR <= mem.Length
      && head <= mem.Length && currentSize <= mem.Length
      && tail == Advance(mem.Length, head, currentSize)
      && Window(mem[..], head, currentSize) == Flatten(msgs)
    }

    /** The ring of a new mailbox, in the memory the allocator returned. */
    constructor (memory: array<Byte>)
      requires HDR <= memory.Length
      ensures Valid() && mem == memory && msgs == []
    {
      mem := memory;
      head, tail, currentSize := 0, 0, 0;
      msgs := [];
    }

    /** Copy a piece of the ring to `buf[at..]`, in two parts if it goes around the end. */
    method CopyOut(buf: array<Byte>, at: nat, start: nat, n: nat) returns (next: nat)
      requires buf != mem && start <= mem.Length && n <= mem.Length && at + n <= buf.Length
      modifies buf
      ensures next == Advance(mem.Length, start, n)
      ensures buf[..] == Splice(old(buf[..]), at, Window(mem[..], start, n))
    {
      hide Splice;
      if start + n <= mem.Length {
        MemCpy(buf, at, mem, start, n);
        next := start + n;
      } else {
        var length1 := mem.Length - start;
        var length2 := n - length1;
        SpliceTwice(buf[..], at, mem[start..], mem[..length2]);
        MemCpy(buf, at, mem, start, length1);
        MemCpy(buf, at + length1, mem, 0, length2);
        assert mem[start..start + length1] == mem[start..] && mem[0..length2] == mem[..length2];
        next := length2;
      }
    }

    /** Copy the first `n` bytes of `buf` in at the tail, in two parts if they go around the end. */
    method CopyIn(buf: array<Byte>, n: nat)
      requires buf != mem && tail <= mem.Length && n <= mem.Length && n <= buf.Length
      modifies `tail, mem
      ensures tail == Advance(mem.Length, old(tail), n)
      ensures mem[..] == Written(old(mem[..]), old(tail), buf[..n])
    {
      hide Splice;
      var start := tail;
      if start + n <= mem.Length {
        MemCpy(mem, start, buf, 0, n);
        tail := tail + n;
      } else {
        var length1 := mem.Length - start;
        var length2 := n - length1;
        ghost var m := buf[..n];
        assert buf[0..length1] == m[..length1] && buf[length1..length1 + length2] == m[length1..];
        MemCpy(mem, start, buf, 0, length1);
        MemCpy(mem, 0, buf, length1, length2);
        tail := length2;
      }
    }

    /** `push_buffer`: put in the message at the front of `buf` if it fits. */
    method PushBuffer(buf: array<Byte>) returns (ok: bool)
      requires Valid() && buf != mem && HDR <= buf.Length
      requires HDR <= LengthField(buf[..]) <= buf.Length
      modifies this, mem
      ensures Valid()
      ensures ok <==> CanFit(mem.Length, old(currentSize), LengthField(buf[..])) == Fits
      ensures if ok then msgs == old(msgs) + [buf[..LengthField(buf[..])]]
        else msgs == old(msgs) && head == old(head) && tail == old(tail) && mem[..] == old(mem[..])
      ensures currentSize == |Flatten(msgs)|
    {
      var length := LengthField(buf[..]);
      if CanFit(mem.Length, currentSize, length) != Fits {
        return false;
      }
      ghost var m := buf[..length];
      WriteBehind(mem[..], head, currentSize, m);
      FlattenAppend(msgs, m);
      CopyIn(buf, length);
      currentSize := currentSize + length;
      msgs := msgs + [m];
      return true;
    }

    /** `pop_buffer`: 1 if a message was taken out, 0 if there is none, -1 if it does not fit in
        `length` bytes of `buf`.  In the last case the ring stays as it is, although the header may
        have been copied out. */
    method PopBuffer(buf: array<Byte>, length: nat) returns (code: int)
      requires Valid() && buf != mem && length <= buf.Length
      modifies this, buf
      ensures Valid()
      ensures code == if old(msgs) == [] then 0 else if length < |old(msgs)[0]| then -1 else 1
      ensures if code == 1 then msgs == old(msgs)[1..]
        else msgs == old(msgs) && head == old(head) && tail == old(tail) && currentSize == old(currentSize)
      ensures buf[..] ==
        if code == 1 then Splice(old(buf[..]), 0, old(msgs)[0])
        else if code == -1 && HDR <= length then Splice(old(buf[..]), 0, old(msgs)[0][..HDR])
        else old(buf[..])
    {
      hide Splice, Window, Advance, LengthField;
      if currentSize == 0 {
        assert Flatten(msgs) == [];
        return 0;
      }
      Front(mem[..], head, msgs);
      ghost var was := buf[..];
      ghost var m: Message := msgs[0];
      if length < HDR {
        return -1;
      }
      var start := CopyOut(buf, 0, head, HDR);
      HeaderCopied(was, m);
      var size := LengthField(buf[..]);
      var msgLength := size - HDR;
      if length < size {
        return -1;
      }
      start := CopyOut(buf, HDR, start, msgLength);
      SpliceTwice(was, 0, m[..HDR], m[HDR..]);
      assert m[..HDR] + m[HDR..] == m;
      head := start;
      currentSize := currentSize - size;
      msgs := msgs[1..];
      return 1;
    }
  }
}
