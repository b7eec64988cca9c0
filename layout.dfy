/**
 * C struct layout as arithmetic over a list of member sizes.
 *
 * Each register block of the device is a C struct of `uint32_t` (and, in the
 * NVIC, `uint8_t`) members overlaid on memory. A C compiler places the members
 * in declaration order, each at the next multiple of its own alignment. When
 * every member already sits at such a multiple (`NaturallyAligned`), no padding
 * is inserted and a member's offset is the sum of the sizes of the members
 * before it, which is what `Offset` computes.
 */
module Layout {
  import opened Options

  /** One struct member: `count` elements of `elemBytes` bytes each (`count == 1` for a scalar). */
  datatype Field = Field(name: string, elemBytes: nat, count: nat)

  /** A header comment stating the byte offset of the member called `name`. */
  datatype Annotation = Annotation(name: string, offset: nat)

  function Bytes(f: Field): nat {
    f.elemBytes * f.count
  }

  /** Byte offset of member `i` of `fs` (for `i == |fs|`, the end of the last member). */
  function Offset(fs: seq<Field>, i: nat): nat
    requires i <= |fs|
  {
    if i == 0 then 0 else Offset(fs, i - 1) + Bytes(fs[i - 1])
  }

  /** `sizeof` of a struct with members `fs` and no padding: the sum of their sizes. */
  function SizeOf(fs: seq<Field>): nat {
    if fs == [] then 0 else Bytes(fs[0]) + SizeOf(fs[1..])
  }

  /** Every member starts at a multiple of its element size, so C inserts no padding. */
  predicate NaturallyAligned(fs: seq<Field>) {
    forall i :: 0 <= i < |fs| ==> fs[i].elemBytes > 0 && Offset(fs, i) % fs[i].elemBytes == 0
  }

  /** Every member is a single `uint32_t`. */
  predicate WordStruct(fs: seq<Field>) {
    forall i :: 0 <= i < |fs| ==> fs[i].elemBytes == 4 && fs[i].count == 1
  }

  /** A struct of `uint32_t` members with the given names, in declaration order. */
  function Words(names: seq<string>): (fs: seq<Field>)
    ensures |fs| == |names| && WordStruct(fs)
    ensures forall i :: 0 <= i < |names| ==> fs[i].name == names[i]
  {
    seq(|names|, i requires 0 <= i < |names| => Field(names[i], 4, 1))
  }

  lemma {:induction false} SizeOfAppend(fs: seq<Field>, f: Field)
    ensures SizeOf(fs + [f]) == SizeOf(fs) + Bytes(f)
    decreases |fs|
  {
    if fs == [] {
      assert [] + [f] == [f];
    } else {
      assert (fs + [f])[1..] == fs[1..] + [f];
      SizeOfAppend(fs[1..], f);
    }
  }

  /** A member's offset is the size of the struct made of the members before it. */
  lemma {:induction false} OffsetIsPrefixSize(fs: seq<Field>, i: nat)
    requires i <= |fs|
    ensures Offset(fs, i) == SizeOf(fs[..i])
  {
    if i > 0 {
      OffsetIsPrefixSize(fs, i - 1);
      assert fs[..i] == fs[..i - 1] + [fs[i - 1]];
      SizeOfAppend(fs[..i - 1], fs[i - 1]);
    }
  }

  /** The end of the last member is the size of the whole struct. */
  lemma EndIsSize(fs: seq<Field>)
    ensures Offset(fs, |fs|) == SizeOf(fs)
  {
    OffsetIsPrefixSize(fs, |fs|);
    assert fs[..|fs|] == fs;
  }

  /** Members never overlap: each ends at or before the start of every later one. */
  lemma {:induction false} MembersDisjoint(fs: seq<Field>, i: nat, j: nat)
    requires i < j <= |fs|
    ensures Offset(fs, i) + Bytes(fs[i]) <= Offset(fs, j)
  {
    if j > i + 1 {
      MembersDisjoint(fs, i, j - 1);
    }
  }

  /** In a struct of `uint32_t` members, member `i` sits at byte `4 * i`. */
  lemma {:induction false} WordStructOffsets(fs: seq<Field>, i: nat)
    requires WordStruct(fs) && i <= |fs|
    ensures Offset(fs, i) == 4 * i
  {
    if i > 0 {
      WordStructOffsets(fs, i - 1);
    }
  }

  /** A struct of `uint32_t` members has no padding and is `4 * |fs|` bytes long. */
  lemma WordStructAligned(fs: seq<Field>)
    requires WordStruct(fs)
    ensures NaturallyAligned(fs)
    ensures SizeOf(fs) == 4 * |fs|
  {
    forall i | 0 <= i < |fs|
      ensures Offset(fs, i) % fs[i].elemBytes == 0
    {
      WordStructOffsets(fs, i);
    }
    WordStructOffsets(fs, |fs|);
    EndIsSize(fs);
  }

  /** Members of 1-byte or 4-byte elements whose sizes are all whole words start on word boundaries. */
  lemma {:induction false} WordMultipleOffsets(fs: seq<Field>, i: nat)
    requires forall j :: 0 <= j < |fs| ==> Bytes(fs[j]) % 4 == 0
    requires i <= |fs|
    ensures Offset(fs, i) % 4 == 0
  {
    if i > 0 {
      WordMultipleOffsets(fs, i - 1);
    }
  }

  /** A struct of `uint8_t` and `uint32_t` members, each a whole number of words long, has no padding. */
  lemma WordMultiplesAligned(fs: seq<Field>)
    requires forall j :: 0 <= j < |fs| ==> (fs[j].elemBytes == 1 || fs[j].elemBytes == 4) && Bytes(fs[j]) % 4 == 0
    ensures NaturallyAligned(fs)
  {
    forall i | 0 <= i < |fs|
      ensures Offset(fs, i) % fs[i].elemBytes == 0
    {
      WordMultipleOffsets(fs, i);
    }
  }

  /** Position of the first member called `name`, searching from position `k`. */
  function IndexFrom(fs: seq<Field>, name: string, k: nat): (r: Option<nat>)
    requires k <= |fs|
    ensures r.Some? ==> k <= r.value < |fs| && fs[r.value].name == name
    ensures r.None? ==> forall i :: k <= i < |fs| ==> fs[i].name != name
    decreases |fs| - k
  {
    if k == |fs| then None
    else if fs[k].name == name then Some(k)
    else IndexFrom(fs, name, k + 1)
  }

  /** The search finds position `i` when the name first occurs there. */
  lemma {:induction false} IndexFromFinds(fs: seq<Field>, name: string, k: nat, i: nat)
    requires k <= i < |fs| && fs[i].name == name
    requires forall j :: k <= j < i ==> fs[j].name != name
    ensures IndexFrom(fs, name, k) == Some(i)
    decreases i - k
  {
    if k < i {
      IndexFromFinds(fs, name, k + 1, i);
    }
  }

  /** Byte offset of the member called `name`, or None when the struct has none. */
  function OffsetOf(fs: seq<Field>, name: string): Option<nat> {
    match IndexFrom(fs, name, 0)
    case Some(i) => Some(Offset(fs, i))
    case None => None
  }

  /** The comment `a` states the offset the struct actually gives. */
  predicate Agrees(fs: seq<Field>, a: Annotation) {
    OffsetOf(fs, a.name) == Some(a.offset)
  }
}
