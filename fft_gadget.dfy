/**
 * The Cartesian FFT reconstruction stage (gadgets/mri_core/FFTGadget.cpp).
 * Every recon bit carries a 7-D k-space array with axes
 * [RO, E1, E2, CHA, LOC, N, S]; the stage cuts it into one [RO, E1, E2, CHA]
 * image per (s, n, loc), `s` outermost and `loc` innermost, transforms each
 * image back to image space and sends it downstream with the next value of
 * its running image counter.
 *
 * The inverse Fourier transform is not modelled: an image records the
 * k-space block it was cut from and the axes transformed, in order.
 */
module FftRecon {
  import opened Types
  import opened DivMod

  type Vec3 = (real, real, real)

  /** `ISMRMRD_CXFLOAT`, the data type the stage declares for its images. */
  const CxFloat: uint16 := 7

  /** The extents of a recon bit's data array, as `get_size(0)` .. `get_size(6)` return them. */
  datatype Dims = Dims(ro: nat, e1: nat, e2: nat, cha: nat, loc: nat, n: nat, s: nat)

  /** The same extents held in the stage's `uint16_t` locals. */
  datatype Extents = Extents(ro: uint16, e1: uint16, e2: uint16, cha: uint16, loc: uint16, n: uint16, s: uint16)

  /** The fields of an acquisition header the stage copies into an image header. */
  datatype AcqHeader = AcqHeader(
    slice: uint16,
    position: Vec3,
    readDir: Vec3,
    phaseDir: Vec3,
    sliceDir: Vec3,
    patientTablePosition: Vec3)

  /**
   * One recon bit: the data array (column-major, first axis fastest, as an
   * `hoNDArray` stores it), the acquisition headers with axes
   * [E1, E2, LOC, N, S], the centre lines of the E1 and E2 sampling limits,
   * and the reconstruction field of view.
   */
  datatype ReconBit = ReconBit(
    dims: Dims,
    data: seq<Complex>,
    headers: seq<AcqHeader>,
    centerE1: nat,
    centerE2: nat,
    reconFov: Vec3)

  /** The image header fields the stage sets; the others keep their defaults. */
  datatype ImageHeader = ImageHeader(
    matrixSize: (uint16, uint16, uint16),
    fieldOfView: Vec3,
    channels: uint16,
    slice: uint16,
    position: Vec3,
    readDir: Vec3,
    phaseDir: Vec3,
    sliceDir: Vec3,
    patientTablePosition: Vec3,
    dataType: uint16,
    imageIndex: uint16)

  /**
   * An emitted image: its header, its extents, the k-space block copied into
   * it, and the axes along which the inverse FFT was then applied, in turn.
   */
  datatype Image = Image(header: ImageHeader, dims: seq<nat>, kspace: seq<Complex>, inverseAxes: seq<nat>)

  /**
   * Which attempts fail, counted from 0 in the order the images are
   * produced within one call: the allocation of the image array
   * (`create`) or the hand-off downstream (`putq`).
   */
  datatype FftEnv = FftEnv(allocFails: set<nat>, putFails: set<nat>)

  /** Assigning `get_size` to a `uint16_t` local. */
  function Narrow(d: Dims): (x: Extents)
    ensures x.ro <= d.ro && x.e1 <= d.e1 && x.e2 <= d.e2 && x.cha <= d.cha
    ensures x.loc <= d.loc && x.n <= d.n && x.s <= d.s
    ensures d.ro < 0x1_0000 && d.e1 < 0x1_0000 && d.e2 < 0x1_0000 && d.cha < 0x1_0000 ==>
              x.ro == d.ro && x.e1 == d.e1 && x.e2 == d.e2 && x.cha == d.cha
  {
    Extents(Trunc16(d.ro), Trunc16(d.e1), Trunc16(d.e2), Trunc16(d.cha), Trunc16(d.loc), Trunc16(d.n), Trunc16(d.s))
  }

  /** Elements of one [RO, E1, E2, CHA] block of the data array. */
  function Block(d: Dims): nat {
    Times(d.ro, Times(d.e1, Times(d.e2, d.cha)))
  }

  /** Number of (loc, n, s) positions of the data array. */
  function Slots(d: Dims): nat {
    Times(d.loc, Times(d.n, d.s))
  }

  /** Elements copied into one image: `RO*E1*E2*CHA` in the `uint16_t` extents. */
  function ImageLength(x: Extents): nat {
    Times(x.ro, Times(x.e1, Times(x.e2, x.cha)))
  }

  /** Images one recon bit yields: one per (s, n, loc) in the `uint16_t` extents. */
  function Count(x: Extents): nat {
    Times(x.loc, Times(x.n, x.s))
  }

  /** The arrays are as large as their extents say and the centre lines lie inside E1 and E2. */
  predicate WellFormed(bit: ReconBit) {
    var d := bit.dims;
    |bit.data| == Times(Block(d), Slots(d)) &&
    |bit.headers| == Times(d.e1, Times(d.e2, Slots(d))) &&
    bit.centerE1 < d.e1 && bit.centerE2 < d.e2
  }

  predicate AllWellFormed(bits: seq<ReconBit>) {
    forall b :: 0 <= b < |bits| ==> WellFormed(bits[b])
  }

  /** The position of (s, n, loc) when `loc` runs fastest over `locs` values and `n` over `ns`: `loc + locs*(n + ns*s)`. */
  function Ordinal(locs: nat, ns: nat, s: nat, n: nat, loc: nat): nat {
    loc + Times(locs, n + Times(ns, s))
  }

  /** `(s1, n1, loc1)` comes before `(s2, n2, loc2)` with `s` outermost and `loc` innermost. */
  predicate LexBefore(s1: nat, n1: nat, loc1: nat, s2: nat, n2: nat, loc2: nat) {
    s1 < s2 || (s1 == s2 && (n1 < n2 || (n1 == n2 && loc1 < loc2)))
  }

  /** The element offset of index (i0, .., i6) in a column-major array of extents `d` (`hoNDArray::operator()`). */
  function Offset7(d: Dims, i0: nat, i1: nat, i2: nat, i3: nat, i4: nat, i5: nat, i6: nat): nat {
    i0 + Times(d.ro, i1 + Times(d.e1, i2 + Times(d.e2, i3 + Times(d.cha, i4 + Times(d.loc, i5 + Times(d.n, i6))))))
  }

  /** The element offset of index (i0, i1, i2, i3) in an image of extents `x`. */
  function Offset4(x: Extents, i0: nat, i1: nat, i2: nat, i3: nat): nat {
    i0 + Times(x.ro, i1 + Times(x.e1, i2 + Times(x.e2, i3)))
  }

  /** The offset of header (i0, .., i4) in the header array [E1, E2, LOC, N, S]. */
  function HeaderOffset(d: Dims, i0: nat, i1: nat, i2: nat, i3: nat, i4: nat): nat {
    i0 + Times(d.e1, i1 + Times(d.e2, i2 + Times(d.loc, i3 + Times(d.n, i4))))
  }

  /** Where the copied block starts: element (0, 0, 0, 0, loc, n, s). */
  function SlabOffset(d: Dims, s: nat, n: nat, loc: nat): nat {
    Offset7(d, 0, 0, 0, 0, loc, n, s)
  }

  /** The inverse transforms applied: along axes 0 and 1, and along axis 2 only when E2 > 1. */
  function InverseAxes(x: Extents): (r: seq<nat>)
    ensures |r| >= 2 && r[0] == 0 && r[1] == 1
    ensures 2 in r <==> x.e2 > 1
    ensures forall i, j :: 0 <= i < j < |r| ==> r[i] < r[j]
  {
    [0, 1] + if x.e2 > 1 then [2] else []
  }

  /** A recon bit yields `S*N*LOC` images. */
  lemma CountIsProduct(x: Extents)
    ensures Count(x) == x.s * x.n * x.loc
  {
    TimesIsProduct(x.n, x.s);
    TimesIsProduct(x.loc, x.n * x.s);
  }

  /** The ordinal of an in-range triple is a valid position. */
  lemma OrdinalBounds(locs: nat, ns: nat, ss: nat, s: nat, n: nat, loc: nat)
    requires s < ss && n < ns && loc < locs
    ensures Ordinal(locs, ns, s, n, loc) < Times(locs, Times(ns, ss))
  {
    TimesRowInside(ns, s, ss, n);
    TimesRowInside(locs, n + Times(ns, s), Times(ns, ss), loc);
  }

  /** Positions follow the loop order: `s` outermost, then `n`, then `loc`; distinct triples get distinct positions. */
  lemma OrdinalOrder(locs: nat, ns: nat, s1: nat, n1: nat, loc1: nat, s2: nat, n2: nat, loc2: nat)
    requires n1 < ns && loc1 < locs && n2 < ns && loc2 < locs
    ensures Ordinal(locs, ns, s1, n1, loc1) < Ordinal(locs, ns, s2, n2, loc2) <==> LexBefore(s1, n1, loc1, s2, n2, loc2)
    ensures Ordinal(locs, ns, s1, n1, loc1) == Ordinal(locs, ns, s2, n2, loc2) <==> s1 == s2 && n1 == n2 && loc1 == loc2
  {
    TimesIsProduct(ns, s1);
    TimesIsProduct(ns, s2);
    TimesIsProduct(locs, n1 + ns * s1);
    TimesIsProduct(locs, n2 + ns * s2);
    RowLess(ns, s1, n1, s2, n2);
    RowLess(ns, s2, n2, s1, n1);
    RowLess(locs, ns * s1 + n1, loc1, ns * s2 + n2, loc2);
    RowLess(locs, ns * s2 + n2, loc2, ns * s1 + n1, loc1);
  }

  /** An earlier row of width `w` lies wholly before a later one. */
  lemma RowLess(w: nat, q1: nat, j1: nat, q2: nat, j2: nat)
    requires j1 < w && j2 < w
    ensures w * q1 + j1 < w * q2 + j2 <==> q1 < q2 || (q1 == q2 && j1 < j2)
  {
    if q1 < q2 {
      MulMono(q1 + 1, q2, w);
    } else if q2 < q1 {
      MulMono(q2 + 1, q1, w);
    }
  }

  /** Past the last `loc` of row (s, n) comes the first of row (s, n + 1). */
  lemma NextRow(locs: nat, ns: nat, s: nat, n: nat)
    ensures Ordinal(locs, ns, s, n, locs) == Times(locs, (n + 1) + Times(ns, s))
  {
    TimesAdd(locs, n + Times(ns, s), 1);
    TimesIsProduct(locs, 1);
  }

  /** Past the last row of plane `s` comes the first of plane `s + 1`. */
  lemma NextPlane(locs: nat, ns: nat, s: nat)
    ensures Times(locs, ns + Times(ns, s)) == Times(locs, Times(ns, s + 1))
  {
    TimesIsProduct(ns, s);
    TimesIsProduct(ns, s + 1);
  }

  /** The triple at position `i` of a recon bit's images: the in-range (s, n, loc) whose ordinal is `i`. */
  function Decode(locs: nat, ns: nat, ss: nat, i: nat): (t: (nat, nat, nat))
    requires i < Times(locs, Times(ns, ss))
    ensures t.0 < ss && t.1 < ns && t.2 < locs && Ordinal(locs, ns, t.0, t.1, t.2) == i
  {
    TimesPositive(locs, Times(ns, ss));
    TimesPositive(ns, ss);
    var row := DivRow(locs, i);
    TimesBelow(locs, row.0, Times(ns, ss), row.1);
    var plane := DivRow(ns, row.0);
    TimesBelow(ns, plane.0, ss, plane.1);
    (plane.0, plane.1, row.1)
  }

  /** Decoding the position of an in-range triple gives the triple back: the two are inverse. */
  lemma DecodeOfOrdinal(locs: nat, ns: nat, ss: nat, s: nat, n: nat, loc: nat)
    requires s < ss && n < ns && loc < locs
    ensures Ordinal(locs, ns, s, n, loc) < Times(locs, Times(ns, ss))
    ensures Decode(locs, ns, ss, Ordinal(locs, ns, s, n, loc)) == (s, n, loc)
  {
    OrdinalBounds(locs, ns, ss, s, n, loc);
    var t := Decode(locs, ns, ss, Ordinal(locs, ns, s, n, loc));
    OrdinalOrder(locs, ns, t.0, t.1, t.2, s, n, loc);
  }

  /** The block copied for (s, n, loc) starts at that triple's ordinal times the block length. */
  lemma SlabOffsetIsBlocks(d: Dims, s: nat, n: nat, loc: nat)
    ensures SlabOffset(d, s, n, loc) == Times(Block(d), Ordinal(d.loc, d.n, s, n, loc))
  {
    var k := Ordinal(d.loc, d.n, s, n, loc);
    TimesAssoc(d.e2, d.cha, k);
    TimesAssoc(d.e1, Times(d.e2, d.cha), k);
    TimesAssoc(d.ro, Times(d.e1, Times(d.e2, d.cha)), k);
  }

  /** The `uint16_t` extents never make the copy longer than a block of the data array. */
  lemma ImageWithinBlock(d: Dims)
    ensures ImageLength(Narrow(d)) <= Block(d)
  {
    var x := Narrow(d);
    TimesMono(x.e2, d.e2, x.cha, d.cha);
    TimesMono(x.e1, d.e1, Times(x.e2, x.cha), Times(d.e2, d.cha));
    TimesMono(x.ro, d.ro, Times(x.e1, Times(x.e2, x.cha)), Times(d.e1, Times(d.e2, d.cha)));
  }

  /**
   * The block copied for an in-range (s, n, loc) lies inside the data array,
   * and the blocks of two triples in loop order do not overlap.
   */
  lemma SlabsDisjoint(bit: ReconBit, s1: nat, n1: nat, loc1: nat, s2: nat, n2: nat, loc2: nat)
    requires WellFormed(bit)
    requires var x := Narrow(bit.dims); s1 < x.s && n1 < x.n && loc1 < x.loc && s2 < x.s && n2 < x.n && loc2 < x.loc
    ensures SlabOffset(bit.dims, s1, n1, loc1) + ImageLength(Narrow(bit.dims)) <= |bit.data|
    ensures LexBefore(s1, n1, loc1, s2, n2, loc2) ==>
              SlabOffset(bit.dims, s1, n1, loc1) + ImageLength(Narrow(bit.dims)) <= SlabOffset(bit.dims, s2, n2, loc2)
  {
    var d := bit.dims;
    var k1, k2 := Ordinal(d.loc, d.n, s1, n1, loc1), Ordinal(d.loc, d.n, s2, n2, loc2);
    SlabInside(bit, s1, n1, loc1);
    SlabOffsetIsBlocks(d, s1, n1, loc1);
    SlabOffsetIsBlocks(d, s2, n2, loc2);
    ImageWithinBlock(d);
    OrdinalOrder(d.loc, d.n, s1, n1, loc1, s2, n2, loc2);
    if LexBefore(s1, n1, loc1, s2, n2, loc2) {
      TimesRowBefore(Block(d), k1, k2);
    }
  }

  lemma SlabInside(bit: ReconBit, s: nat, n: nat, loc: nat)
    requires WellFormed(bit)
    requires var x := Narrow(bit.dims); s < x.s && n < x.n && loc < x.loc
    ensures SlabOffset(bit.dims, s, n, loc) + ImageLength(Narrow(bit.dims)) <= |bit.data|
  {
    var d := bit.dims;
    OrdinalBounds(d.loc, d.n, d.s, s, n, loc);
    SlabOffsetIsBlocks(d, s, n, loc);
    ImageWithinBlock(d);
    TimesRowBefore(Block(d), Ordinal(d.loc, d.n, s, n, loc), Slots(d));
  }

  /** The centre header of an in-range (s, n, loc) lies inside the header array. */
  lemma HeaderInside(bit: ReconBit, s: nat, n: nat, loc: nat)
    requires WellFormed(bit)
    requires var x := Narrow(bit.dims); s < x.s && n < x.n && loc < x.loc
    ensures HeaderOffset(bit.dims, bit.centerE1, bit.centerE2, loc, n, s) < |bit.headers|
  {
    var d := bit.dims;
    HeaderRowInside(d.e1, d.e2, d.loc, d.n, d.s, bit.centerE1, bit.centerE2, s, n, loc);
  }

  /** The arithmetic of `HeaderInside`, on the extents alone. */
  lemma HeaderRowInside(e1: nat, e2: nat, locs: nat, ns: nat, ss: nat, c1: nat, c2: nat, s: nat, n: nat, loc: nat)
    requires c1 < e1 && c2 < e2 && s < ss && n < ns && loc < locs
    ensures c1 + Times(e1, c2 + Times(e2, Ordinal(locs, ns, s, n, loc))) < Times(e1, Times(e2, Times(locs, Times(ns, ss))))
  {
    var k := Ordinal(locs, ns, s, n, loc);
    OrdinalBounds(locs, ns, ss, s, n, loc);
    TimesRowInside(e2, k, Times(locs, Times(ns, ss)), c2);
    TimesRowInside(e1, c2 + Times(e2, k), Times(e2, Times(locs, Times(ns, ss))), c1);
  }

  /**
   * The image the stage builds for (s, n, loc) before it is numbered: extents
   * [RO, E1, E2, CHA], matrix size (RO, E1, E2), CHA channels, the field of
   * view of the recon bit, slice and geometry of the acquisition header at
   * (centre E1, centre E2, loc, n, s), the `RO*E1*E2*CHA` elements from
   * (0, 0, 0, 0, loc, n, s) on, and the inverse transforms.
   */
  function Cut(bit: ReconBit, s: nat, n: nat, loc: nat): (img: Image)
    requires WellFormed(bit)
    requires var x := Narrow(bit.dims); s < x.s && n < x.n && loc < x.loc
    ensures var x := Narrow(bit.dims);
      img.dims == [x.ro, x.e1, x.e2, x.cha] && img.header.matrixSize == (x.ro, x.e1, x.e2) &&
      img.header.channels == x.cha && |img.kspace| == ImageLength(x) &&
      img.inverseAxes == InverseAxes(x) && img.header.imageIndex == 0
    ensures HeaderOffset(bit.dims, bit.centerE1, bit.centerE2, loc, n, s) < |bit.headers|
    ensures var h := bit.headers[HeaderOffset(bit.dims, bit.centerE1, bit.centerE2, loc, n, s)];
      img.header.slice == h.slice && img.header.position == h.position && img.header.readDir == h.readDir &&
      img.header.phaseDir == h.phaseDir && img.header.sliceDir == h.sliceDir &&
      img.header.patientTablePosition == h.patientTablePosition &&
      img.header.fieldOfView == bit.reconFov && img.header.dataType == CxFloat
  {
    var x := Narrow(bit.dims);
    SlabInside(bit, s, n, loc);
    HeaderInside(bit, s, n, loc);
    var h := bit.headers[HeaderOffset(bit.dims, bit.centerE1, bit.centerE2, loc, n, s)];
    var off := SlabOffset(bit.dims, s, n, loc);
    var header := ImageHeader((x.ro, x.e1, x.e2), bit.reconFov, x.cha, h.slice, h.position, h.readDir, h.phaseDir,
                              h.sliceDir, h.patientTablePosition, CxFloat, 0);
    Image(header, [x.ro, x.e1, x.e2, x.cha], bit.data[off..off + ImageLength(x)], InverseAxes(x))
  }

  /** Element (i0, i1, i2, i3) of a [RO, E1, E2, CHA] block sits at that offset within the block. */
  lemma Offset4Inside(x: Extents, i0: nat, i1: nat, i2: nat, i3: nat)
    requires i0 < x.ro && i1 < x.e1 && i2 < x.e2 && i3 < x.cha
    ensures Offset4(x, i0, i1, i2, i3) < ImageLength(x)
  {
    TimesRowInside(x.e2, i3, x.cha, i2);
    TimesRowInside(x.e1, i2 + Times(x.e2, i3), Times(x.e2, x.cha), i1);
    TimesRowInside(x.ro, i1 + Times(x.e1, i2 + Times(x.e2, i3)), Times(x.e1, Times(x.e2, x.cha)), i0);
  }

  /**
   * When the extents fit the `uint16_t` locals, element (i0, i1, i2, i3) of
   * the image for (s, n, loc) is element (i0, i1, i2, i3, loc, n, s) of the
   * recon bit's data array: the copy is the 4-D block for that triple.
   */
  lemma CutElement(bit: ReconBit, s: nat, n: nat, loc: nat, i0: nat, i1: nat, i2: nat, i3: nat)
    requires WellFormed(bit)
    requires var x := Narrow(bit.dims); s < x.s && n < x.n && loc < x.loc
    requires var d := bit.dims; d.ro < 0x1_0000 && d.e1 < 0x1_0000 && d.e2 < 0x1_0000 && d.cha < 0x1_0000
    requires var d := bit.dims; i0 < d.ro && i1 < d.e1 && i2 < d.e2 && i3 < d.cha
    ensures Offset4(Narrow(bit.dims), i0, i1, i2, i3) < |Cut(bit, s, n, loc).kspace|
    ensures Offset7(bit.dims, i0, i1, i2, i3, loc, n, s) < |bit.data|
    ensures Cut(bit, s, n, loc).kspace[Offset4(Narrow(bit.dims), i0, i1, i2, i3)]
         == bit.data[Offset7(bit.dims, i0, i1, i2, i3, loc, n, s)]
  {
    var d, x := bit.dims, Narrow(bit.dims);
    var k := Ordinal(d.loc, d.n, s, n, loc);
    Offset4Inside(x, i0, i1, i2, i3);
    SlabInside(bit, s, n, loc);
    var c := Times(d.cha, k);
    TimesAdd(d.e2, i3, c);
    TimesAdd(d.e1, i2 + Times(d.e2, i3), Times(d.e2, c));
    TimesAdd(d.ro, i1 + Times(d.e1, i2 + Times(d.e2, i3)), Times(d.e1, Times(d.e2, c)));
    assert Offset7(d, i0, i1, i2, i3, loc, n, s) == Offset4(x, i0, i1, i2, i3) + SlabOffset(d, s, n, loc);
  }

  /** The image for position `i` of a recon bit: `i` decoded into (s, n, loc), `loc` fastest. */
  function CutAt(bit: ReconBit, i: nat): Image
    requires WellFormed(bit) && i < Count(Narrow(bit.dims))
  {
    var x := Narrow(bit.dims);
    var t := Decode(x.loc, x.n, x.s, i);
    Cut(bit, t.0, t.1, t.2)
  }

  /** The images of one recon bit, before numbering, in the order the stage's loops produce them. */
  function BitImages(bit: ReconBit): (r: seq<Image>)
    requires WellFormed(bit)
    ensures |r| == Count(Narrow(bit.dims))
  {
    seq(Count(Narrow(bit.dims)), i requires 0 <= i < Count(Narrow(bit.dims)) => CutAt(bit, i))
  }

  /** A recon bit yields `Count` images, the one for (s, n, loc) at position `loc + LOC*(n + N*s)`. */
  lemma BitImagesAt(bit: ReconBit, s: nat, n: nat, loc: nat)
    requires WellFormed(bit)
    requires var x := Narrow(bit.dims); s < x.s && n < x.n && loc < x.loc
    ensures var x := Narrow(bit.dims);
      |BitImages(bit)| == Count(x) &&
      Ordinal(x.loc, x.n, s, n, loc) < |BitImages(bit)| &&
      BitImages(bit)[Ordinal(x.loc, x.n, s, n, loc)] == Cut(bit, s, n, loc)
  {
    var x := Narrow(bit.dims);
    DecodeOfOrdinal(x.loc, x.n, x.s, s, n, loc);
  }

  /** The parts in order, one after the other. */
  function Concat<T>(parts: seq<seq<T>>): seq<T>
    decreases |parts|
  {
    if |parts| == 0 then [] else Concat(parts[..|parts| - 1]) + parts[|parts| - 1]
  }

  /** Part `b` follows the parts before it. */
  lemma {:induction false} ConcatAt<T>(parts: seq<seq<T>>, b: nat, j: nat)
    requires b < |parts| && j < |parts[b]|
    ensures |Concat(parts[..b])| + j < |Concat(parts)|
    ensures Concat(parts)[|Concat(parts[..b])| + j] == parts[b][j]
    decreases |parts|
  {
    var m := |parts| - 1;
    if b == m {
      assert parts[..b] == parts[..m];
    } else {
      ConcatAt(parts[..m], b, j);
      assert parts[..m][..b] == parts[..b];
    }
  }

  /** Part `b` is the slice of the concatenation that starts after the parts before it. */
  lemma ConcatSlice<T>(parts: seq<seq<T>>, b: nat)
    requires b < |parts|
    ensures var start := |Concat(parts[..b])|;
      start + |parts[b]| <= |Concat(parts)| && Concat(parts)[start..start + |parts[b]|] == parts[b]
  {
    var start := |Concat(parts[..b])|;
    ConcatNext(parts, b);
    forall j | 0 <= j < |parts[b]|
      ensures Concat(parts)[start + j] == parts[b][j]
    {
      ConcatAt(parts, b, j);
    }
  }

  /** Taking one more part adds exactly its length, and never more than the whole. */
  lemma ConcatNext<T>(parts: seq<seq<T>>, b: nat)
    requires b < |parts|
    ensures |Concat(parts[..b + 1])| == |Concat(parts[..b])| + |parts[b]| <= |Concat(parts)|
  {
    assert parts[..b + 1][..b] == parts[..b];
    ConcatPrefix(parts, b + 1);
  }

  lemma {:induction false} ConcatPrefix<T>(parts: seq<seq<T>>, b: nat)
    requires b <= |parts|
    ensures |Concat(parts[..b])| <= |Concat(parts)|
    decreases |parts|
  {
    if b < |parts| {
      var m := |parts| - 1;
      assert parts[..m][..b] == parts[..b];
      ConcatPrefix(parts[..m], b);
    } else {
      assert parts[..b] == parts;
    }
  }

  /** The images of each recon bit. */
  function Parts(bits: seq<ReconBit>): (r: seq<seq<Image>>)
    requires AllWellFormed(bits)
    ensures |r| == |bits|
  {
    seq(|bits|, b requires 0 <= b < |bits| => BitImages(bits[b]))
  }

  /** The images of all recon bits, before numbering, bit after bit. */
  function AllImages(bits: seq<ReconBit>): seq<Image>
    requires AllWellFormed(bits)
  {
    Concat(Parts(bits))
  }

  /** The total number of images: the sum of `S*N*LOC` over the recon bits. */
  function TotalCount(bits: seq<ReconBit>): nat
    decreases |bits|
  {
    if |bits| == 0 then 0 else TotalCount(bits[..|bits| - 1]) + Count(Narrow(bits[|bits| - 1].dims))
  }

  /** The stage produces exactly `S*N*LOC` images per recon bit. */
  lemma {:induction false} AllImagesCount(bits: seq<ReconBit>)
    requires AllWellFormed(bits)
    ensures |AllImages(bits)| == TotalCount(bits)
    decreases |bits|
  {
    if |bits| > 0 {
      var m := |bits| - 1;
      assert AllWellFormed(bits[..m]);
      assert Parts(bits)[..m] == Parts(bits[..m]);
      AllImagesCount(bits[..m]);
    }
  }

  /** `image_index = ++image_counter_`: the header takes the counter's new value, as a `uint16_t`. */
  function Stamp(img: Image, counter: int): Image {
    img.(header := img.header.(imageIndex := Trunc16(counter)))
  }

  /** The images of `plan`, numbered on from counter value `c0`. */
  function Stamped(plan: seq<Image>, c0: int): (r: seq<Image>)
    ensures |r| == |plan|
  {
    seq(|plan|, i requires 0 <= i < |plan| => Stamp(plan[i], c0 + i + 1))
  }

  /** Numbering changes nothing but the index, and the indices run on from `c0` without a gap. */
  lemma StampedIndices(plan: seq<Image>, c0: int, i: nat)
    requires i < |plan|
    ensures Stamped(plan, c0)[i].header.imageIndex == Trunc16(c0 + i + 1)
    ensures Stamped(plan, c0)[i].(header := Stamped(plan, c0)[i].header.(imageIndex := 0))
         == plan[i].(header := plan[i].header.(imageIndex := 0))
    ensures i + 1 < |plan| ==> (Stamped(plan, c0)[i + 1].header.imageIndex - Stamped(plan, c0)[i].header.imageIndex - 1) % 0x1_0000 == 0
  {
    var a, b := c0 + i + 1, c0 + i + 2;
    var ta, tb := Trunc16(a), Trunc16(b);
    if i + 1 < |plan| {
      assert (tb - ta - 1) == (tb - b) - (ta - a);
      assert (tb - b) % 0x1_0000 == 0 && (ta - a) % 0x1_0000 == 0;
      DivModUnique(tb - b, 0x1_0000, (tb - b) / 0x1_0000, 0);
      DivModUnique(ta - a, 0x1_0000, (ta - a) / 0x1_0000, 0);
      DivModUnique(tb - ta - 1, 0x1_0000, (tb - b) / 0x1_0000 - (ta - a) / 0x1_0000, 0);
    }
  }

  predicate Fails(env: FftEnv, k: nat) {
    k in env.allocFails || k in env.putFails
  }

  /** The first attempt from `from` on that fails, or `total` when none below it does. */
  function FirstFailure(env: FftEnv, from: nat, total: nat): (k: nat)
    requires from <= total
    ensures from <= k <= total
    decreases total - from
  {
    if from == total then total
    else if Fails(env, from) then from
    else FirstFailure(env, from + 1, total)
  }

  /** `FirstFailure` is the least failing attempt: every attempt before it succeeds and it fails unless it is `total`. */
  lemma {:induction false} FirstFailureIsFirst(env: FftEnv, from: nat, total: nat, k: nat)
    requires from <= k <= total
    ensures FirstFailure(env, from, total) == k <==>
              (forall i :: from <= i < k ==> !Fails(env, i)) && (k < total ==> Fails(env, k))
    decreases total - from
  {
    if from < total && !Fails(env, from) {
      if from < k {
        FirstFailureIsFirst(env, from + 1, total, k);
      } else {
        assert FirstFailure(env, from, total) == FirstFailure(env, from + 1, total);
      }
    }
  }

  /**
   * The stage's counter and downstream queue after it tried to hand the
   * images of `plan` downstream in order, starting from counter `c0` and
   * queue `d0`: the images before the first failing attempt went out
   * numbered `c0 + 1`, `c0 + 2`, ..; nothing after it was attempted; the
   * call succeeds exactly when no attempt failed; and a failed hand-off has
   * still taken its number.
   */
  predicate Delivered(env: FftEnv, plan: seq<Image>, c0: int, d0: seq<Image>, status: Status, counter: int, out: seq<Image>) {
    var k := FirstFailure(env, 0, |plan|);
    status == (if k == |plan| then Ok else Fail) &&
    out == d0 + Stamped(plan[..k], c0) &&
    counter == c0 + k + (if k < |plan| && k !in env.allocFails then 1 else 0)
  }

  /** Before attempt `k`: the first `k` attempts succeeded, and each of those images was numbered and handed on. */
  predicate Progress(env: FftEnv, plan: seq<Image>, k: nat, c0: int, d0: seq<Image>, counter: int, out: seq<Image>) {
    k <= |plan| && FirstFailure(env, 0, k) == k && counter == c0 + k && out == d0 + Stamped(plan[..k], c0)
  }

  /** Nothing attempted yet. */
  lemma ProgressStart(env: FftEnv, plan: seq<Image>, c0: int, d0: seq<Image>)
    ensures Progress(env, plan, 0, c0, d0, c0, d0)
  {
    assert d0 + Stamped(plan[..0], c0) == d0;
  }

  /** One more image handed downstream with the next number. */
  lemma DeliverOne(env: FftEnv, plan: seq<Image>, k: nat, c0: int, d0: seq<Image>, counter: int, out: seq<Image>)
    requires k < |plan| && Progress(env, plan, k, c0, d0, counter, out) && !Fails(env, k)
    ensures Progress(env, plan, k + 1, c0, d0, counter + 1, out + [Stamp(plan[k], counter + 1)])
  {
    FirstFailureIsFirst(env, 0, k, k);
    FirstFailureIsFirst(env, 0, k + 1, k + 1);
    assert plan[..k + 1] == plan[..k] + [plan[k]];
    assert Stamped(plan[..k] + [plan[k]], c0) == Stamped(plan[..k], c0) + [Stamp(plan[k], c0 + k + 1)];
  }

  /** An attempt fails: the call ends with the state it had reached. */
  lemma DeliverFails(env: FftEnv, plan: seq<Image>, k: nat, c0: int, d0: seq<Image>, counter: int, out: seq<Image>)
    requires k < |plan| && Progress(env, plan, k, c0, d0, counter, out) && Fails(env, k)
    ensures Delivered(env, plan, c0, d0, Fail, counter + (if k in env.allocFails then 0 else 1), out)
  {
    FirstFailureIsFirst(env, 0, k, k);
    FirstFailureIsFirst(env, 0, |plan|, k);
  }

  /** Every attempt succeeded: the call ends with `GADGET_OK`. */
  lemma DeliverAll(env: FftEnv, plan: seq<Image>, c0: int, d0: seq<Image>, counter: int, out: seq<Image>)
    requires Progress(env, plan, |plan|, c0, d0, counter, out)
    ensures Delivered(env, plan, c0, d0, Ok, counter, out)
  {
    assert plan[..|plan|] == plan;
  }

  /** What a call leaves behind: how many images went out, how far the counter moved, and that the numbers continue the counter. */
  lemma DeliveredFacts(env: FftEnv, plan: seq<Image>, c0: int, d0: seq<Image>, status: Status, counter: int, out: seq<Image>)
    requires Delivered(env, plan, c0, d0, status, counter, out)
    ensures |d0| <= |out| <= |d0| + |plan| && out[..|d0|] == d0
    ensures status == Ok <==> |out| == |d0| + |plan| && forall i :: 0 <= i < |plan| ==> !Fails(env, i)
    ensures status == Ok ==> counter == c0 + |plan| && out == d0 + Stamped(plan, c0)
    ensures status == Fail ==> Fails(env, |out| - |d0|) && counter - c0 - (|out| - |d0|) in {0, 1}
    ensures forall i :: |d0| <= i < |out| ==> out[i].header.imageIndex == Trunc16(c0 + (i - |d0|) + 1)
  {
    var k := FirstFailure(env, 0, |plan|);
    FirstFailureIsFirst(env, 0, |plan|, k);
    if status == Ok {
      assert plan[..k] == plan;
    } else {
      FirstFailureIsFirst(env, 0, |plan|, |plan|);
    }
    forall i | |d0| <= i < |out|
      ensures out[i].header.imageIndex == Trunc16(c0 + (i - |d0|) + 1)
    {
      StampedIndices(plan[..k], c0, i - |d0|);
    }
  }

  /** The images of bit `b` follow those of the bits before it, `S*N*LOC` of them. */
  lemma PlanSlice(bits: seq<ReconBit>, b: nat)
    requires AllWellFormed(bits) && b < |bits|
    ensures var start, count := TotalCount(bits[..b]), Count(Narrow(bits[b].dims));
      TotalCount(bits[..b + 1]) == start + count <= |AllImages(bits)| &&
      AllImages(bits)[start..start + count] == BitImages(bits[b])
  {
    var parts := Parts(bits);
    ConcatSlice(parts, b);
    assert parts[b] == BitImages(bits[b]);
    PrefixCount(bits, b);
    TotalCountNext(bits, b);
  }

  /** One more recon bit adds its `S*N*LOC` images to the total. */
  lemma TotalCountNext(bits: seq<ReconBit>, b: nat)
    requires b < |bits|
    ensures TotalCount(bits[..b + 1]) == TotalCount(bits[..b]) + Count(Narrow(bits[b].dims))
  {
    assert bits[..b + 1][..b] == bits[..b];
  }

  /** The images of the first `b` recon bits number `TotalCount` of them. */
  lemma PrefixCount(bits: seq<ReconBit>, b: nat)
    requires AllWellFormed(bits) && b <= |bits|
    ensures |Concat(Parts(bits)[..b])| == TotalCount(bits[..b])
  {
    assert AllWellFormed(bits[..b]);
    assert Parts(bits)[..b] == Parts(bits[..b]);
    AllImagesCount(bits[..b]);
  }

  /** Where image (s, n, loc) of a recon bit sits when its images occupy `all` from `base` on. */
  lemma RowImage(bit: ReconBit, all: seq<Image>, base: nat, s: nat, n: nat, loc: nat)
    requires WellFormed(bit)
    requires var x := Narrow(bit.dims); s < x.s && n < x.n && loc < x.loc
    requires base + Count(Narrow(bit.dims)) <= |all| && all[base..base + Count(Narrow(bit.dims))] == BitImages(bit)
    ensures var x := Narrow(bit.dims);
      base + Ordinal(x.loc, x.n, s, n, loc) < |all| && all[base + Ordinal(x.loc, x.n, s, n, loc)] == Cut(bit, s, n, loc)
  {
    var x := Narrow(bit.dims);
    var k := Ordinal(x.loc, x.n, s, n, loc);
    BitImagesAt(bit, s, n, loc);
    assert all[base + k] == all[base..base + Count(x)][k];
  }

  /** Where image (s, n, loc) of recon bit `b` comes among all the images of a call. */
  function Position(bits: seq<ReconBit>, b: nat, s: nat, n: nat, loc: nat): nat
    requires b < |bits|
  {
    TotalCount(bits[..b]) + Ordinal(Narrow(bits[b].dims).loc, Narrow(bits[b].dims).n, s, n, loc)
  }

  /** Image (s, n, loc) of recon bit `b` comes after the images of the bits before it, at its ordinal among its own. */
  lemma AllImagesAt(bits: seq<ReconBit>, b: nat, s: nat, n: nat, loc: nat)
    requires AllWellFormed(bits) && b < |bits|
    requires var x := Narrow(bits[b].dims); s < x.s && n < x.n && loc < x.loc
    ensures Position(bits, b, s, n, loc) < |AllImages(bits)|
    ensures AllImages(bits)[Position(bits, b, s, n, loc)] == Cut(bits[b], s, n, loc)
  {
    var x := Narrow(bits[b].dims);
    OrdinalBounds(x.loc, x.n, x.s, s, n, loc);
    AllImagesOfBit(bits, b, Ordinal(x.loc, x.n, s, n, loc));
    BitImagesAt(bits[b], s, n, loc);
  }

  /** Image `k` of recon bit `b` follows the images of the bits before it. */
  lemma AllImagesOfBit(bits: seq<ReconBit>, b: nat, k: nat)
    requires AllWellFormed(bits) && b < |bits| && k < Count(Narrow(bits[b].dims))
    ensures TotalCount(bits[..b]) + k < |AllImages(bits)|
    ensures AllImages(bits)[TotalCount(bits[..b]) + k] == Parts(bits)[b][k]
  {
    PrefixCount(bits, b);
    ConcatAtStart(Parts(bits), b, k, TotalCount(bits[..b]));
  }

  /** `ConcatAt` with the start of part `b` given by name. */
  lemma ConcatAtStart<T>(parts: seq<seq<T>>, b: nat, k: nat, start: nat)
    requires b < |parts| && k < |parts[b]| && start == |Concat(parts[..b])|
    ensures start + k < |Concat(parts)| && Concat(parts)[start + k] == parts[b][k]
  {
    ConcatAt(parts, b, k);
  }

  /**
   * After a successful call, image (s, n, loc) of recon bit `b` went out at
   * the position that follows every image of the bits before it and the
   * triples before it in loop order, numbered on from the counter.
   */
  lemma OutputAt(env: FftEnv, bits: seq<ReconBit>, c0: int, d0: seq<Image>, counter: int, out: seq<Image>,
                 b: nat, s: nat, n: nat, loc: nat)
    requires AllWellFormed(bits) && b < |bits|
    requires var x := Narrow(bits[b].dims); s < x.s && n < x.n && loc < x.loc
    requires Delivered(env, AllImages(bits), c0, d0, Ok, counter, out)
    ensures |d0| + Position(bits, b, s, n, loc) < |out|
    ensures out[|d0| + Position(bits, b, s, n, loc)] == Stamp(Cut(bits[b], s, n, loc), c0 + Position(bits, b, s, n, loc) + 1)
  {
    AllImagesAt(bits, b, s, n, loc);
    DeliveredAt(env, AllImages(bits), c0, d0, counter, out, Position(bits, b, s, n, loc));
  }

  /** After a successful call, image `i` of the plan went out at position `i` with number `c0 + i + 1`. */
  lemma DeliveredAt(env: FftEnv, plan: seq<Image>, c0: int, d0: seq<Image>, counter: int, out: seq<Image>, i: nat)
    requires i < |plan| && Delivered(env, plan, c0, d0, Ok, counter, out)
    ensures |d0| + i < |out| && out[|d0| + i] == Stamp(plan[i], c0 + i + 1)
  {
    DeliveredFacts(env, plan, c0, d0, Ok, counter, out);
    assert out[|d0| + i] == Stamped(plan, c0)[i];
  }

  /** The stage object: its running image counter and the queue of the next stage. */
  class FftGadget {
    var imageCounter: int
    var downstream: seq<Image>

    /** A new stage starts counting at 0 (FFTGadget.cpp:6-10) with nothing sent. */
    constructor()
      ensures imageCounter == 0 && downstream == []
    {
      imageCounter := 0;
      downstream := [];
    }

    /**
     * `process` (FFTGadget.cpp:13-102): every recon bit in turn, every image
     * of it in loop order, is allocated, numbered, filled, transformed and
     * handed on; the first failing allocation or hand-off ends the call with
     * `GADGET_FAIL`.
     */
    method Process(bits: seq<ReconBit>, env: FftEnv) returns (status: Status)
      requires AllWellFormed(bits)
      modifies this
      ensures Delivered(env, AllImages(bits), old(imageCounter), old(downstream), status, imageCounter, downstream)
    {
      ghost var all := AllImages(bits);
      ghost var c0, d0 := imageCounter, downstream;
      var produced := 0;
      ProgressStart(env, all, c0, d0);
      var b := 0;
      while b < |bits|
        invariant 0 <= b <= |bits|
        invariant produced == TotalCount(bits[..b])
        invariant Progress(env, all, produced, c0, d0, imageCounter, downstream)
      {
        PlanSlice(bits, b);
        status, produced := ProcessBit(bits[b], env, all, produced, c0, d0);
        if status == Fail {
          return;
        }
        b := b + 1;
      }
      assert bits[..b] == bits;
      AllImagesCount(bits);
      DeliverAll(env, all, c0, d0, imageCounter, downstream);
      status := Ok;
    }

    /**
     * One recon bit (FFTGadget.cpp:21-98): the loops over `s` and `n`. Its
     * images are those of `all` from `produced0` on, where `produced0` images
     * were handed on earlier in this call.
     */
    method ProcessBit(bit: ReconBit, env: FftEnv, ghost all: seq<Image>, produced0: nat, ghost c0: int, ghost d0: seq<Image>)
      returns (status: Status, produced: nat)
      requires WellFormed(bit) && produced0 + Count(Narrow(bit.dims)) <= |all|
      requires all[produced0..produced0 + Count(Narrow(bit.dims))] == BitImages(bit)
      requires Progress(env, all, produced0, c0, d0, imageCounter, downstream)
      modifies this
      ensures status == Ok || status == Fail
      ensures status == Fail ==> Delivered(env, all, c0, d0, Fail, imageCounter, downstream)
      ensures status == Ok ==>
                produced == produced0 + Count(Narrow(bit.dims)) &&
                Progress(env, all, produced, c0, d0, imageCounter, downstream)
    {
      var x := Narrow(bit.dims);
      TimesIsProduct(x.n, 0);
      TimesIsProduct(x.loc, 0);
      produced := produced0;
      var s := 0;
      while s < x.s
        invariant s <= x.s
        invariant produced == produced0 + Times(x.loc, Times(x.n, s))
        invariant Progress(env, all, produced, c0, d0, imageCounter, downstream)
      {
        status, produced := ProcessPlane(bit, s, env, all, produced0, produced, c0, d0);
        if status == Fail {
          return;
        }
        s := s + 1;
      }
      status := Ok;
    }

    /**
     * The loop over `n` of one recon bit, for fixed `s` (FFTGadget.cpp:40-97):
     * its images are those of `all` from `produced0` on.
     */
    method ProcessPlane(bit: ReconBit, s: nat, env: FftEnv, ghost all: seq<Image>, ghost base: nat, produced0: nat,
                        ghost c0: int, ghost d0: seq<Image>)
      returns (status: Status, produced: nat)
      requires WellFormed(bit) && s < Narrow(bit.dims).s
      requires base + Count(Narrow(bit.dims)) <= |all| && all[base..base + Count(Narrow(bit.dims))] == BitImages(bit)
      requires var x := Narrow(bit.dims); produced0 == base + Times(x.loc, Times(x.n, s))
      requires Progress(env, all, produced0, c0, d0, imageCounter, downstream)
      modifies this
      ensures status == Ok || status == Fail
      ensures status == Fail ==> Delivered(env, all, c0, d0, Fail, imageCounter, downstream)
      ensures status == Ok ==>
                produced == base + Times(Narrow(bit.dims).loc, Times(Narrow(bit.dims).n, s + 1)) &&
                Progress(env, all, produced, c0, d0, imageCounter, downstream)
    {
      var x := Narrow(bit.dims);
      produced := produced0;
      var n := 0;
      while n < x.n
        invariant n <= x.n
        invariant produced == base + Times(x.loc, n + Times(x.n, s))
        invariant Progress(env, all, produced, c0, d0, imageCounter, downstream)
      {
        TimesRowInside(x.n, s, x.s, n);
        TimesRowBefore(x.loc, n + Times(x.n, s), Times(x.n, x.s));
        status, produced := ProcessRow(bit, s, n, env, all, base, produced, c0, d0);
        if status == Fail {
          return;
        }
        NextRow(x.loc, x.n, s, n);
        n := n + 1;
      }
      NextPlane(x.loc, x.n, s);
      status := Ok;
    }

    /**
     * The innermost loop over `loc` of one recon bit, for fixed `s` and `n`
     * (FFTGadget.cpp:42-96): its images are those of `all` from `produced0` on.
     */
    method ProcessRow(bit: ReconBit, s: nat, n: nat, env: FftEnv, ghost all: seq<Image>, ghost base: nat, produced0: nat,
                      ghost c0: int, ghost d0: seq<Image>)
      returns (status: Status, produced: nat)
      requires WellFormed(bit)
      requires var x := Narrow(bit.dims); s < x.s && n < x.n && produced0 + x.loc <= |all|
      requires base + Count(Narrow(bit.dims)) <= |all| && all[base..base + Count(Narrow(bit.dims))] == BitImages(bit)
      requires var x := Narrow(bit.dims); produced0 == base + Ordinal(x.loc, x.n, s, n, 0)
      requires Progress(env, all, produced0, c0, d0, imageCounter, downstream)
      modifies this
      ensures status == Ok || status == Fail
      ensures status == Fail ==> Delivered(env, all, c0, d0, Fail, imageCounter, downstream)
      ensures status == Ok ==>
                produced == produced0 + Narrow(bit.dims).loc &&
                Progress(env, all, produced, c0, d0, imageCounter, downstream)
    {
      var x := Narrow(bit.dims);
      produced := produced0;
      var loc := 0;
      while loc < x.loc
        invariant loc <= x.loc && produced == produced0 + loc
        invariant Progress(env, all, produced, c0, d0, imageCounter, downstream)
      {
        RowImage(bit, all, base, s, n, loc);
        if produced in env.allocFails {
          DeliverFails(env, all, produced, c0, d0, imageCounter, downstream);
          return Fail, produced;
        }
        imageCounter := imageCounter + 1;
        var image := Stamp(Cut(bit, s, n, loc), imageCounter);
        if produced in env.putFails {
          DeliverFails(env, all, produced, c0, d0, imageCounter - 1, downstream);
          return Fail, produced;
        }
        DeliverOne(env, all, produced, c0, d0, imageCounter - 1, downstream);
        downstream := downstream + [image];
        produced := produced + 1;
        loc := loc + 1;
      }
      status := Ok;
    }
  }
}
