/** The switch decoding and the port words of module LedSpec, checked against
    the bitwise expressions of led.c on the 32-bit register word. */
module LedWords {
  import opened LedSpec

  /** The mask led.c tests for group `g`. */
  function Mask(g: Group): bv32
  {
    match g
    case NoteBits => 0x0007
    case PlayBit => 0x0008
    case TempoBits => 0x0070
    case RecordBit => 0x0080
    case PlaybackBit => 0x0100
  }

  // ---------------------------------------------------------------- single bits

  lemma Bit0(w: u32) ensures (w as bv32 & 0x001 != 0) <==> w % 2 == 1 {}
  lemma Bit1(w: u32) ensures (w as bv32 & 0x002 != 0) <==> (w / 2) % 2 == 1 {}
  lemma Bit2(w: u32) ensures (w as bv32 & 0x004 != 0) <==> (w / 4) % 2 == 1 {}
  lemma Bit3(w: u32) ensures (w as bv32 & 0x008 != 0) <==> (w / 8) % 2 == 1 {}
  lemma Bit4(w: u32) ensures (w as bv32 & 0x010 != 0) <==> (w / 16) % 2 == 1 {}
  lemma Bit5(w: u32) ensures (w as bv32 & 0x020 != 0) <==> (w / 32) % 2 == 1 {}
  lemma Bit6(w: u32) ensures (w as bv32 & 0x040 != 0) <==> (w / 64) % 2 == 1 {}
  lemma Bit7(w: u32) ensures (w as bv32 & 0x080 != 0) <==> (w / 128) % 2 == 1 {}
  lemma Bit8(w: u32) ensures (w as bv32 & 0x100 != 0) <==> (w / 256) % 2 == 1 {}

  /** A three-bit field is the weighted sum of its bits. */
  lemma ThreeBits(x: bv32)
    ensures (x & 0x7) as int ==
      (if x & 1 != 0 then 1 else 0) + (if x & 2 != 0 then 2 else 0) + (if x & 4 != 0 then 4 else 0)
  {
  }

  /** The same on integers. */
  lemma ThreeDigits(w: nat)
    ensures w % 8 == w % 2 + 2 * ((w / 2) % 2) + 4 * ((w / 4) % 2)
  {
    var q, r := w / 8, w % 8;
    assert w == 8 * q + r;
    assert w / 2 == 4 * q + r / 2;
    assert w / 4 == 2 * q + r / 4;
    assert w % 2 == r % 2;
    assert (w / 2) % 2 == (r / 2) % 2;
    assert (w / 4) % 2 == r / 4;
  }

  // ---------------------------------------------------------------- switch groups

  /** `switch_state & 0x0007` is the note field. */
  lemma NoteOfIsMask(w: u32)
    ensures NoteOf(w) == ((w as bv32) & 0x0007) as int
  {
    ThreeBits(w as bv32);
    Bit0(w);
    Bit1(w);
    Bit2(w);
    ThreeDigits(w);
  }

  /** `((switch_state >> 4) & 0x0007) + 1` is the tempo. */
  lemma TempoOfIsMask(w: u32)
    ensures TempoOf(w) == (((w as bv32) >> 4) & 0x0007) as int + 1
  {
    var x := (w as bv32) >> 4;
    ThreeBits(x);
    assert (x & 1 != 0) == (w as bv32 & 0x010 != 0);
    assert (x & 2 != 0) == (w as bv32 & 0x020 != 0);
    assert (x & 4 != 0) == (w as bv32 & 0x040 != 0);
    Bit4(w);
    Bit5(w);
    Bit6(w);
    var v := w / 16;
    ThreeDigits(v);
    assert v / 2 == w / 32 && v / 4 == w / 64;
  }

  /** `switch_state & 0x0008` is nonzero exactly when switch 3 is on. */
  lemma PlayBitIsMask(w: u32)
    ensures (w as bv32 & 0x0008 != 0) <==> Field(w, PlayBit) != 0
  {
    Bit3(w);
  }

  /** `switch_state & 0x0080` is nonzero exactly when switch 7 is on. */
  lemma RecordBitIsMask(w: u32)
    ensures (w as bv32 & 0x0080 != 0) <==> Field(w, RecordBit) != 0
  {
    Bit7(w);
  }

  /** `switch_state & 0x0100` is nonzero exactly when switch 8 is on. */
  lemma PlaybackBitIsMask(w: u32)
    ensures (w as bv32 & 0x0100 != 0) <==> Field(w, PlaybackBit) != 0
  {
    Bit8(w);
  }

  /** Two words agree under `& 0x0007` exactly when their notes agree. */
  lemma NoteMaskedIsField(a: u32, b: u32)
    ensures (a as bv32 & 0x0007 == b as bv32 & 0x0007) <==> Field(a, NoteBits) == Field(b, NoteBits)
  {
    var x, y := a as bv32 & 0x0007, b as bv32 & 0x0007;
    NoteOfIsMask(a);
    NoteOfIsMask(b);
    assert x < 8 && y < 8;
    assert x as int == y as int ==> x == y;
  }

  /** Two words agree under `& 0x0070` exactly when their tempos agree. */
  lemma TempoMaskedIsField(a: u32, b: u32)
    ensures (a as bv32 & 0x0070 == b as bv32 & 0x0070) <==> Field(a, TempoBits) == Field(b, TempoBits)
  {
    var x, y := ((a as bv32) >> 4) & 7, ((b as bv32) >> 4) & 7;
    TempoOfIsMask(a);
    TempoOfIsMask(b);
    assert (a as bv32 & 0x0070 == b as bv32 & 0x0070) <==> x == y;
    assert x < 8 && y < 8;
    assert x as int == y as int ==> x == y;
  }

  /** `w & mask` for every group, as a field value: two words agree under the
      mask exactly when they agree on the group. */
  lemma MaskedIsField(a: u32, b: u32, g: Group)
    ensures (a as bv32 & Mask(g) == b as bv32 & Mask(g)) <==> Field(a, g) == Field(b, g)
  {
    match g
    case NoteBits => NoteMaskedIsField(a, b);
    case TempoBits => TempoMaskedIsField(a, b);
    case PlayBit =>
      PlayBitIsMask(a);
      PlayBitIsMask(b);
    case RecordBit =>
      RecordBitIsMask(a);
      RecordBitIsMask(b);
    case PlaybackBit =>
      PlaybackBitIsMask(a);
      PlaybackBitIsMask(b);
  }

  /** `changed_bits & mask`, with `changed_bits = switch_state ^ last_switch_state`,
      is nonzero exactly when the group changed. */
  lemma ChangedIsMask(last: u32, sw: u32, g: Group)
    ensures ((sw as bv32 ^ last as bv32) & Mask(g) != 0) <==> Changed(last, sw, g)
  {
    var x, y := sw as bv32, last as bv32;
    assert ((x ^ y) & Mask(g) != 0) <==> (x & Mask(g) != y & Mask(g));
    MaskedIsField(sw, last, g);
  }

  // ---------------------------------------------------------------- port words

  /* The port-word lemmas take the source's operands as machine words `x` and
     read the word they write back as a number. */

  /** `1 << n` and `0xF000 | (1 << n)`. */
  lemma NoteLedIsShift(n: bv32)
    requires n < 8
    ensures NoteLed(n as int) == ((1 as bv32) << n) as int
    ensures CaptureLed(n as int) == (0xF000 | ((1 as bv32) << n)) as int
  {
  }

  /** `0x02110000 | (n << 4) | n`. */
  lemma NoteDisplayIsOr(n: bv32)
    requires n < 8
    ensures NoteDisplay(n as int) == (0x0211_0000 | (n << 4) | n) as int
  {
  }

  /** `0x02111300 | v`. */
  lemma TempoDisplayIsOr(v: bv32)
    requires v < 256
    ensures TempoDisplay(v as int) == (0x0211_1300 | v) as int
  {
    assert 0x0211_1300 | v == 0x0211_1300 + v;
  }

  /** `0x02110000 | (note << 4) | tempo` and `(1 << note) | (tempo << 8)`. */
  lemma StepWordsAreOr(note: bv32, tempo: bv32, duration: u32)
    requires note < 8 && 1 <= tempo <= 8
    ensures var p := RecordStep(note as int, tempo as int, duration);
      && StepDisplay(p) == (0x0211_0000 | (note << 4) | tempo) as int
      && StepLed(p) == (((1 as bv32) << note) | (tempo << 8)) as int
  {
    assert 0x0211_0000 | (note << 4) | tempo == 0x0211_0000 + note * 16 + tempo;
    assert ((1 as bv32) << note) | (tempo << 8) == ((1 as bv32) << note) + tempo * 256;
    NoteLedIsShift(note);
  }

  /** `0x02110000 | (freq & 0xFFFF)`, with `freq` the note's frequency. */
  lemma ToneDisplayIsOr(n: nat, freq: bv32)
    requires n < 8 && freq as int == Frequency(n)
    ensures ToneWrites(n)[1] == Display((0x0211_0000 | (freq & 0xFFFF)) as int)
  {
    assert freq < 0x1_0000;
    assert 0x0211_0000 | (freq & 0xFFFF) == 0x0211_0000 + freq;
  }
}
