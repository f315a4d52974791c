/** A pointer and a tag in one machine word (src/atomic_value.h:23-120). */
module TaggedValues {

  const VALUE_MASK: bv64 := 0xFFFF_FFFF_FFFF
  const EXTEND_MASK: bv64 := 0xFFFF_0000_0000_0000

  /** 48 bits, or 48 bits with the top one extended: what the word can hold without loss. */
  predicate Canonical(value: bv64) {
    value & 0xFFFF_8000_0000_0000 == 0 || value & 0xFFFF_8000_0000_0000 == 0xFFFF_8000_0000_0000
  }

  datatype TaggedValue = TaggedValue(raw: bv64) {

    function Value(): bv64 {
      (raw & VALUE_MASK) | (((raw >> 47) & 1) * EXTEND_MASK)
    }

    function Tag(): bv16 {
      (raw >> 48) as bv16
    }
  }

  function Pack(value: bv64, tag: bv16): TaggedValue {
    TaggedValue((value & VALUE_MASK) | ((tag as bv64) << 48))
  }

  lemma LowBitsKept(w: TaggedValue)
    ensures w.Value() & VALUE_MASK == w.raw & VALUE_MASK
  {
  }

  lemma HighBitsKept(w: TaggedValue)
    ensures (w.Tag() as bv64) << 48 == w.raw & EXTEND_MASK
  {
  }

  lemma LowAndHigh(raw: bv64)
    ensures (raw & VALUE_MASK) | (raw & EXTEND_MASK) == raw
  {
  }

  lemma ValueIsCanonical(w: TaggedValue)
    ensures Canonical(w.Value())
  {
    assert (w.raw >> 47) & 1 == 0 || (w.raw >> 47) & 1 == 1;
  }

  lemma PackedFrom(value: bv64, tag: bv16, raw: bv64)
    requires value & VALUE_MASK == raw & VALUE_MASK && (tag as bv64) << 48 == raw & EXTEND_MASK
    ensures Pack(value, tag) == TaggedValue(raw)
  {
    LowAndHigh(raw);
  }

  /** Every word is the packing of its parts. */
  lemma UnpackRoundTrip(w: TaggedValue)
    ensures Canonical(w.Value()) && Pack(w.Value(), w.Tag()) == w
  {
    hide Canonical, Pack, TaggedValue.Value, TaggedValue.Tag;
    LowBitsKept(w);
    HighBitsKept(w);
    PackedFrom(w.Value(), w.Tag(), w.raw);
    ValueIsCanonical(w);
  }

  /** Packing loses nothing exactly for the canonical values; the tag is never lost. */
  lemma PackRoundTrip(value: bv64, tag: bv16)
    ensures Pack(value, tag).Value() == value <==> Canonical(value)
    ensures Pack(value, tag).Tag() == tag
  {
    var w := Pack(value, tag);
    UnpackRoundTrip(w);
    PackedParts(value, tag);
    PackedParts(w.Value(), tag);
    hide Pack, TaggedValue.Value, TaggedValue.Tag;
    if Canonical(value) {
      CanonicalByLowBits(value, w.Value());
    }
  }

  lemma PackedParts(value: bv64, tag: bv16)
    ensures Pack(value, tag).raw & VALUE_MASK == value & VALUE_MASK && Pack(value, tag).Tag() == tag
  {
  }

  lemma CanonicalByLowBits(v: bv64, w: bv64)
    requires Canonical(v) && Canonical(w) && v & VALUE_MASK == w & VALUE_MASK
    ensures v == w
  {
  }

  /** Comparing words compares value and tag. */
  lemma WordsCompareBoth(v: TaggedValue, w: TaggedValue)
    ensures v == w <==> v.Value() == w.Value() && v.Tag() == w.Tag()
  {
    UnpackRoundTrip(v);
    UnpackRoundTrip(w);
  }

  class AtomicTaggedValue {
    var raw: bv64

    constructor (initial: TaggedValue)
      ensures raw == initial.raw
    {
      raw := initial.raw;
    }

    method Load() returns (w: TaggedValue)
      ensures w.raw == raw
    {
      return TaggedValue(raw);
    }

    method Store(w: TaggedValue)
      modifies this
      ensures raw == w.raw
    {
      raw := w.raw;
    }

    /** Swaps exactly if both the value and the tag in place are the expected ones. */
    method Swap(expected: TaggedValue, desired: TaggedValue) returns (ok: bool)
      modifies this
      ensures var was := TaggedValue(old(raw));
        ok <==> was.Value() == expected.Value() && was.Tag() == expected.Tag()
      ensures raw == if ok then desired.raw else old(raw)
    {
      WordsCompareBoth(TaggedValue(raw), expected);
      ok := raw == expected.raw;
      if ok {
        raw := desired.raw;
      }
    }
  }
}
