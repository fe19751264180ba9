/** The `MixMode` enumeration: a channel's panning (left, right) and
    band-limiting quality packed into three flag bits. */
module MixModes {

  const MIX_RIGHT: bv8 := 1
  const MIX_LEFT: bv8 := 2
  const MIX_QUALITY: bv8 := 4

  /** The eight enumerators are exactly the values below 8. */
  predicate IsMode(mode: bv8)
  {
    mode < 8
  }

  predicate IsHighQuality(mode: bv8)
  {
    mode & MIX_QUALITY != 0
  }

  predicate PansLeft(mode: bv8)
  {
    mode & MIX_LEFT != 0
  }

  predicate PansRight(mode: bv8)
  {
    mode & MIX_RIGHT != 0
  }

  /** A mode built from its three flags (the enumerator table). */
  function Compose(quality: bool, left: bool, right: bool): (mode: bv8)
    ensures IsMode(mode)
    ensures IsHighQuality(mode) == quality
    ensures PansLeft(mode) == left
    ensures PansRight(mode) == right
  {
    (if quality then MIX_QUALITY else 0)
    | (if left then MIX_LEFT else 0)
    | (if right then MIX_RIGHT else 0)
  }

  /** Every enumerator is determined by its three flags. */
  lemma ComposeFlags(mode: bv8)
    requires IsMode(mode)
    ensures Compose(IsHighQuality(mode), PansLeft(mode), PansRight(mode)) == mode
  {
  }

  /** `modeSetQuality`: sets or clears the quality flag, panning untouched. */
  function SetQuality(mode: bv8, quality: bool): (r: bv8)
    ensures IsHighQuality(r) == quality
    ensures PansLeft(r) == PansLeft(mode)
    ensures PansRight(r) == PansRight(mode)
    ensures IsMode(mode) ==> IsMode(r)
  {
    if quality then mode | MIX_QUALITY else mode & !MIX_QUALITY
  }

  /** `modeSetPanning`: `panning` carries the right flag in bit 0 and the left
      flag in bit 4 (the NR51 layout); the quality flag is kept. */
  function SetPanning(mode: bv8, panning: bv8): (r: bv8)
    ensures panning & !0x11 == 0 ==>
      && IsHighQuality(r) == IsHighQuality(mode)
      && (PansRight(r) <==> panning & 0x01 != 0)
      && (PansLeft(r) <==> panning & 0x10 != 0)
      && (IsMode(mode) ==> IsMode(r))
  {
    (mode & !(MIX_LEFT | MIX_RIGHT)) | (panning & 1) | (panning >> 3)
  }

  /** A channel produces sound only in a mode that pans to some terminal. */
  predicate Audible(mode: bv8)
  {
    PansLeft(mode) || PansRight(mode)
  }
}
