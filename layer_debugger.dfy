// The keyboard state of the layer debugger: which layer of the light field
// is shown and whether one specific image or all of them are drawn.
module LayerDebuggers {
  import opened Numeric
  import opened ViewerTypes
  import LightFieldData

  /** `usize`'s range; an atomic `fetch_add` wraps modulo this. */
  const UsizeRange: nat := 0x1_0000_0000_0000_0000

  /** The value of `specific_image` that selects every image. */
  const AllImages: nat := 9

  /** A digit key 0 to 9. */
  type Digit = d: int | 0 <= d < 10

  /** The keys the debugger reacts to; every other key is `Other`. */
  datatype Keycode = Plus | Minus | Num(digit: Digit) | Other

  /** The image a digit key selects: keys 1 to 9 select images 0 to 8, key 0
      selects every image. */
  function ImageOfDigit(d: Digit): (image: nat)
    ensures image <= AllImages
    ensures image == AllImages <==> d == 0
    ensures d != 0 ==> image + 1 == d
  {
    if d == 0 then AllImages else d - 1
  }

  /** The record uploaded for one drawn image: its bounds and slot. */
  datatype DebugImageInfo = DebugImageInfo(bound: LightFieldData.PlaneImageRatios, imageIndex: U32)

  function ToDebugInfo(info: PlaneImageInfo): DebugImageInfo {
    DebugImageInfo(info.ratios, info.imageIndex)
  }

  class LayerDebugger {
    var layerIndex: nat
    var specificImage: nat

    /** Both counters stay within `usize`. */
    ghost predicate Valid()
      reads this
    {
      layerIndex < UsizeRange && specificImage < UsizeRange
    }

    /** The input state of `LayerDebugger::new`: layer 0, every image. */
    constructor ()
      ensures Valid() && layerIndex == 0 && specificImage == AllImages
    {
      layerIndex := 0;
      specificImage := AllImages;
    }

    /** `handle_input`: `+` moves one layer up (wrapping like the atomic
        add), `-` one layer down but never below 0, a digit selects an image,
        and every other key changes nothing. */
    method HandleInput(key: Keycode)
      requires Valid()
      modifies this
      ensures Valid()
      ensures key.Plus? ==> layerIndex == (old(layerIndex) + 1) % UsizeRange && specificImage == old(specificImage)
      ensures key.Minus? ==> layerIndex == (if old(layerIndex) > 0 then old(layerIndex) - 1 else 0)
                             && specificImage == old(specificImage)
      ensures key.Num? ==> layerIndex == old(layerIndex) && specificImage == ImageOfDigit(key.digit)
      ensures key.Other? ==> layerIndex == old(layerIndex) && specificImage == old(specificImage)
    {
      match key {
        case Plus =>
          layerIndex := (layerIndex + 1) % UsizeRange;
        case Minus =>
          var index := layerIndex;
          if index > 0 {
            layerIndex := layerIndex - 1;
          }
        case Num(d) =>
          specificImage := ImageOfDigit(d);
        case Other =>
      }
    }

    /** `select_plane`: the current layer, or the last plane when the layer
        index runs past the end; the source needs at least one plane. */
    function SelectPlane<P>(planes: seq<P>): (index: nat)
      reads this
      requires |planes| > 0
      ensures index < |planes|
      ensures index <= layerIndex
      ensures layerIndex < |planes| ==> index == layerIndex
      ensures layerIndex >= |planes| ==> index == |planes| - 1
    {
      if layerIndex < |planes| - 1 then layerIndex else |planes| - 1
    }

    /** `create_image_data`: every image of the plane when all are selected,
        otherwise only the selected one, which must exist. */
    function CreateImageData(infos: seq<PlaneImageInfo>): (data: seq<DebugImageInfo>)
      reads this
      requires specificImage == AllImages || specificImage < |infos|
      ensures specificImage == AllImages ==>
        |data| == |infos| && forall k :: 0 <= k < |infos| ==> data[k] == ToDebugInfo(infos[k])
      ensures specificImage != AllImages ==> data == [ToDebugInfo(infos[specificImage])]
    {
      if specificImage == AllImages then seq(|infos|, k requires 0 <= k < |infos| => ToDebugInfo(infos[k]))
      else [ToDebugInfo(infos[specificImage])]
    }
  }

  /** `select_light_field`: always the first light field. */
  function SelectLightField<L>(lightFields: seq<L>): (selected: L)
    requires |lightFields| > 0
    ensures selected in lightFields
  {
    lightFields[0]
  }

  /** The layer index after a key, as a function of the one before. */
  function LayerAfter(layerIndex: nat, key: Keycode): nat {
    match key
    case Plus => (layerIndex + 1) % UsizeRange
    case Minus => if layerIndex > 0 then layerIndex - 1 else 0
    case _ => layerIndex
  }

  /** `-` undoes `+` below the wrap-around point, and `+` undoes `-` above
      layer 0; at layer 0, `-` changes nothing. */
  lemma PlusMinusInverse(layerIndex: nat)
    requires layerIndex < UsizeRange
    ensures layerIndex + 1 < UsizeRange ==> LayerAfter(LayerAfter(layerIndex, Plus), Minus) == layerIndex
    ensures layerIndex > 0 ==> LayerAfter(LayerAfter(layerIndex, Minus), Plus) == layerIndex
    ensures LayerAfter(0, Minus) == 0
  {
  }

  /** Pressing `-` n times from layer i ends at layer max(i - n, 0). */
  lemma {:induction false} MinusSaturates(layerIndex: nat, n: nat)
    ensures Presses(layerIndex, Minus, n) == if layerIndex >= n then layerIndex - n else 0
  {
    if n > 0 {
      MinusSaturates(layerIndex, n - 1);
    }
  }

  /** The layer index after pressing the same key n times. */
  function Presses(layerIndex: nat, key: Keycode, n: nat): nat {
    if n == 0 then layerIndex else LayerAfter(Presses(layerIndex, key, n - 1), key)
  }

  /** Pressing `+` n times counts up by n, modulo `usize`. */
  lemma {:induction false} PlusWraps(layerIndex: nat, n: nat)
    requires layerIndex < UsizeRange
    ensures Presses(layerIndex, Plus, n) == (layerIndex + n) % UsizeRange
  {
    if n > 0 {
      PlusWraps(layerIndex, n - 1);
      var m := (layerIndex + n - 1) % UsizeRange;
      assert (m + 1) % UsizeRange == (layerIndex + n) % UsizeRange by {
        var q := (layerIndex + n - 1) / UsizeRange;
        assert layerIndex + n == q * UsizeRange + m + 1;
      }
    }
  }
}
