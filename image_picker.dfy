/**
 * The result of `ImagePicker.launchImageLibraryAsync`, which both screens
 * await. The picker itself is native code; its result is an input here.
 */
module ImagePicker {
  import opened Wrappers

  /** One picked image: its display URI and, when requested, its
      base64-encoded pixels. */
  datatype Asset = Asset(uri: string, base64: Option<string>)

  /** `assets` is `None` where the source's field is null. */
  datatype PickerResult = PickerResult(canceled: bool, assets: Option<seq<Asset>>)

  /** `!result.canceled && result.assets && result.assets.length > 0`. */
  predicate Picked(r: PickerResult)
  {
    !r.canceled && r.assets.Some? && |r.assets.value| > 0
  }

  function FirstAsset(r: PickerResult): Asset
    requires Picked(r)
  {
    r.assets.value[0]
  }

  /** JavaScript truthiness of an optional string: present and non-empty. */
  predicate Truthy(s: Option<string>)
  {
    s.Some? && s.value != ""
  }

  /** The base64 payload that the chat screen analyses: the first asset's,
      when the pick succeeded and the payload is truthy. */
  function Payload(r: PickerResult): (b: Option<string>)
    ensures b.Some? <==> Picked(r) && Truthy(FirstAsset(r).base64)
    ensures b.Some? ==> b.value != "" && b == FirstAsset(r).base64
  {
    if Picked(r) && Truthy(FirstAsset(r).base64) then FirstAsset(r).base64 else None
  }
}
