/**
 * The detector's `settings` object (content.js:21-26). Messages may write any key with any
 * JavaScript value (content.js:80), so settings are a map from key to a model of JavaScript
 * values, and a missing key reads as `undefined`.
 */
module Settings {

  /** JavaScript values as far as the detector tests them. Numbers are integers or NaN. */
  datatype Value = Undefined | Null | Bool(b: bool) | Num(n: int) | NaN | Str(s: string)

  type SettingsMap = map<string, Value>

  const EnabledKey: string := "enabled"
  const AutoCheckKey: string := "autoCheck"
  const DelayKey: string := "delay"
  const MaxConcurrentChecksKey: string := "maxConcurrentChecks"

  /** The constructor's defaults: enabled, no auto-check, 2000 ms delay, one check at a time. */
  const DefaultSettings: SettingsMap := map[
    EnabledKey := Bool(true),
    AutoCheckKey := Bool(false),
    DelayKey := Num(2000),
    MaxConcurrentChecksKey := Num(1)
  ]

  /** `settings[key]`: reading a key that was never written gives `undefined`. */
  function Get(settings: SettingsMap, key: string): Value {
    if key in settings then settings[key] else Undefined
  }

  /** JavaScript truthiness: false, 0, NaN, "", null and undefined are falsy. */
  function Truthy(v: Value): (r: bool)
    ensures !r <==> v in {Undefined, Null, Bool(false), Num(0), NaN, Str("")}
  {
    match v
    case Undefined => false
    case Null => false
    case Bool(b) => b
    case Num(n) => n != 0
    case NaN => false
    case Str(s) => s != ""
  }

  /** The test `this.settings.enabled` of content.js:156. */
  function IsEnabled(settings: SettingsMap): (r: bool)
    ensures EnabledKey !in settings ==> !r
    ensures Get(settings, EnabledKey) == Bool(true) ==> r
    ensures Get(settings, EnabledKey) == Bool(false) ==> !r
  {
    Truthy(Get(settings, EnabledKey))
  }

  /** `settings[key] = value`: the named key reads `value` afterwards and no other key changes. */
  function Update(settings: SettingsMap, key: string, value: Value): (r: SettingsMap)
    ensures Get(r, key) == value
    ensures forall k :: k != key ==> Get(r, k) == Get(settings, k)
    ensures r.Keys == settings.Keys + {key}
  {
    settings[key := value]
  }

  /**
   * `{ ...settings, ...response }`: every key of the response wins, every other key keeps its
   * value.
   */
  function Merge(settings: SettingsMap, response: SettingsMap): (r: SettingsMap)
    ensures forall k :: k in response ==> Get(r, k) == response[k]
    ensures forall k :: k !in response ==> Get(r, k) == Get(settings, k)
    ensures r.Keys == settings.Keys + response.Keys
  {
    settings + response
  }

  /**
   * How `for (i = 0; i < n; i += batchSize) slice(i, i + batchSize)` advances for a given
   * `batchSize`: by a positive whole number of cards (`true` adds as 1); or, for NaN and
   * `undefined`, once with an empty slice after which `i` is NaN and the test `i < n` fails.
   * Every other value is `Unsupported`: 0, negative numbers, `false` and `null` never
   * advance `i`, so the loop does not end, and strings turn `+=` into concatenation.
   */
  datatype Stride = Stride(size: nat) | NaNStride | Unsupported

  function StrideOf(batchSize: Value): (r: Stride)
    ensures r.Stride? ==> r.size >= 1
    ensures batchSize.Num? && batchSize.n >= 1 ==> r == Stride(batchSize.n)
    ensures batchSize == Bool(true) ==> r == Stride(1)
    ensures r.Stride? <==> (batchSize == Bool(true) || (batchSize.Num? && batchSize.n >= 1))
    ensures r.NaNStride? <==> (batchSize == NaN || batchSize == Undefined)
  {
    match batchSize
    case Num(n) => if n >= 1 then Stride(n) else Unsupported
    case Bool(b) => if b then Stride(1) else Unsupported
    case NaN => NaNStride
    case Undefined => NaNStride
    case _ => Unsupported
  }

  /** The stride of the scan loop, read from `settings.maxConcurrentChecks` (content.js:222). */
  function BatchStride(settings: SettingsMap): (r: Stride)
    ensures MaxConcurrentChecksKey !in settings ==> r == NaNStride
    ensures var v := Get(settings, MaxConcurrentChecksKey);
      v.Num? && v.n >= 1 ==> r == Stride(v.n)
    ensures Get(settings, MaxConcurrentChecksKey) == Null ==> r == Unsupported
  {
    StrideOf(Get(settings, MaxConcurrentChecksKey))
  }

  /** The defaults are enabled and scan one card per batch. */
  lemma DefaultSettingsScanOneAtATime()
    ensures IsEnabled(DefaultSettings)
    ensures BatchStride(DefaultSettings) == Stride(1)
    ensures !Truthy(Get(DefaultSettings, AutoCheckKey))
  {
  }
}
