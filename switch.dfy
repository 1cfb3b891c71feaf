/**
 * The switch platform: which devices get an outlet entity, and the outlet entity
 * `DayBetterOutletSwitch`, which keeps no state of its own.
 */
module Switch {
  import opened Wrappers
  import opened DeviceApi
  import opened Text
  import Light

  /** Outlet model numbers, compared case-sensitively. */
  const OutletSkus: seq<string> := ["P079", "P080", "S001"]
  /** Words that mark an outlet when they occur in the lower-cased model number. */
  const OutletKeywords: seq<string> := ["outlet", "plug", "socket", "switch"]
  /** What the outlet appends to the fingerprint to tell its entity and device apart from the light's. */
  const OutletSuffix := "_outlet"

  /** `any(keyword in s for keyword in keywords)`. */
  function AnyKeyword(s: string, keywords: seq<string>): (r: bool)
    ensures r <==> exists j :: 0 <= j < |keywords| && Occurs(keywords[j], s)
  {
    if keywords == [] then false
    else
      assert forall j :: 1 <= j < |keywords| ==> keywords[j] == keywords[1..][j - 1];
      Contains(s, keywords[0]) || AnyKeyword(s, keywords[1..])
  }

  /**
   * `is_outlet_device`: a device whose capabilities lack every light feature, or whose
   * lower-cased model number contains an outlet word, or whose model number is one of
   * the outlet models; in every other case not an outlet.
   */
  function IsOutletDevice(d: Device): (r: bool)
    ensures d.capabilities.Some? && !HasLightFeature(d.capabilities.value) ==> r
    ensures (|| Occurs("outlet", Lower(d.sku)) || Occurs("plug", Lower(d.sku))
             || Occurs("socket", Lower(d.sku)) || Occurs("switch", Lower(d.sku))) ==> r
    ensures d.sku == "P079" || d.sku == "P080" || d.sku == "S001" ==> r
    ensures r ==> || (d.capabilities.Some? && !HasLightFeature(d.capabilities.value))
                  || Occurs("outlet", Lower(d.sku)) || Occurs("plug", Lower(d.sku))
                  || Occurs("socket", Lower(d.sku)) || Occurs("switch", Lower(d.sku))
                  || d.sku == "P079" || d.sku == "P080" || d.sku == "S001"
  {
    if d.capabilities.Some? && !HasLightFeature(d.capabilities.value) then true
    else
      var byKeyword := AnyKeyword(Lower(d.sku), OutletKeywords);
      assert byKeyword <==> Occurs(OutletKeywords[0], Lower(d.sku)) || Occurs(OutletKeywords[1], Lower(d.sku))
                            || Occurs(OutletKeywords[2], Lower(d.sku)) || Occurs(OutletKeywords[3], Lower(d.sku));
      byKeyword || d.sku in OutletSkus
  }

  /** The outlet entity's unique id: the fingerprint followed by "_outlet". */
  function OutletUniqueId(fingerprint: string): (id: string)
    ensures |id| == |fingerprint| + |OutletSuffix| && id[..|fingerprint|] == fingerprint
    ensures id[|fingerprint|..] == OutletSuffix
    ensures id != Light.LightUniqueId(fingerprint)
  {
    fingerprint + OutletSuffix
  }

  /** Different fingerprints give different outlet ids. */
  lemma OutletUniqueIdInjective(a: string, b: string)
    requires OutletUniqueId(a) == OutletUniqueId(b)
    ensures a == b
  {
    assert |a| == |b|;
    assert a == OutletUniqueId(a)[..|a|];
  }

  /** The outlet entity `DayBetterOutletSwitch` over the device object it holds. */
  datatype OutletSwitch = OutletSwitch(device: Device) {

    function UniqueId(): (id: string)
      ensures id == OutletUniqueId(device.fingerprint)
    {
      OutletUniqueId(device.fingerprint)
    }

    /** The device-registry identifier: the integration's domain and the outlet id, never the light's. */
    function DeviceIdentifier(): (ident: (string, string))
      ensures ident.0 == Light.Domain && ident.1 == OutletUniqueId(device.fingerprint)
      ensures ident != (Light.Domain, device.fingerprint)
    {
      (Light.Domain, OutletUniqueId(device.fingerprint))
    }

    /** `is_on`: the device's own `on` attribute; there is no cache and no availability check. */
    function IsOn(): (r: bool)
      ensures r == device.on
    {
      device.on
    }
  }

  /** A device with capabilities gets at least one entity: a light or an outlet. */
  lemma LightOrOutlet(d: Device)
    requires d.capabilities.Some?
    ensures Light.IsLightDevice(d) || IsOutletDevice(d)
  {
  }

  /** A device without capabilities is never a light, even for a light model number. */
  lemma NoCapabilitiesNoLight(fingerprint: string, on: bool)
    ensures forall sku :: sku in Light.LightSkus ==> !Light.IsLightDevice(Device(fingerprint, sku, None, on))
  {
  }

  /** The two rules overlap: a dimmable device whose model number is "Plug" gets both a light and an outlet. */
  lemma LightAndOutletOverlap()
    ensures var d := Device("AA:BB", "Plug", Some(Capabilities({BrightnessFlag}, [])), false);
            Light.IsLightDevice(d) && IsOutletDevice(d)
  {
    var l := Lower("Plug");
    assert l[0] == 'p' && l[1] == 'l' && l[2] == 'u' && l[3] == 'g';
    assert l == [l[0], l[1], l[2], l[3]];
    assert OccursAt("plug", l, 0);
  }

  /** Outlet model numbers are matched case-sensitively: "p079" with a light feature is no outlet. */
  lemma OutletModelsCaseSensitive()
    ensures var caps := Some(Capabilities({BrightnessFlag}, []));
            && IsOutletDevice(Device("AA:BB", "P079", caps, false))
            && !IsOutletDevice(Device("AA:BB", "p079", caps, false))
  {
    var s := "p079";
    assert Lower(s) == s;
    forall k | k in OutletKeywords ensures !Occurs(k, s) {
      forall i | 0 <= i && i + |k| <= |s| ensures !OccursAt(k, s, i) {
        assert i == 0 && |k| == 4;
        assert s[0..4] != k;
      }
    }
  }
}
