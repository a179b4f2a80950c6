/**
 * The luminaire count of `calculateLuminaires` (src/App.jsx:184-200): area times
 * the illuminance required for the room type, divided by the luminous flux of one
 * luminaire, rounded up. The guard on missing inputs lives with the application
 * state (module AppComponent).
 */
module Lighting {
  import opened Estimation

  /** Lumens per square metre for a room type; a type without an entry of its own gets the base value. */
  function LuxFor(roomType: string): (lux: nat)
    ensures roomType == "oficina" ==> lux == 500
    ensures roomType == "hospital" ==> lux == 700
    ensures roomType != "oficina" && roomType != "hospital" ==> lux == 300
  {
    var base := 300;
    var office := if roomType == "oficina" then 500 else base;
    if roomType == "hospital" then 700 else office
  }

  /** Lumens delivered by one luminaire: LED or anything else. */
  function LumensPerLuminaire(luminaireType: string): (lpl: nat)
    ensures lpl > 0
    ensures luminaireType == "led" ==> lpl == 1500
    ensures luminaireType != "led" ==> lpl == 1000
  {
    if luminaireType == "led" then 1500 else 1000
  }

  /** `Math.ceil` on an exact real: the least integer not below `x`. */
  function Ceil(x: real): (c: int)
    ensures x <= c as real < x + 1.0
  {
    -((-x).Floor)
  }

  function Area(d: Dimensions): real {
    d.width * d.height
  }

  function TotalLumens(d: Dimensions, roomType: string): real {
    Area(d) * LuxFor(roomType) as real
  }

  /**
   * The number of luminaires: the fewest whose combined flux covers the total
   * required, so `count` of them suffice and `count - 1` do not.
   */
  function RequiredCount(d: Dimensions, roomType: string, luminaireType: string): (count: int)
    ensures count as real * LumensPerLuminaire(luminaireType) as real >= TotalLumens(d, roomType)
    ensures (count - 1) as real * LumensPerLuminaire(luminaireType) as real < TotalLumens(d, roomType)
    ensures Area(d) >= 0.0 ==> count >= 0
    ensures Area(d) == 0.0 ==> count == 0
  {
    var lpl := LumensPerLuminaire(luminaireType) as real;
    var count := Ceil(TotalLumens(d, roomType) / lpl);
    CeilDivBounds(TotalLumens(d, roomType), lpl, count);
    count
  }

  lemma CeilDivBounds(total: real, lpl: real, count: int)
    requires lpl > 0.0
    requires total / lpl <= count as real < total / lpl + 1.0
    ensures count as real * lpl >= total
    ensures (count - 1) as real * lpl < total
    ensures total >= 0.0 ==> count >= 0
    ensures total == 0.0 ==> count == 0
  {
    var q := total / lpl;
    assert q * lpl == total;
    assert count as real * lpl >= q * lpl;
    assert (count - 1) as real * lpl < q * lpl;
  }

  /** Any count satisfying the two flux bounds is the one computed. */
  lemma RequiredCountUnique(d: Dimensions, roomType: string, luminaireType: string, n: int)
    requires n as real * LumensPerLuminaire(luminaireType) as real >= TotalLumens(d, roomType)
    requires (n - 1) as real * LumensPerLuminaire(luminaireType) as real < TotalLumens(d, roomType)
    ensures n == RequiredCount(d, roomType, luminaireType)
  {
    var lpl := LumensPerLuminaire(luminaireType) as real;
    var c := RequiredCount(d, roomType, luminaireType);
    LessByFactor(n - 1, c, lpl);
    LessByFactor(c - 1, n, lpl);
  }

  lemma LessByFactor(a: int, b: int, l: real)
    requires l > 0.0 && a as real * l < b as real * l
    ensures a < b
  {
    assert (b - a) as real * l > 0.0;
  }

  /** A 4 m by 5 m office lit with LEDs: 20 m2 * 500 lm = 10000 lm, ceil(10000 / 1500) = 7. */
  lemma OfficeWithLedExample()
    ensures RequiredCount(Dimensions(4.0, 5.0, 0.0), "oficina", "led") == 7
  {
    RequiredCountUnique(Dimensions(4.0, 5.0, 0.0), "oficina", "led", 7);
  }

  /**
   * 10 m2 of "cocina", a room type the selector offers but with no lux value of its
   * own, lit with fluorescent tubes: 10 * 300 = 3000 lm, 3 luminaires.
   */
  lemma KitchenFallbackExample()
    ensures RequiredCount(Dimensions(2.0, 5.0, 0.0), "cocina", "fluorescente") == 3
  {
    RequiredCountUnique(Dimensions(2.0, 5.0, 0.0), "cocina", "fluorescente", 3);
  }
}
