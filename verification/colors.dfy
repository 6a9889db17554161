/** The values a scriptable light holds: a `Sansar.Color` (four real
    channels) and a relative intensity, with the colour arithmetic the fade
    uses. Reals stand in for `float`. */
module Colors {

  datatype Color = Color(r: real, g: real, b: real, a: real)

  /** `Sansar.Color.Black`: opaque black. */
  const Black: Color := Color(0.0, 0.0, 0.0, 1.0)

  /** `default(Sansar.Color)`, the value of an unassigned colour field. */
  const Unset: Color := Color(0.0, 0.0, 0.0, 0.0)

  /** What a light shows: its normalized colour and relative intensity. */
  datatype Light = Light(color: Color, intensity: real)

  /** The "off" value the script writes: black at zero intensity. */
  const Off: Light := Light(Black, 0.0)

  /** The value of an unassigned (colour, intensity) field pair. */
  const Unassigned: Light := Light(Unset, 0.0)

  /** `x` lies between `p` and `q`, whichever way round they are. */
  predicate Between(x: real, p: real, q: real) {
    (p <= x <= q) || (q <= x <= p)
  }

  /** Every channel of `v` lies between the matching channels of `p` and `q`. */
  predicate Within(v: Light, p: Light, q: Light) {
    && Between(v.color.r, p.color.r, q.color.r)
    && Between(v.color.g, p.color.g, q.color.g)
    && Between(v.color.b, p.color.b, q.color.b)
    && Between(v.color.a, p.color.a, q.color.a)
    && Between(v.intensity, p.intensity, q.intensity)
  }

  /** One channel of the fade: weight `t` on `p`, weight `1 - t` on `q`. */
  function Mix(p: real, q: real, t: real): (m: real)
    ensures t == 0.0 ==> m == q
    ensures t == 1.0 ==> m == p
    ensures 0.0 <= t <= 1.0 ==> Between(m, p, q)
  {
    MixBetween(p, q, t);
    p * t + q * (1.0 - t)
  }

  lemma MixBetween(p: real, q: real, t: real)
    ensures 0.0 <= t <= 1.0 ==> Between(p * t + q * (1.0 - t), p, q)
  {
    if 0.0 <= t <= 1.0 {
      var m := p * t + q * (1.0 - t);
      var d := p - q;
      var k := d * t;
      assert m == q + k;
      if d >= 0.0 {
        ProductBounds(d, t);
      } else {
        ProductBounds(-d, t);
        assert (-d) * t == -k;
      }
    }
  }

  lemma ProductBounds(d: real, t: real)
    requires 0.0 <= d && 0.0 <= t <= 1.0
    ensures 0.0 <= d * t <= d
  {
    assert d * t + d * (1.0 - t) == d;
    assert 0.0 <= d * (1.0 - t);
  }

  /** `previous * t + target * (1 - t)` on colour and intensity alike;
      `Sansar.Color`'s `*` and `+` act on each channel separately. */
  function Blend(previous: Light, target: Light, t: real): (v: Light)
    ensures t == 0.0 ==> v == target
    ensures t == 1.0 ==> v == previous
    ensures 0.0 <= t <= 1.0 ==> Within(v, previous, target)
  {
    var p := previous.color;
    var q := target.color;
    Light(
      Color(Mix(p.r, q.r, t), Mix(p.g, q.g, t), Mix(p.b, q.b, t), Mix(p.a, q.a, t)),
      Mix(previous.intensity, target.intensity, t))
  }
}
