/**
 * Wind speed at hub height from a wind speed measured at another height:
 * the logarithmic wind profile (with an optional obstacle height) and the
 * Hellman power law. The roughness length is a series aligned with the
 * wind speed; a single roughness value is the constant series.
 */
module WindSpeed {
  import opened Common

  /** Measurement height minus the displacement of 0.7 times the obstacle height. */
  function Displaced(height: real, obstacleHeight: real): real {
    height - 0.7 * obstacleHeight
  }

  /** Logarithmic profile for one time step. */
  function LogProfileAt(v: real, h: real, hub: real, z0: real, obstacle: real, m: Math): real
    requires z0 != 0.0 && m.ln(Displaced(h, obstacle) / z0) != 0.0
  {
    v * m.ln(Displaced(hub, obstacle) / z0) / m.ln(Displaced(h, obstacle) / z0)
  }

  /** A time step at which the logarithmic profile would divide by zero. */
  predicate LogProfileDivergesAt(h: real, z0: seq<real>, obstacle: real, m: Math) {
    exists i :: 0 <= i < |z0| && (z0[i] == 0.0 || m.ln(Displaced(h, obstacle) / z0[i]) == 0.0)
  }

  /**
   * `logarithmic_profile(wind_speed, wind_speed_height, hub_height,
   * roughness_length, obstacle_height)`: a ValueError when 0.7 times the
   * obstacle height exceeds the measurement height; otherwise the wind
   * speed times ln((hub - 0.7 d) / z0) / ln((h - 0.7 d) / z0).
   */
  function LogarithmicProfile(v: seq<real>, h: real, hub: real, z0: seq<real>, obstacle: real, m: Math): (r: Result<seq<real>>)
    requires |z0| == |v|
    ensures r.Failure? && r.error.ValueError? <==> 0.7 * obstacle > h
    ensures r.Success? ==> |r.value| == |v| && forall i :: 0 <= i < |v| ==>
      z0[i] != 0.0 && m.ln(Displaced(h, obstacle) / z0[i]) != 0.0 &&
      r.value[i] == LogProfileAt(v[i], h, hub, z0[i], obstacle, m)
  {
    if 0.7 * obstacle > h then Failure(ValueError("obstacle_height"))
    else if LogProfileDivergesAt(h, z0, obstacle, m) then Failure(NonFinite("roughness_length"))
    else Success(seq(|v|, i requires 0 <= i < |v| => LogProfileAt(v[i], h, hub, z0[i], obstacle, m)))
  }

  /** At the measurement height the logarithmic profile returns the measured wind speed. */
  lemma LogarithmicProfileAtMeasuredHeight(v: seq<real>, h: real, z0: seq<real>, obstacle: real, m: Math)
    requires |z0| == |v|
    requires LogarithmicProfile(v, h, h, z0, obstacle, m).Success?
    ensures LogarithmicProfile(v, h, h, z0, obstacle, m).value == v
  {
    var r := LogarithmicProfile(v, h, h, z0, obstacle, m).value;
    forall i | 0 <= i < |v| ensures r[i] == v[i] {
      var l := m.ln(Displaced(h, obstacle) / z0[i]);
      assert r[i] == v[i] * l / l;
    }
  }

  /** The logarithm never decreases. */
  ghost predicate LnMonotone(m: Math) {
    forall x: real, y: real :: 0.0 < x <= y ==> m.ln(x) <= m.ln(y)
  }

  /**
   * With a non-decreasing logarithm, a positive roughness length and a
   * measurement height whose logarithmic term is positive, a hub above the
   * measurement height never sees less wind than was measured.
   */
  lemma LogarithmicProfileGrowsWithHeight(v: seq<real>, h: real, hub: real, z0: seq<real>, obstacle: real, m: Math, i: nat)
    requires |z0| == |v| && i < |v|
    requires LnMonotone(m)
    requires h <= hub && 0.0 <= v[i] && 0.0 < z0[i] && 0.0 < Displaced(h, obstacle)
    requires LogarithmicProfile(v, h, hub, z0, obstacle, m).Success?
    requires 0.0 < m.ln(Displaced(h, obstacle) / z0[i])
    ensures v[i] <= LogarithmicProfile(v, h, hub, z0, obstacle, m).value[i]
  {
    var a := Displaced(hub, obstacle) / z0[i];
    var b := Displaced(h, obstacle) / z0[i];
    assert 0.0 < b <= a by {
      assert b * z0[i] == Displaced(h, obstacle);
      assert a * z0[i] == Displaced(hub, obstacle);
      assert (a - b) * z0[i] == Displaced(hub, obstacle) - Displaced(h, obstacle);
    }
    var la, lb := m.ln(a), m.ln(b);
    assert lb <= la;
    assert v[i] * lb <= v[i] * la;
    var r := v[i] * la / lb;
    assert r * lb == v[i] * la;
    assert (r - v[i]) * lb >= 0.0;
  }

  // ----- Hellman

  /**
   * The Hellman exponent for one time step: the given exponent if any;
   * otherwise 1 / ln(hub / z0) when a roughness length is given; otherwise 1/7.
   */
  function HellmanExponent(hub: real, z0: Option<real>, exponent: Option<real>, m: Math): (r: Result<real>)
    ensures exponent.Some? ==> r == Success(exponent.value)
    ensures exponent.None? && z0.None? ==> r == Success(1.0 / 7.0)
    ensures exponent.None? && z0.Some? && r.Success? ==>
      z0.value != 0.0 && r.value * m.ln(hub / z0.value) == 1.0
    ensures r.Failure? <==> exponent.None? && z0.Some? && (z0.value == 0.0 || m.ln(hub / z0.value) == 0.0)
  {
    if exponent.Some? then Success(exponent.value)
    else if z0.Some? then
      if z0.value == 0.0 || m.ln(hub / z0.value) == 0.0 then Failure(NonFinite("roughness_length"))
      else Success(1.0 / m.ln(hub / z0.value))
    else Success(1.0 / 7.0)
  }

  function RoughnessAt(z0: Option<seq<real>>, i: nat): Option<real>
    requires z0.Some? ==> i < |z0.value|
  {
    if z0.Some? then Some(z0.value[i]) else None
  }

  /** Some time step's exponent cannot be computed. */
  predicate HellmanExponentFails(n: nat, hub: real, z0: Option<seq<real>>, exponent: Option<real>, m: Math)
    requires z0.Some? ==> |z0.value| == n
  {
    exists i :: 0 <= i < n && HellmanExponent(hub, RoughnessAt(z0, i), exponent, m).Failure?
  }

  /**
   * `hellman(wind_speed, wind_speed_height, hub_height, roughness_length,
   * hellman_exponent)`: the wind speed times (hub / h) to the Hellman exponent.
   */
  function Hellman(v: seq<real>, h: real, hub: real, z0: Option<seq<real>>, exponent: Option<real>, m: Math): (r: Result<seq<real>>)
    requires z0.Some? ==> |z0.value| == |v|
    ensures r.Success? ==> |r.value| == |v| && h != 0.0 && forall i :: 0 <= i < |v| ==>
      HellmanExponent(hub, RoughnessAt(z0, i), exponent, m).Success? &&
      r.value[i] == v[i] * m.pow(hub / h, HellmanExponent(hub, RoughnessAt(z0, i), exponent, m).value)
  {
    if HellmanExponentFails(|v|, hub, z0, exponent, m) then Failure(NonFinite("hellman_exponent"))
    else if h == 0.0 then Failure(NonFinite("hub_height / wind_speed_height"))
    else Success(seq(|v|, i requires 0 <= i < |v| =>
      v[i] * m.pow(hub / h, HellmanExponent(hub, RoughnessAt(z0, i), exponent, m).value)))
  }

  /** At the measurement height the Hellman law returns the measured wind speed. */
  lemma HellmanAtMeasuredHeight(v: seq<real>, h: real, z0: Option<seq<real>>, exponent: Option<real>, m: Math)
    requires z0.Some? ==> |z0.value| == |v|
    requires PowOfOne(m)
    requires Hellman(v, h, h, z0, exponent, m).Success?
    ensures Hellman(v, h, h, z0, exponent, m).value == v
  {
    var r := Hellman(v, h, h, z0, exponent, m).value;
    forall i | 0 <= i < |v| ensures r[i] == v[i] {
      var a := HellmanExponent(h, RoughnessAt(z0, i), exponent, m).value;
      assert h / h == 1.0;
      assert m.pow(h / h, a) == m.pow(1.0, a);
    }
  }

  /** With neither exponent nor roughness length every time step uses 1/7. */
  lemma HellmanDefaultExponent(v: seq<real>, h: real, hub: real, m: Math)
    requires h != 0.0
    ensures Hellman(v, h, hub, None, None, m) ==
      Success(seq(|v|, i requires 0 <= i < |v| => v[i] * m.pow(hub / h, 1.0 / 7.0)))
  {
    assert !HellmanExponentFails(|v|, hub, None, None, m);
    var r := Hellman(v, h, hub, None, None, m).value;
    var e := seq(|v|, i requires 0 <= i < |v| => v[i] * m.pow(hub / h, 1.0 / 7.0));
    forall i | 0 <= i < |v| ensures r[i] == e[i] {
      assert HellmanExponent(hub, RoughnessAt(None, i), None, m) == Success(1.0 / 7.0);
    }
    assert r == e;
  }
}
