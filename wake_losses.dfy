/**
 * Wake losses by wind efficiency curves: every wind speed is reduced by
 * the efficiency a named curve gives at that speed.
 *
 * The curves come from two CSV files, one per name prefix ("dena" and
 * "knorr"); reading them is not part of this model, so the table a file
 * holds is the parameter `read`, which maps a prefix to the curves of its
 * file by column name.
 */
module WakeLosses {
  import opened Common
  import opened Interpolation
  import opened CurveNaming

  /** The curves one file holds, by column name. */
  type EfficiencyTable = map<string, Curve>

  /** The `curve_name` argument: one string (possibly `'all'`) or a list of names. */
  datatype CurveNameArg = Name(name: string) | Names(names: seq<string>)

  /** One curve of a table with several curves. */
  datatype NamedCurve = NamedCurve(name: string, curve: Curve)

  /** The result: one curve's table for a single name, otherwise the two-level table of all. */
  datatype EfficiencyCurves = Single(curve: Curve) | Multi(curves: seq<NamedCurve>)

  /** The names a `curve_name` argument stands for. */
  function CurveNames(arg: CurveNameArg): seq<string> {
    match arg
    case Name(n) => if n == "all" then PossibleCurveNames else [n]
    case Names(ns) => ns
  }

  /**
   * One name's curve: its prefix must be "dena" or "knorr", and the file
   * of that prefix must have a column of that name; both failures raise
   * ValueError.
   */
  function CurveOf(name: string, read: string -> EfficiencyTable): (r: Result<Curve>)
    ensures r.Failure? <==>
      (Prefix(name) != "dena" && Prefix(name) != "knorr") || name !in read(Prefix(name))
    ensures r.Failure? ==> r.error.ValueError?
    ensures r.Success? ==> r.value == read(Prefix(name))[name]
  {
    var prefix := Prefix(name);
    if prefix != "dena" && prefix != "knorr" then Failure(ValueError("curve_name"))
    else if name !in read(prefix) then Failure(ValueError("curve_name"))
    else Success(read(prefix)[name])
  }

  /**
   * Setting the two columns of `name`: a name the table already holds
   * keeps its place and gets the new curve, a new name is added last.
   */
  function Put(table: seq<NamedCurve>, name: string, c: Curve): (r: seq<NamedCurve>)
    ensures 0 < |r| && |table| <= |r|
  {
    if exists k :: 0 <= k < |table| && table[k].name == name then
      seq(|table|, k requires 0 <= k < |table| =>
        if table[k].name == name then NamedCurve(name, c) else table[k])
    else table + [NamedCurve(name, c)]
  }

  /** The table after the loop over `names`; the first bad name raises. */
  function Collected(names: seq<string>, read: string -> EfficiencyTable): (r: Result<seq<NamedCurve>>)
    ensures r.Success? && |names| > 0 ==> |r.value| > 0
    decreases |names|
  {
    if |names| == 0 then Success([])
    else
      var front := Collected(names[..|names| - 1], read);
      if front.Failure? then front
      else
        var c := CurveOf(names[|names| - 1], read);
        if c.Failure? then Failure(c.error)
        else Success(Put(front.value, names[|names| - 1], c.value))
  }

  /**
   * `get_wind_efficiency_curve`: the table of the named curves; for a
   * single name, just that curve.
   */
  function EfficiencyCurve(arg: CurveNameArg, read: string -> EfficiencyTable): Result<EfficiencyCurves> {
    var names := CurveNames(arg);
    var table := Collected(names, read);
    if table.Failure? then Failure(table.error)
    else if |names| == 1 then Success(Single(table.value[0].curve))
    else Success(Multi(table.value))
  }

  /** `get_wind_efficiency_curve`'s loop over the names. */
  method GetWindEfficiencyCurve(arg: CurveNameArg, read: string -> EfficiencyTable)
    returns (r: Result<EfficiencyCurves>)
    ensures r == EfficiencyCurve(arg, read)
  {
    var names := CurveNames(arg);
    var table: seq<NamedCurve> := [];
    for i := 0 to |names|
      invariant Collected(names[..i], read) == Success(table)
    {
      var name := names[i];
      var prefix := Prefix(name);
      if prefix != "dena" && prefix != "knorr" {
        CollectedFailsAtFirst(names, read, i);
        return Failure(ValueError("curve_name"));
      }
      var curves := read(prefix);
      if name !in curves {
        CollectedFailsAtFirst(names, read, i);
        return Failure(ValueError("curve_name"));
      }
      CollectedStep(names, read, i, table);
      table := Put(table, name, curves[name]);
    }
    assert names[..|names|] == names;
    if |names| == 1 {
      return Success(Single(table[0].curve));
    }
    r := Success(Multi(table));
  }

  /** One turn of the loop over the names, for a name that exists. */
  lemma CollectedStep(names: seq<string>, read: string -> EfficiencyTable, i: nat, table: seq<NamedCurve>)
    requires i < |names| && Collected(names[..i], read) == Success(table)
    requires CurveOf(names[i], read).Success?
    ensures Collected(names[..i + 1], read) == Success(Put(table, names[i], read(Prefix(names[i]))[names[i]]))
  {
    assert names[..i + 1][..i] == names[..i];
  }

  /** `Put` on a table with one entry per name. */
  lemma PutNew(table: seq<NamedCurve>, name: string, c: Curve)
    requires forall k :: 0 <= k < |table| ==> table[k].name != name
    ensures Put(table, name, c) == table + [NamedCurve(name, c)]
  {
  }

  /** The first bad name decides the error, whatever follows it. */
  lemma {:induction false} CollectedFailsAtFirst(names: seq<string>, read: string -> EfficiencyTable, i: nat)
    requires i < |names| && Collected(names[..i], read).Success? && CurveOf(names[i], read).Failure?
    ensures Collected(names, read) == Failure(CurveOf(names[i], read).error)
    decreases |names|
  {
    if i == |names| - 1 {
      assert names[..|names| - 1] == names[..i];
    } else {
      var front := names[..|names| - 1];
      assert front[..i] == names[..i] && front[i] == names[i];
      CollectedFailsAtFirst(front, read, i);
    }
  }

  /**
   * Distinct names that all exist give a table holding exactly those
   * curves, in the order of the names.
   */
  lemma {:induction false} CollectedDistinct(names: seq<string>, read: string -> EfficiencyTable)
    requires forall i, j :: 0 <= i < j < |names| ==> names[i] != names[j]
    requires forall i :: 0 <= i < |names| ==> CurveOf(names[i], read).Success?
    ensures Collected(names, read).Success?
    ensures |Collected(names, read).value| == |names|
    ensures forall i :: 0 <= i < |names| ==>
      Collected(names, read).value[i] == NamedCurve(names[i], CurveOf(names[i], read).value)
    decreases |names|
  {
    if |names| > 0 {
      var front := names[..|names| - 1];
      CollectedDistinct(front, read);
      var t := Collected(front, read).value;
      PutNew(t, names[|names| - 1], CurveOf(names[|names| - 1], read).value);
    }
  }

  /** A single name that is not `'all'`: its curve, or ValueError. */
  lemma SingleName(name: string, read: string -> EfficiencyTable)
    requires name != "all"
    ensures CurveOf(name, read).Failure? ==>
      EfficiencyCurve(Name(name), read) == Failure(ValueError("curve_name"))
    ensures CurveOf(name, read).Success? ==>
      EfficiencyCurve(Name(name), read) == Success(Single(read(Prefix(name))[name]))
  {
    var names := [name];
    assert names[..0] == [];
    assert Collected(names[..0], read) == Success([]);
    assert CurveNames(Name(name)) == names;
    var c := CurveOf(name, read);
    if c.Success? {
      PutNew([], name, c.value);
      var e: seq<NamedCurve> := [];
      assert e + [NamedCurve(name, c.value)] == [NamedCurve(name, c.value)];
      assert names[|names| - 1] == name;
      assert Collected(names, read) == Success(Put(e, name, c.value));
    }
  }

  /** `'all'` gives the table of the seven curves, in their listed order. */
  lemma AllNames(read: string -> EfficiencyTable)
    requires forall i :: 0 <= i < |PossibleCurveNames| ==>
      CurveOf(PossibleCurveNames[i], read).Success?
    ensures EfficiencyCurve(Name("all"), read).Success?
    ensures EfficiencyCurve(Name("all"), read).value.Multi?
    ensures var t := EfficiencyCurve(Name("all"), read).value.curves;
      |t| == 7 && forall i :: 0 <= i < 7 ==> t[i].name == PossibleCurveNames[i]
  {
    PossibleNamesDistinct();
    CollectedDistinct(PossibleCurveNames, read);
  }

  /** "misspelled" has no valid prefix: ValueError. */
  lemma MisspelledName(read: string -> EfficiencyTable)
    ensures EfficiencyCurve(Name("misspelled"), read) == Failure(ValueError("curve_name"))
  {
    MisspelledWhole();
    assert "misspelled"[0] != "dena"[0] && "misspelled"[0] != "knorr"[0];
    assert CurveOf("misspelled", read).Failure?;
    SingleName("misspelled", read);
  }

  /** "dena_misspelled" has the dena prefix but is no column of the dena file: ValueError. */
  lemma MisspelledColumn(read: string -> EfficiencyTable)
    requires "dena_misspelled" !in read("dena")
    ensures EfficiencyCurve(Name("dena_misspelled"), read) == Failure(ValueError("curve_name"))
  {
    MisspelledDena();
    assert CurveOf("dena_misspelled", read).Failure?;
    SingleName("dena_misspelled", read);
  }

  // ----- reduce_wind_speed

  /**
   * `reduce_wind_speed`: every wind speed times the efficiency curve
   * interpolated at it, clamped to the first and last efficiency outside
   * the curve. `'all'` yields the two-level table, which has no
   * `wind_speed` column (KeyError); an empty curve makes `np.interp`
   * raise ValueError.
   */
  function ReduceWindSpeed(ws: seq<real>, name: string, read: string -> EfficiencyTable): (r: Result<seq<real>>)
    ensures r.Success? ==> |r.value| == |ws|
  {
    var wec := EfficiencyCurve(Name(name), read);
    if wec.Failure? then Failure(wec.error)
    else if wec.value.Multi? then Failure(KeyError("wind_speed"))
    else if |wec.value.curve| == 0 then Failure(ValueError("xp"))
    else
      var c := wec.value.curve;
      Success(seq(|ws|, i requires 0 <= i < |ws| => ws[i] * InterpClamped(c, ws[i])))
  }

  /**
   * For a known name with a non-empty curve, every reduced speed is the
   * speed times the efficiency at it.
   */
  lemma ReduceWindSpeedValues(ws: seq<real>, name: string, read: string -> EfficiencyTable)
    requires name != "all" && CurveOf(name, read).Success? && |CurveOf(name, read).value| > 0
    ensures ReduceWindSpeed(ws, name, read).Success?
    ensures forall i :: 0 <= i < |ws| ==>
      ReduceWindSpeed(ws, name, read).value[i] == ws[i] * InterpClamped(CurveOf(name, read).value, ws[i])
  {
    SingleName(name, read);
    var c := CurveOf(name, read).value;
    assert EfficiencyCurve(Name(name), read) == Success(Single(c));
  }

  /** A speed of 0 m/s stays 0 m/s. */
  lemma ReduceWindSpeedZero(ws: seq<real>, name: string, read: string -> EfficiencyTable)
    requires name != "all" && CurveOf(name, read).Success? && |CurveOf(name, read).value| > 0
    ensures ReduceWindSpeed(ws, name, read).Success?
    ensures forall i :: 0 <= i < |ws| && ws[i] == 0.0 ==> ReduceWindSpeed(ws, name, read).value[i] == 0.0
  {
    ReduceWindSpeedValues(ws, name, read);
  }

  /** Below and above a sorted curve the first and last efficiency apply. */
  lemma ReduceWindSpeedOutside(ws: seq<real>, name: string, read: string -> EfficiencyTable)
    requires name != "all" && CurveOf(name, read).Success?
    requires var c := CurveOf(name, read).value; |c| > 0 && StrictlyIncreasing(c)
    ensures ReduceWindSpeed(ws, name, read).Success?
    ensures var c := CurveOf(name, read).value; var r := ReduceWindSpeed(ws, name, read).value;
      forall i :: 0 <= i < |ws| ==>
        (ws[i] <= c[0].speed ==> r[i] == ws[i] * c[0].value) &&
        (ws[i] >= Last(c).speed ==> r[i] == ws[i] * Last(c).value)
  {
    ReduceWindSpeedValues(ws, name, read);
    var c := CurveOf(name, read).value;
    forall x: real {
      InterpClampedOutside(c, x);
    }
  }

  /** At a sample's wind speed the sample's own efficiency applies. */
  lemma ReduceWindSpeedAtSamples(ws: seq<real>, name: string, read: string -> EfficiencyTable)
    requires name != "all" && CurveOf(name, read).Success?
    requires var c := CurveOf(name, read).value; |c| > 0 && StrictlyIncreasing(c)
    ensures ReduceWindSpeed(ws, name, read).Success?
    ensures var c := CurveOf(name, read).value; var r := ReduceWindSpeed(ws, name, read).value;
      forall i, k :: 0 <= i < |ws| && 0 <= k < |c| && ws[i] == c[k].speed ==> r[i] == ws[i] * c[k].value
  {
    ReduceWindSpeedValues(ws, name, read);
    var c := CurveOf(name, read).value;
    forall k | 0 <= k < |c| {
      InterpAtSample(c, k, c[0].value, Last(c).value);
    }
  }

  /** An unknown name fails the reduction with the name check's ValueError. */
  lemma ReduceWindSpeedBadName(ws: seq<real>, name: string, read: string -> EfficiencyTable)
    requires name != "all" && CurveOf(name, read).Failure?
    ensures ReduceWindSpeed(ws, name, read) == Failure(ValueError("curve_name"))
  {
    SingleName(name, read);
  }

  /**
   * The reduction succeeds exactly for a single known name whose curve is
   * not empty; `'all'` always fails.
   */
  lemma ReduceWindSpeedCases(ws: seq<real>, name: string, read: string -> EfficiencyTable)
    ensures ReduceWindSpeed(ws, name, read).Success? <==>
      name != "all" && CurveOf(name, read).Success? && |CurveOf(name, read).value| > 0
  {
    if name == "all" {
      PossibleNamesDistinct();
      assert CurveNames(Name(name)) == PossibleCurveNames;
    } else {
      SingleName(name, read);
    }
  }

  /** With efficiencies in [0, 1], no speed of at least 0 grows and none turns negative. */
  lemma ReduceWindSpeedBounds(ws: seq<real>, name: string, read: string -> EfficiencyTable)
    requires name != "all" && CurveOf(name, read).Success? && |CurveOf(name, read).value| > 0
    requires forall k :: 0 <= k < |CurveOf(name, read).value| ==> 0.0 <= CurveOf(name, read).value[k].value <= 1.0
    requires forall i :: 0 <= i < |ws| ==> 0.0 <= ws[i]
    ensures ReduceWindSpeed(ws, name, read).Success?
    ensures forall i :: 0 <= i < |ws| ==> 0.0 <= ReduceWindSpeed(ws, name, read).value[i] <= ws[i]
  {
    ReduceWindSpeedValues(ws, name, read);
    var c := CurveOf(name, read).value;
    var r := ReduceWindSpeed(ws, name, read).value;
    forall i | 0 <= i < |ws| ensures 0.0 <= r[i] <= ws[i] {
      InterpClampedBounds(c, ws[i], 0.0, 1.0);
      ReducedBetween(ws[i], InterpClamped(c, ws[i]), r[i]);
    }
  }

  /** A speed of at least 0 times an efficiency in [0, 1]. */
  lemma ReducedBetween(w: real, e: real, r: real)
    requires 0.0 <= w && 0.0 <= e <= 1.0 && r == w * e
    ensures 0.0 <= r <= w
  {
    ScaledBetween(w, e);
  }
}
