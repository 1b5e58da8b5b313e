/** The simulated-data record of ins/data_mng/data_sim.py: a named quantity with its internal
    units, output units, legend and the data itself, converted to the internal units when it
    is added in other units. */
module SimData {
  import opened Errors
  import opened UnitConversions

  /** The internal units: `['']` when none are given. */
  function UnitsDefault(units: Option<seq<string>>): (r: seq<string>)
    ensures units.Some? ==> r == units.value
    ensures units.None? ==> r == [""]
  {
    if units.Some? then units.value else [""]
  }

  /** The output units: the internal units when none are given. */
  function OutputUnitsDefault(units: Option<seq<string>>, outputUnits: Option<seq<string>>): (r: seq<string>)
    ensures outputUnits.None? ==> r == UnitsDefault(units)
    ensures outputUnits.Some? ==> r == outputUnits.value
  {
    if outputUnits.Some? then outputUnits.value else UnitsDefault(units)
  }

  /** The checks of `SimulatedData.__init__` as written, answering the internal and output
      units: output units of another length fail with ValueError; then the legend length is
      compared with the `units` argument itself, so a missing legend or missing units fail
      with TypeError (`len(None)`), and a legend of another length with ValueError. */
  function InitUnitsAsWritten(units: Option<seq<string>>, outputUnits: Option<seq<string>>, legend: Option<seq<string>>): (r: Result<(seq<string>, seq<string>)>)
    ensures r.Ok? <==> units.Some? && legend.Some? && |legend.value| == |units.value| &&
                       (outputUnits.Some? ==> |outputUnits.value| == |units.value|)
    ensures units.None? ==> r.Err?
    ensures r.Err? ==> r.error == ValueError || r.error == TypeError
    ensures r.Ok? ==> r.value == (units.value, OutputUnitsDefault(units, outputUnits))
  {
    var u := UnitsDefault(units);
    if outputUnits.Some? && |outputUnits.value| != |u| then Err(ValueError)
    else if legend.None? || units.None? then Err(TypeError)
    else if |legend.value| != |units.value| then Err(ValueError)
    else Ok((u, OutputUnitsDefault(units, outputUnits)))
  }

  /** Omitting the units, which the constructor defaults to `['']`, always fails. */
  lemma OmittedUnitsFail(legend: seq<string>)
    ensures InitUnitsAsWritten(None, None, Some(legend)) == Err(TypeError)
    ensures InitUnits(None, None, Some(["time"])) == Ok(([""], [""]))
  {}

  /** The checks as evidently intended: the legend is compared with the internal units, so
      the default `['']` goes with a one-entry legend. A missing legend still fails. */
  function InitUnits(units: Option<seq<string>>, outputUnits: Option<seq<string>>, legend: Option<seq<string>>): (r: Result<(seq<string>, seq<string>)>)
    ensures r.Ok? <==> legend.Some? && |legend.value| == |UnitsDefault(units)| &&
                       (outputUnits.Some? ==> |outputUnits.value| == |UnitsDefault(units)|)
    ensures r.Err? ==> r.error == ValueError || r.error == TypeError
    ensures r.Ok? ==> r.value == (UnitsDefault(units), OutputUnitsDefault(units, outputUnits))
    ensures r.Ok? ==> |r.value.0| == |r.value.1| == |legend.value|
    ensures units.Some? ==> r == InitUnitsAsWritten(units, outputUnits, legend)
  {
    var u := UnitsDefault(units);
    if outputUnits.Some? && |outputUnits.value| != |u| then Err(ValueError)
    else if legend.None? then Err(TypeError)
    else if |legend.value| != |u| then Err(ValueError)
    else Ok((u, OutputUnitsDefault(units, outputUnits)))
  }

  /** `SimulatedData(name, description, units, output_units, legend)`. */
  method NewSimulatedData(name: string, description: string, units: Option<seq<string>>,
                          outputUnits: Option<seq<string>>, legend: Option<seq<string>>) returns (r: Result<SimulatedData>)
    ensures InitUnits(units, outputUnits, legend).Err? ==> r == Err(InitUnits(units, outputUnits, legend).error)
    ensures r.Ok? ==> fresh(r.value) && r.value.data.None? && r.value.legend == legend.value &&
                      (r.value.units, r.value.outputUnits) == InitUnits(units, outputUnits, legend).value &&
                      r.value.name == name && r.value.description == description
  {
    var checked := InitUnits(units, outputUnits, legend);
    if checked.Err? {
      return Err(checked.error);
    }
    var s := new SimulatedData(name, description, checked.value.0, checked.value.1, legend.value);
    return Ok(s);
  }

  class SimulatedData {
    const name: string
    const description: string
    var units: seq<string>
    var outputUnits: seq<string>
    var legend: seq<string>
    var data: Option<Data>

    /** The fields once the arguments are checked; the data starts as None. */
    constructor (name: string, description: string, units: seq<string>, outputUnits: seq<string>, legend: seq<string>)
      ensures this.name == name && this.description == description
      ensures this.units == units && this.outputUnits == outputUnits && this.legend == legend
      ensures data.None?
    {
      this.name := name;
      this.description := description;
      this.units := units;
      this.outputUnits := outputUnits;
      this.legend := legend;
      data := None;
    }

    /** `add_data(data, units)`: without units the data is stored as given; units of another
        length raise ValueError; other units of the same length are converted to the internal
        units first, and a failed conversion stores nothing. */
    method AddData(d: Data, dataUnits: Option<seq<string>>) returns (o: Outcome)
      modifies this
      ensures units == old(units) && outputUnits == old(outputUnits) && legend == old(legend)
      ensures dataUnits.None? || dataUnits.value == units ==> o == Pass && data == Some(d)
      ensures dataUnits.Some? && |dataUnits.value| != |units| ==> o == Fail(ValueError) && data == old(data)
      ensures dataUnits.Some? && |dataUnits.value| == |units| && dataUnits.value != units ==>
                var scale := ScaleFor(dataUnits.value, units);
                if scale.Err? then o == Fail(scale.error) && data == old(data)
                else if !d.Matrix? then
                  (if ConvertValueFixed(d, UnitList(dataUnits.value), UnitList(units)).Ok?
                   then o == Pass && data == Some(ConvertValueFixed(d, UnitList(dataUnits.value), UnitList(units)).value)
                   else o == Fail(ConvertValueFixed(d, UnitList(dataUnits.value), UnitList(units)).error) && data == old(data))
                else if |scale.value| != 1 && d.m.Length1 > |scale.value| then o == Fail(IndexError) && data == old(data)
                else o == Pass && data.Some? && data.value.Matrix? && fresh(data.value.m) && ScaledCopy(d.m, data.value.m, scale.value)
    {
      if dataUnits.Some? && dataUnits.value != units {
        if |dataUnits.value| != |units| {
          return Fail(ValueError);
        }
        var converted := ConvertUnit(d, UnitList(dataUnits.value), UnitList(units));
        if converted.Err? {
          return Fail(converted.error);
        }
        data := Some(converted.value);
        return Pass;
      }
      data := Some(d);
      return Pass;
    }
  }
}
