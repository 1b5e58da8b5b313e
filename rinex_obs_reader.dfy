/** The reader object of io_manager/import_rinex/RinexObsReader.py: it walks the lines of an
    observation file, fills its header and column map, then pushes every observation it keeps
    into an `ObservationData` store. */
module RinexReader {
  import opened Errors
  import opened Text
  import opened PyTypes
  import opened Epochs
  import opened Series
  import opened Observations
  import opened RinexLines

  /** The three fields of an `ObservationData` store. */
  datatype Store = Store(series: SeriesValue<EpochDataValue>, types: seq<DataType>, satellites: seq<Satellite>)

  ghost predicate StoreOk(s: Store) {
    StoreInvariant(s.series) && Distinct(s.types) && Distinct(s.satellites)
  }

  function StoreOf(d: ObservationData): Store reads d {
    Store(d.series, d.types, d.satellites)
  }

  /** The store after `set_observable(epoch, sat, type, value)` with a float value. */
  function Put(s: Store, e: Epoch, r: ObsRecord): (t: Store)
    requires StoreOk(s)
    ensures StoreOk(t)
    ensures HasObservationsAt(t.series, e, r.sat) && r.dt in t.types && r.sat in t.satellites
  {
    SetObservationThenGet(s.series, e, r.sat, Observation(r.dt, r.value));
    Store(WithObservation(s.series, e, r.sat, Observation(r.dt, r.value)), AddOnce(s.types, r.dt), AddOnce(s.satellites, r.sat))
  }

  /** The store after a run of `set_observable` calls, in order. */
  function PutAll(s: Store, recs: seq<(Epoch, ObsRecord)>): (t: Store)
    requires StoreOk(s)
    ensures StoreOk(t)
    decreases |recs|
  {
    if recs == [] then s else PutAll(Put(s, recs[0].0, recs[0].1), recs[1..])
  }

  lemma {:induction false} PutAllAppend(s: Store, a: seq<(Epoch, ObsRecord)>, b: seq<(Epoch, ObsRecord)>)
    requires StoreOk(s)
    ensures PutAll(s, a + b) == PutAll(PutAll(s, a), b)
    decreases |a|
  {
    if a == [] {
      assert a + b == b;
    } else {
      assert (a + b)[0] == a[0] && (a + b)[1..] == a[1..] + b;
      PutAllAppend(Put(s, a[0].0, a[0].1), a[1..], b);
    }
  }

  /** Every satellite and type that reaches the store is listed in `_satellites` and `_types`. */
  lemma {:induction false} PutAllLists(s: Store, recs: seq<(Epoch, ObsRecord)>)
    requires StoreOk(s)
    ensures forall k :: 0 <= k < |recs| ==> recs[k].1.sat in PutAll(s, recs).satellites && recs[k].1.dt in PutAll(s, recs).types
    ensures forall x :: x in s.satellites ==> x in PutAll(s, recs).satellites
    ensures forall x :: x in s.types ==> x in PutAll(s, recs).types
    decreases |recs|
  {
    if recs != [] {
      var s1 := Put(s, recs[0].0, recs[0].1);
      PutAllLists(s1, recs[1..]);
      forall k | 0 <= k < |recs| ensures recs[k].1.sat in PutAll(s, recs).satellites && recs[k].1.dt in PutAll(s, recs).types {
        if k > 0 { assert recs[k] == recs[1..][k - 1]; }
      }
    }
  }

  lemma {:induction false} CellRecordsAppend(sat: Satellite, text: string, a: ColumnMap, b: ColumnMap, c: Config)
    ensures CellRecords(sat, text, a + b, c) == CellRecords(sat, text, a, c) + CellRecords(sat, text, b, c)
    decreases |a|
  {
    if a == [] {
      assert a + b == b;
    } else {
      assert (a + b)[0] == a[0] && (a + b)[1..] == a[1..] + b;
      CellRecordsAppend(sat, text, a[1..], b, c);
    }
  }

  /** The records of the first `j + 1` cells are those of the first `j` and then cell `j`'s. */
  lemma CellRecordsStep(sat: Satellite, text: string, m: ColumnMap, j: nat, c: Config)
    requires j < |m|
    ensures var v := CellValue(text, m[j].1, c);
            (v.Some? ==> CellRecords(sat, text, m[..j + 1], c)
                         == CellRecords(sat, text, m[..j], c) + [ObsRecord(sat, c.parsers.typeOf(Slice(m[j].0, 0, 2)), v.value)])
            && (v.None? ==> CellRecords(sat, text, m[..j + 1], c) == CellRecords(sat, text, m[..j], c))
  {
    CellRecordsAppend(sat, text, m[..j], [m[j]], c);
    assert m[..j + 1] == m[..j] + [m[j]];
    var front := CellRecords(sat, text, m[..j], c);
    assert front + [] == front;
  }

  lemma CellRecordsPrefix(sat: Satellite, text: string, m: ColumnMap, j: nat, c: Config)
    requires j <= |m| && CellRecords(sat, text, m[..j], c) != []
    ensures CellRecords(sat, text, m, c) != []
  {
    CellRecordsAppend(sat, text, m[..j], m[j..], c);
    assert m[..j] + m[j..] == m;
  }

  /** Storing one more record of a data line is one more `Put`. */
  lemma PutAllSnoc(s: Store, e: Option<Epoch>, got: seq<ObsRecord>, r: ObsRecord)
    requires StoreOk(s) && e.Some?
    ensures PutAll(s, Tagged(e, got + [r])) == Put(PutAll(s, Tagged(e, got)), e.value, r)
  {
    TaggedAppend(e, got, [r]);
    assert Tagged(e, [r]) == [(e.value, r)];
    PutAllAppend(s, Tagged(e, got), [(e.value, r)]);
    var t := PutAll(s, Tagged(e, got));
    assert PutAll(t, [(e.value, r)]) == PutAll(Put(t, e.value, r), []);
  }

  /** `_read_obs` past an epoch record. */
  lemma ScanEpochLine(lines: seq<string>, pos: nat, st: ObsState, ts: Option<string>, columns: map<string, ColumnMap>, c: Config)
    requires !IsBlank(LineAt(lines, pos)) && LineAt(lines, pos)[0] == '>'
    ensures var r := EpochRecord(LineAt(lines, pos), st, ts, c);
            (r.Err? ==> ObsScan(lines, pos, st, ts, columns, c) == ([], Fail(r.error)))
            && (r.Ok? ==> ObsScan(lines, pos, st, ts, columns, c) == ObsScan(lines, pos + 1, r.value, ts, columns, c))
            && (r.Ok? ==> var after := ObsScan(lines, pos + 1, r.value, ts, columns, c);
                         ObsScan(lines, pos, st, ts, columns, c) == ([] + after.0, after.1))
  {
    var r := EpochRecord(LineAt(lines, pos), st, ts, c);
    if r.Ok? {
      var after := ObsScan(lines, pos + 1, r.value, ts, columns, c);
      assert [] + after.0 == after.0;
    }
  }

  /** `_read_obs` past a data record. */
  lemma ScanDataLine(lines: seq<string>, pos: nat, st: ObsState, ts: Option<string>, columns: map<string, ColumnMap>, c: Config)
    requires !IsBlank(LineAt(lines, pos)) && LineAt(lines, pos)[0] != '>'
    ensures var d := DataRecord(LineAt(lines, pos), st, columns, c);
            var next := ObsScan(lines, pos + 1, st, ts, columns, c);
            (d.Err? ==> ObsScan(lines, pos, st, ts, columns, c) == ([], Fail(d.error)))
            && (d.Ok? ==> ObsScan(lines, pos, st, ts, columns, c) == (Tagged(st.epoch, d.value) + next.0, next.1))
            && (d == Ok([]) ==> ObsScan(lines, pos, st, ts, columns, c) == next)
  {
    var d := DataRecord(LineAt(lines, pos), st, columns, c);
    if d == Ok([]) {
      assert Tagged(st.epoch, d.value) == [];
      assert [] + ObsScan(lines, pos + 1, st, ts, columns, c).0 == ObsScan(lines, pos + 1, st, ts, columns, c).0;
    }
  }

  lemma Associative<T>(a: seq<T>, b: seq<T>, c: seq<T>)
    ensures a + b + c == a + (b + c)
  {}

  lemma TaggedAppend(e: Option<Epoch>, a: seq<ObsRecord>, b: seq<ObsRecord>)
    requires a + b != [] ==> e.Some?
    ensures Tagged(e, a + b) == Tagged(e, a) + Tagged(e, b)
  {
    assert |Tagged(e, a + b)| == |Tagged(e, a) + Tagged(e, b)|;
  }

  /** A `RinexObsReader` object. */
  class RinexObsReader {
    /** The lines `cFile.readline()` returns, each with its line terminator. */
    const lines: seq<string>
    /** How many lines have been read. */
    var pos: nat
    const config: Config
    /** `self._map`: constellation name to its column map. */
    var columns: map<string, ColumnMap>
    var header: ObsHeader
    const obsData: ObservationData

    function HeaderStateOf(): HeaderState reads this {
      HeaderState(header, columns, pos)
    }

    /** The instance variables `__init__` sets before it opens the file. */
    constructor (file: seq<string>, c: Config, store: ObservationData)
      ensures lines == file && config == c && obsData == store
      ensures pos == 0 && columns == map[] && header == NewObsHeader()
    {
      lines, config, obsData := file, c, store;
      pos, columns, header := 0, map[], NewObsHeader();
    }

    /** `_set_time_system(time_system)`; answers whether the warning is logged. */
    method SetTimeSystem(ts: string) returns (warned: bool)
      modifies this
      ensures header == old(header).(timeSystem := Some("GPS"))
      ensures warned <==> ChosenTimeSystem(ts, old(header).satelliteSystem, config.tables) != "GPS"
      ensures pos == old(pos) && columns == old(columns)
    {
      var chosen: string;
      if IsBlank(ts) {
        chosen := SystemName(config.tables, header.satelliteSystem, "GPS");
      } else {
        chosen := ts;
      }
      warned := false;
      if chosen != "GPS" {
        warned := true;
        chosen := "GPS";
      }
      header := header.(timeSystem := Some(chosen));
    }

    /** The inner loop of the "SYS / # / OBS TYPES" branch over the record's codes. */
    method BuildColumnMap(codes: seq<string>, services: set<string>) returns (m: ColumnMap)
      ensures m == ColumnsFor(codes, services, config.tables)
    {
      m := [];
      var i := 0;
      while i < |codes|
        invariant 0 <= i <= |codes|
        invariant ColumnsFrom(codes, i, m, services, config.tables) == ColumnsFor(codes, services, config.tables)
      {
        var code := codes[i];
        if |code| == 3 && code[1..] in services && code[0] in config.tables.typesToRead {
          // Assigning a code already present stores the same first index again.
          if !HasCode(m, code) {
            m := m + [(code, IndexOf(codes, code).value)];
          }
        }
        i := i + 1;
      }
    }

    /** One pass of the `_read_header` loop. */
    method HeaderLine() returns (o: Outcome, done: bool)
      modifies this
      ensures (HeaderStateOf(), o, done) == HeaderStep(lines, old(HeaderStateOf()), config)
    {
      var line := LineAt(lines, pos);
      pos := pos + 1;
      o, done := Pass, false;
      if Contains(line, "RINEX VERSION / TYPE") {
        var (h, r) := VersionRecord(line, header, config);
        header, o := h, r;
      } else if Contains(line, "APPROX POSITION XYZ") {
        var (h, r) := PositionRecord(line, header, config);
        header, o := h, r;
      } else if Contains(line, "LEAP SECONDS") {
        var (h, r) := LeapRecord(line, header, config);
        header, o := h, r;
      } else if Contains(line, "TIME OF FIRST OBS") {
        var data := DataPart(line, config.tables);
        var _ := SetTimeSystem(Upper(Slice(data, 48, 51)));
        var f := DateFields(Words(data), config.parsers);
        if f.Err? {
          return Fail(f.error), false;
        }
        var e := EpochFromFields(f.value, header.timeSystem, config.parsers);
        if e.Err? {
          return Fail(e.error), false;
        }
        header := header.(firstEpoch := Some(e.value));
      } else if Contains(line, "TIME OF LAST OBS") {
        var (h, r) := LastObsRecord(line, header, config);
        header, o := h, r;
      } else if Contains(line, "SYS / # / OBS TYPES") {
        var w := Words(DataPart(line, config.tables));
        var code := line[0];
        if |w| < 2 {
          return Fail(IndexError), false;
        }
        var n := config.parsers.toInt(w[1]);
        if n.None? {
          return Fail(ValueError), false;
        }
        if n.value > |w| - 2 {
          w := w + Words(DataPart(LineAt(lines, pos), config.tables));
          pos := pos + 1;
        } else {
          assert w + [] == w;
        }
        var name := SystemName(config.tables, Some(code), "");
        if name in config.services {
          var m := BuildColumnMap(w[2..], config.services[name]);
          columns := columns[name := m];
        }
      } else if Contains(line, "END OF HEADER") {
        done := true;
      } else {
        done := line == "";
      }
    }

    /** `_read_header`: reads records until END OF HEADER or the end of the file. */
    method ReadHeader() returns (o: Outcome)
      modifies this
      ensures (HeaderStateOf(), o) == HeaderScan(lines, old(HeaderStateOf()), config)
    {
      ghost var goal := HeaderScan(lines, HeaderStateOf(), config);
      var done := false;
      o := Pass;
      while true
        invariant HeaderScan(lines, HeaderStateOf(), config) == goal
        decreases |lines| - pos
      {
        o, done := HeaderLine();
        if o.Fail? || done {
          return;
        }
      }
    }

    /** `_validate_requested_observations`: ConfigError for the first requested service of a
        mapped constellation that the file does not provide. */
    method ValidateRequestedObservations() returns (o: Outcome)
      ensures o.Pass? <==> ServicesPresent(config.services, columns)
      ensures o.Fail? ==> o.error == ConfigError
    {
      var names := config.services.Keys;
      while names != {}
        invariant names <= config.services.Keys
        invariant forall n :: n in config.services && n !in names && n in columns ==> config.services[n] <= ServicesRead(columns[n])
        decreases |names|
      {
        var name :| name in names;
        if name in columns {
          var read := ServicesRead(columns[name]);
          var todo := config.services[name];
          while todo != {}
            invariant todo <= config.services[name]
            invariant forall s :: s in config.services[name] && s !in todo ==> s in read
            decreases |todo|
          {
            var s :| s in todo;
            if s !in read {
              return Fail(ConfigError);
            }
            todo := todo - {s};
          }
        }
        names := names - {name};
      }
      return Pass;
    }

    /** One `set_observable(epoch, sat, type, value)` call of the reader. */
    method StoreCell(e: Epoch, r: ObsRecord)
      requires obsData.Valid()
      modifies obsData
      ensures obsData.Valid() && StoreOf(obsData) == Put(old(StoreOf(obsData)), e, r)
    {
      var _ := obsData.SetObservable(Given(e), Given(r.sat), Given(r.dt), Float(r.value));
    }

    /** The loop over a data record's column map: each cell that yields a value goes to
        `set_observable`. While there is no epoch the first deciding cell raises instead (a
        low-signal cell's log message formats the missing epoch, `set_observable` refuses a value),
        and nothing reaches the store. */
    method StoreCells(sat: Satellite, text: string, m: ColumnMap, epoch: Option<Epoch>) returns (o: Outcome)
      requires obsData.Valid()
      modifies obsData
      ensures obsData.Valid()
      ensures epoch.None? ==> StoreOf(obsData) == old(StoreOf(obsData))
                              && o == if FirstDecisive(text, m, config).Some? then Fail(FirstDecisive(text, m, config).value) else Pass
      ensures epoch.Some? ==> o == Pass && StoreOf(obsData) == PutAll(old(StoreOf(obsData)), Tagged(epoch, CellRecords(sat, text, m, config)))
    {
      if epoch.None? {
        o := CellsWithoutEpoch(text, m);
        return;
      }
      StoreEpochCells(sat, text, m, epoch);
      o := Pass;
    }

    /** The loop of `StoreCells` while there is no epoch: blank, missing and unreadable cells are
        passed over; the first low-signal cell raises AttributeError and the first cell with a
        value TypeError. */
    method CellsWithoutEpoch(text: string, m: ColumnMap) returns (o: Outcome)
      ensures o == if FirstDecisive(text, m, config).Some? then Fail(FirstDecisive(text, m, config).value) else Pass
    {
      var j := 0;
      while j < |m|
        invariant 0 <= j <= |m| && FirstDecisive(text, m[j..], config) == FirstDecisive(text, m, config)
      {
        if LowSignal(text, m[j].1, config) {
          return Fail(AttributeError);
        }
        var v := CellValue(text, m[j].1, config);
        if v.Some? {
          return Fail(TypeError);
        }
        assert m[j..][1..] == m[j + 1..];
        j := j + 1;
      }
      return Pass;
    }

    /** The loop of `StoreCells` under an epoch: every cell that yields a value goes to the store,
        in column order. */
    method StoreEpochCells(sat: Satellite, text: string, m: ColumnMap, epoch: Option<Epoch>)
      requires obsData.Valid() && epoch.Some?
      modifies obsData
      ensures obsData.Valid()
      ensures StoreOf(obsData) == PutAll(old(StoreOf(obsData)), Tagged(epoch, CellRecords(sat, text, m, config)))
    {
      ghost var s0 := StoreOf(obsData);
      for j := 0 to |m|
        invariant obsData.Valid() && StoreOf(obsData) == PutAll(s0, Tagged(epoch, CellRecords(sat, text, m[..j], config)))
      {
        StoreCellAt(sat, text, m, j, epoch, s0);
      }
      assert m[..|m|] == m;
    }

    /** One pass of that loop: cell `j` goes to the store when it yields a value. */
    method StoreCellAt(sat: Satellite, text: string, m: ColumnMap, j: nat, epoch: Option<Epoch>, ghost s0: Store)
      requires obsData.Valid() && epoch.Some? && j < |m| && StoreOk(s0)
      requires StoreOf(obsData) == PutAll(s0, Tagged(epoch, CellRecords(sat, text, m[..j], config)))
      modifies obsData
      ensures obsData.Valid() && StoreOf(obsData) == PutAll(s0, Tagged(epoch, CellRecords(sat, text, m[..j + 1], config)))
    {
      ghost var got := CellRecords(sat, text, m[..j], config);
      CellRecordsStep(sat, text, m, j, config);
      var v := CellValue(text, m[j].1, config);
      if v.Some? {
        var cell := ObsRecord(sat, config.parsers.typeOf(Slice(m[j].0, 0, 2)), v.value);
        StoreCell(epoch.value, cell);
        PutAllSnoc(s0, epoch, got, cell);
      }
    }

    /** `_read_obs`: reads epoch and data records until the first blank line or the end of the
        file; an error that the cell handler does not catch ends the reading. */
    method ReadObs() returns (o: Outcome)
      requires obsData.Valid()
      modifies this, obsData
      ensures obsData.Valid() && header == old(header) && columns == old(columns)
      ensures var r := ObsScan(lines, old(pos), ObsState(false, None), header.timeSystem, columns, config);
              o == r.1 && StoreOf(obsData) == PutAll(old(StoreOf(obsData)), r.0)
    {
      var ts := header.timeSystem;
      ghost var s0 := StoreOf(obsData);
      ghost var goal := ObsScan(lines, pos, ObsState(false, None), ts, columns, config);
      ghost var done: seq<(Epoch, ObsRecord)> := [];
      var st := ObsState(false, None);
      while true
        invariant obsData.Valid() && header == old(header) && columns == old(columns)
        invariant StoreOf(obsData) == PutAll(s0, done)
        invariant done + ObsScan(lines, pos, st, ts, columns, config).0 == goal.0
        invariant ObsScan(lines, pos, st, ts, columns, config).1 == goal.1
        decreases |lines| - pos
      {
        ghost var rest := ObsScan(lines, pos, st, ts, columns, config);
        var stop;
        ghost var tagged;
        o, st, stop, tagged := ReadRecord(st);
        if stop {
          assert done + [] == done;
          return;
        }
        PutAllAppend(s0, done, tagged);
        Associative(done, tagged, ObsScan(lines, pos, st, ts, columns, config).0);
        done := done + tagged;
      }
    }

    /** One pass of the loop of `_read_obs`: the next line read is a blank line or the end of the
        file (the reading stops with no error), an epoch record (the state moves on) or a data
        record (its observations go to the store); an error stops the reading. */
    method ReadRecord(st: ObsState) returns (o: Outcome, next: ObsState, stop: bool, ghost tagged: seq<(Epoch, ObsRecord)>)
      requires obsData.Valid()
      modifies this, obsData
      ensures obsData.Valid() && header == old(header) && columns == old(columns)
      ensures var r := ObsScan(lines, old(pos), st, header.timeSystem, columns, config);
              if stop then r == ([], o) && StoreOf(obsData) == old(StoreOf(obsData))
              else old(pos) < pos <= |lines|
                   && StoreOf(obsData) == PutAll(old(StoreOf(obsData)), tagged)
                   && r == (tagged + ObsScan(lines, pos, next, header.timeSystem, columns, config).0,
                            ObsScan(lines, pos, next, header.timeSystem, columns, config).1)
    {
      var ts := header.timeSystem;
      var line := LineAt(lines, pos);
      next, tagged := st, [];
      if IsBlank(line) {
        return Pass, next, true, tagged;
      }
      ghost var here := pos;
      assert here < |lines|;
      pos := pos + 1;
      if line[0] == '>' {
        ScanEpochLine(lines, here, st, ts, columns, config);
        var r := EpochRecord(line, st, ts, config);
        if r.Err? {
          return Fail(r.error), next, true, tagged;
        }
        return Pass, r.value, false, tagged;
      }
      o, stop, tagged := ReadDataRecord(line, st, here);
      return o, next, stop, tagged;
    }

    /** The data record at line `here`, just read: its observations go to the store, or its
        error stops the reading. */
    method ReadDataRecord(line: string, st: ObsState, ghost here: nat) returns (o: Outcome, stop: bool, ghost tagged: seq<(Epoch, ObsRecord)>)
      requires obsData.Valid() && pos == here + 1 && line == LineAt(lines, here) && !IsBlank(line) && line[0] != '>'
      modifies obsData
      ensures obsData.Valid()
      ensures var r := ObsScan(lines, here, st, header.timeSystem, columns, config);
              var after := ObsScan(lines, pos, st, header.timeSystem, columns, config);
              if stop then r == ([], o) && StoreOf(obsData) == old(StoreOf(obsData))
              else StoreOf(obsData) == PutAll(old(StoreOf(obsData)), tagged) && r == (tagged + after.0, after.1)
    {
      ScanDataLine(lines, here, st, header.timeSystem, columns, config);
      o := ReadDataLine(line, st);
      stop := o.Fail?;
      tagged := if stop then [] else Tagged(st.epoch, DataRecord(line, st, columns, config).value);
    }

    /** A data record of `_read_obs`: the observations of its cells go to the store. */
    method ReadDataLine(line: string, st: ObsState) returns (o: Outcome)
      requires obsData.Valid() && line != [] && line[0] != '>'
      modifies obsData
      ensures obsData.Valid()
      ensures var d := DataRecord(line, st, columns, config);
              if d.Err? then o == Fail(d.error) && StoreOf(obsData) == old(StoreOf(obsData))
              else o == Pass && StoreOf(obsData) == PutAll(old(StoreOf(obsData)), Tagged(st.epoch, d.value))
    {
      if st.ignoring {
        return Pass;
      }
      if line[0] !in config.tables.satelliteSystem {
        return Fail(KeyError);
      }
      var name := config.tables.satelliteSystem[line[0]];
      if name in columns {
        o := StoreCells(Slice(line, 0, 3), Slice(line, 3, |line|), columns[name], st.epoch);
      } else {
        o := Pass;
      }
    }

    /** `__init__` after the instance variables: the header, the validation of the requested
        services, then the observations. The ObservationHeader hand-over is not modelled. */
    method Load() returns (o: Outcome)
      requires obsData.Valid()
      modifies this, obsData
      ensures obsData.Valid()
      ensures var h := HeaderScan(lines, old(HeaderStateOf()), config);
              if h.1.Fail? then o == h.1 && StoreOf(obsData) == old(StoreOf(obsData))
              else if !ServicesPresent(config.services, h.0.columns) then o == Fail(ConfigError) && StoreOf(obsData) == old(StoreOf(obsData))
              else var r := ObsScan(lines, h.0.pos, ObsState(false, None), h.0.header.timeSystem, h.0.columns, config);
                   o == r.1 && StoreOf(obsData) == PutAll(old(StoreOf(obsData)), r.0)
    {
      o := ReadHeader();
      if o.Fail? {
        return;
      }
      o := ValidateRequestedObservations();
      if o.Fail? {
        return;
      }
      o := ReadObs();
    }
  }

}
