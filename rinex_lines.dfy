/** The line-level logic of the RINEX 3.03 observation reader
    (io_manager/import_rinex/RinexObsReader.py), as functions of the file's lines: what each
    header record sets, the observation-type column map, the reading of epoch and data records
    into observations, and the validation of the requested services. */
module RinexLines {
  import opened Errors
  import opened Text
  import opened PyTypes
  import opened Epochs
  import Observations

  /** A `timedelta` as the `datetime` library keeps it. */
  type Delta = d: TimeDelta | ValidDelta(d) witness TimeDelta(0, 0, 0)

  /** The conversions the reader calls and this model takes as given: `float()` and `int()` of a
      field, the date of a `time_dict` [year, month, day, hour, minute, second] as its offset from
      the GPS reference date (ValueError for a date that does not exist), and `DataTypeFactory`. */
  datatype Parsers = Parsers(
    toReal: string -> Option<real>,
    toInt: string -> Option<int>,
    dateOffset: seq<int> -> Result<Delta>,
    typeOf: string -> Observations.DataType)

  /** The RinexUtils tables: `RINEX_SATELLITE_SYSTEM` (system letter to constellation name),
      the type letters of `RINEX_OBS_TYPES_TO_READ`, and `RINEX_OBS_END_OF_DATA_HEADER` (the column
      where a header record's label starts). */
  datatype Tables = Tables(satelliteSystem: map<char, string>, typesToRead: set<char>, endOfDataHeader: nat)

  /** Everything the reader is configured with: the services requested per constellation (the
      `ServiceManager` items), the arc limits and the signal-strength threshold. */
  datatype Config = Config(
    tables: Tables,
    parsers: Parsers,
    services: map<string, set<string>>,
    firstArc: Option<Epoch>,
    lastArc: Option<Epoch>,
    snrControlCheck: int)

  /** The slots of the reader's `Header` (all None when it is made). */
  datatype ObsHeader = ObsHeader(
    rinexVersion: Option<real>,
    satelliteSystem: Option<char>,
    timeSystem: Option<string>,
    receiverPosition: Option<seq<real>>,
    leapSeconds: Option<int>,
    firstEpoch: Option<Epoch>,
    lastEpoch: Option<Epoch>)

  function NewObsHeader(): ObsHeader {
    ObsHeader(None, None, None, None, None, None, None)
  }

  /** One constellation's entry of `self._map`: observation codes in insertion order with the
      column each one is read from. */
  type ColumnMap = seq<(string, nat)>

  /** `cFile.readline()` with the cursor at `pos`: the empty string at the end of the file. */
  function LineAt(lines: seq<string>, pos: nat): string {
    if pos < |lines| then lines[pos] else ""
  }

  /** `line[:RINEX_OBS_END_OF_DATA_HEADER]`: the data part of a header record. */
  function DataPart(line: string, t: Tables): string {
    Slice(line, 0, t.endOfDataHeader)
  }

  /** `dict.get(key, fallback)` on the satellite-system table. */
  function SystemName(t: Tables, c: Option<char>, fallback: string): string {
    if c.Some? && c.value in t.satelliteSystem then t.satelliteSystem[c.value] else fallback
  }

  // ---------------------------------------------------------------------------------------
  // Field conversions

  /** The `time_dict` of a split epoch record, built in the order Python evaluates it: the first
      five fields by `int()`, the sixth as `floor(float())`; IndexError for a missing field and
      ValueError for one that does not convert, whichever comes first. */
  function DateFields(words: seq<string>, p: Parsers): (r: Result<seq<int>>)
    ensures r.Ok? ==> |r.value| == 6 && |words| >= 6
    ensures r.Ok? ==> forall k :: 0 <= k < 5 ==> p.toInt(words[k]) == Some(r.value[k])
    ensures r.Ok? ==> p.toReal(words[5]).Some? && r.value[5] == p.toReal(words[5]).value.Floor
    ensures r.Err? ==> r.error == IndexError || r.error == ValueError
    ensures |words| < 6 && (forall k :: 0 <= k < |words| ==> (if k < 5 then p.toInt(words[k]).Some? else true)) ==> r == Err(IndexError)
  {
    DateFieldsFrom(words, 0, p)
  }

  function DateFieldsFrom(words: seq<string>, k: nat, p: Parsers): (r: Result<seq<int>>)
    requires k <= 6
    ensures r.Ok? ==> |r.value| == 6 - k && |words| >= 6
    ensures r.Ok? ==> forall j :: k <= j < 5 ==> p.toInt(words[j]) == Some(r.value[j - k])
    ensures r.Ok? && k <= 5 ==> p.toReal(words[5]).Some? && r.value[5 - k] == p.toReal(words[5]).value.Floor
    ensures r.Err? ==> r.error == IndexError || r.error == ValueError
    ensures |words| < 6 && (forall j :: k <= j < |words| ==> (if j < 5 then p.toInt(words[j]).Some? else true)) ==> r == Err(IndexError)
    decreases 6 - k
  {
    if k == 6 then (if |words| >= 6 then Ok([]) else Err(IndexError))
    else if k >= |words| then Err(IndexError)
    else
      var v := if k < 5 then p.toInt(words[k]) else (match p.toReal(words[k]) case None => None case Some(x) => Some(x.Floor));
      if v.None? then Err(ValueError)
      else match DateFieldsFrom(words, k + 1, p)
        case Err(e) => Err(e)
        case Ok(rest) => Ok([v.value] + rest)
  }

  /** `Epoch(time_dict, time_system=ts)`: AttributeError while the time system is still None,
      otherwise the constructor's own checks on the parsed date. */
  function EpochFromFields(fields: seq<int>, ts: Option<string>, p: Parsers): (r: Result<Epoch>)
    ensures ts.None? ==> r == Err(AttributeError)
    ensures ts == Some("GPS") && p.dateOffset(fields).Ok? ==> r == Ok(FromDateTime(p.dateOffset(fields).value, 0))
    ensures ts.Some? && p.dateOffset(fields).Err? ==> r.Err?
  {
    if ts.None? then Err(AttributeError)
    else
      var o := p.dateOffset(fields);
      if Upper(ts.value) != "GPS" && Upper(ts.value) != "UTC" then Err(TypeError)
      else if o.Err? then Err(o.error)
      else Construct(Parsed(Ok(o.value)), ts.value, 0)
  }

  /** `tuple(map(float, words))`: ValueError for the first word that does not convert. */
  function AllReals(words: seq<string>, p: Parsers): (r: Option<seq<real>>)
    ensures r.Some? <==> forall k :: 0 <= k < |words| ==> p.toReal(words[k]).Some?
    ensures r.Some? ==> |r.value| == |words| && forall k :: 0 <= k < |words| ==> Some(r.value[k]) == p.toReal(words[k])
  {
    if words == [] then Some([])
    else match (p.toReal(words[0]), AllReals(words[1..], p))
      case (Some(x), Some(rest)) => Some([x] + rest)
      case _ => None
  }

  // ---------------------------------------------------------------------------------------
  // Header records

  /** `_set_time_system(ts)`: the system chosen before the GPS override; a blank field falls
      back to the satellite system's constellation, or "GPS". */
  function ChosenTimeSystem(ts: string, satelliteSystem: Option<char>, t: Tables): (r: string)
    ensures !IsBlank(ts) ==> r == ts
    ensures IsBlank(ts) && satelliteSystem.Some? && satelliteSystem.value in t.satelliteSystem ==>
              r == t.satelliteSystem[satelliteSystem.value]
    ensures IsBlank(ts) && (satelliteSystem.None? || satelliteSystem.value !in t.satelliteSystem) ==> r == "GPS"
  {
    if IsBlank(ts) then SystemName(t, satelliteSystem, "GPS") else ts
  }

  /** The time system `_set_time_system` stores: whatever was chosen, it ends up "GPS"; the
      answer says whether a warning is logged, which happens exactly when the choice was not GPS. */
  function TimeSystemSet(ts: string, satelliteSystem: Option<char>, t: Tables): (r: (string, bool))
    ensures r.0 == "GPS"
    ensures r.1 <==> ChosenTimeSystem(ts, satelliteSystem, t) != "GPS"
    ensures !IsBlank(ts) ==> (r.1 <==> ts != "GPS")
  {
    var chosen := ChosenTimeSystem(ts, satelliteSystem, t);
    if chosen != "GPS" then ("GPS", true) else (chosen, false)
  }

  /** "RINEX VERSION / TYPE": the version in columns 6-10, then the file type in column 21, then
      the satellite system in column 41. The version is stored before it is checked. */
  function VersionRecord(line: string, h: ObsHeader, c: Config): (r: (ObsHeader, Outcome))
    ensures c.parsers.toReal(Slice(line, 5, 10)).None? <==> r == (h, Fail(ValueError))
    ensures r.1 == Pass <==> var v := c.parsers.toReal(Slice(line, 5, 10));
                             v.Some? && v.value >= 3.0 && |line| > 40 && line[20] == 'O'
    ensures r.1 == Pass ==> r.0 == h.(rinexVersion := c.parsers.toReal(Slice(line, 5, 10)), satelliteSystem := Some(line[40]))
    ensures var v := c.parsers.toReal(Slice(line, 5, 10));
            v.Some? && (v.value < 3.0 || (|line| > 20 && line[20] != 'O')) ==> r.1 == Fail(FileError)
  {
    match c.parsers.toReal(Slice(line, 5, 10))
      case None => (h, Fail(ValueError))
      case Some(v) =>
        var h1 := h.(rinexVersion := Some(v));
        if v < 3.0 then (h1, Fail(FileError))
        else if |line| <= 20 then (h1, Fail(IndexError))
        else if line[20] != 'O' then (h1, Fail(FileError))
        else if |line| <= 40 then (h1, Fail(IndexError))
        else (h1.(satelliteSystem := Some(line[40])), Pass)
  }

  /** "APPROX POSITION XYZ": every field of the data part as a float. */
  function PositionRecord(line: string, h: ObsHeader, c: Config): (r: (ObsHeader, Outcome))
    ensures r.1.Pass? <==> AllReals(Words(DataPart(line, c.tables)), c.parsers).Some?
    ensures r.1.Fail? ==> r == (h, Fail(ValueError))
    ensures r.1.Pass? ==> r.0 == h.(receiverPosition := AllReals(Words(DataPart(line, c.tables)), c.parsers))
  {
    var v := AllReals(Words(DataPart(line, c.tables)), c.parsers);
    if v.None? then (h, Fail(ValueError)) else (h.(receiverPosition := v), Pass)
  }

  /** "LEAP SECONDS": the first field of the data part as an int. */
  function LeapRecord(line: string, h: ObsHeader, c: Config): (r: (ObsHeader, Outcome))
    ensures Words(DataPart(line, c.tables)) == [] ==> r == (h, Fail(IndexError))
    ensures r.1.Pass? <==> var w := Words(DataPart(line, c.tables)); w != [] && c.parsers.toInt(w[0]).Some?
    ensures r.1.Pass? ==> r.0 == h.(leapSeconds := c.parsers.toInt(Words(DataPart(line, c.tables))[0]))
    ensures r.1.Fail? ==> r.0 == h
  {
    var w := Words(DataPart(line, c.tables));
    if w == [] then (h, Fail(IndexError))
    else match c.parsers.toInt(w[0])
      case None => (h, Fail(ValueError))
      case Some(n) => (h.(leapSeconds := Some(n)), Pass)
  }

  /** "TIME OF FIRST OBS": the time system in columns 49-51 is set first, then the date. */
  function FirstObsRecord(line: string, h: ObsHeader, c: Config): (r: (ObsHeader, Outcome))
    ensures r.0.timeSystem == Some("GPS")
    ensures r.1.Pass? ==> r.0.firstEpoch.Some? && r.0.lastEpoch == h.lastEpoch
    ensures r.1.Pass? <==> var f := DateFields(Words(DataPart(line, c.tables)), c.parsers);
                           f.Ok? && EpochFromFields(f.value, Some("GPS"), c.parsers).Ok?
  {
    var data := DataPart(line, c.tables);
    var h1 := h.(timeSystem := Some(TimeSystemSet(Upper(Slice(data, 48, 51)), h.satelliteSystem, c.tables).0));
    match DateFields(Words(data), c.parsers)
      case Err(e) => (h1, Fail(e))
      case Ok(f) =>
        match EpochFromFields(f, h1.timeSystem, c.parsers)
          case Err(e) => (h1, Fail(e))
          case Ok(ep) => (h1.(firstEpoch := Some(ep)), Pass)
  }

  /** "TIME OF LAST OBS": the date in the time system read so far, AttributeError when no
      "TIME OF FIRST OBS" record has set one. */
  function LastObsRecord(line: string, h: ObsHeader, c: Config): (r: (ObsHeader, Outcome))
    ensures r.0.timeSystem == h.timeSystem
    ensures DateFields(Words(DataPart(line, c.tables)), c.parsers).Ok? && h.timeSystem.None? ==> r == (h, Fail(AttributeError))
    ensures r.1.Pass? ==> r.0.lastEpoch.Some? && r.0.firstEpoch == h.firstEpoch
    ensures r.1.Fail? ==> r.0 == h
  {
    match DateFields(Words(DataPart(line, c.tables)), c.parsers)
      case Err(e) => (h, Fail(e))
      case Ok(f) =>
        match EpochFromFields(f, h.timeSystem, c.parsers)
          case Err(e) => (h, Fail(e))
          case Ok(ep) => (h.(lastEpoch := Some(ep)), Pass)
  }

  /** The codes `_read_header` keeps for a constellation: three characters, a requested service
      in characters 2-3, and a type letter the reader reads. */
  predicate Keeps(code: string, services: set<string>, t: Tables) {
    |code| == 3 && code[1..] in services && code[0] in t.typesToRead
  }

  predicate HasCode(m: ColumnMap, code: string) {
    exists k :: 0 <= k < |m| && m[k].0 == code
  }

  /** The column map built from the codes of a "SYS / # / OBS TYPES" record: each kept code
      mapped to the index of its first occurrence, in the order the codes first appear. */
  function ColumnsFor(codes: seq<string>, services: set<string>, t: Tables): ColumnMap {
    ColumnsFrom(codes, 0, [], services, t)
  }

  function ColumnsFrom(codes: seq<string>, i: nat, acc: ColumnMap, services: set<string>, t: Tables): ColumnMap
    requires i <= |codes|
    decreases |codes| - i
  {
    if i == |codes| then acc
    else
      var code := codes[i];
      var acc' := if Keeps(code, services, t) && !HasCode(acc, code) then acc + [(code, IndexOf(codes, code).value)] else acc;
      ColumnsFrom(codes, i + 1, acc', services, t)
  }

  /** Entries of a column map: the kept codes, once each, at the index of their first occurrence. */
  ghost predicate ColumnsOf(m: ColumnMap, codes: seq<string>, upTo: nat, services: set<string>, t: Tables)
    requires upTo <= |codes|
  {
    (forall k, j :: 0 <= k < j < |m| ==> m[k].0 != m[j].0)
    && (forall e :: e in m <==> e.0 in codes[..upTo] && Keeps(e.0, services, t) && IndexOf(codes, e.0) == Some(e.1))
  }

  /** The column map of `_read_header`: every kept code and nothing else, each once, mapped to
      the position of its first occurrence in the code list. */
  lemma ColumnsForFacts(codes: seq<string>, services: set<string>, t: Tables)
    ensures ColumnsOf(ColumnsFor(codes, services, t), codes, |codes|, services, t)
    ensures forall e :: e in ColumnsFor(codes, services, t) ==> e.1 < |codes| && codes[e.1] == e.0
  {
    ColumnsFromFacts(codes, 0, [], services, t);
    assert codes[..|codes|] == codes;
  }

  lemma {:induction false} ColumnsFromFacts(codes: seq<string>, i: nat, acc: ColumnMap, services: set<string>, t: Tables)
    requires i <= |codes| && ColumnsOf(acc, codes, i, services, t)
    ensures ColumnsOf(ColumnsFrom(codes, i, acc, services, t), codes, |codes|, services, t)
    decreases |codes| - i
  {
    if i < |codes| {
      var code := codes[i];
      assert codes[..i + 1] == codes[..i] + [code];
      var acc' := if Keeps(code, services, t) && !HasCode(acc, code) then acc + [(code, IndexOf(codes, code).value)] else acc;
      if Keeps(code, services, t) && HasCode(acc, code) {
        var k :| 0 <= k < |acc| && acc[k].0 == code;
        assert acc[k] in acc;
      }
      if Keeps(code, services, t) && !HasCode(acc, code) {
        forall k, j | 0 <= k < j < |acc'| ensures acc'[k].0 != acc'[j].0 {
          if j == |acc| { assert !HasCode(acc, code); }
        }
      }
      assert ColumnsOf(acc', codes, i + 1, services, t);
      ColumnsFromFacts(codes, i + 1, acc', services, t);
    } else {
      assert codes[..i] == codes;
    }
  }

  /** "SYS / # / OBS TYPES": the declared count in the second field; one continuation line is
      read when the count exceeds the codes on this line; the codes then give the column map of
      the constellation the system letter names, when that constellation is requested. The
      answer's third part says whether the continuation line was read. */
  function ObsTypesRecord(line: string, next: string, columns: map<string, ColumnMap>, c: Config)
    : (r: (map<string, ColumnMap>, Outcome, bool))
    requires line != []
    ensures r.1.Fail? ==> r.0 == columns && !r.2
    ensures r.1.Pass? <==> var w := Words(DataPart(line, c.tables)); |w| >= 2 && c.parsers.toInt(w[1]).Some?
    ensures r.1.Pass? ==> var w := Words(DataPart(line, c.tables));
                          r.2 == (c.parsers.toInt(w[1]).value > |w| - 2)
                          && var codes := (w + if r.2 then Words(DataPart(next, c.tables)) else [])[2..];
                             var name := SystemName(c.tables, Some(line[0]), "");
                             r.0 == if name in c.services then columns[name := ColumnsFor(codes, c.services[name], c.tables)] else columns
  {
    var w := Words(DataPart(line, c.tables));
    if |w| < 2 then (columns, Fail(IndexError), false)
    else match c.parsers.toInt(w[1])
      case None => (columns, Fail(ValueError), false)
      case Some(n) =>
        var more := n > |w| - 2;
        var all := w + if more then Words(DataPart(next, c.tables)) else [];
        var name := SystemName(c.tables, Some(line[0]), "");
        (if name in c.services then columns[name := ColumnsFor(all[2..], c.services[name], c.tables)] else columns, Pass, more)
  }

  /** Where `_read_header` stands: the header, the column maps and the line cursor. */
  datatype HeaderState = HeaderState(header: ObsHeader, columns: map<string, ColumnMap>, pos: nat)

  /** One pass of the `_read_header` loop, the labels tested in the order `_read_header` tests them; the flag says
      whether the loop ends (END OF HEADER, or the end of the file). */
  function HeaderStep(lines: seq<string>, st: HeaderState, c: Config): (r: (HeaderState, Outcome, bool))
    ensures !r.2 && r.1.Pass? ==> st.pos < |lines|
    ensures st.pos < r.0.pos <= st.pos + 2
    ensures r.2 ==> r.1 == Pass && r.0.pos == st.pos + 1
                    && (Contains(LineAt(lines, st.pos), "END OF HEADER") || LineAt(lines, st.pos) == "")
  {
    var line := LineAt(lines, st.pos);
    var st1 := st.(pos := st.pos + 1);
    if Contains(line, "RINEX VERSION / TYPE") then
      var (h, o) := VersionRecord(line, st.header, c); (st1.(header := h), o, false)
    else if Contains(line, "APPROX POSITION XYZ") then
      var (h, o) := PositionRecord(line, st.header, c); (st1.(header := h), o, false)
    else if Contains(line, "LEAP SECONDS") then
      var (h, o) := LeapRecord(line, st.header, c); (st1.(header := h), o, false)
    else if Contains(line, "TIME OF FIRST OBS") then
      var (h, o) := FirstObsRecord(line, st.header, c); (st1.(header := h), o, false)
    else if Contains(line, "TIME OF LAST OBS") then
      var (h, o) := LastObsRecord(line, st.header, c); (st1.(header := h), o, false)
    else if Contains(line, "SYS / # / OBS TYPES") then
      var (m, o, more) := ObsTypesRecord(line, LineAt(lines, st.pos + 1), st.columns, c);
      (st1.(columns := m, pos := if more then st.pos + 2 else st.pos + 1), o, false)
    else if Contains(line, "END OF HEADER") then (st1, Pass, true)
    else (st1, Pass, line == "")
  }

  /** `_read_header` from `st` on: the state at the end, and the outcome (a Fail is the error
      that escapes, with the fields the failing record had already set). */
  function HeaderScan(lines: seq<string>, st: HeaderState, c: Config): (r: (HeaderState, Outcome))
    ensures r.0.pos > st.pos
    ensures r.1.Pass? ==> Contains(LineAt(lines, r.0.pos - 1), "END OF HEADER") || LineAt(lines, r.0.pos - 1) == ""
    decreases |lines| - st.pos
  {
    var (st', o, done) := HeaderStep(lines, st, c);
    if o.Fail? || done then (st', o) else HeaderScan(lines, st', c)
  }

  /** The header stage always ends after at least one line and never before the record that ends it. */
  lemma HeaderStopsAtEnd(lines: seq<string>, i: nat, c: Config)
    requires i < |lines| && Contains(lines[i], "END OF HEADER")
    requires forall j :: 0 <= j < i ==> !Contains(lines[j], "RINEX VERSION / TYPE") && !Contains(lines[j], "APPROX POSITION XYZ")
                                        && !Contains(lines[j], "LEAP SECONDS") && !Contains(lines[j], "TIME OF FIRST OBS")
                                        && !Contains(lines[j], "TIME OF LAST OBS") && !Contains(lines[j], "SYS / # / OBS TYPES")
                                        && !Contains(lines[j], "END OF HEADER") && lines[j] != ""
    requires !Contains(lines[i], "RINEX VERSION / TYPE") && !Contains(lines[i], "APPROX POSITION XYZ")
             && !Contains(lines[i], "LEAP SECONDS") && !Contains(lines[i], "TIME OF FIRST OBS")
             && !Contains(lines[i], "TIME OF LAST OBS") && !Contains(lines[i], "SYS / # / OBS TYPES")
    ensures forall h, m :: HeaderScan(lines, HeaderState(h, m, 0), c) == (HeaderState(h, m, i + 1), Pass)
  {
    forall h, m ensures HeaderScan(lines, HeaderState(h, m, 0), c) == (HeaderState(h, m, i + 1), Pass) {
      SkipsTo(lines, 0, i, h, m, c);
    }
  }

  lemma {:induction false} SkipsTo(lines: seq<string>, k: nat, i: nat, h: ObsHeader, m: map<string, ColumnMap>, c: Config)
    requires k <= i < |lines| && Contains(lines[i], "END OF HEADER")
    requires forall j :: k <= j < i ==> !Contains(lines[j], "RINEX VERSION / TYPE") && !Contains(lines[j], "APPROX POSITION XYZ")
                                        && !Contains(lines[j], "LEAP SECONDS") && !Contains(lines[j], "TIME OF FIRST OBS")
                                        && !Contains(lines[j], "TIME OF LAST OBS") && !Contains(lines[j], "SYS / # / OBS TYPES")
                                        && !Contains(lines[j], "END OF HEADER") && lines[j] != ""
    requires !Contains(lines[i], "RINEX VERSION / TYPE") && !Contains(lines[i], "APPROX POSITION XYZ")
             && !Contains(lines[i], "LEAP SECONDS") && !Contains(lines[i], "TIME OF FIRST OBS")
             && !Contains(lines[i], "TIME OF LAST OBS") && !Contains(lines[i], "SYS / # / OBS TYPES")
    ensures HeaderScan(lines, HeaderState(h, m, k), c) == (HeaderState(h, m, i + 1), Pass)
    decreases i - k
  {
    if k < i {
      SkipsTo(lines, k + 1, i, h, m, c);
    }
  }

  // ---------------------------------------------------------------------------------------
  // Requested services

  /** The services a column map provides: characters 2-3 of its codes. */
  function ServicesRead(m: ColumnMap): set<string> {
    set k | 0 <= k < |m| :: Slice(m[k].0, 1, |m[k].0|)
  }

  /** `_validate_requested_observations`: every requested service of every constellation that has
      a column map must be read from the file. */
  predicate ServicesPresent(services: map<string, set<string>>, columns: map<string, ColumnMap>) {
    forall name :: name in services && name in columns ==> services[name] <= ServicesRead(columns[name])
  }

  /** A column map built for a constellation provides only services requested for it, so the
      validation fails exactly when a requested service has no kept code in the file. */
  lemma ServicesReadAreRequested(codes: seq<string>, services: set<string>, t: Tables)
    ensures ServicesRead(ColumnsFor(codes, services, t)) <= services
    ensures forall s :: s in ServicesRead(ColumnsFor(codes, services, t)) <==>
              s in services && exists k :: 0 <= k < |codes| && Keeps(codes[k], services, t) && codes[k][1..] == s
  {
    ColumnsForFacts(codes, services, t);
    var m := ColumnsFor(codes, services, t);
    forall s | s in ServicesRead(m)
      ensures s in services && exists k :: 0 <= k < |codes| && Keeps(codes[k], services, t) && codes[k][1..] == s
    {
      var j :| 0 <= j < |m| && Slice(m[j].0, 1, |m[j].0|) == s;
      assert m[j] in m;
      var k := m[j].1;
      assert codes[k] == m[j].0 && Keeps(codes[k], services, t);
      assert Slice(m[j].0, 1, |m[j].0|) == codes[k][1..];
    }
    forall s | s in services && exists k :: 0 <= k < |codes| && Keeps(codes[k], services, t) && codes[k][1..] == s
      ensures s in ServicesRead(m)
    {
      var k :| 0 <= k < |codes| && Keeps(codes[k], services, t) && codes[k][1..] == s;
      var first := IndexOf(codes, codes[k]).value;
      assert codes[..|codes|] == codes;
      assert (codes[k], first) in m;
      var j :| 0 <= j < |m| && m[j] == (codes[k], first);
      assert Slice(m[j].0, 1, |m[j].0|) == s;
    }
  }

  // ---------------------------------------------------------------------------------------
  // Observation records

  /** What one observation cell yields: nothing for a missing or blank cell (the IndexError is
      caught), nothing when the value does not convert (the ValueError is caught), nothing when
      the signal-strength digit is below the threshold, otherwise the value. */
  function CellValue(obsText: string, index: nat, c: Config): (r: Option<real>)
    ensures index >= |Chunks(obsText, 16)| ==> r.None?
    ensures r.Some? ==> var cell := Chunks(obsText, 16)[index];
                        !IsSpace(cell) && c.parsers.toReal(ValuePart(cell)) == r
                        && (DigitValue(cell[|cell| - 1]).Some? ==> DigitValue(cell[|cell| - 1]).value >= c.snrControlCheck)
  {
    var cells := Chunks(obsText, 16);
    if index >= |cells| then None
    else
      var cell := cells[index];
      if IsSpace(cell) then None
      else match c.parsers.toReal(ValuePart(cell))
        case None => None
        case Some(x) =>
          var d := DigitValue(cell[|cell| - 1]);
          if d.Some? && d.value < c.snrControlCheck then None else Some(x)
  }

  /** `cell[0:-2]`: the cell without its loss-of-lock and signal-strength columns. */
  function ValuePart(cell: string): string {
    if |cell| >= 2 then cell[..|cell| - 2] else ""
  }

  /** The rules for a cell that is present, not blank and converts: a trailing digit below the
      threshold discards it, and any other trailer (a higher digit, a blank, anything not a digit)
      keeps it. */
  lemma CellRules(obsText: string, index: nat, c: Config)
    requires index < |Chunks(obsText, 16)|
    requires var cell := Chunks(obsText, 16)[index]; !IsSpace(cell) && c.parsers.toReal(ValuePart(cell)).Some?
    ensures var cell := Chunks(obsText, 16)[index];
            var d := DigitValue(cell[|cell| - 1]);
            (CellValue(obsText, index, c).None? <==> d.Some? && d.value < c.snrControlCheck)
            && (d.None? ==> CellValue(obsText, index, c) == c.parsers.toReal(ValuePart(cell)))
  {}

  /** One observation the reader hands to `set_observable`. */
  datatype ObsRecord = ObsRecord(sat: Observations.Satellite, dt: Observations.DataType, value: real)

  /** The observations of a data record, in the order of its constellation's column map. */
  function CellRecords(sat: Observations.Satellite, obsText: string, m: ColumnMap, c: Config): (r: seq<ObsRecord>)
    ensures |r| <= |m|
    ensures forall x :: x in r ==> x.sat == sat
  {
    if m == [] then []
    else
      var v := CellValue(obsText, m[0].1, c);
      (if v.Some? then [ObsRecord(sat, c.parsers.typeOf(Slice(m[0].0, 0, 2)), v.value)] else []) + CellRecords(sat, obsText, m[1..], c)
  }

  /** Where `_read_obs` stands: the `ignoring` flag and the current epoch (None before the first). */
  datatype ObsState = ObsState(ignoring: bool, epoch: Option<Epoch>)

  /** An epoch record ("> yyyy mm dd hh mm ss.sssssss  flag n"): a flag other than 0, or an epoch
      outside [first_arc_epoch, last_arc_epoch], sets `ignoring`. A bad flag before any good epoch
      raises AttributeError from the log message, which formats the previous epoch. */
  function EpochRecord(line: string, st: ObsState, ts: Option<string>, c: Config): (r: Result<ObsState>)
    requires line != []
    ensures r.Ok? ==> var w := Words(line[1..]);
                      |w| >= 7 && DateFields(w, c.parsers).Ok? && c.parsers.toInt(w[6]).Some?
                      && (c.parsers.toInt(w[6]).value != 0 ==> r.value == ObsState(true, st.epoch) && st.epoch.Some?)
    ensures r.Ok? && c.parsers.toInt(Words(line[1..])[6]).value == 0 ==>
              var e := EpochFromFields(DateFields(Words(line[1..]), c.parsers).value, ts, c.parsers);
              e.Ok? && r.value.epoch == Some(e.value)
              && (r.value.ignoring <==> (c.firstArc.Some? && Greater(c.firstArc.value, e.value))
                                        || (c.lastArc.Some? && Greater(e.value, c.lastArc.value)))
  {
    var w := Words(line[1..]);
    match DateFields(w, c.parsers)
      case Err(e) => Err(e)
      case Ok(f) =>
        if |w| < 7 then Err(IndexError)
        else match c.parsers.toInt(w[6])
          case None => Err(ValueError)
          case Some(flag) =>
            if flag != 0 then (if st.epoch.None? then Err(AttributeError) else Ok(ObsState(true, st.epoch)))
            else match EpochFromFields(f, ts, c.parsers)
              case Err(x) => Err(x)
              case Ok(e) =>
                var outside := (c.firstArc.Some? && Greater(c.firstArc.value, e)) || (c.lastArc.Some? && Greater(e, c.lastArc.value));
                Ok(ObsState(outside, Some(e)))
  }

  /** A cell that is present, not blank and converts, but whose signal-strength digit is below
      the threshold: the reader discards it, after formatting a log message that names the
      current epoch. */
  predicate LowSignal(obsText: string, index: nat, c: Config) {
    var cells := Chunks(obsText, 16);
    index < |cells| && !IsSpace(cells[index]) && c.parsers.toReal(ValuePart(cells[index])).Some?
    && var d := DigitValue(cells[index][|cells[index]| - 1]);
       d.Some? && d.value < c.snrControlCheck
  }

  /** Whether a cell decides the outcome of a record read before any epoch: it is low-signal, or
      it yields a value. */
  predicate Decides(obsText: string, index: nat, c: Config) {
    LowSignal(obsText, index, c) || CellValue(obsText, index, c).Some?
  }

  /** The exception a deciding cell raises while there is no epoch: AttributeError from the log
      message of a low-signal cell, TypeError from `set_observable` for a value. */
  function Verdict(obsText: string, index: nat, c: Config): ErrorClass {
    if LowSignal(obsText, index, c) then AttributeError else TypeError
  }

  /** The exception the cells of a data record raise while there is no epoch yet: that of the
      first deciding cell in column-map order, or none. */
  function FirstDecisive(obsText: string, m: ColumnMap, c: Config): (r: Option<ErrorClass>)
    ensures r.Some? ==> r.value == AttributeError || r.value == TypeError
  {
    if m == [] then None
    else if Decides(obsText, m[0].1, c) then Some(Verdict(obsText, m[0].1, c))
    else FirstDecisive(obsText, m[1..], c)
  }

  /** The error comes from the first deciding cell: no cell before it decides, and that cell's
      own kind gives the exception. */
  lemma {:induction false} FirstDecisiveIsFirst(obsText: string, m: ColumnMap, c: Config)
    requires FirstDecisive(obsText, m, c).Some?
    ensures exists k :: 0 <= k < |m| && (forall i :: 0 <= i < k ==> !Decides(obsText, m[i].1, c))
              && Decides(obsText, m[k].1, c) && FirstDecisive(obsText, m, c).value == Verdict(obsText, m[k].1, c)
  {
    if !Decides(obsText, m[0].1, c) {
      var rest := m[1..];
      FirstDecisiveIsFirst(obsText, rest, c);
      var k :| 0 <= k < |rest| && (forall i :: 0 <= i < k ==> !Decides(obsText, rest[i].1, c))
                && Decides(obsText, rest[k].1, c) && FirstDecisive(obsText, rest, c).value == Verdict(obsText, rest[k].1, c);
      assert forall i :: 0 <= i < k + 1 ==> !Decides(obsText, m[i].1, c) by {
        assert forall i :: 0 <= i < k ==> rest[i] == m[i + 1];
      }
      assert rest[k] == m[k + 1];
    }
  }

  /** A record none of whose cells decides anything: no cell decides, and it yields no
      observation. */
  lemma {:induction false} FirstDecisiveNone(sat: Observations.Satellite, obsText: string, m: ColumnMap, c: Config)
    requires FirstDecisive(obsText, m, c).None?
    ensures forall k :: 0 <= k < |m| ==> !Decides(obsText, m[k].1, c)
    ensures CellRecords(sat, obsText, m, c) == []
  {
    if m != [] {
      var rest := m[1..];
      FirstDecisiveNone(sat, obsText, rest, c);
      assert forall k :: 1 <= k < |m| ==> m[k] == rest[k - 1];
    }
  }

  /** A data record: skipped while ignoring; KeyError for a system letter outside the table;
      nothing for a constellation without a column map; before any epoch, the exception of its
      first deciding cell, if any; otherwise its cells' observations. */
  function DataRecord(line: string, st: ObsState, columns: map<string, ColumnMap>, c: Config): (r: Result<seq<ObsRecord>>)
    requires line != []
    ensures st.ignoring ==> r == Ok([])
    ensures !st.ignoring && line[0] !in c.tables.satelliteSystem ==> r == Err(KeyError)
    ensures r.Ok? && r.value != [] ==> st.epoch.Some? && !st.ignoring
    ensures r.Ok? && !st.ignoring && line[0] in c.tables.satelliteSystem && c.tables.satelliteSystem[line[0]] in columns ==>
              r.value == CellRecords(Slice(line, 0, 3), Slice(line, 3, |line|), columns[c.tables.satelliteSystem[line[0]]], c)
    ensures !st.ignoring && st.epoch.None? && line[0] in c.tables.satelliteSystem && c.tables.satelliteSystem[line[0]] in columns ==>
              var d := FirstDecisive(Slice(line, 3, |line|), columns[c.tables.satelliteSystem[line[0]]], c);
              (r.Err? <==> d.Some?) && (r.Err? ==> r.error == d.value)
  {
    if st.ignoring then Ok([])
    else if line[0] !in c.tables.satelliteSystem then Err(KeyError)
    else
      var name := c.tables.satelliteSystem[line[0]];
      if name !in columns then Ok([])
      else if st.epoch.None? then
        match FirstDecisive(Slice(line, 3, |line|), columns[name], c)
        case Some(e) => Err(e)
        case None =>
          FirstDecisiveNone(Slice(line, 0, 3), Slice(line, 3, |line|), columns[name], c);
          Ok([])
      else Ok(CellRecords(Slice(line, 0, 3), Slice(line, 3, |line|), columns[name], c))
  }

  /** `_read_obs` from line `pos` on: the observations stored, tagged with their epochs, and the
      outcome; reading stops at the first blank line or the end of the file. */
  function ObsScan(lines: seq<string>, pos: nat, st: ObsState, ts: Option<string>, columns: map<string, ColumnMap>, c: Config)
    : (r: (seq<(Epoch, ObsRecord)>, Outcome))
    decreases |lines| - pos
  {
    var line := LineAt(lines, pos);
    if IsBlank(line) then ([], Pass)
    else if line[0] == '>' then
      match EpochRecord(line, st, ts, c)
        case Err(e) => ([], Fail(e))
        case Ok(st') => ObsScan(lines, pos + 1, st', ts, columns, c)
    else
      match DataRecord(line, st, columns, c)
        case Err(e) => ([], Fail(e))
        case Ok(recs) =>
          var rest := ObsScan(lines, pos + 1, st, ts, columns, c);
          (Tagged(st.epoch, recs) + rest.0, rest.1)
  }

  /** The records of one data line, each with the epoch it is stored under. */
  function Tagged(e: Option<Epoch>, recs: seq<ObsRecord>): (r: seq<(Epoch, ObsRecord)>)
    requires recs != [] ==> e.Some?
    ensures |r| == |recs| && forall k :: 0 <= k < |r| ==> r[k] == (e.value, recs[k])
  {
    if recs == [] then [] else [(e.value, recs[0])] + Tagged(e, recs[1..])
  }

  /** A data record read while ignoring contributes nothing: every observation `_read_obs` stores
      is tagged with an epoch inside the arc limits and with a zero epoch flag. */
  lemma StoredEpochsInArc(lines: seq<string>, pos: nat, st: ObsState, ts: Option<string>, columns: map<string, ColumnMap>, c: Config)
    requires !st.ignoring ==> st.epoch.Some? ==> InArc(st.epoch.value, c)
    ensures forall x :: x in ObsScan(lines, pos, st, ts, columns, c).0 ==> InArc(x.0, c)
    decreases |lines| - pos
  {
    var line := LineAt(lines, pos);
    if !IsBlank(line) {
      if line[0] == '>' {
        match EpochRecord(line, st, ts, c)
          case Err(_) =>
          case Ok(st') => StoredEpochsInArc(lines, pos + 1, st', ts, columns, c);
      } else {
        match DataRecord(line, st, columns, c)
          case Err(_) =>
          case Ok(recs) => StoredEpochsInArc(lines, pos + 1, st, ts, columns, c);
      }
    }
  }

  /** Not before the first arc epoch and not after the last. */
  predicate InArc(e: Epoch, c: Config) {
    !(c.firstArc.Some? && Greater(c.firstArc.value, e)) && !(c.lastArc.Some? && Greater(e, c.lastArc.value))
  }
}
