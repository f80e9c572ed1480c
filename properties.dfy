/** The header interpretation of a force file (`Properties` in
    JPKay/core/data_structures.py): the merged root and shared headers, the
    segment catalog, the channel numbers, the conversion factors and the units. */
module ForceProperties {
  import opened Faults
  import opened Text
  import opened Dicts
  import opened Archive
  import opened Channels

  const SharedHeaderPath := "shared-data/header.properties"
  const SegmentCountKey := "force-scan-series.force-segments.count"
  const SegmentNameKey := "force-segment-header.name.name"
  const CellhesionSuffix := "-cellhesion200"
  const NameJpkField := "name_jpk"
  const NameField := "name"
  const SegmentNumberField := "segment_number"

  /** How the header files of a force file are read: `read(path)` is what
      `ForceArchive(file_path).read_properties(path)` gives. */
  type Reader = string -> Result<Dict<string>>

  /** `ForceArchive(file_path).read_properties(path)`: every read opens the
      file afresh, so the magic check is made again each time. */
  function ReadFromFile(zip: Zip, host: Host, path: string): (r: Result<Dict<string>>)
    ensures r.Ok? <==> OpenSpec(zip, host).Ok? && ReadPropertiesSpec(zip, host, path).Ok?
    ensures r.Ok? ==> r == ReadPropertiesSpec(zip, host, path)
  {
    var archive :- OpenSpec(zip, host);
    ReadPropertiesSpec(archive.zip, host, path)
  }

  /** One read of a header file of the force file: open the archive, which
      checks its magic value, then read the property file at `path`. */
  method ReadFile(zip: Zip, host: Host, path: string) returns (r: Result<Dict<string>>)
    ensures r == ReadFromFile(zip, host, path)
  {
    var archive := Open(zip, host);
    if archive.Err? {
      return Err(archive.error);
    }
    r := ReadProperties(archive.value, host, path);
  }

  /** The reader of a force file given as its container. */
  function FileReader(zip: Zip, host: Host): Reader {
    path => ReadFromFile(zip, host, path)
  }

  /** `load_general_props`: `{**root, **shared}` of the two header files. */
  function LoadGeneralProps(read: Reader): (r: Result<Dict<string>>)
    ensures r.Ok? <==> read(HeaderPath).Ok? && read(SharedHeaderPath).Ok?
    ensures r.Ok? ==> ToMap(r.value) == ToMap(read(HeaderPath).value) + ToMap(read(SharedHeaderPath).value)
    ensures r.Ok? ==> Keys(read(HeaderPath).value) <= Keys(r.value)
  {
    var root :- read(HeaderPath);
    var shared :- read(SharedHeaderPath);
    Ok(Merge(root, shared))
  }

  /** The vendor segment names with a canonical name of their own. */
  const VendorSegmentNames: seq<(string, string)> :=
    [("extend", "approach"), ("pause-at-end", "contact"), ("pause-at-start", "pause")]

  /** Where the header of segment `i` is stored. */
  function SegmentPath(i: nat): string {
    "segments/" + NatToString(i) + "/segment-header.properties"
  }

  /** The record of segment `i` made from its header: its canonical name and
      the header with the three reserved fields written into it. */
  function SegmentRecord(header: Dict<string>, i: nat): (r: Result<(string, Dict<string>)>)
    ensures r.Ok? <==> SegmentNameKey in ToMap(header)
    ensures r.Err? ==> r.error == KeyError(SegmentNameKey)
    ensures r.Ok? ==>
              var nameJpk := RemoveAll(ToMap(header)[SegmentNameKey], CellhesionSuffix);
              && r.value.0 == Properties.ConvertSegmentName(nameJpk)
              && ToMap(r.value.1) == ToMap(header)[NameJpkField := nameJpk][NameField := r.value.0]
                                                  [SegmentNumberField := NatToString(i)]
  {
    var raw :- Lookup(header, SegmentNameKey);
    var nameJpk := RemoveAll(raw, CellhesionSuffix);
    var name := Properties.ConvertSegmentName(nameJpk);
    Ok((name, Put(Put(Put(header, NameJpkField, nameJpk), NameField, name), SegmentNumberField, NatToString(i))))
  }

  /** The record of segment `i`, or the fault of reading its header. */
  function SegmentEntry(read: Reader, i: nat): Result<(string, Dict<string>)> {
    var header :- read(SegmentPath(i));
    SegmentRecord(header, i)
  }

  /** The records of the segments, by segment number. */
  function SegmentRecords(read: Reader): nat -> Result<(string, Dict<string>)> {
    i => SegmentEntry(read, i)
  }

  /** The records of segments `0 .. n-1` in order, or the fault of the first
      segment whose record cannot be made. */
  function SegmentEntries(record: nat -> Result<(string, Dict<string>)>, n: nat): (r: Result<seq<(string, Dict<string>)>>)
    ensures r.Ok? ==> |r.value| == n
    decreases n
  {
    if n == 0 then Ok([])
    else
      var prev :- SegmentEntries(record, n - 1);
      var entry :- record(n - 1);
      Ok(prev + [entry])
  }

  /** The catalog after segments `0 .. n-1`: each record stored under its
      canonical name, a later one replacing an earlier one of the same name. */
  function CatalogUpTo(record: nat -> Result<(string, Dict<string>)>, n: nat): (r: Result<Dict<Dict<string>>>)
    ensures r.Ok? ==> |r.value| <= n
  {
    var entries :- SegmentEntries(record, n);
    PutAllLength([], entries);
    Ok(PutAll([], entries))
  }

  /** The entries are the records of the segments, one by one. */
  lemma {:induction false} SegmentEntriesAt(record: nat -> Result<(string, Dict<string>)>, n: nat, i: nat)
    requires SegmentEntries(record, n).Ok? && i < n
    ensures record(i) == Ok(SegmentEntries(record, n).value[i])
    decreases n
  {
    if i < n - 1 {
      SegmentEntriesAt(record, n - 1, i);
    }
  }

  /** The records are made exactly when every segment's record is, and
      otherwise the first segment that fails gives the fault. */
  lemma {:induction false} SegmentEntriesFault(record: nat -> Result<(string, Dict<string>)>, n: nat)
    ensures SegmentEntries(record, n).Ok? <==> forall i :: 0 <= i < n ==> record(i).Ok?
    ensures SegmentEntries(record, n).Err? ==>
              exists i :: && 0 <= i < n && record(i) == Err(SegmentEntries(record, n).error)
                          && forall j :: 0 <= j < i ==> record(j).Ok?
    decreases n
  {
    if n > 0 {
      SegmentEntriesFault(record, n - 1);
      if SegmentEntries(record, n - 1).Ok? && record(n - 1).Err? {
        assert record(n - 1) == Err(SegmentEntries(record, n).error);
      }
    }
  }

  /** The catalog is built exactly when every segment's record is, and
      otherwise fails with the fault of the first segment that fails. */
  lemma {:induction false} CatalogFault(record: nat -> Result<(string, Dict<string>)>, n: nat)
    ensures CatalogUpTo(record, n).Ok? <==> forall i :: 0 <= i < n ==> record(i).Ok?
    ensures CatalogUpTo(record, n).Err? ==>
              exists i :: && 0 <= i < n && record(i) == Err(CatalogUpTo(record, n).error)
                          && forall j :: 0 <= j < i ==> record(j).Ok?
  {
    SegmentEntriesFault(record, n);
  }

  /** The number of segments the general header announces, or the fault of
      reading it; `range` of a negative count is empty. */
  function SegmentCount(general: Dict<string>): (r: Result<nat>)
    ensures r.Ok? <==> SegmentCountKey in ToMap(general) && ParseInt(ToMap(general)[SegmentCountKey]).Some?
    ensures r.Ok? ==> r.value == if ParseInt(ToMap(general)[SegmentCountKey]).value < 0 then 0
                                 else ParseInt(ToMap(general)[SegmentCountKey]).value
  {
    var text :- Lookup(general, SegmentCountKey);
    match ParseInt(text)
    case None => Err(Unparsable(text))
    case Some(count) => Ok(if count < 0 then 0 else count)
  }

  /** What `extract_segment_props` returns. */
  function SegmentCatalog(read: Reader, general: Dict<string>): (r: Result<Dict<Dict<string>>>)
    ensures SegmentCount(general).Err? ==> r == Err(SegmentCount(general).error)
    ensures r.Ok? ==> SegmentCount(general).Ok? && |r.value| <= SegmentCount(general).value
  {
    var n :- SegmentCount(general);
    CatalogUpTo(SegmentRecords(read), n)
  }

  /** Every entry of the catalog is exactly the record some segment produced,
      and it is stored under that record's canonical name. */
  lemma {:induction false} CatalogEntriesAreRecords(record: nat -> Result<(string, Dict<string>)>, n: nat, name: string)
    requires CatalogUpTo(record, n).Ok?
    requires name in ToMap(CatalogUpTo(record, n).value)
    ensures exists i :: 0 <= i < n && record(i) == Ok((name, ToMap(CatalogUpTo(record, n).value)[name]))
  {
    var entries := SegmentEntries(record, n).value;
    assert ToMap<Dict<string>>([]) == map[];
    InToMap(entries, name);
    var i := IndexOf(entries, name).value;
    ToMapLastWins(entries, i);
    SegmentEntriesAt(record, n, i);
  }

  /** The last segment with a canonical name decides its entry. */
  lemma {:induction false} CatalogLaterSegmentWins(record: nat -> Result<(string, Dict<string>)>, n: nat, i: nat)
    requires forall j :: 0 <= j < n ==> record(j).Ok?
    requires CatalogUpTo(record, n).Ok? && i < n
    requires forall j :: i < j < n ==> record(j).value.0 != record(i).value.0
    ensures record(i).value.0 in ToMap(CatalogUpTo(record, n).value)
    ensures ToMap(CatalogUpTo(record, n).value)[record(i).value.0] == record(i).value.1
  {
    CatalogFault(record, n);
    var entries := SegmentEntries(record, n).value;
    assert ToMap<Dict<string>>([]) == map[];
    forall j | i <= j < n ensures record(j) == Ok(entries[j]) {
      SegmentEntriesAt(record, n, j);
    }
    ToMapLastWins(entries, i);
  }

  /** A record holds its own canonical name and the number of the segment it
      came from, and its vendor name converts to its canonical name. */
  lemma {:induction false} SegmentRecordFields(header: Dict<string>, i: nat)
    requires SegmentRecord(header, i).Ok?
    ensures NameField in ToMap(SegmentRecord(header, i).value.1)
    ensures ToMap(SegmentRecord(header, i).value.1)[NameField] == SegmentRecord(header, i).value.0
    ensures SegmentNumberField in ToMap(SegmentRecord(header, i).value.1)
    ensures ToMap(SegmentRecord(header, i).value.1)[SegmentNumberField] == NatToString(i)
    ensures NameJpkField in ToMap(SegmentRecord(header, i).value.1)
    ensures Properties.ConvertSegmentName(ToMap(SegmentRecord(header, i).value.1)[NameJpkField])
            == SegmentRecord(header, i).value.0
  {
    var r := SegmentRecord(header, i).value;
    var nameJpk := RemoveAll(ToMap(header)[SegmentNameKey], CellhesionSuffix);
    var m := ToMap(header)[NameJpkField := nameJpk][NameField := r.0][SegmentNumberField := NatToString(i)];
    assert ToMap(r.1) == m;
    assert m[NameJpkField] == nameJpk;
  }

  /** Two entries of the force file's catalog never come from the same
      segment: the recorded segment number tells them apart. */
  lemma {:induction false} CatalogSegmentNumbersDiffer(read: Reader, n: nat, a: string, b: string)
    requires CatalogUpTo(SegmentRecords(read), n).Ok?
    requires a in ToMap(CatalogUpTo(SegmentRecords(read), n).value)
    requires b in ToMap(CatalogUpTo(SegmentRecords(read), n).value) && a != b
    ensures SegmentNumberField in ToMap(ToMap(CatalogUpTo(SegmentRecords(read), n).value)[a])
    ensures SegmentNumberField in ToMap(ToMap(CatalogUpTo(SegmentRecords(read), n).value)[b])
    ensures ToMap(ToMap(CatalogUpTo(SegmentRecords(read), n).value)[a])[SegmentNumberField]
            != ToMap(ToMap(CatalogUpTo(SegmentRecords(read), n).value)[b])[SegmentNumberField]
  {
    var record := SegmentRecords(read);
    var catalog := ToMap(CatalogUpTo(record, n).value);
    CatalogEntriesAreRecords(record, n, a);
    CatalogEntriesAreRecords(record, n, b);
    var i :| 0 <= i < n && record(i) == Ok((a, catalog[a]));
    var j :| 0 <= j < n && record(j) == Ok((b, catalog[b]));
    RecordNumber(read, i);
    RecordNumber(read, j);
    if NatToString(i) == NatToString(j) {
      NatToStringInjective(i, j);
    }
  }

  /** The segment number a record of the force file carries. */
  lemma {:induction false} RecordNumber(read: Reader, i: nat)
    requires SegmentEntry(read, i).Ok?
    ensures SegmentNumberField in ToMap(SegmentEntry(read, i).value.1)
    ensures ToMap(SegmentEntry(read, i).value.1)[SegmentNumberField] == NatToString(i)
  {
    SegmentRecordFields(read(SegmentPath(i)).value, i);
  }

  /** No character but the first of the suffix is a '-', so no proper suffix
      of it is also a prefix. */
  lemma {:induction false} CellhesionSuffixBorderFree()
    ensures BorderFree(CellhesionSuffix)
  {
    forall k | 0 < k < |CellhesionSuffix|
      ensures CellhesionSuffix[k..] != CellhesionSuffix[..|CellhesionSuffix| - k]
    {
      assert CellhesionSuffix[k..][0] != '-';
    }
  }

  /** A name that carries the suffix once, at its end, loses exactly that suffix. */
  lemma {:induction false} CellhesionSuffixStripped(base: string)
    requires forall k :: !OccursAt(base, CellhesionSuffix, k)
    ensures RemoveAll(base + CellhesionSuffix, CellhesionSuffix) == base
  {
    CellhesionSuffixBorderFree();
    RemoveAllAppended(base, CellhesionSuffix);
  }

  /** The suffix of a unit key of a channel block. */
  const ForceUnitSuffix := "conversion-set.conversion.force.scaling.unit.unit"
  const NominalUnitSuffix := "conversion-set.conversion.nominal.scaling.unit.unit"

  /** The calibration entries read for each channel: the name of the entry
      and the key suffix after the channel block's prefix. */
  const VDeflectionFactors: seq<(string, string)> := [
    ("raw multiplier", "encoder.scaling.multiplier"),
    ("raw offset", "encoder.scaling.offset"),
    ("distance multiplier", "conversion-set.conversion.distance.scaling.multiplier"),
    ("distance offset", "conversion-set.conversion.distance.scaling.offset"),
    ("force multiplier", "conversion-set.conversion.force.scaling.multiplier"),
    ("force offset", "conversion-set.conversion.force.scaling.offset")]

  const HeightFactors: seq<(string, string)> := [
    ("raw multiplier", "encoder.scaling.multiplier"),
    ("raw offset", "encoder.scaling.offset"),
    ("calibrated multiplier", "conversion-set.conversion.nominal.scaling.multiplier"),
    ("calibrated offset", "conversion-set.conversion.nominal.scaling.offset")]

  /** `float(general[key])` succeeds. */
  predicate FactorReadable(general: Dict<string>, key: string, parseReal: string -> Option<real>) {
    key in ToMap(general) && parseReal(ToMap(general)[key]).Some?
  }

  /** The fault of a `float(general[key])` that fails: KeyError, or the text
      that does not parse. */
  function FactorFault(general: Dict<string>, key: string): Fault {
    if key in ToMap(general) then Unparsable(ToMap(general)[key]) else KeyError(key)
  }

  /** `float(general[key])`. */
  function Factor(general: Dict<string>, key: string, parseReal: string -> Option<real>): (r: Result<real>)
    ensures r.Ok? <==> FactorReadable(general, key, parseReal)
    ensures r.Ok? ==> r.value == parseReal(ToMap(general)[key]).value
    ensures r.Err? ==> r.error == FactorFault(general, key)
  {
    var text :- Lookup(general, key);
    match parseReal(text)
    case None => Err(Unparsable(text))
    case Some(v) => Ok(v)
  }

  /** How a calibration entry is read: `factor(key)` is `float(general[key])`. */
  type FactorReader = string -> Result<real>

  /** The factor reader of a general header. */
  function FactorsOf(general: Dict<string>, parseReal: string -> Option<real>): FactorReader {
    key => Factor(general, key, parseReal)
  }

  /** The six vDeflection entries of `extract_conversion_factors`, read in
      order from the channel block with prefix `channel`. */
  function VDeflectionEntries(factor: FactorReader, channel: string): (r: Result<seq<(string, real)>>)
    ensures r.Ok? <==> FactorsReadable(factor, channel, VDeflectionFactors)
    ensures r.Ok? ==> FactorsFollow(r.value, factor, channel, VDeflectionFactors)
    ensures r.Err? ==> FirstFault(r.error, factor, channel, VDeflectionFactors)
  {
    var rawMultiplier :- factor(channel + VDeflectionFactors[0].1);
    var rawOffset :- factor(channel + VDeflectionFactors[1].1);
    var distanceMultiplier :- factor(channel + VDeflectionFactors[2].1);
    var distanceOffset :- factor(channel + VDeflectionFactors[3].1);
    var forceMultiplier :- factor(channel + VDeflectionFactors[4].1);
    var forceOffset :- factor(channel + VDeflectionFactors[5].1);
    Ok([("raw multiplier", rawMultiplier), ("raw offset", rawOffset),
        ("distance multiplier", distanceMultiplier), ("distance offset", distanceOffset),
        ("force multiplier", forceMultiplier), ("force offset", forceOffset)])
  }

  /** The four height entries of `extract_conversion_factors`, read in order
      from the channel block with prefix `channel`. */
  function HeightEntries(factor: FactorReader, channel: string): (r: Result<seq<(string, real)>>)
    ensures r.Ok? <==> FactorsReadable(factor, channel, HeightFactors)
    ensures r.Ok? ==> FactorsFollow(r.value, factor, channel, HeightFactors)
    ensures r.Err? ==> FirstFault(r.error, factor, channel, HeightFactors)
  {
    var rawMultiplier :- factor(channel + HeightFactors[0].1);
    var rawOffset :- factor(channel + HeightFactors[1].1);
    var calibratedMultiplier :- factor(channel + HeightFactors[2].1);
    var calibratedOffset :- factor(channel + HeightFactors[3].1);
    Ok([("raw multiplier", rawMultiplier), ("raw offset", rawOffset),
        ("calibrated multiplier", calibratedMultiplier), ("calibrated offset", calibratedOffset)])
  }

  /** Every key of `table` in the channel block with prefix `channel` can be read. */
  predicate FactorsReadable(factor: FactorReader, channel: string, table: seq<(string, string)>) {
    forall i :: 0 <= i < |table| ==> factor(channel + table[i].1).Ok?
  }

  /** `fault` is the fault of the first key of `table`, in reading order,
      that cannot be read. */
  predicate FirstFault(fault: Fault, factor: FactorReader, channel: string, table: seq<(string, string)>) {
    exists i :: && 0 <= i < |table| && factor(channel + table[i].1).Err?
                && fault == factor(channel + table[i].1).error
                && forall j :: 0 <= j < i ==> factor(channel + table[j].1).Ok?
  }

  /** `factors` has the names of `table` in its order, each with the value
      read from its key in the channel block with prefix `channel`. */
  predicate FactorsFollow(factors: seq<(string, real)>, factor: FactorReader, channel: string,
                          table: seq<(string, string)>) {
    && |factors| == |table|
    && forall i :: 0 <= i < |table| ==>
         && factors[i].0 == table[i].0
         && factor(channel + table[i].1) == Ok(factors[i].1)
  }

  /** `extract_conversion_factors`: the vDeflection and height entries, read
      from the channel blocks the scan found (both channel numbers are looked
      up first). The result is the two-entry dictionary
      `{"vDeflection": ..., "height": ...}`, written as its list of pairs. */
  function ExtractConversionFactors(general: Dict<string>, channelNumbers: Dict<Option<string>>,
                                    parseReal: string -> Option<real>): (r: Result<seq<(string, seq<(string, real)>)>>)
    ensures r.Ok? ==> |r.value| == 2 && r.value[0].0 == VDeflection && r.value[1].0 == Height
  {
    var v :- Lookup(channelNumbers, VDeflection);
    var h :- Lookup(channelNumbers, Height);
    var vFactors :- VDeflectionEntries(FactorsOf(general, parseReal), ChannelPrefix(v));
    var hFactors :- HeightEntries(FactorsOf(general, parseReal), ChannelPrefix(h));
    Ok([(VDeflection, vFactors), (Height, hFactors)])
  }

  /** The vDeflection and height entries hold the parsed values of their keys
      in the blocks of the two channels the scan found. */
  lemma {:induction false} ConversionFactorEntries(general: Dict<string>, channelNumbers: Dict<Option<string>>,
                                                   parseReal: string -> Option<real>)
    requires ExtractConversionFactors(general, channelNumbers, parseReal).Ok?
    ensures VDeflection in ToMap(channelNumbers) && Height in ToMap(channelNumbers)
    ensures FactorsFollow(ExtractConversionFactors(general, channelNumbers, parseReal).value[0].1,
                          FactorsOf(general, parseReal), ChannelPrefix(ToMap(channelNumbers)[VDeflection]),
                          VDeflectionFactors)
    ensures FactorsFollow(ExtractConversionFactors(general, channelNumbers, parseReal).value[1].1,
                          FactorsOf(general, parseReal), ChannelPrefix(ToMap(channelNumbers)[Height]),
                          HeightFactors)
  {
  }

  /** With both channels known, reading the factors fails exactly when one of
      the ten keys cannot be read; the first such key, in reading order, gives
      the fault. */
  lemma {:induction false} ConversionFactorsFault(general: Dict<string>, channelNumbers: Dict<Option<string>>,
                                                  parseReal: string -> Option<real>)
    requires VDeflection in ToMap(channelNumbers) && Height in ToMap(channelNumbers)
    ensures var factor := FactorsOf(general, parseReal);
            var vChannel := ChannelPrefix(ToMap(channelNumbers)[VDeflection]);
            var hChannel := ChannelPrefix(ToMap(channelNumbers)[Height]);
            var r := ExtractConversionFactors(general, channelNumbers, parseReal);
            && (r.Ok? <==> FactorsReadable(factor, vChannel, VDeflectionFactors)
                           && FactorsReadable(factor, hChannel, HeightFactors))
            && (r.Err? ==> || FirstFault(r.error, factor, vChannel, VDeflectionFactors)
                           || (&& FactorsReadable(factor, vChannel, VDeflectionFactors)
                               && FirstFault(r.error, factor, hChannel, HeightFactors)))
  {
  }

  /** `extract_specs` on `units`: the fault it stops at, if any, and the
      units it leaves behind; vDeflection is stored before height is read. */
  function SpecsOf(general: Dict<string>, channelNumbers: Dict<Option<string>>, units: Dict<string>)
    : (r: (Option<Fault>, Dict<string>))
    ensures r.0.None? <==> && VDeflection in ToMap(channelNumbers) && Height in ToMap(channelNumbers)
                           && ChannelPrefix(ToMap(channelNumbers)[VDeflection]) + ForceUnitSuffix in ToMap(general)
                           && ChannelPrefix(ToMap(channelNumbers)[Height]) + NominalUnitSuffix in ToMap(general)
    ensures r.0.None? ==> ToMap(r.1) == ToMap(units)
              [VDeflection := ToMap(general)[ChannelPrefix(ToMap(channelNumbers)[VDeflection]) + ForceUnitSuffix]]
              [Height := ToMap(general)[ChannelPrefix(ToMap(channelNumbers)[Height]) + NominalUnitSuffix]]
    ensures r.0.Some? ==> || r.1 == units
                          || (&& VDeflection in ToMap(channelNumbers)
                              && ChannelPrefix(ToMap(channelNumbers)[VDeflection]) + ForceUnitSuffix in ToMap(general)
                              && ToMap(r.1) == ToMap(units)[VDeflection :=
                                   ToMap(general)[ChannelPrefix(ToMap(channelNumbers)[VDeflection]) + ForceUnitSuffix]])
  {
    match Lookup(channelNumbers, VDeflection)
    case Err(e) => (Some(e), units)
    case Ok(v) =>
      match Lookup(general, ChannelPrefix(v) + ForceUnitSuffix)
      case Err(e) => (Some(e), units)
      case Ok(vUnit) =>
        var afterV := Put(units, VDeflection, vUnit);
        match Lookup(channelNumbers, Height)
        case Err(e) => (Some(e), afterV)
        case Ok(h) =>
          match Lookup(general, ChannelPrefix(h) + NominalUnitSuffix)
          case Err(e) => (Some(e), afterV)
          case Ok(hUnit) => (None, Put(afterV, Height, hUnit))
  }

  /** A header object's fields, as values. */
  datatype Header = Header(
    general: Dict<string>,
    segments: Dict<Dict<string>>,
    channelNumbers: Dict<Option<string>>,
    conversionFactors: seq<(string, seq<(string, real)>)>,
    units: Dict<string>)

  /** What the first three steps of `__init__` read: the general header,
      the segment catalog and the channel numbers. */
  function HeaderContents(read: Reader): Result<(Dict<string>, Dict<Dict<string>>, Dict<Option<string>>)> {
    var general :- LoadGeneralProps(read);
    var segments :- SegmentCatalog(read, general);
    var channels :- ChannelScan(general, InitialChannels);
    Ok((general, segments, channels))
  }

  /** What the last steps of `__init__` make of the general header and the
      channel numbers: the conversion factors, then the units, stored into
      an empty dictionary. */
  function Calibration(general: Dict<string>, channels: Dict<Option<string>>, parseReal: string -> Option<real>)
    : Result<(seq<(string, seq<(string, real)>)>, Dict<string>)>
  {
    var factors :- ExtractConversionFactors(general, channels, parseReal);
    var (fault, units) := SpecsOf(general, channels, []);
    if fault.Some? then Err(fault.value) else Ok((factors, units))
  }

  /** What `Properties(file_path)` computes, step by step in the order of `__init__`. */
  function Interpret(read: Reader, parseReal: string -> Option<real>): (r: Result<Header>)
    ensures r.Ok? ==> read(HeaderPath).Ok? && read(SharedHeaderPath).Ok?
    ensures r.Ok? ==> Keys(r.value.channelNumbers) == Keys(InitialChannels)
    ensures r.Ok? ==> && |r.value.conversionFactors| == 2
                      && r.value.conversionFactors[0].0 == VDeflection && r.value.conversionFactors[1].0 == Height
    ensures r.Ok? ==> ToMap(r.value.units).Keys == {VDeflection, Height}
  {
    var contents :- HeaderContents(read);
    HeaderContentsChannels(read);
    var calibration :- Calibration(contents.0, contents.2, parseReal);
    SpecsUnits(contents.0, contents.2);
    Ok(Header(contents.0, contents.1, contents.2, calibration.0, calibration.1))
  }

  /** The channel scan of a header that could be read keeps the four
      channels of `InitialChannels`, in their order. */
  lemma {:induction false} HeaderContentsChannels(read: Reader)
    requires HeaderContents(read).Ok?
    ensures Keys(HeaderContents(read).value.2) == Keys(InitialChannels)
  {
    ChannelScanKeys(LoadGeneralProps(read).value, InitialChannels);
  }

  /** A header object that could be built has the vDeflection and height
      factors read from the blocks of its own channels. */
  lemma {:induction false} InterpretFactors(read: Reader, parseReal: string -> Option<real>)
    requires Interpret(read, parseReal).Ok?
    ensures var h := Interpret(read, parseReal).value;
            && VDeflection in ToMap(h.channelNumbers) && Height in ToMap(h.channelNumbers)
            && |h.conversionFactors| == 2
            && h.conversionFactors[0].0 == VDeflection && h.conversionFactors[1].0 == Height
            && FactorsFollow(h.conversionFactors[0].1, FactorsOf(h.general, parseReal),
                             ChannelPrefix(ToMap(h.channelNumbers)[VDeflection]), VDeflectionFactors)
            && FactorsFollow(h.conversionFactors[1].1, FactorsOf(h.general, parseReal),
                             ChannelPrefix(ToMap(h.channelNumbers)[Height]), HeightFactors)
  {
    var contents := HeaderContents(read).value;
    assert HeaderContents(read).Ok?;
    assert Calibration(contents.0, contents.2, parseReal).Ok?;
    ConversionFactorEntries(contents.0, contents.2, parseReal);
  }

  /** `extract_specs` that completes on an empty `units` leaves exactly the
      vDeflection and height units. */
  lemma {:induction false} SpecsUnits(general: Dict<string>, channelNumbers: Dict<Option<string>>)
    requires SpecsOf(general, channelNumbers, []).0.None?
    ensures ToMap(SpecsOf(general, channelNumbers, []).1).Keys == {VDeflection, Height}
  {
    assert ToMap<string>([]) == map[];
  }

  class Properties {
    /** The force file, as what reading each of its header files gives, and
        the host's `float`. */
    const read: Reader
    const parseReal: string -> Option<real>

    var general: Dict<string>
    var segments: Dict<Dict<string>>
    var channelNumbers: Dict<Option<string>>
    var conversionFactors: seq<(string, seq<(string, real)>)>
    var units: Dict<string>

    constructor (read: Reader, parseReal: string -> Option<real>)
      ensures this.read == read && this.parseReal == parseReal
      ensures general == [] && segments == [] && channelNumbers == [] && conversionFactors == [] && units == []
    {
      this.read := read;
      this.parseReal := parseReal;
      general := [];
      segments := [];
      channelNumbers := [];
      conversionFactors := [];
      units := [];
    }

    /** The fields as a value. */
    function Fields(): Header
      reads this
    {
      Header(general, segments, channelNumbers, conversionFactors, units)
    }

    /** `convert_segment_name`: the vendor names of the table become their
        canonical names and every other name stays as it is, so the result
        is never a vendor name. */
    static function ConvertSegmentName(jpkName: string): (r: string)
      ensures forall i :: 0 <= i < |VendorSegmentNames| && jpkName == VendorSegmentNames[i].0 ==> r == VendorSegmentNames[i].1
      ensures (forall i :: 0 <= i < |VendorSegmentNames| ==> jpkName != VendorSegmentNames[i].0) ==> r == jpkName
      ensures forall i :: 0 <= i < |VendorSegmentNames| ==> r != VendorSegmentNames[i].0
    {
      assert |VendorSegmentNames| == 3;
      assert VendorSegmentNames[0] == ("extend", "approach");
      assert VendorSegmentNames[1] == ("pause-at-end", "contact");
      assert VendorSegmentNames[2] == ("pause-at-start", "pause");
      if jpkName == "extend" then "approach"
      else if jpkName == "pause-at-end" then "contact"
      else if jpkName == "pause-at-start" then "pause"
      else jpkName
    }

    /** Converting a canonical name again changes nothing. */
    static lemma {:induction false} ConvertSegmentNameIdempotent(jpkName: string)
      ensures ConvertSegmentName(ConvertSegmentName(jpkName)) == ConvertSegmentName(jpkName)
    {
      var r := ConvertSegmentName(jpkName);
      assert forall i :: 0 <= i < |VendorSegmentNames| ==> r != VendorSegmentNames[i].0;
    }

    /** `get_channel_numbers`: the items of the general header scanned in
        order, each one naming a channel overwriting that channel's number. */
    method GetChannelNumbers() returns (r: Result<Dict<Option<string>>>)
      ensures r == ChannelScan(general, InitialChannels)
    {
      var names := Keys(InitialChannels);
      assert names == [VDeflection, HDeflection, Height, CapacitiveSensorHeight];
      var numbers := InitialChannels;
      ghost var hits: seq<(string, Option<string>)> := [];
      for i := 0 to |general|
        invariant ChannelHits(general[..i], names) == Ok(hits)
        invariant numbers == PutAll(InitialChannels, hits)
      {
        var (key, value) := general[i];
        ScanStep(general, names, i, hits);
        if value == VDeflection || value == HDeflection || value == Height || value == CapacitiveSensorHeight {
          var digit := ChannelDigit(key);
          if digit.None? {
            ScanFaultStays(general, names, i);
            return Err(NoMatch(key));
          }
          PutAllStep(InitialChannels, hits, value, Some(digit.value));
          numbers := Put(numbers, value, Some(digit.value));
          hits := hits + [(value, Some(digit.value))];
        }
      }
      assert general[..|general|] == general;
      return Ok(numbers);
    }

    /** `extract_segment_props`: one catalog entry per announced segment, in order. */
    method ExtractSegmentProps() returns (r: Result<Dict<Dict<string>>>)
      ensures r == SegmentCatalog(read, general)
    {
      ghost var record := SegmentRecords(read);
      var count := SegmentCount(general);
      if count.Err? {
        return Err(count.error);
      }
      var catalog: Dict<Dict<string>> := [];
      ghost var entries: seq<(string, Dict<string>)> := [];
      for segment := 0 to count.value
        invariant SegmentEntries(record, segment) == Ok(entries)
        invariant catalog == PutAll([], entries)
      {
        var entry := ReadSegment(segment);
        assert entry == record(segment);
        if entry.Err? {
          CatalogFaultStays(record, segment, count.value);
          return Err(entry.error);
        }
        PutAllStep([], entries, entry.value.0, entry.value.1);
        catalog := Put(catalog, entry.value.0, entry.value.1);
        entries := entries + [entry.value];
      }
      return Ok(catalog);
    }

    /** One pass of the loop of `extract_segment_props`: the header of
        `segment` read from a freshly opened archive, and its record. */
    method ReadSegment(segment: nat) returns (r: Result<(string, Dict<string>)>)
      ensures r == SegmentEntry(read, segment)
    {
      var header := read(SegmentPath(segment));
      if header.Err? {
        return Err(header.error);
      }
      var raw := Get(header.value, SegmentNameKey);
      if raw.None? {
        return Err(KeyError(SegmentNameKey));
      }
      var nameJpk := RemoveAll(raw.value, CellhesionSuffix);
      var normalName := ConvertSegmentName(nameJpk);
      var entry := Put(header.value, NameJpkField, nameJpk);
      entry := Put(entry, NameField, normalName);
      entry := Put(entry, SegmentNumberField, NatToString(segment));
      return Ok((normalName, entry));
    }

    /** `extract_specs`: the two units stored in place; a missing key stops it
        with the units stored so far. */
    method ExtractSpecs() returns (fault: Option<Fault>)
      modifies this`units
      ensures (fault, units) == SpecsOf(general, channelNumbers, old(units))
    {
      var v := Lookup(channelNumbers, VDeflection);
      if v.Err? {
        return Some(v.error);
      }
      var vUnit := Lookup(general, ChannelPrefix(v.value) + ForceUnitSuffix);
      if vUnit.Err? {
        return Some(vUnit.error);
      }
      units := Put(units, VDeflection, vUnit.value);
      var h := Lookup(channelNumbers, Height);
      if h.Err? {
        return Some(h.error);
      }
      var hUnit := Lookup(general, ChannelPrefix(h.value) + NominalUnitSuffix);
      if hUnit.Err? {
        return Some(hUnit.error);
      }
      units := Put(units, Height, hUnit.value);
      return None;
    }

    /** The first three steps of `__init__`: the general header, the segment
        catalog and the channel numbers, each stored before the next is
        read; the first that fails is the fault. */
    method ReadHeaders() returns (fault: Option<Fault>)
      modifies this`general, this`segments, this`channelNumbers
      ensures fault == if HeaderContents(read).Err? then Some(HeaderContents(read).error) else None
      ensures fault.None? ==> (general, segments, channelNumbers) == HeaderContents(read).value
    {
      var loaded := LoadGeneralProps(read);
      if loaded.Err? {
        return Some(loaded.error);
      }
      general := loaded.value;
      var catalog := ExtractSegmentProps();
      if catalog.Err? {
        return Some(catalog.error);
      }
      segments := catalog.value;
      var numbers := GetChannelNumbers();
      if numbers.Err? {
        return Some(numbers.error);
      }
      channelNumbers := numbers.value;
      return None;
    }

    /** The last steps of `__init__`: the conversion factors, then the
        units, stored into an empty dictionary by `extract_specs`. */
    method Calibrate() returns (fault: Option<Fault>)
      modifies this`conversionFactors, this`units
      ensures fault == if Calibration(general, channelNumbers, parseReal).Err?
                       then Some(Calibration(general, channelNumbers, parseReal).error) else None
      ensures fault.None? ==> (conversionFactors, units) == Calibration(general, channelNumbers, parseReal).value
    {
      var factors := ExtractConversionFactors(general, channelNumbers, parseReal);
      if factors.Err? {
        return Some(factors.error);
      }
      conversionFactors := factors.value;
      units := [];
      fault := ExtractSpecs();
    }

    /** `Properties(file_path)`: the steps of `__init__` in their order; the
        first that fails is the fault of the construction. */
    static method Create(read: Reader, parseReal: string -> Option<real>) returns (r: Result<Properties>)
      ensures r.Err? <==> Interpret(read, parseReal).Err?
      ensures r.Err? ==> r.error == Interpret(read, parseReal).error
      ensures r.Ok? ==> fresh(r.value) && r.value.read == read && r.value.parseReal == parseReal
                        && r.value.Fields() == Interpret(read, parseReal).value
    {
      var p := new Properties(read, parseReal);
      var fault := p.ReadHeaders();
      if fault.Some? {
        return Err(fault.value);
      }
      fault := p.Calibrate();
      if fault.Some? {
        return Err(fault.value);
      }
      return Ok(p);
    }
  }

  /** A fault of segment `i`, after clean segments before it, is the fault of the whole catalog. */
  lemma {:induction false} CatalogFaultStays(record: nat -> Result<(string, Dict<string>)>, i: nat, n: nat)
    requires i < n && SegmentEntries(record, i).Ok? && record(i).Err?
    ensures SegmentEntries(record, n) == Err(record(i).error)
    decreases n
  {
    if i < n - 1 {
      CatalogFaultStays(record, i, n - 1);
    }
  }
}
