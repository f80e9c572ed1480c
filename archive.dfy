/** The force-file archive reader (`ForceArchive` in
    JPKay/core/data_structures.py): the magic check made when an archive is
    opened, the property-file parser and the big-endian sample decoder.

    The zip container is given as its members; decoding a member's bytes to
    lines, normalising the header timestamp and parsing decimal numbers are
    supplied by the host (`Host`). */
module Archive {
  import opened Faults
  import opened Text
  import opened Dicts

  type byte = x: int | 0 <= x < 256

  /** One member of the zip container: its name and its stored bytes. */
  datatype ZipEntry = ZipEntry(filename: string, data: seq<byte>)

  /** An open zip container: its members in archive order, as `infolist()` lists them. */
  datatype Zip = Zip(entries: seq<ZipEntry>)

  /** Behaviour the host environment supplies. `decodeLines` reads a member as
      UTF-8 text split into lines (`file.read().splitlines()` and
      `line.decode('utf-8')`); `normalizeDate` is the dateutil/pytz parse of
      the header date, localised to UTC and formatted; `parseReal` is
      `float(text)`. Each returns None where Python would raise ValueError. */
  datatype Host = Host(
    decodeLines: seq<byte> -> Option<seq<string>>,
    normalizeDate: string -> Option<string>,
    parseReal: string -> Option<real>)

  /** An opened force file: the container and its listing (`contents`). */
  datatype ForceArchive = ForceArchive(zip: Zip, contents: seq<string>)

  const HeaderPath := "header.properties"
  const MagicKey := "jpk-data-file"
  const MagicValue := "spm-forcefile"
  const PropertySuffix := ".properties"
  const DataSuffix := ".dat"
  const TimestampKey := "timestamp"

  /** The member names in archive order. `ls()` returns the `ZipInfo`
      records of `infolist()`; of each record only its filename is kept. */
  function Names(zip: Zip): (names: seq<string>)
    ensures |names| == |zip.entries|
    ensures forall i :: 0 <= i < |names| ==> names[i] == zip.entries[i].filename
  {
    seq(|zip.entries|, i requires 0 <= i < |zip.entries| => zip.entries[i].filename)
  }

  /** The bytes of the member called `name`; zipfile resolves a name to the
      last member carrying it. */
  function Member(zip: Zip, name: string): (r: Option<seq<byte>>)
    ensures r.None? <==> name !in Names(zip)
    ensures r.Some? ==> exists i :: && 0 <= i < |zip.entries| && zip.entries[i] == ZipEntry(name, r.value)
                                    && forall j :: i < j < |zip.entries| ==> zip.entries[j].filename != name
    decreases |zip.entries|
  {
    var es := zip.entries;
    if |es| == 0 then None
    else if es[|es| - 1].filename == name then Some(es[|es| - 1].data)
    else
      var r := Member(Zip(es[..|es| - 1]), name);
      assert Names(zip) == Names(Zip(es[..|es| - 1])) + [es[|es| - 1].filename];
      assert forall j :: 0 <= j < |es| - 1 ==> es[..|es| - 1][j] == es[j];
      r
  }

  predicate IsPropertyPath(path: string) { EndsWith(Basename(path), PropertySuffix) }

  predicate IsDataPath(path: string) { EndsWith(Basename(path), DataSuffix) }

  /** `key, value = line.split("=")`: a line with exactly one '=' is split
      there; any other line leaves a number of parts other than two. */
  function SplitLine(line: string): (r: Result<(string, string)>)
    ensures r.Ok? <==> Count(line, '=') == 1
    ensures r.Ok? ==> r.value.0 + "=" + r.value.1 == line && '=' !in r.value.0 && '=' !in r.value.1
    ensures r.Err? ==> r.error == UnpackError(Count(line, '=') + 1)
  {
    var parts := Split(line, '=');
    if |parts| == 2 then
      assert parts[..1] == [parts[0]];
      assert Join(parts, '=') == parts[0] + "=" + parts[1];
      Ok((parts[0], parts[1]))
    else Err(UnpackError(|parts|))
  }

  /** The pairs of a run of property lines, or the fault of the first line
      that is not `key=value`. */
  function LinePairs(lines: seq<string>): (r: Result<seq<(string, string)>>)
    ensures r.Ok? <==> forall i :: 0 <= i < |lines| ==> Count(lines[i], '=') == 1
    ensures r.Ok? ==> |r.value| == |lines|
    ensures r.Ok? ==> forall i :: 0 <= i < |lines| ==> SplitLine(lines[i]) == Ok(r.value[i])
    ensures r.Err? ==> exists i :: 0 <= i < |lines| && SplitLine(lines[i]) == Err(r.error)
    decreases |lines|
  {
    if |lines| == 0 then Ok([])
    else
      var init := lines[..|lines| - 1];
      match LinePairs(init)
      case Err(e) => Err(e)
      case Ok(pairs) =>
        match SplitLine(lines[|lines| - 1])
        case Err(e) => Err(e)
        case Ok(pair) => Ok(pairs + [pair])
  }

  /** Once every line before `j` is well formed, a malformed line `j` decides the fault. */
  lemma {:induction false} FirstMalformedLine(lines: seq<string>, j: nat)
    requires j < |lines|
    requires LinePairs(lines[..j]).Ok? && SplitLine(lines[j]).Err?
    ensures LinePairs(lines) == Err(SplitLine(lines[j]).error)
  {
    if j < |lines| - 1 {
      assert lines[..|lines| - 1][..j] == lines[..j];
      FirstMalformedLine(lines[..|lines| - 1], j);
    } else {
      assert lines[..|lines| - 1] == lines[..j];
    }
  }

  /** `content[0][1:]`: the header line without its leading '#'. */
  function TimestampText(first: string): string {
    if |first| == 0 then "" else first[1..]
  }

  /** What `read_properties` returns for the decoded lines `content`: the
      pairs of lines 1.. (the later of two equal keys winning), then the
      normalised timestamp of line 0 under `timestamp`. */
  function PropertiesOf(content: seq<string>, normalizeDate: string -> Option<string>): (r: Result<Dict<string>>)
    ensures r.Ok? <==> && |content| > 0
                       && (forall i :: 1 <= i < |content| ==> Count(content[i], '=') == 1)
                       && normalizeDate(TimestampText(content[0])).Some?
    ensures r.Ok? ==> (TimestampKey in ToMap(r.value)
                       && ToMap(r.value)[TimestampKey] == normalizeDate(TimestampText(content[0])).value)
  {
    var body := if |content| == 0 then [] else content[1..];
    assert forall i :: 1 <= i < |content| ==> content[i] == body[i - 1];
    match LinePairs(body)
    case Err(e) =>
      assert exists i :: 1 <= i < |content| && Count(content[i], '=') != 1;
      Err(e)
    case Ok(pairs) =>
      if |content| == 0 then Err(IndexError)
      else
        var date := TimestampText(content[0]);
        match normalizeDate(date)
        case None => Err(Unparsable(date))
        case Some(ts) => Ok(Assemble(pairs, ts))
  }

  /** The dictionary filled by the loop over the pairs, then given the timestamp. */
  function Assemble(pairs: seq<(string, string)>, ts: string): (d: Dict<string>)
    ensures ToMap(d) == ToMap(pairs)[TimestampKey := ts]
  {
    assert ToMap<string>([]) == map[];
    Put(PutAll([], pairs), TimestampKey, ts)
  }

  /** Every key but `timestamp` comes from one of the lines after the first. */
  lemma {:induction false} PropertyKeysFromLines(content: seq<string>, normalizeDate: string -> Option<string>, k: string)
    requires PropertiesOf(content, normalizeDate).Ok?
    requires k in ToMap(PropertiesOf(content, normalizeDate).value) && k != TimestampKey
    ensures exists i :: 1 <= i < |content| && SplitLine(content[i]).Ok? && SplitLine(content[i]).value.0 == k
  {
    var body := content[1..];
    var pairs := LinePairs(body).value;
    InToMap(pairs, k);
    var i :| 0 <= i < |pairs| && pairs[i].0 == k;
    assert SplitLine(content[i + 1]) == Ok(pairs[i]);
  }

  /** The dictionary `read_properties` builds, written out: the pairs of the
      lines after the first, stored in order, then the timestamp. */
  lemma {:induction false} PropertiesOfValue(content: seq<string>, normalizeDate: string -> Option<string>)
    requires PropertiesOf(content, normalizeDate).Ok?
    ensures LinePairs(content[1..]).Ok?
    ensures ToMap(PropertiesOf(content, normalizeDate).value)
            == ToMap(LinePairs(content[1..]).value)[TimestampKey := normalizeDate(TimestampText(content[0])).value]
  {
  }

  /** Among property lines, a key takes the value of the last line that sets it. */
  lemma {:induction false} PairsLastWins(lines: seq<string>, i: nat, k: string, v: string)
    requires LinePairs(lines).Ok?
    requires i < |lines| && SplitLine(lines[i]) == Ok((k, v))
    requires forall j :: i < j < |lines| ==> SplitLine(lines[j]).value.0 != k
    ensures k in ToMap(LinePairs(lines).value) && ToMap(LinePairs(lines).value)[k] == v
  {
    var pairs := LinePairs(lines).value;
    assert SplitLine(lines[i]) == Ok(pairs[i]);
    forall j | i < j < |pairs| ensures pairs[j].0 != pairs[i].0 {
      assert SplitLine(lines[j]) == Ok(pairs[j]);
    }
    ToMapLastWins(pairs, i);
  }

  /** `LaterLineWins` with its last condition stated on the lines after the first. */
  lemma {:induction false} LaterBodyLineWins(content: seq<string>, normalizeDate: string -> Option<string>,
                                             i: nat, k: string, v: string)
    requires PropertiesOf(content, normalizeDate).Ok?
    requires 1 <= i < |content| && SplitLine(content[i]) == Ok((k, v)) && k != TimestampKey
    requires forall j :: i - 1 < j < |content| - 1 ==> SplitLine(content[1..][j]).value.0 != k
    ensures k in ToMap(PropertiesOf(content, normalizeDate).value)
    ensures ToMap(PropertiesOf(content, normalizeDate).value)[k] == v
  {
    var body := content[1..];
    assert body[i - 1] == content[i];
    PairsLastWins(body, i - 1, k, v);
    PropertiesOfValue(content, normalizeDate);
  }

  /** A key takes the value of the last line that sets it. */
  lemma {:induction false} LaterLineWins(content: seq<string>, normalizeDate: string -> Option<string>,
                                         i: nat, k: string, v: string)
    requires PropertiesOf(content, normalizeDate).Ok?
    requires 1 <= i < |content| && SplitLine(content[i]) == Ok((k, v)) && k != TimestampKey
    requires forall j :: i < j < |content| ==> SplitLine(content[j]).value.0 != k
    ensures k in ToMap(PropertiesOf(content, normalizeDate).value)
    ensures ToMap(PropertiesOf(content, normalizeDate).value)[k] == v
  {
    var body := content[1..];
    forall j | i - 1 < j < |body| ensures SplitLine(body[j]).value.0 != k {
      assert body[j] == content[j + 1];
    }
    LaterBodyLineWins(content, normalizeDate, i, k, v);
  }

  /** Of line 0 only what the date normalisation makes of it matters. */
  lemma {:induction false} FirstLineOnlyGivesTimestamp(a: string, b: string, rest: seq<string>,
                                    normalizeDate: string -> Option<string>)
    requires normalizeDate(TimestampText(a)) == normalizeDate(TimestampText(b))
    ensures PropertiesOf([a] + rest, normalizeDate).Ok? == PropertiesOf([b] + rest, normalizeDate).Ok?
    ensures PropertiesOf([a] + rest, normalizeDate).Ok? ==>
              PropertiesOf([a] + rest, normalizeDate) == PropertiesOf([b] + rest, normalizeDate)
  {
    assert ([a] + rest)[1..] == rest;
    assert ([b] + rest)[1..] == rest;
  }

  /** `read_properties(content_path)` as a function of the archive. */
  function ReadPropertiesSpec(zip: Zip, host: Host, path: string): (r: Result<Dict<string>>)
    ensures !IsPropertyPath(path) ==> r == Err(ValueError("this content path is not a property file"))
    ensures IsPropertyPath(path) && path !in Names(zip) ==> r == Err(KeyError(path))
    ensures r.Ok? ==> path in Names(zip) && TimestampKey in ToMap(r.value)
  {
    if !IsPropertyPath(path) then Err(ValueError("this content path is not a property file"))
    else
      match Member(zip, path)
      case None => Err(KeyError(path))
      case Some(data) =>
        match host.decodeLines(data)
        case None => Err(Unparsable(path))
        case Some(content) => PropertiesOf(content, host.normalizeDate)
  }

  /** `read_properties`: the lines after the first are split at their one '='
      and stored in order, then the timestamp is added. */
  method ReadProperties(archive: ForceArchive, host: Host, contentPath: string) returns (r: Result<Dict<string>>)
    ensures r == ReadPropertiesSpec(archive.zip, host, contentPath)
  {
    if !IsPropertyPath(contentPath) {
      return Err(ValueError("this content path is not a property file"));
    }
    var member := Member(archive.zip, contentPath);
    if member.None? {
      return Err(KeyError(contentPath));
    }
    var decoded := host.decodeLines(member.value);
    if decoded.None? {
      return Err(Unparsable(contentPath));
    }
    r := ParseProperties(decoded.value, host.normalizeDate);
  }

  /** The loop of `read_properties` over the lines after the first: each is
      split at its one '=' and stored in order. */
  method ParseBody(body: seq<string>) returns (r: Result<Dict<string>>)
    ensures r == match LinePairs(body) case Err(e) => Err(e) case Ok(pairs) => Ok(PutAll([], pairs))
  {
    var props: Dict<string> := [];
    ghost var pairs: seq<(string, string)> := [];
    for j := 0 to |body|
      invariant LinePairs(body[..j]) == Ok(pairs)
      invariant props == PutAll([], pairs)
    {
      var pair := SplitLine(body[j]);
      if pair.Err? {
        FirstMalformedLine(body, j);
        return Err(pair.error);
      }
      assert body[..j + 1][..j] == body[..j];
      PutAllStep([], pairs, pair.value.0, pair.value.1);
      props := Put(props, pair.value.0, pair.value.1);
      pairs := pairs + [pair.value];
    }
    assert body[..|body|] == body;
    return Ok(props);
  }

  /** `read_properties` on the decoded lines: the lines after the first are
      stored, then the timestamp of the first line is added. */
  method ParseProperties(content: seq<string>, normalizeDate: string -> Option<string>)
    returns (r: Result<Dict<string>>)
    ensures r == PropertiesOf(content, normalizeDate)
  {
    var body := if |content| == 0 then [] else content[1..];
    var props := ParseBody(body);
    if props.Err? {
      return Err(props.error);
    }
    if |content| == 0 {
      return Err(IndexError);
    }
    var date := TimestampText(content[0]);
    var ts := normalizeDate(date);
    if ts.None? {
      return Err(Unparsable(date));
    }
    return Ok(Put(props.value, TimestampKey, ts.value));
  }

  /** `ForceArchive(file_path)`: read the root header and insist on the magic value. */
  function OpenSpec(zip: Zip, host: Host): (r: Result<ForceArchive>)
    ensures r.Ok? <==> ReadPropertiesSpec(zip, host, HeaderPath).Ok?
                       && Get(ReadPropertiesSpec(zip, host, HeaderPath).value, MagicKey) == Some(MagicValue)
    ensures r.Ok? ==> r.value == ForceArchive(zip, Names(zip))
    ensures ReadPropertiesSpec(zip, host, HeaderPath).Err? ==> r == Err(ReadPropertiesSpec(zip, host, HeaderPath).error)
    ensures ReadPropertiesSpec(zip, host, HeaderPath).Ok? ==>
              var magic := Get(ReadPropertiesSpec(zip, host, HeaderPath).value, MagicKey);
              && (magic.None? ==> r == Err(KeyError(MagicKey)))
              && (magic.Some? && magic.value != MagicValue ==> r == Err(ValueError("not a valid spm-forcefile!")))
  {
    match ReadPropertiesSpec(zip, host, HeaderPath)
    case Err(e) => Err(e)
    case Ok(header) =>
      match Get(header, MagicKey)
      case None => Err(KeyError(MagicKey))
      case Some(magic) =>
        if magic == MagicValue then Ok(ForceArchive(zip, Names(zip)))
        else Err(ValueError("not a valid spm-forcefile!"))
  }

  /** The constructor of `ForceArchive`. */
  method Open(zip: Zip, host: Host) returns (r: Result<ForceArchive>)
    ensures r == OpenSpec(zip, host)
    ensures r.Ok? <==> ReadPropertiesSpec(zip, host, HeaderPath).Ok?
                       && MagicKey in ToMap(ReadPropertiesSpec(zip, host, HeaderPath).value)
                       && ToMap(ReadPropertiesSpec(zip, host, HeaderPath).value)[MagicKey] == MagicValue
  {
    var archive := ForceArchive(zip, []);
    var header := ReadProperties(archive, host, HeaderPath);
    if header.Err? {
      return Err(header.error);
    }
    var magic := Get(header.value, MagicKey);
    if magic.None? {
      return Err(KeyError(MagicKey));
    }
    if magic.value != MagicValue {
      return Err(ValueError("not a valid spm-forcefile!"));
    }
    return Ok(ForceArchive(zip, Names(zip)));
  }

  /** `read_properties` refuses a path not ending in `.properties` before
      touching the archive. */
  lemma {:induction false} PropertyPathGuard(zip: Zip, host: Host, path: string)
    ensures !EndsWith(path, PropertySuffix) ==>
      ReadPropertiesSpec(zip, host, path) == Err(ValueError("this content path is not a property file"))
  {
    BasenameEndsWith(path, PropertySuffix);
  }

  /** `read_data` refuses a path not ending in `.dat` before touching the archive. */
  lemma {:induction false} DataPathGuard(zip: Zip, path: string)
    ensures !EndsWith(path, DataSuffix) ==>
      ReadDataSpec(zip, path) == Err(ValueError("this content path is not a data file"))
  {
    BasenameEndsWith(path, DataSuffix);
  }

  /** `unpack('!i', chunk)`: four bytes, most significant first, read as a
      two's-complement 32-bit integer. */
  function Unpack(chunk: seq<byte>): (v: int)
    requires |chunk| == 4
    ensures -0x8000_0000 <= v < 0x8000_0000
  {
    var hi := chunk[0] as int * 256 + chunk[1] as int;
    assert hi <= 65535;
    var mid := hi * 256 + chunk[2] as int;
    assert mid <= 16777215;
    var u := mid * 256 + chunk[3] as int;
    assert u <= 0xFFFF_FFFF;
    if u >= 0x8000_0000 then u - 0x1_0000_0000 else u
  }

  /** The samples of a data member: `int(len(data) / 4)` integers, sample `i`
      read from bytes `4i .. 4i+3`. */
  function DecodeSamples(data: seq<byte>): (r: seq<int>)
    ensures |r| == |data| / 4
    ensures forall i :: 0 <= i < |r| ==> -0x8000_0000 <= r[i] < 0x8000_0000
  {
    seq(|data| / 4, i requires 0 <= i < |data| / 4 => Unpack(data[4 * i..4 * i + 4]))
  }

  /** `read_data(content_path)` as a function of the archive. */
  function ReadDataSpec(zip: Zip, path: string): (r: Result<seq<int>>)
    ensures r.Ok? <==> IsDataPath(path) && path in Names(zip)
    ensures !IsDataPath(path) ==> r == Err(ValueError("this content path is not a data file"))
    ensures IsDataPath(path) && path !in Names(zip) ==> r == Err(KeyError(path))
    ensures r.Ok? ==> |r.value| == |Member(zip, path).value| / 4
  {
    if !IsDataPath(path) then Err(ValueError("this content path is not a data file"))
    else
      match Member(zip, path)
      case None => Err(KeyError(path))
      case Some(data) => Ok(DecodeSamples(data))
  }

  /** `read_data`: decodes the member four bytes at a time. */
  method ReadData(archive: ForceArchive, contentPath: string) returns (r: Result<seq<int>>)
    ensures r == ReadDataSpec(archive.zip, contentPath)
  {
    if !IsDataPath(contentPath) {
      return Err(ValueError("this content path is not a data file"));
    }
    var member := Member(archive.zip, contentPath);
    if member.None? {
      return Err(KeyError(contentPath));
    }
    var data := member.value;
    var result: seq<int> := [];
    var i := 0;
    while i < |data| / 4
      invariant 0 <= i <= |data| / 4
      invariant |result| == i
      invariant forall j :: 0 <= j < i ==> result[j] == Unpack(data[4 * j..4 * j + 4])
    {
      result := result + [Unpack(data[4 * i..4 * i + 4])];
      i := i + 1;
    }
    assert result == DecodeSamples(data);
    return Ok(result);
  }

  /** Bytes past the last multiple of four are ignored. */
  lemma {:induction false} DecodeIgnoresTrailingBytes(data: seq<byte>, extra: seq<byte>)
    requires |data| % 4 == 0 && |extra| < 4
    ensures DecodeSamples(data + extra) == DecodeSamples(data)
  {
    var a, b := DecodeSamples(data + extra), DecodeSamples(data);
    assert |a| == |b|;
    forall i | 0 <= i < |a| ensures a[i] == b[i] {
      assert (data + extra)[4 * i..4 * i + 4] == data[4 * i..4 * i + 4];
    }
  }

  /** The big-endian two's-complement encoding of a 32-bit integer: the
      inverse of `Unpack`. */
  function Pack(v: int): (chunk: seq<byte>)
    requires -0x8000_0000 <= v < 0x8000_0000
    ensures |chunk| == 4
  {
    var u := if v < 0 then v + 0x1_0000_0000 else v;
    var q1 := u / 256;
    var q2 := q1 / 256;
    [q2 / 256, q2 % 256, q1 % 256, u % 256]
  }

  lemma {:induction false} PackUnpack(v: int)
    requires -0x8000_0000 <= v < 0x8000_0000
    ensures Unpack(Pack(v)) == v
  {
    var u := if v < 0 then v + 0x1_0000_0000 else v;
    var q1 := u / 256;
    var q2 := q1 / 256;
    assert u == q1 * 256 + u % 256;
    assert q1 == q2 * 256 + q1 % 256;
    assert q2 == (q2 / 256) * 256 + q2 % 256;
  }

  lemma {:induction false} UnpackPack(chunk: seq<byte>)
    requires |chunk| == 4
    ensures Pack(Unpack(chunk)) == chunk
  {
    var b0, b1, b2, b3 := chunk[0] as int, chunk[1] as int, chunk[2] as int, chunk[3] as int;
    var hi := b0 * 256 + b1;
    var mid := hi * 256 + b2;
    var u := mid * 256 + b3;
    assert u / 256 == mid && u % 256 == b3;
    assert mid / 256 == hi && mid % 256 == b2;
    assert hi / 256 == b0 && hi % 256 == b1;
  }

  /** A sequence of samples written as a data member. */
  function EncodeSamples(samples: seq<int>): (data: seq<byte>)
    requires forall i :: 0 <= i < |samples| ==> -0x8000_0000 <= samples[i] < 0x8000_0000
    ensures |data| == 4 * |samples|
  {
    if |samples| == 0 then [] else EncodeSamples(samples[..|samples| - 1]) + Pack(samples[|samples| - 1])
  }

  lemma {:induction false} EncodeSamplesAt(samples: seq<int>, i: nat)
    requires forall j :: 0 <= j < |samples| ==> -0x8000_0000 <= samples[j] < 0x8000_0000
    requires i < |samples|
    ensures EncodeSamples(samples)[4 * i..4 * i + 4] == Pack(samples[i])
  {
    var n := |samples| - 1;
    var init := EncodeSamples(samples[..n]);
    if i < n {
      EncodeSamplesAt(samples[..n], i);
      assert EncodeSamples(samples)[4 * i..4 * i + 4] == init[4 * i..4 * i + 4];
    } else {
      assert EncodeSamples(samples)[4 * i..4 * i + 4] == Pack(samples[n]);
    }
  }

  /** Decoding what was encoded gives the samples back. */
  lemma {:induction false} DecodeEncode(samples: seq<int>)
    requires forall i :: 0 <= i < |samples| ==> -0x8000_0000 <= samples[i] < 0x8000_0000
    ensures DecodeSamples(EncodeSamples(samples)) == samples
  {
    var d := DecodeSamples(EncodeSamples(samples));
    forall i | 0 <= i < |samples| ensures d[i] == samples[i] {
      EncodeSamplesAt(samples, i);
      PackUnpack(samples[i]);
    }
  }

  /** A member whose length is a multiple of four is exactly the encoding of its samples. */
  lemma {:induction false} EncodeDecode(data: seq<byte>)
    requires |data| % 4 == 0
    ensures EncodeSamples(DecodeSamples(data)) == data
  {
    if |data| > 0 {
      var n := |data| - 4;
      var init := data[..n];
      var last := data[n..];
      var samples := DecodeSamples(data);
      var m := |samples| - 1;
      assert m == n / 4;
      assert samples[..m] == DecodeSamples(init) by {
        DecodePrefix(data, n);
      }
      assert samples[m] == Unpack(last);
      EncodeDecode(init);
      UnpackPack(last);
      assert EncodeSamples(samples) == EncodeSamples(samples[..m]) + Pack(samples[m]);
      assert data == init + last;
    }
  }

  /** Decoding a prefix of whole samples gives a prefix of the samples. */
  lemma {:induction false} DecodePrefix(data: seq<byte>, n: nat)
    requires n <= |data| && n % 4 == 0
    ensures DecodeSamples(data)[..n / 4] == DecodeSamples(data[..n])
  {
    var a, b := DecodeSamples(data)[..n / 4], DecodeSamples(data[..n]);
    forall i | 0 <= i < n / 4 ensures a[i] == b[i] {
      assert data[4 * i..4 * i + 4] == data[..n][4 * i..4 * i + 4];
    }
  }
}
