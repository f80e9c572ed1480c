# JPKay force-file decoder, modelled in Dafny

JPKay reads JPK force-spectroscopy files. A force file, `*.jpk-force`, is a
zip archive. Its `header.properties` member must carry
`jpk-data-file=spm-forcefile`. The archive holds:

- Java-style property files of `key=value` lines, with a date comment as the first line;
- one `segments/<n>/segment-header.properties` file per force segment;
- raw channel data as big-endian 32-bit signed integers in `*.dat` members.

The model covers the decoding core:

- `ForceArchive` (module `Archive`):
  - the magic check made when an archive is opened;
  - the property-file parser, with its last-assignment-wins dictionary and its timestamp entry;
  - the big-endian decoder for the data files;
  - the guards on the member name that both readers apply.
- `Properties` (module `ForceProperties`). It builds, in the order of its constructor:
  - the merged general header;
  - the segment catalogue, with its segment-name normalisation;
  - the channel-number scan over `lcd-info.<d>.channel.name` keys;
  - the conversion factors of the vDeflection and height channels;
  - their units.
- The legacy `Properties` of `data_io/property_reader.py` (module `PropertyReader`). It works over an already loaded property dictionary and has its own vDeflection-only scan, factor table and hard-wired unit key.
- `get_global_minimum` (module `CurveFeatures`): the argmin of the y values with NaN ignored, returning x and y there.
- The `__str__` texts of the four JPKay exception classes (module `JPKayError`).

Three support modules model Python behaviour:

- `Dicts`: a Python `dict` as an insertion-ordered sequence of pairs with distinct keys. `ToMap` is the mapping it stands for. `Put` is `d[k] = v`, `Lookup` is `d[k]` with its KeyError, and `Merge` is `{**a, **b}`.
- `Text`: `str.split`, `str.replace`, `str(n)`, `int(s)` and `os.path.basename`.
- `Channels`: the regular expression `(?<=lcd-info\.)\d(?=\.channel.name)` and the scans that use it.

Python exceptions are values of `Faults.Fault`, carried in a `Result`:

- `ValueError(message)`;
- `KeyError(key)`;
- `UnpackError(got)`, the tuple-unpacking ValueError of `key, value = line.split("=")`;
- `IndexError`;
- `NoMatch(key)`, the AttributeError of `.group()` on a failed `re.search`;
- `Unparsable(text)`, standing for the ValueError of `float(text)` and `int(text)`, the error `dateutil` raises on a date it cannot read, and the UnicodeDecodeError of a member that is not UTF-8.

Methods that run the source's loops and its state changes are proved equal to specification functions. The properties below are proved about those functions.

## Model

| member | source | states |
|---|---|---|
| Archive.Member | JPKay/core/data_structures.py:50-51 | a member is found exactly when its name is in the archive, and its bytes are those of the last entry with that name, as zipfile resolves a repeated name |
| Archive.OpenSpec | JPKay/core/data_structures.py:24-28 | opening succeeds exactly when `header.properties` reads and its `jpk-data-file` is `spm-forcefile`; a missing key is KeyError, any other value is ValueError("not a valid spm-forcefile!"); the contents are the listing |
| Archive.Open | JPKay/core/data_structures.py:24-28 | the constructor's steps give exactly the outcome of OpenSpec, and it succeeds only when the header reads |
| Archive.PropertyPathGuard | JPKay/core/data_structures.py:46-47 | a path whose basename does not end in `.properties` gives ValueError("this content path is not a property file") before the archive is read |
| Archive.DataPathGuard | JPKay/core/data_structures.py:79-80 | a path not ending in `.dat` gives ValueError("this content path is not a data file") before the archive is read |
| Text.Basename | JPKay/core/data_structures.py:46 | `os.path.basename`: a suffix of the path holding no `/`, and preceded by `/` unless it is the whole path |
| Text.BasenameEndsWith | JPKay/core/data_structures.py:46 | for an extension without `/`, testing the basename and testing the whole path agree |
| Text.Split | JPKay/core/data_structures.py:56 | `str.split(sep)`: one more part than there are separators, no part holds the separator, and joining the parts with it gives the string back |
| Archive.SplitLine | JPKay/core/data_structures.py:56 | unpacking `line.split("=")` succeeds exactly when the line holds one `=`; then key, `=` and value rebuild the line and neither part holds `=`; otherwise it is an unpack error quoting the number of parts |
| Archive.LinePairs | JPKay/core/data_structures.py:55-56 | every line splits exactly when each holds one `=`; the pairs are the lines' splits, in order; a failure is the failure of some line |
| Archive.FirstMalformedLine | JPKay/core/data_structures.py:55-56 | the first malformed line decides the error, whatever follows it |
| Archive.PropertiesOf | JPKay/core/data_structures.py:51-64 | parsing succeeds exactly when there is a first line, every later line holds one `=` and the date of the first line can be read; `timestamp` then holds the normalised date |
| Archive.Assemble | JPKay/core/data_structures.py:54-62 | the dictionary maps each key to its last line's value and `timestamp` to the date, overriding any line |
| Archive.PropertyKeysFromLines | JPKay/core/data_structures.py:55-57 | every key but `timestamp` comes from a line after the first |
| Archive.PropertiesOfValue | JPKay/core/data_structures.py:54-62 | the parsed mapping is the pairs of lines 1.. with `timestamp` set last |
| Archive.PairsLastWins | JPKay/core/data_structures.py:55-57 | a key gets the value of its last line |
| Archive.LaterBodyLineWins | JPKay/core/data_structures.py:55-57 | in the parsed file, a key other than `timestamp` holds the value of its last line among the body lines |
| Archive.LaterLineWins | JPKay/core/data_structures.py:55-57 | in the parsed file, a key other than `timestamp` holds the value of its last line in the content |
| Archive.FirstLineOnlyGivesTimestamp | JPKay/core/data_structures.py:55-62 | the first line is never parsed as a property: two first lines with the same date give the same outcome and the same dictionary |
| Archive.ReadPropertiesSpec | JPKay/core/data_structures.py:34-64 | a path whose basename is not a `.properties` file gives the ValueError, a missing member the KeyError; a read that succeeds names a member, and its dictionary holds `timestamp` |
| Archive.ReadProperties | JPKay/core/data_structures.py:34-64 | the guard, the member read and the parse give exactly ReadPropertiesSpec: ValueError for a wrong path, KeyError for a missing member, Unparsable for bytes that do not decode, otherwise the parse of the lines |
| Dicts.Put | JPKay/core/data_structures.py:57 | `d[k] = v`: the mapping afterwards is the old one with `k` set to `v` |
| Dicts.PutKeys | JPKay/core/data_structures.py:57 | an existing key keeps its place, a new key goes last |
| Archive.ParseBody | JPKay/core/data_structures.py:54-57 | the loop's dictionary is the assignments of the lines' pairs in order, or the first malformed line's error |
| Archive.ParseProperties | JPKay/core/data_structures.py:53-64 | the body loop plus the timestamp step equal PropertiesOf, including an empty content (IndexError) and an unreadable date |
| Archive.Unpack | JPKay/core/data_structures.py:89 | `unpack('!i', …)` of four bytes lies in [-2^31, 2^31) |
| Archive.PackUnpack | JPKay/core/data_structures.py:89 | every 32-bit value is decoded back from its big-endian encoding |
| Archive.UnpackPack | JPKay/core/data_structures.py:89 | every four bytes are the big-endian encoding of their decoded value |
| Archive.DecodeSamples | JPKay/core/data_structures.py:86-92 | there are `int(len(data)/4)` samples, each a signed 32-bit value |
| Archive.DecodeIgnoresTrailingBytes | JPKay/core/data_structures.py:88 | up to three bytes past the last whole word do not change the samples |
| Archive.DecodePrefix | JPKay/core/data_structures.py:88-89 | the samples of a word-aligned prefix are a prefix of the samples |
| Archive.DecodeEncode | JPKay/core/data_structures.py:86-92 | decoding the encoding of 32-bit samples gives them back |
| Archive.EncodeDecode | JPKay/core/data_structures.py:86-92 | a whole number of words is re-encoded to itself |
| Archive.ReadDataSpec | JPKay/core/data_structures.py:69-92 | reading succeeds exactly when the path is a `.dat` file and the member exists; otherwise the ValueError or the KeyError; the result has one sample per whole four bytes of the member |
| Archive.ReadData | JPKay/core/data_structures.py:69-92 | the decode loop gives the path guard, then KeyError for a missing member, then the decoded samples |
| ForceProperties.ReadFromFile | JPKay/core/data_structures.py:146 | `ForceArchive(file_path).read_properties(path)` succeeds exactly when the archive opens and the member reads, and then gives that member's dictionary |
| ForceProperties.ReadFile | JPKay/core/data_structures.py:146 | the open-then-read steps agree with ReadFromFile |
| Dicts.Merge | JPKay/core/data_structures.py:148 | `{**a, **b}`: the mapping of `a` overridden by `b`, with the keys of `a` first in their order |
| ForceProperties.LoadGeneralProps | JPKay/core/data_structures.py:136-148 | it succeeds exactly when both headers read; the shared header wins on common keys; the root header's keys keep their order first |
| ForceProperties.Properties.GetChannelNumbers | JPKay/core/data_structures.py:151-168 | the loop over the general items equals the channel scan from the four channels set to None |
| Channels.ChannelScan | JPKay/core/data_structures.py:158-168 | the four-channel scan fails only with the AttributeError of `.group()` (NoMatch), and keeps every channel it starts with |
| Channels.ChannelHitsFault | JPKay/core/data_structures.py:158-168 | the scan succeeds exactly when every item whose value names a channel has a key with the `lcd-info.<d>.channel.name` pattern; otherwise the first such item fails with NoMatch |
| Channels.ChannelScanKeys | JPKay/core/data_structures.py:158-168 | the scan keeps the four channel keys in their order |
| Channels.ChannelScanPerChannel | JPKay/core/data_structures.py:158-168 | each channel ends with the digit of the last item naming it, or None when no item names it |
| Channels.ChannelDigit | JPKay/core/data_structures.py:161 | `re.search(...).group()` is None exactly when the key has no `lcd-info.<d>.channel.name` match, and otherwise the digit of a match; the digit is an ASCII digit (see Left out) |
| Channels.ChannelDigitIsOneDigit | JPKay/core/data_structures.py:161 | a match is one decimal digit |
| Channels.ChannelDigitOfNameKey | JPKay/core/data_structures.py:161 | `lcd-info.<d>.channel.name` gives `<d>` |
| Channels.NoDigitWithoutPrefix | JPKay/core/data_structures.py:161 | a key without `lcd-info.` has no match |
| Channels.ChannelPrefix | JPKay/core/data_structures.py:181 | `"lcd-info.{}.".format(n)` starts with `lcd-info.`, ends with `.`, and holds the digit for a found channel |
| Channels.ChannelPrefixInjective | JPKay/core/data_structures.py:181 | different channel numbers give different prefixes |
| Dicts.Lookup | JPKay/core/data_structures.py:193 | `d[k]`: the value `k` maps to, or KeyError(k) when it is absent |
| ForceProperties.Factor | JPKay/core/data_structures.py:193 | `float(self.general[key])` succeeds exactly when the key is there and its text parses; otherwise KeyError, or `Unparsable(text)` for float's ValueError |
| ForceProperties.VDeflectionEntries | JPKay/core/data_structures.py:189-202 | the six vDeflection factors are read exactly when all six keys read, in the source's order under the source's names; otherwise the first failing read's error |
| ForceProperties.HeightEntries | JPKay/core/data_structures.py:204-210 | the four height factors likewise |
| ForceProperties.ExtractConversionFactors | JPKay/core/data_structures.py:171-212 | on success the result has the entries `vDeflection` and then `height` |
| ForceProperties.ConversionFactorEntries | JPKay/core/data_structures.py:181-210 | on success each channel's factors are read under that channel's own prefix |
| ForceProperties.ConversionFactorsFault | JPKay/core/data_structures.py:181-212 | an error comes from the vDeflection reads unless they all succeed, and then from the height reads |
| ForceProperties.SpecsOf | JPKay/core/data_structures.py:215-223 | no fault exactly when both channels are known and both unit keys are present, and then both units are stored; on a fault the units are unchanged or hold only the new vDeflection unit |
| ForceProperties.SpecsUnits | JPKay/core/data_structures.py:215-223 | from empty units, success sets exactly `vDeflection` and `height` |
| ForceProperties.Properties.ExtractSpecs | JPKay/core/data_structures.py:215-223 | the two assignments give SpecsOf's fault and new units |
| ForceProperties.SegmentCount | JPKay/core/data_structures.py:227 | `int(...)` of the count succeeds exactly when the key is there and the text is an integer; a negative count means no segments |
| ForceProperties.SegmentRecord | JPKay/core/data_structures.py:232-237 | a segment header gives a record exactly when its name key is present; the record has the converted name, and `name_jpk`, `name` and `segment_number` are set on top of the header |
| ForceProperties.SegmentRecordFields | JPKay/core/data_structures.py:235-237 | a record carries its own name, its segment number as text, and a `name_jpk` that converts to that name |
| ForceProperties.RecordNumber | JPKay/core/data_structures.py:229-237 | the record read from segment `i` has `segment_number` equal to `str(i)` |
| ForceProperties.SegmentEntriesAt | JPKay/core/data_structures.py:228-234 | the i-th entry read is segment i's record |
| ForceProperties.SegmentEntriesFault | JPKay/core/data_structures.py:228-234 | the segments are read exactly when every one reads; otherwise the first failing segment's error |
| ForceProperties.SegmentCatalog | JPKay/core/data_structures.py:225-239 | a count that cannot be read is the error; a catalogue holds at most one entry per announced segment |
| ForceProperties.CatalogUpTo | JPKay/core/data_structures.py:228-238 | the catalogue after n segments has at most n names |
| ForceProperties.CatalogFault | JPKay/core/data_structures.py:228-234 | the catalogue is built exactly when every segment reads; otherwise the first failing segment's error |
| ForceProperties.CatalogFaultStays | JPKay/core/data_structures.py:228-234 | once a segment fails, later segments do not change the error |
| ForceProperties.CatalogEntriesAreRecords | JPKay/core/data_structures.py:234 | every catalogue entry is the record of some segment under its converted name |
| ForceProperties.CatalogLaterSegmentWins | JPKay/core/data_structures.py:234 | where two segments convert to the same name, the later one is kept |
| ForceProperties.CatalogSegmentNumbersDiffer | JPKay/core/data_structures.py:234-237 | two different catalogue names have different segment numbers |
| ForceProperties.CellhesionSuffixStripped | JPKay/core/data_structures.py:232 | removing `-cellhesion200` from a name plus that suffix gives the name back, when the name does not contain it |
| Text.RemoveAll | JPKay/core/data_structures.py:232 | `replace(pattern, '')`: a text shorter than the pattern is unchanged, and a text that changes loses at least one whole occurrence |
| Text.RemoveAllAppended | JPKay/core/data_structures.py:232 | removing a border-free pattern from a text plus that pattern gives the text back, when the text does not contain it |
| Text.RemoveAllAbsent | JPKay/core/data_structures.py:232 | `replace` of a pattern that does not occur leaves the text unchanged |
| Text.NatToString | JPKay/core/data_structures.py:237 | `str(segment)`: a non-empty string of decimal digits |
| Text.DigitsValueOfNatToString | JPKay/core/data_structures.py:237 | the digits of `str(n)` have the value `n` |
| Text.NatToStringInjective | JPKay/core/data_structures.py:237 | different segment numbers give different `str(segment)` |
| Text.ParseInt | JPKay/core/data_structures.py:227 | `int(text)`: a string of ASCII digits gives its value, and `-` followed by digits gives the negated value |
| Text.ParseIntOfNatToString | JPKay/core/data_structures.py:227 | `int(str(n))` is `n` |
| ForceProperties.Properties.ConvertSegmentName | JPKay/core/data_structures.py:241-253 | `extend`, `pause-at-end` and `pause-at-start` become `approach`, `contact` and `pause`; every other name is kept; no result is one of the three vendor names |
| ForceProperties.Properties.ConvertSegmentNameIdempotent | JPKay/core/data_structures.py:241-253 | converting twice is converting once |
| ForceProperties.Properties.ExtractSegmentProps | JPKay/core/data_structures.py:225-239 | the segment loop equals the catalogue of the counted segments, or its first error |
| ForceProperties.Properties.ReadSegment | JPKay/core/data_structures.py:229-237 | one iteration's reads and assignments give that segment's record |
| ForceProperties.Properties.ReadHeaders | JPKay/core/data_structures.py:125-129 | the first three steps set general, segments and channel numbers to the header contents, or stop with their error |
| ForceProperties.Properties.Calibrate | JPKay/core/data_structures.py:132-134 | the factor and unit steps set the fields to the calibration, or stop with its error |
| ForceProperties.Properties.Create | JPKay/core/data_structures.py:119-134 | construction fails exactly when one of its steps fails, with that step's error; otherwise the fields are those Interpret describes |
| ForceProperties.Interpret | JPKay/core/data_structures.py:119-134 | a constructed object means both header files were read; its channel numbers have the four channel keys in order; its factors are `vDeflection` then `height`; its units are exactly `vDeflection` and `height` |
| ForceProperties.HeaderContentsChannels | JPKay/core/data_structures.py:129 | read headers give channel numbers with the four channel keys in order |
| ForceProperties.InterpretFactors | JPKay/core/data_structures.py:132 | a constructed object has the vDeflection and height factors, read under the prefixes of its found channels |
| Channels.LastChannelDigit | JPKay/data_io/property_reader.py:31-35 | the vDeflection scan fails only with the AttributeError of `.group()` (NoMatch) |
| Channels.LastChannelDigitFault | JPKay/data_io/property_reader.py:30-35 | the vDeflection scan succeeds exactly when every item valued `vDeflection` has a channel-name key; otherwise the first one that does not fails with NoMatch; with no such item the result is None |
| Channels.LastChannelDigitIsLastMatch | JPKay/data_io/property_reader.py:32-34 | the found number is the digit of the last item valued `vDeflection` |
| PropertyReader.Properties.GetVDeflectionChannelNumber | JPKay/data_io/property_reader.py:30-35 | the loop equals the last-match scan |
| PropertyReader.AgreesWithChannelScan | JPKay/data_io/property_reader.py:30-35 | where the newer four-channel scan succeeds, the legacy scan finds the same vDeflection number |
| PropertyReader.Filled | JPKay/data_io/property_reader.py:42-54 | the first k factor reads give their entries in table order, and stop at the first missing key with its error |
| PropertyReader.FilledStops | JPKay/data_io/property_reader.py:43-54 | after a missing key no later read changes the outcome |
| PropertyReader.FactorNamesDistinct | JPKay/data_io/property_reader.py:43-54 | the six factor names differ, so the inner dictionary has six entries |
| PropertyReader.FactorStringsMeaning | JPKay/data_io/property_reader.py:37-54 | no fault exactly when all six keys are present; each entry holds the text under its key; on a fault the entries stop before the first missing key, which is the KeyError |
| PropertyReader.Properties.ExtractConversionFactors | JPKay/data_io/property_reader.py:37-54 | the six assignments leave `vDeflection` mapped to the entries read, and report the first missing key |
| PropertyReader.Properties.ExtractSpecs | JPKay/data_io/property_reader.py:57-58 | the unit is stored under `vDeflection` exactly when the fixed `lcd-info.1` unit key is present; KeyError otherwise |
| PropertyReader.InterpretUnit | JPKay/data_io/property_reader.py:58 | the stored unit is the `lcd-info.1` one, whatever channel vDeflection was found on |
| PropertyReader.Properties.Calibrate | JPKay/data_io/property_reader.py:19-23 | the factor and unit steps, from empty dictionaries, give the calibration or its error |
| PropertyReader.Interpret | JPKay/data_io/property_reader.py:10-23 | construction fails only with NoMatch from the scan or KeyError from a lookup; the units hold `vDeflection` alone |
| PropertyReader.InterpretFactors | JPKay/data_io/property_reader.py:17-20 | a constructed object's channel number is the scan's result, and its only factor entry is `vDeflection` with the six texts under that channel's keys |
| PropertyReader.InterpretFault | JPKay/data_io/property_reader.py:17-23 | construction fails exactly when the scan fails, a factor key is missing, or the unit key is missing |
| PropertyReader.Properties.Create | JPKay/data_io/property_reader.py:10-23 | construction fails exactly when Interpret does, with its error; otherwise the fields are those Interpret describes |
| CurveFeatures.MinIndex | JPKay/processing/curve_features.py:17 | there is no index exactly when every value is NaN; otherwise the index is the first position of the smallest number |
| CurveFeatures.NanArgMin | JPKay/processing/curve_features.py:17 | `np.nanargmin` gives ValueError for an empty or all-NaN array, and otherwise the first minimum |
| CurveFeatures.FirstMinimumUnique | JPKay/processing/curve_features.py:17 | at most one position is the first minimum |
| CurveFeatures.NanArgMinIsTheArgMin | JPKay/processing/curve_features.py:17 | `nanargmin` succeeds exactly when some value is a number, and returns `i` exactly when `i` is the first minimum |
| CurveFeatures.GetGlobalMinimum | JPKay/processing/curve_features.py:6-18 | it succeeds exactly when `nanargmin` does and x is long enough; it then gives `x[i]`, and the y value at `i`, the first minimum; otherwise the argmin's error or IndexError |
| CurveFeatures.DeeperDipWins | tests/test_CurveFeatures.py:26-30 | a dip that is not the lowest point is never returned; the lowest point is |
| CurveFeatures.SmallExample | JPKay/processing/curve_features.py:17-18 | NaN is skipped and a tie goes to the earlier position |
| JPKayError.Str | JPKay/core/JPKayError.py:8-44 | each exception's text ends with its message |
| JPKayError.StrLead | JPKay/core/JPKayError.py:8-44 | each class's text opens with its own fixed words |
| JPKayError.StrTellsClassesApart | JPKay/core/JPKayError.py:8-44 | exceptions of different classes never have the same text |
| JPKayError.ForceFileErrorMessage | JPKay/core/JPKayError.py:23-24 | the ForceFileError message follows `ForceFile error: ` |
| JPKayError.DefaultMessages | JPKay/core/JPKayError.py:8-44 | the texts with the default empty message |

## Left out

- Zip handling is not modelled. An archive is a value listing its members' names and bytes; a missing member is KeyError, as `ZipFile.open` raises.
- Splitting a member into lines and UTF-8 decoding are not modelled. The `Host.decodeLines` parameter takes their place. Bytes it cannot decode give `Unparsable(path)`, standing for UnicodeDecodeError.
- Date normalisation with `dateutil` and `pytz` is not modelled. The `normalizeDate` parameter takes its place: it gives the formatted timestamp, or none where the parser raises.
- `float()` is not modelled. The `parseReal` parameter takes its place; where it gives none, the model gives `Unparsable(text)`, standing for float's ValueError. A failed `int()` of the segment count gives `Unparsable(text)` likewise.
- The `except IOError: print(...)` branches of `read_properties` and `read_data` are not modelled. They print a message and return None, which the model has no counterpart for.
- numpy arrays are sequences. `np.array(result)` of one-element tuples is the flat sequence of values. Factors are reals, not 0-d arrays.
- NaN is a separate case of the `Sample` datatype, and the other values are exact reals. Floating-point rounding and infinities are not modelled.
- The model takes a `Reader` function in place of `file_path`. `ForceProperties.FileReader` makes that function from an archive value, so each read is a fresh open followed by `read_properties`.
- The inner factor dictionaries are sequences of (name, value) pairs in the order of their assignments.
- The segment loop stores `segment_props` and then updates it through `props[normal_name]`. Since nothing else refers to that dictionary, the model builds the updated record as a value.
- `load_java_props` (property_reader.py:25-27) and the `pyjavaprops` parser are not part of the model. The legacy class takes the loaded dictionary. The library's behaviour on a missing key is not visible here: the model takes `java_props[key]` to raise KeyError, as a dict does, and this is unverified. If the library returned a default instead, the KeyError branches of `PropertyReader.InterpretFault` and `PropertyReader.FactorStringsMeaning` would not occur.
- `JPKay/processing/step_detection.py`, the plotting code and the test fixtures are not part of the model.
- JPKayError: the exception classes are modelled by their fields and their `__str__` text only, not as Python exception classes.
- Archive.Names: `ls()` and the `contents` attribute give the `ZipInfo` records of `infolist()`; the model keeps only each record's filename, so sizes, dates and the other record fields are not modelled.
- Channels.ChannelDigit: the pattern is a `str` pattern without `re.ASCII`, so Python's `\d` also matches the other Unicode decimal digits (category Nd); the model matches `0`-`9` only, taking header keys to be ASCII. A key with another decimal digit fails with NoMatch in the model where the source succeeds.
- Text.ParseInt: `int()` also accepts the other Unicode decimal digits and strips all Unicode whitespace; the model accepts `0`-`9`, `_` groups, a sign and ASCII whitespace only, taking the segment count to be ASCII.
- ForceProperties.SegmentCount: inherits the ASCII limit of `Text.ParseInt`; a count written with other Unicode digits or surrounded by non-ASCII whitespace gives `Unparsable` in the model where the source succeeds.
