/** The older header reader: one `.properties` file, already loaded into a
    key/value map, from which it takes the vDeflection channel number, the
    six vDeflection calibration entries as they are written in the file, and
    the force unit. */
module PropertyReader {
  import opened Faults
  import opened Dicts
  import opened Channels
  import ForceProperties

  /** The key the force unit is read from, whichever channel vDeflection is. */
  const UnitKey := "lcd-info.1.conversion-set.conversion.force.scaling.unit.unit"

  /** The six entries and their key suffixes; they are the vDeflection
      entries of the newer reader. */
  const FactorKeys: seq<(string, string)> := ForceProperties.VDeflectionFactors

  /** How a key is read: `text(key)` is `java_props[key]`. */
  type TextReader = string -> Result<string>

  /** The text reader of a loaded map. */
  function TextsOf(props: Dict<string>): TextReader {
    key => Lookup(props, key)
  }

  /** `entries` holds the first entries of `FactorKeys`, in order, each with
      the text read from its key in the channel block with prefix `channel`. */
  predicate StoredPrefix(entries: seq<(string, string)>, text: TextReader, channel: string) {
    && |entries| <= |FactorKeys|
    && forall i :: 0 <= i < |entries| ==>
         && entries[i].0 == FactorKeys[i].0
         && text(channel + FactorKeys[i].1) == Ok(entries[i].1)
  }

  /** The entries of `conversion_factors["vDeflection"]` after the first `k`
      assignments of `extract_conversion_factors` were attempted, and the
      fault of the first key that could not be read, which stops the rest. */
  function Filled(text: TextReader, channel: string, k: nat): (r: (Option<Fault>, seq<(string, string)>))
    requires k <= |FactorKeys|
    ensures StoredPrefix(r.1, text, channel)
    ensures r.0.None? <==> |r.1| == k
    ensures r.0.Some? ==> && |r.1| < k
                          && text(channel + FactorKeys[|r.1|].1).Err?
                          && r.0.value == text(channel + FactorKeys[|r.1|].1).error
  {
    if k == 0 then (None, [])
    else
      var prev := Filled(text, channel, k - 1);
      if prev.0.Some? then prev
      else
        match text(channel + FactorKeys[k - 1].1)
        case Err(e) => (Some(e), prev.1)
        case Ok(v) => (None, prev.1 + [(FactorKeys[k - 1].0, v)])
  }

  /** Once a key could not be read, the later assignments are never made. */
  lemma {:induction false} FilledStops(text: TextReader, channel: string, k: nat, m: nat)
    requires k <= m <= |FactorKeys| && Filled(text, channel, k).0.Some?
    ensures Filled(text, channel, m) == Filled(text, channel, k)
    decreases m
  {
    if k < m {
      FilledStops(text, channel, k, m - 1);
    }
  }

  /** One more assignment, after the ones before it succeeded. */
  lemma {:induction false} FilledStep(text: TextReader, channel: string, k: nat, entries: seq<(string, string)>)
    requires k < |FactorKeys| && Filled(text, channel, k) == (None, entries)
    ensures text(channel + FactorKeys[k].1).Ok? ==>
              Filled(text, channel, k + 1) == (None, entries + [(FactorKeys[k].0, text(channel + FactorKeys[k].1).value)])
    ensures text(channel + FactorKeys[k].1).Err? ==>
              Filled(text, channel, |FactorKeys|) == (Some(text(channel + FactorKeys[k].1).error), entries)
  {
    if text(channel + FactorKeys[k].1).Err? {
      FilledStops(text, channel, k + 1, |FactorKeys|);
    }
  }

  /** What `extract_conversion_factors` leaves in `conversion_factors["vDeflection"]`,
      and the fault it raises, if any. */
  function FactorStrings(props: Dict<string>, channel: string): (Option<Fault>, seq<(string, string)>) {
    Filled(TextsOf(props), channel, |FactorKeys|)
  }

  /** The entry names differ, so the pair list is a dictionary. */
  lemma {:induction false} FactorNamesDistinct()
    ensures DistinctKeys(FactorKeys)
  {
    assert FactorKeys == ForceProperties.VDeflectionFactors;
    assert forall i, j :: 0 <= i < j < |FactorKeys| ==> FactorKeys[i].0 != FactorKeys[j].0 by {
      assert FactorKeys[0].0 == "raw multiplier";
      assert FactorKeys[1].0 == "raw offset";
      assert FactorKeys[2].0 == "distance multiplier";
      assert FactorKeys[3].0 == "distance offset";
      assert FactorKeys[4].0 == "force multiplier";
      assert FactorKeys[5].0 == "force offset";
    }
  }

  /** Reading the entries succeeds exactly when all six keys are there, each
      entry is then the text of its key, and otherwise the KeyError of the
      first missing key stops it with the entries before that key stored. */
  lemma {:induction false} FactorStringsMeaning(props: Dict<string>, channel: string)
    ensures var (fault, entries) := FactorStrings(props, channel);
            && (fault.None? <==> forall i :: 0 <= i < |FactorKeys| ==> channel + FactorKeys[i].1 in ToMap(props))
            && (forall i :: 0 <= i < |entries| ==>
                  channel + FactorKeys[i].1 in ToMap(props)
                  && entries[i] == (FactorKeys[i].0, ToMap(props)[channel + FactorKeys[i].1]))
            && (fault.Some? ==> && |entries| < |FactorKeys|
                                && channel + FactorKeys[|entries|].1 !in ToMap(props)
                                && fault.value == KeyError(channel + FactorKeys[|entries|].1))
  {
    var (fault, entries) := FactorStrings(props, channel);
    var text := TextsOf(props);
    assert forall key :: text(key) == Lookup(props, key);
    if fault.None? {
      forall i | 0 <= i < |FactorKeys| ensures channel + FactorKeys[i].1 in ToMap(props) {
        assert text(channel + FactorKeys[i].1) == Ok(entries[i].1);
      }
    }
  }

  /** The older reader's fields, as values. */
  datatype Legacy = Legacy(
    vDeflectionChannelNumber: Option<string>,
    conversionFactors: Dict<seq<(string, string)>>,
    units: Dict<string>)

  /** The last steps of `__init__`, once the channel number `n` is known:
      the factors into an empty dictionary, then the unit into another. */
  function Calibration(props: Dict<string>, n: Option<string>): Result<(Dict<seq<(string, string)>>, Dict<string>)> {
    var (fault, entries) := FactorStrings(props, ChannelPrefix(n));
    if fault.Some? then Err(fault.value)
    else if UnitKey !in ToMap(props) then Err(KeyError(UnitKey))
    else Ok((Put([], VDeflection, entries), Put([], VDeflection, ToMap(props)[UnitKey])))
  }

  /** What `Properties(file_path)` computes from the loaded map, step by step
      in the order of `__init__`. */
  function Interpret(props: Dict<string>): (r: Result<Legacy>)
    ensures r.Err? ==> r.error.NoMatch? || r.error.KeyError?
    ensures r.Ok? ==> Keys(r.value.units) == [VDeflection]
  {
    var n :- LastChannelDigit(props, VDeflection, None);
    var calibration :- Calibration(props, n);
    Ok(Legacy(n, calibration.0, calibration.1))
  }

  /** The factors hold one channel, vDeflection, with the six entries as
      written in the block of the channel number just computed. */
  lemma {:induction false} InterpretFactors(props: Dict<string>)
    requires Interpret(props).Ok?
    ensures var h := Interpret(props).value;
            && LastChannelDigit(props, VDeflection, None) == Ok(h.vDeflectionChannelNumber)
            && Keys(h.conversionFactors) == [VDeflection]
            && var entries := ToMap(h.conversionFactors)[VDeflection];
               && |entries| == 6
               && forall i :: 0 <= i < 6 ==>
                    var key := ChannelPrefix(h.vDeflectionChannelNumber) + FactorKeys[i].1;
                    key in ToMap(props) && entries[i] == (FactorKeys[i].0, ToMap(props)[key])
  {
    var h := Interpret(props).value;
    FactorStringsMeaning(props, ChannelPrefix(h.vDeflectionChannelNumber));
    PutKeys<seq<(string, string)>>([], VDeflection, FactorStrings(props, ChannelPrefix(h.vDeflectionChannelNumber)).1);
  }

  /** The unit is the text of the key of channel block 1, whatever channel
      number the scan found. */
  lemma {:induction false} InterpretUnit(props: Dict<string>)
    requires Interpret(props).Ok?
    ensures UnitKey in ToMap(props)
    ensures ToMap(Interpret(props).value.units) == map[VDeflection := ToMap(props)[UnitKey]]
  {
  }

  /** Construction fails exactly when the channel scan fails, a factor key of
      the channel is missing, or the unit key is missing. */
  lemma {:induction false} InterpretFault(props: Dict<string>)
    ensures Interpret(props).Err? <==>
              || LastChannelDigit(props, VDeflection, None).Err?
              || (exists i :: 0 <= i < |FactorKeys|
                    && ChannelPrefix(LastChannelDigit(props, VDeflection, None).value) + FactorKeys[i].1 !in ToMap(props))
              || UnitKey !in ToMap(props)
  {
    var n := LastChannelDigit(props, VDeflection, None);
    if n.Ok? {
      FactorStringsMeaning(props, ChannelPrefix(n.value));
    }
  }

  /** On a map the newer channel scan accepts, both readers find the same
      vDeflection channel. */
  lemma {:induction false} AgreesWithChannelScan(props: Dict<string>)
    requires ChannelScan(props, InitialChannels).Ok?
    ensures VDeflection in ToMap(ChannelScan(props, InitialChannels).value)
    ensures LastChannelDigit(props, VDeflection, None) == Ok(ToMap(ChannelScan(props, InitialChannels).value)[VDeflection])
  {
    ToMapLastWins(InitialChannels, 0);
    ChannelScanPerChannel(props, InitialChannels, VDeflection);
  }

  class Properties {
    /** The loaded JavaProperties, as their key/value map in file order. */
    const javaProps: Dict<string>

    var vDeflectionChannelNumber: Option<string>
    var conversionFactors: Dict<seq<(string, string)>>
    var units: Dict<string>

    constructor (javaProps: Dict<string>)
      ensures this.javaProps == javaProps
      ensures vDeflectionChannelNumber == None && conversionFactors == [] && units == []
    {
      this.javaProps := javaProps;
      vDeflectionChannelNumber := None;
      conversionFactors := [];
      units := [];
    }

    /** The fields as a value. */
    function Fields(): Legacy
      reads this
    {
      Legacy(vDeflectionChannelNumber, conversionFactors, units)
    }

    /** `get_vDeflection_channel_number`: every item whose value is
        vDeflection overwrites the number with the digit of its key. */
    method GetVDeflectionChannelNumber() returns (r: Result<Option<string>>)
      ensures r == LastChannelDigit(javaProps, VDeflection, None)
    {
      var channel: Option<string> := None;
      for i := 0 to |javaProps|
        invariant LastChannelDigit(javaProps[..i], VDeflection, None) == Ok(channel)
      {
        var (key, value) := javaProps[i];
        LastDigitStep(javaProps, VDeflection, None, i);
        if value == VDeflection {
          var digit := ChannelDigit(key);
          if digit.None? {
            LastDigitFaultStays(javaProps, VDeflection, None, i);
            return Err(NoMatch(key));
          }
          channel := digit;
        }
      }
      assert javaProps[..|javaProps|] == javaProps;
      return Ok(channel);
    }

    /** `extract_conversion_factors`: `conversion_factors["vDeflection"]` is
        set to an empty dictionary and the six entries are stored into it one
        by one; a missing key stops it with the entries stored so far. */
    method ExtractConversionFactors() returns (fault: Option<Fault>)
      modifies this`conversionFactors
      ensures fault == FactorStrings(javaProps, ChannelPrefix(vDeflectionChannelNumber)).0
      ensures conversionFactors
              == Put(old(conversionFactors), VDeflection, FactorStrings(javaProps, ChannelPrefix(vDeflectionChannelNumber)).1)
    {
      var channel := ChannelPrefix(vDeflectionChannelNumber);
      var before := conversionFactors;
      var entries: seq<(string, string)> := [];
      conversionFactors := Put(before, VDeflection, entries);
      fault, entries := StoreFactor(channel, 0, before, entries);
      if fault.Some? {
        return;
      }
      fault, entries := StoreFactor(channel, 1, before, entries);
      if fault.Some? {
        return;
      }
      fault, entries := StoreFactor(channel, 2, before, entries);
      if fault.Some? {
        return;
      }
      fault, entries := StoreFactor(channel, 3, before, entries);
      if fault.Some? {
        return;
      }
      fault, entries := StoreFactor(channel, 4, before, entries);
      if fault.Some? {
        return;
      }
      fault, entries := StoreFactor(channel, 5, before, entries);
      if fault.Some? {
        return;
      }
    }

    /** `conversion_factors["vDeflection"][name] = java_props[key]` for entry
        `i`, on the dictionary that holds the entries stored so far. */
    method StoreFactor(channel: string, i: nat, before: Dict<seq<(string, string)>>, entries: seq<(string, string)>)
      returns (fault: Option<Fault>, stored: seq<(string, string)>)
      requires i < |FactorKeys| && Filled(TextsOf(javaProps), channel, i) == (None, entries)
      requires conversionFactors == Put(before, VDeflection, entries)
      modifies this`conversionFactors
      ensures fault.None? ==> Filled(TextsOf(javaProps), channel, i + 1) == (None, stored)
      ensures fault.Some? ==> Filled(TextsOf(javaProps), channel, |FactorKeys|) == (fault, stored)
      ensures conversionFactors == Put(before, VDeflection, stored)
    {
      var value := Lookup(javaProps, channel + FactorKeys[i].1);
      FilledStep(TextsOf(javaProps), channel, i, entries);
      if value.Err? {
        return Some(value.error), entries;
      }
      stored := entries + [(FactorKeys[i].0, value.value)];
      conversionFactors := Put(before, VDeflection, stored);
      return None, stored;
    }

    /** `extract_specs`: the vDeflection unit, always from the key of channel
        block 1; a missing key leaves the units as they were. */
    method ExtractSpecs() returns (fault: Option<Fault>)
      modifies this`units
      ensures fault == if UnitKey in ToMap(javaProps) then None else Some(KeyError(UnitKey))
      ensures units == if fault.None? then Put(old(units), VDeflection, ToMap(javaProps)[UnitKey]) else old(units)
    {
      var unit := Lookup(javaProps, UnitKey);
      if unit.Err? {
        return Some(unit.error);
      }
      units := Put(units, VDeflection, unit.value);
      return None;
    }

    /** Lines 19-23 of `__init__`: the factors, stored into an empty
        dictionary, then the unit, stored into another. */
    method Calibrate() returns (fault: Option<Fault>)
      modifies this`conversionFactors, this`units
      ensures fault == if Calibration(javaProps, vDeflectionChannelNumber).Err?
                       then Some(Calibration(javaProps, vDeflectionChannelNumber).error) else None
      ensures fault.None? ==> (conversionFactors, units) == Calibration(javaProps, vDeflectionChannelNumber).value
    {
      conversionFactors := [];
      fault := ExtractConversionFactors();
      if fault.Some? {
        return;
      }
      units := [];
      fault := ExtractSpecs();
    }

    /** `Properties(file_path)` on the loaded map: the channel number, then
        the factors from that channel's block, then the unit; the first step
        that fails is the fault of the construction. */
    static method Create(javaProps: Dict<string>) returns (r: Result<Properties>)
      ensures r.Err? <==> Interpret(javaProps).Err?
      ensures r.Err? ==> r.error == Interpret(javaProps).error
      ensures r.Ok? ==> fresh(r.value) && r.value.javaProps == javaProps
                        && r.value.Fields() == Interpret(javaProps).value
    {
      var p := new Properties(javaProps);
      var number := p.GetVDeflectionChannelNumber();
      if number.Err? {
        return Err(number.error);
      }
      p.vDeflectionChannelNumber := number.value;
      var fault := p.Calibrate();
      if fault.Some? {
        return Err(fault.value);
      }
      return Ok(p);
    }
  }
}
