/** The channel scan both header readers share: a header key such as
    `lcd-info.1.channel.name` whose value is a channel's name tells which
    `lcd-info.<n>` block describes that channel, and every calibration key of
    the channel is built from that block's prefix.

    Keys are matched with `re.search(r'(?<=lcd-info\.)\d(?=\.channel.name)', key)`;
    `MatchesAt` and `ChannelDigit` give that search in Dafny's terms. */
module Channels {
  import opened Faults
  import opened Text
  import opened Dicts

  const VDeflection := "vDeflection"
  const HDeflection := "hDeflection"
  const Height := "height"
  const CapacitiveSensorHeight := "capacitiveSensorHeight"

  const LcdInfo := "lcd-info."

  /** The pattern matches with its digit at position `p`: `lcd-info.` right
      before it, and `.channel`, one character other than a newline (the
      unescaped `.`) and `name` right after it. */
  predicate MatchesAt(key: string, p: int) {
    && 9 <= p && p + 14 <= |key|
    && key[p - 9..p] == LcdInfo
    && IsDigit(key[p])
    && key[p + 1..p + 9] == ".channel"
    && key[p + 9] != '\n'
    && key[p + 10..p + 14] == "name"
  }

  /** The leftmost match at or after `p`. */
  function SearchFrom(key: string, p: nat): (r: Option<nat>)
    ensures r.None? ==> forall q :: p <= q ==> !MatchesAt(key, q)
    ensures r.Some? ==> p <= r.value && MatchesAt(key, r.value)
    ensures r.Some? ==> forall q :: p <= q < r.value ==> !MatchesAt(key, q)
    decreases |key| - p
  {
    if |key| < p + 14 then None
    else if MatchesAt(key, p) then Some(p)
    else SearchFrom(key, p + 1)
  }

  /** `re.search(pattern, key).group()`: the digit of the leftmost match, or
      None where `re.search` finds nothing. */
  function ChannelDigit(key: string): (r: Option<string>)
    ensures r.None? <==> forall p :: !MatchesAt(key, p)
    ensures r.Some? ==> exists p :: MatchesAt(key, p) && r.value == [key[p]]
                                    && forall q :: q < p ==> !MatchesAt(key, q)
  {
    match SearchFrom(key, 0)
    case None => None
    case Some(p) => Some([key[p]])
  }

  /** The digit is all the search returns: one decimal digit. */
  lemma {:induction false} ChannelDigitIsOneDigit(key: string)
    requires ChannelDigit(key).Some?
    ensures |ChannelDigit(key).value| == 1 && IsDigit(ChannelDigit(key).value[0])
  {
    var p :| MatchesAt(key, p) && ChannelDigit(key).value == [key[p]]
             && forall q :: q < p ==> !MatchesAt(key, q);
  }

  /** The key of channel block `n` names its channel, and the search finds `n`. */
  lemma {:induction false} ChannelDigitOfNameKey(d: char)
    requires IsDigit(d)
    ensures ChannelDigit(LcdInfo + [d] + ".channel.name") == Some([d])
  {
    var key := LcdInfo + [d] + ".channel.name";
    assert MatchesAt(key, 9);
    forall q | q < 9 ensures !MatchesAt(key, q) { }
  }

  /** A key without the block prefix has no channel digit. */
  lemma {:induction false} NoDigitWithoutPrefix(key: string)
    requires forall i :: !OccursAt(key, LcdInfo, i)
    ensures ChannelDigit(key) == None
  {
    forall p ensures !MatchesAt(key, p) {
      if MatchesAt(key, p) {
        assert OccursAt(key, LcdInfo, p - 9);
      }
    }
  }

  /** `"{}".format(n)` for a channel number that may be None. */
  function Format(n: Option<string>): string {
    match n
    case None => "None"
    case Some(s) => s
  }

  /** `"lcd-info.{}.".format(n)`: the prefix of every key of channel block `n`. */
  function ChannelPrefix(n: Option<string>): (p: string)
    ensures StartsWith(p, LcdInfo) && EndsWith(p, ".")
    ensures n.Some? ==> p == LcdInfo + n.value + "."
  {
    LcdInfo + Format(n) + "."
  }

  /** Different channel numbers give different prefixes. */
  lemma {:induction false} ChannelPrefixInjective(m: string, n: string)
    requires ChannelPrefix(Some(m)) == ChannelPrefix(Some(n))
    ensures m == n
  {
    assert m == ChannelPrefix(Some(m))[9..|ChannelPrefix(Some(m))| - 1];
    assert n == ChannelPrefix(Some(n))[9..|ChannelPrefix(Some(n))| - 1];
  }

  /** The channel number the items leave for `name` when they are scanned in
      order, starting from `start`: every item whose value is `name` sets it
      to the digit of its key, and a key without one stops the scan. */
  function LastChannelDigit(items: seq<(string, string)>, name: string, start: Option<string>): (r: Result<Option<string>>)
    ensures r.Err? ==> r.error.NoMatch?
    decreases |items|
  {
    if |items| == 0 then Ok(start)
    else
      var n := |items| - 1;
      match LastChannelDigit(items[..n], name, start)
      case Err(e) => Err(e)
      case Ok(prev) =>
        if items[n].1 != name then Ok(prev)
        else
          match ChannelDigit(items[n].0)
          case None => Err(NoMatch(items[n].0))
          case Some(d) => Ok(Some(d))
  }

  /** The scan fails exactly when an item naming the channel has a key
      without the pattern, and then reports the first such key; with no item
      naming the channel it keeps its starting number. */
  lemma {:induction false} LastChannelDigitFault(items: seq<(string, string)>, name: string, start: Option<string>)
    ensures LastChannelDigit(items, name, start).Ok? <==>
              forall i :: 0 <= i < |items| && items[i].1 == name ==> ChannelDigit(items[i].0).Some?
    ensures LastChannelDigit(items, name, start).Err? ==>
              exists i :: && 0 <= i < |items| && items[i].1 == name && ChannelDigit(items[i].0).None?
                          && LastChannelDigit(items, name, start).error == NoMatch(items[i].0)
                          && forall j :: 0 <= j < i && items[j].1 == name ==> ChannelDigit(items[j].0).Some?
    ensures (forall i :: 0 <= i < |items| ==> items[i].1 != name) ==> LastChannelDigit(items, name, start) == Ok(start)
    decreases |items|
  {
    if |items| > 0 {
      var n := |items| - 1;
      LastChannelDigitFault(items[..n], name, start);
      assert forall i :: 0 <= i < n ==> items[..n][i] == items[i];
    }
  }

  /** The last item naming the channel decides its number. */
  lemma {:induction false} LastChannelDigitIsLastMatch(items: seq<(string, string)>, name: string,
                                                       start: Option<string>, i: nat)
    requires LastChannelDigit(items, name, start).Ok?
    requires i < |items| && items[i].1 == name
    requires forall j :: i < j < |items| ==> items[j].1 != name
    ensures LastChannelDigit(items, name, start).value == ChannelDigit(items[i].0)
    decreases |items|
  {
    var n := |items| - 1;
    if i < n {
      var init := items[..n];
      assert init[i] == items[i];
      assert forall j :: i < j < n ==> init[j] == items[j];
      assert LastChannelDigit(init, name, start).Ok?;
      LastChannelDigitIsLastMatch(init, name, start, i);
    }
  }

  /** The scan of one more item. */
  lemma {:induction false} LastDigitStep(items: seq<(string, string)>, name: string, start: Option<string>, i: nat)
    requires i < |items| && LastChannelDigit(items[..i], name, start).Ok?
    ensures items[i].1 != name ==> LastChannelDigit(items[..i + 1], name, start) == LastChannelDigit(items[..i], name, start)
    ensures items[i].1 == name && ChannelDigit(items[i].0).Some? ==>
              LastChannelDigit(items[..i + 1], name, start) == Ok(ChannelDigit(items[i].0))
  {
    assert items[..i + 1][..i] == items[..i];
  }

  /** An item naming the channel whose key has no digit, after a clean
      prefix, is the fault of the whole scan. */
  lemma {:induction false} LastDigitFaultStays(items: seq<(string, string)>, name: string,
                                               start: Option<string>, i: nat)
    requires i < |items| && LastChannelDigit(items[..i], name, start).Ok?
    requires items[i].1 == name && ChannelDigit(items[i].0).None?
    ensures LastChannelDigit(items, name, start) == Err(NoMatch(items[i].0))
    decreases |items|
  {
    var n := |items| - 1;
    if i < n {
      assert items[..n][..i] == items[..i];
      assert items[..n][i] == items[i];
      LastDigitFaultStays(items[..n], name, start, i);
    } else {
      assert items[..n] == items[..i];
    }
  }

  /** The assignments `channel_numbers[value] = re.search(...).group()` the
      scan of `items` makes, in order: one for each item whose value is one of
      `names`; the first such item whose key has no digit stops the scan. */
  function ChannelHits(items: seq<(string, string)>, names: seq<string>): (r: Result<seq<(string, Option<string>)>>)
    ensures r.Ok? ==> forall i :: 0 <= i < |r.value| ==> r.value[i].0 in names
    decreases |items|
  {
    if |items| == 0 then Ok([])
    else
      var n := |items| - 1;
      var prev :- ChannelHits(items[..n], names);
      if items[n].1 !in names then Ok(prev)
      else
        match ChannelDigit(items[n].0)
        case None => Err(NoMatch(items[n].0))
        case Some(d) => Ok(prev + [(items[n].1, Some(d))])
  }

  /** The scan of `get_channel_numbers`: `init` holds every channel name with
      None, and each item whose value is one of those names records the digit
      of its key. */
  function ChannelScan(items: seq<(string, string)>, init: Dict<Option<string>>): (r: Result<Dict<Option<string>>>)
    ensures r.Err? ==> r.error.NoMatch?
    ensures r.Ok? ==> ToMap(init).Keys <= ToMap(r.value).Keys
  {
    ChannelHitsNoMatch(items, Keys(init));
    var hits :- ChannelHits(items, Keys(init));
    Ok(PutAll(init, hits))
  }

  /** The only way the assignments fail is a failed match. */
  lemma {:induction false} ChannelHitsNoMatch(items: seq<(string, string)>, names: seq<string>)
    ensures ChannelHits(items, names).Err? ==> ChannelHits(items, names).error.NoMatch?
    decreases |items|
  {
    if |items| > 0 {
      ChannelHitsNoMatch(items[..|items| - 1], names);
    }
  }

  /** The scan fails exactly when an item naming a channel has a key without
      the pattern, and then reports the first such key. */
  lemma {:induction false} ChannelHitsFault(items: seq<(string, string)>, names: seq<string>)
    ensures ChannelHits(items, names).Ok? <==>
              forall i :: 0 <= i < |items| && items[i].1 in names ==> ChannelDigit(items[i].0).Some?
    ensures ChannelHits(items, names).Err? ==>
              exists i :: && 0 <= i < |items| && items[i].1 in names && ChannelDigit(items[i].0).None?
                          && ChannelHits(items, names).error == NoMatch(items[i].0)
                          && forall j :: 0 <= j < i && items[j].1 in names ==> ChannelDigit(items[j].0).Some?
    decreases |items|
  {
    if |items| > 0 {
      var n := |items| - 1;
      ChannelHitsFault(items[..n], names);
      assert forall i :: 0 <= i < n ==> items[..n][i] == items[i];
    }
  }

  /** The scan keeps the channels in their order. */
  lemma {:induction false} ChannelScanKeys(items: seq<(string, string)>, init: Dict<Option<string>>)
    requires ChannelScan(items, init).Ok?
    ensures Keys(ChannelScan(items, init).value) == Keys(init)
  {
    PutAllKnownKeys(init, ChannelHits(items, Keys(init)).value);
  }

  /** Each channel ends with the number its own scan gives: the digit of the
      last item naming it, or what it started with when none does. */
  lemma {:induction false} ChannelScanPerChannel(items: seq<(string, string)>, init: Dict<Option<string>>, name: string)
    requires ChannelScan(items, init).Ok? && name in ToMap(init)
    ensures name in ToMap(ChannelScan(items, init).value)
    ensures LastChannelDigit(items, name, ToMap(init)[name]) == Ok(ToMap(ChannelScan(items, init).value)[name])
  {
    InToMap(init, name);
    HitsPerChannel(items, Keys(init), name, ToMap(init)[name]);
  }

  /** The induction behind `ChannelScanPerChannel`, on the assignments alone. */
  lemma {:induction false} HitsPerChannel(items: seq<(string, string)>, names: seq<string>, name: string,
                                          start: Option<string>)
    requires ChannelHits(items, names).Ok? && name in names
    ensures LastChannelDigit(items, name, start)
            == Ok((map[name := start] + ToMap(ChannelHits(items, names).value))[name])
    decreases |items|
  {
    if |items| > 0 {
      var n := |items| - 1;
      var init, last := items[..n], items[n];
      assert ChannelHits(init, names).Ok?;
      var prev := ChannelHits(init, names).value;
      HitsPerChannel(init, names, name, start);
      if last.1 in names {
        var hit := (last.1, ChannelDigit(last.0));
        assert ChannelHits(items, names).value == prev + [hit];
        ToMapAppend(prev, hit.0, hit.1);
        assert map[name := start] + ToMap(prev + [hit]) == (map[name := start] + ToMap(prev))[hit.0 := hit.1];
      } else {
        assert ChannelHits(items, names).value == prev;
      }
    }
  }

  /** A key without the pattern in an item naming a channel, after a clean
      prefix, is the fault of the whole scan. */
  /** One more item of the scan: it is skipped, or it adds its assignment. */
  lemma {:induction false} ScanStep(items: seq<(string, string)>, names: seq<string>, i: nat,
                                    hits: seq<(string, Option<string>)>)
    requires i < |items| && ChannelHits(items[..i], names) == Ok(hits)
    ensures items[i].1 !in names ==> ChannelHits(items[..i + 1], names) == Ok(hits)
    ensures items[i].1 in names && ChannelDigit(items[i].0).Some? ==>
              ChannelHits(items[..i + 1], names) == Ok(hits + [(items[i].1, ChannelDigit(items[i].0))])
  {
    assert items[..i + 1][..i] == items[..i];
  }

  lemma {:induction false} ScanFaultStays(items: seq<(string, string)>, names: seq<string>, i: nat)
    requires i < |items| && ChannelHits(items[..i], names).Ok?
    requires items[i].1 in names && ChannelDigit(items[i].0).None?
    ensures ChannelHits(items, names) == Err(NoMatch(items[i].0))
    decreases |items|
  {
    var n := |items| - 1;
    if i < n {
      assert items[..n][..i] == items[..i];
      assert items[..n][i] == items[i];
      ScanFaultStays(items[..n], names, i);
    } else {
      assert items[..n] == items[..i];
    }
  }

  /** Four channels, each without a number until the scan finds one. */
  const InitialChannels: Dict<Option<string>> :=
    [(VDeflection, None), (HDeflection, None), (Height, None), (CapacitiveSensorHeight, None)]
}
