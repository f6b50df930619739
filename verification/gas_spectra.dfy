/**
 The gas-spectrum player: a static table of named colour sequences, looked up
 by exact (case-sensitive) name with the first match winning, and played back
 colour by colour through `setColour`. The fixed dwell between colours is a
 busy-wait and is not modelled; the player's observable output is the list of
 colours it hands to `setColour`, in order.
 */
module GasSpectra {
  import opened Wrappers
  import opened Colours
  import Pwm

  /** Capacity of the `colours` array of a table entry. */
  const CAPACITY: nat := 12

  /**
   One table entry. `colours` holds the listed colours (the rest of the C array
   is left empty); `numColours` is the stored count.
   */
  datatype GasSpectrum = GasSpectrum(name: string, colours: seq<Colour>, numColours: int)

  /** The stored count never reaches past the listed colours, which fit the array. */
  predicate WellFormed(e: GasSpectrum) {
    |e.colours| <= CAPACITY && e.numColours <= |e.colours|
  }

  const GasSpectraTable: seq<GasSpectrum> := [
    GasSpectrum("Hydrogen", [Purple, NBlue, Cyan, NRed], 4),
    GasSpectrum("Helium", [Purple, NBlue, LightBlue, Cyan, Turquoise, NGreen, Yellow, Orange, NRed], 9),
    GasSpectrum("Nitrogen", [Purple, Turquoise, NGreen, LimeGreen, Yellow, Orange, NRed], 7)
  ]

  /** The colours an entry's playback loop visits: its first `numColours` listed colours. */
  function Emitted(e: GasSpectrum): (cs: seq<Colour>)
    requires WellFormed(e)
    ensures |cs| == if e.numColours <= 0 then 0 else e.numColours
    ensures forall j :: 0 <= j < |cs| ==> cs[j] == e.colours[j]
  {
    if e.numColours <= 0 then [] else e.colours[..e.numColours]
  }

  /** Index of the first entry at or after `from` whose name is exactly `name`. */
  function FirstMatchFrom(table: seq<GasSpectrum>, name: string, from: nat): (r: Option<nat>)
    requires from <= |table|
    ensures r.Some? ==> from <= r.value < |table| && table[r.value].name == name
    ensures r.Some? ==> forall j :: from <= j < r.value ==> table[j].name != name
    ensures r.None? ==> forall j :: from <= j < |table| ==> table[j].name != name
    decreases |table| - from
  {
    if from == |table| then None
    else if table[from].name == name then Some(from)
    else FirstMatchFrom(table, name, from + 1)
  }

  /** Index of the first entry named exactly `name`, if any. */
  function FirstMatch(table: seq<GasSpectrum>, name: string): (r: Option<nat>)
    ensures r.Some? ==> r.value < |table| && table[r.value].name == name
    ensures r.Some? ==> forall j :: 0 <= j < r.value ==> table[j].name != name
    ensures r.None? <==> forall j :: 0 <= j < |table| ==> table[j].name != name
  {
    FirstMatchFrom(table, name, 0)
  }

  /** Reference playback: the first matching entry's colours, or nothing at all. */
  function Spectrum(table: seq<GasSpectrum>, name: string): (cs: seq<Colour>)
    requires forall i :: 0 <= i < |table| ==> WellFormed(table[i])
    ensures (forall i :: 0 <= i < |table| ==> table[i].name != name) ==> cs == []
    ensures forall i :: 0 <= i < |table| && table[i].name == name && (forall j :: 0 <= j < i ==> table[j].name != name)
                        ==> WellFormed(table[i]) && cs == Emitted(table[i])
  {
    match FirstMatch(table, name)
    case None => []
    case Some(i) => Emitted(table[i])
  }

  /**
   `displayGasSpectrum`, as its two loops: scan the table, and on the first
   name match hand that entry's colours to `setColour` in order, then stop.
   */
  method DisplayGasSpectrum(table: seq<GasSpectrum>, gasName: string) returns (calls: seq<Colour>)
    requires forall i :: 0 <= i < |table| ==> WellFormed(table[i])
    ensures calls == Spectrum(table, gasName)
    ensures (forall i :: 0 <= i < |table| ==> table[i].name != gasName) ==> calls == []
  {
    calls := [];
    var i := 0;
    while i < |table|
      invariant 0 <= i <= |table|
      invariant forall j :: 0 <= j < i ==> table[j].name != gasName
      invariant calls == []
    {
      if table[i].name == gasName {
        var e := table[i];
        var j := 0;
        while j < e.numColours
          invariant 0 <= j <= |e.colours|
          invariant j <= e.numColours || j == 0
          invariant calls == e.colours[..j]
        {
          calls := calls + [e.colours[j]];
          j := j + 1;
        }
        assert calls == Emitted(e);
        assert FirstMatch(table, gasName) == Some(i);
        return;
      }
      i := i + 1;
    }
  }

  /** Apply `setColour` for each colour in turn. */
  function Play(s: Pwm.Rgb, calls: seq<Colour>): (r: Pwm.Rgb)
    ensures calls == [] ==> r == s
    ensures Pwm.SameExceptDuty(s, r)
    decreases |calls|
  {
    if calls == [] then s else Play(SetColour(s, calls[0]), calls[1..])
  }

  /** After a non-empty playback the renderer shows its last colour; nothing but the duty targets changed. */
  lemma {:induction false} PlayEndsOnLast(s: Pwm.Rgb, calls: seq<Colour>)
    ensures calls != [] ==> Shows(Play(s, calls), calls[|calls| - 1])
    ensures Pwm.SameExceptDuty(s, Play(s, calls))
    decreases |calls|
  {
    if calls != [] {
      PlayEndsOnLast(SetColour(s, calls[0]), calls[1..]);
    }
  }

  /** Every shipped entry counts exactly its listed colours, within the array capacity. */
  lemma TableWellFormed()
    ensures forall i :: 0 <= i < |GasSpectraTable| ==> WellFormed(GasSpectraTable[i])
    ensures forall i :: 0 <= i < |GasSpectraTable| ==>
      GasSpectraTable[i].numColours == |GasSpectraTable[i].colours| <= CAPACITY
  {
  }

  /** The shipped spectra, as played. */
  lemma ShippedSpectra()
    ensures Spectrum(GasSpectraTable, "Hydrogen") == [Purple, NBlue, Cyan, NRed]
    ensures |Spectrum(GasSpectraTable, "Helium")| == 9
    ensures |Spectrum(GasSpectraTable, "Nitrogen")| == 7
    ensures Spectrum(GasSpectraTable, "Xenon") == []
    ensures Spectrum(GasSpectraTable, "hydrogen") == []
  {
    TableWellFormed();
    assert GasSpectraTable[0].name == "Hydrogen";
    assert GasSpectraTable[1].name == "Helium";
    assert GasSpectraTable[2].name == "Nitrogen";
    assert "Helium" != "Hydrogen";
    assert "Nitrogen" != "Hydrogen" && "Nitrogen" != "Helium";
  }

  /** Every shipped spectrum ends on pure red, so any successful playback leaves the indicator red. */
  lemma ShippedPlaybackEndsRed(s: Pwm.Rgb, name: string)
    requires Spectrum(GasSpectraTable, name) != []
    ensures Shows(Play(s, Spectrum(GasSpectraTable, name)), NRed)
  {
    TableWellFormed();
    var calls := Spectrum(GasSpectraTable, name);
    PlayEndsOnLast(s, calls);
    var i := FirstMatch(GasSpectraTable, name).value;
    assert calls == GasSpectraTable[i].colours;
  }

}
