/** The yearly inspection schedule: one entry on the first day of every
    inspection month, stepping from January by the pit type's cadence. */
module InspectionSchedule {
  import opened EarthpitTables

  /** A calendar date; the calculator renders it as "YYYY-MM-DD". */
  datatype Date = Date(year: int, month: int, day: int)

  /** One scheduled inspection: its date and the activities to carry out. */
  datatype Inspection = Inspection(date: Date, activities: seq<string>)

  /** Months between inspections. Each cadence divides the year evenly. */
  function InspectionFrequency(p: PitType): (f: nat)
    ensures f > 0 && 12 % f == 0
    ensures 12 / f == (match p case Regular => 4 case Chemical => 2 case MaintenanceFree => 1)
  {
    if p == Regular then 3
    else if p == Chemical then 6
    else 12
  }

  /** The activities of every inspection: three base checks, the moisture and
      salt/coal checks for a regular pit, the chemical compound check for a
      chemical pit. */
  function Activities(p: PitType): (a: seq<string>)
    ensures |a| == (match p case Regular => 5 case Chemical => 4 case MaintenanceFree => 3)
    ensures a[..3] == ["Visual Inspection", "Resistance Measurement", "Connection Check"]
    ensures p == Regular ==> a[3..] == ["Moisture Check", "Salt/Coal Level Check"]
    ensures p == Chemical ==> a[3..] == ["Chemical Compound Check"]
    ensures "Moisture Check" in a <==> p == Regular
    ensures "Salt/Coal Level Check" in a <==> p == Regular
    ensures "Chemical Compound Check" in a <==> p == Chemical
  {
    var base := ["Visual Inspection", "Resistance Measurement", "Connection Check"];
    var regular := if p == Regular then ["Moisture Check", "Salt/Coal Level Check"] else [];
    var chemical := if p == Chemical then ["Chemical Compound Check"] else [];
    assert (base + regular + chemical)[..3] == base;
    base + regular + chemical
  }

  /** Builds the schedule for the given year by walking the months
      1, 1 + f, 1 + 2f, ... below 13, f being the pit type's cadence. */
  method BuildSchedule(p: PitType, year: int) returns (schedule: seq<Inspection>)
    ensures |schedule| * InspectionFrequency(p) == 12
    ensures p == Regular ==> |schedule| == 4
    ensures p == Chemical ==> |schedule| == 2
    ensures p == MaintenanceFree ==> |schedule| == 1
    ensures forall k :: 0 <= k < |schedule| ==>
      schedule[k].date == Date(year, 1 + k * InspectionFrequency(p), 1)
    ensures forall k :: 0 <= k < |schedule| ==> 1 <= schedule[k].date.month <= 12
    ensures forall j, k :: 0 <= j < k < |schedule| ==> schedule[j].date.month < schedule[k].date.month
    ensures forall k :: 0 <= k < |schedule| ==> schedule[k].activities == Activities(p)
  {
    var frequency := InspectionFrequency(p);
    var count := 12 / frequency;
    schedule := [];
    var month := 1;
    while month < 13
      invariant 0 <= |schedule| <= count
      invariant month == 1 + |schedule| * frequency
      invariant |schedule| < count ==> month < 13
      invariant |schedule| == count ==> month == 13
      invariant forall k :: 0 <= k < |schedule| ==> schedule[k] == Inspection(Date(year, 1 + k * frequency, 1), Activities(p))
      invariant forall k :: 0 <= k < |schedule| ==> 1 <= schedule[k].date.month <= 12
      invariant forall j, k :: 0 <= j < k < |schedule| ==> schedule[j].date.month < schedule[k].date.month
      decreases 13 - month
    {
      schedule := schedule + [Inspection(Date(year, month, 1), Activities(p))];
      month := month + frequency;
    }
  }
}
